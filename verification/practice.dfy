/** The practice page, present in two copies with the same logic
    (src/app/practice/page.tsx and app/practice/page.tsx): a camera preview,
    a recorder that collects the media chunks it is handed, a one-second
    timer shown as MM:SS, and toggles for the camera and microphone tracks.
    The browser's media devices are the environment: what `getUserMedia`
    granted, which types `MediaRecorder.isTypeSupported` accepts, whether
    the recorder could be created, and each chunk and timer firing, are
    parameters and calls. */
module PracticePage {
  import opened Common
  import opened Text

  // -------------------------------------------------------------------------
  // formatTime
  // -------------------------------------------------------------------------

  /** `formatTime(seconds)`: whole minutes and remaining seconds, each
      zero-padded to two digits, joined by `:`. */
  function FormatTime(seconds: nat): string
  {
    PadStart2(NatToString(seconds / 60)) + ":" + PadStart2(NatToString(seconds % 60))
  }

  /** Reading a clock back: the minutes before the `:`, the seconds after. */
  function ParseTime(s: string): Option<nat>
  {
    match IndexOf(s, ':')
    case None => None
    case Some(i) =>
      if AllDigits(s[..i]) && AllDigits(s[i + 1..]) then Some(ParseNat(s[..i]) * 60 + ParseNat(s[i + 1..]))
      else None
  }

  /** Padding a rendered number keeps it a numeral of the same value. */
  lemma PaddedNumeral(n: nat)
    ensures AllDigits(PadStart2(NatToString(n))) && ParseNat(PadStart2(NatToString(n))) == ParseNat(NatToString(n))
  {
    var s := NatToString(n);
    if |s| < 2 {
      assert PadStart2(s) == "0" + s by {
        assert PadStart2(s)[0] == '0';
        assert PadStart2(s)[1..] == s;
      }
      ParseNatLeadingZero(s);
    }
  }

  /** The clock loses nothing: reading it back gives the number of seconds,
      whatever it is. */
  lemma FormatTimeRoundTrip(seconds: nat)
    ensures ParseTime(FormatTime(seconds)) == Some(seconds)
  {
    PaddedNumeral(seconds / 60);
    PaddedNumeral(seconds % 60);
    ParseNatToString(seconds / 60);
    ParseNatToString(seconds % 60);
    ParseClock(PadStart2(NatToString(seconds / 60)), PadStart2(NatToString(seconds % 60)));
  }

  /** Two numerals around a colon read back as minutes and seconds. */
  lemma ParseClock(mins: string, secs: string)
    requires AllDigits(mins) && AllDigits(secs)
    ensures ParseTime(mins + ":" + secs) == Some(ParseNat(mins) * 60 + ParseNat(secs))
  {
    var s := mins + ":" + secs;
    var i := |mins|;
    assert s[..i] == mins;
    assert s[i + 1..] == secs;
    assert forall k :: 0 <= k < i ==> s[k] != ':' by {
      forall k | 0 <= k < i ensures s[k] != ':' {
        assert s[k] == mins[k] && IsDigit(mins[k]);
      }
    }
    ParseTimeAt(s, i, mins, secs);
  }

  /** The first colon splits the clock. */
  lemma ParseTimeAt(s: string, i: nat, before: string, after: string)
    requires i < |s| && s[i] == ':' && (forall k :: 0 <= k < i ==> s[k] != ':')
    requires s[..i] == before && s[i + 1..] == after && AllDigits(before) && AllDigits(after)
    ensures ParseTime(s) == Some(ParseNat(before) * 60 + ParseNat(after))
  {
    assert IndexOf(s, ':') == Some(i);
  }

  /** Under 100 minutes the clock is exactly `MM:SS`: five characters, two
      digits, a colon, two digits, and seconds never above 59. */
  lemma FormatTimeShape(seconds: nat)
    requires seconds < 6000
    ensures var s := FormatTime(seconds);
      && |s| == 5 && s[2] == ':'
      && AllDigits(s[..2]) && AllDigits(s[3..])
      && ParseNat(s[3..]) < 60
  {
    NatToStringLength(seconds / 60);
    NatToStringLength(seconds % 60);
    PaddedNumeral(seconds / 60);
    PaddedNumeral(seconds % 60);
    ParseNatToString(seconds % 60);
    var s := FormatTime(seconds);
    var secs := PadStart2(NatToString(seconds % 60));
    assert s[3..] == secs;
    assert s[..2] == PadStart2(NatToString(seconds / 60));
  }

  // -------------------------------------------------------------------------
  // The recording format
  // -------------------------------------------------------------------------

  const VP8_OPUS: string := "video/webm;codecs=vp8,opus"
  const VP9_OPUS: string := "video/webm;codecs=vp9,opus"
  const WEBM: string := "video/webm"

  /** The recorder's type: vp8/opus when supported, else vp9/opus when
      supported, else plain webm. */
  function ChooseMimeType(isTypeSupported: string -> bool): (mimeType: string)
    ensures mimeType == VP8_OPUS <==> isTypeSupported(VP8_OPUS)
    ensures mimeType == VP9_OPUS <==> !isTypeSupported(VP8_OPUS) && isTypeSupported(VP9_OPUS)
    ensures mimeType == WEBM <==> !isTypeSupported(VP8_OPUS) && !isTypeSupported(VP9_OPUS)
    ensures mimeType != WEBM ==> isTypeSupported(mimeType)
  {
    assert VP8_OPUS[20] != VP9_OPUS[20];
    assert |WEBM| != |VP8_OPUS| == |VP9_OPUS|;
    var first := if isTypeSupported(VP8_OPUS) then VP8_OPUS else VP9_OPUS;
    if isTypeSupported(first) then first else WEBM
  }

  // -------------------------------------------------------------------------
  // The page's media state
  // -------------------------------------------------------------------------

  /** The granted stream, by the `enabled` flag of its first video and
      first audio track (None when it has no such track). */
  datatype MediaStream = MediaStream(video: Option<bool>, audio: Option<bool>)

  datatype RecorderState = Inactive | Recording | Paused

  datatype Recorder = Recorder(mimeType: string, state: RecorderState)

  /** What `onstop` makes into the playback URL: the chunks collected, and
      the type they were recorded in. */
  datatype RecordedVideo = RecordedVideo(chunks: seq<nat>, mimeType: string)

  const CAMERA_ERROR: string := "Unable to access camera/microphone. Please grant permissions."

  class PracticeSession {
    /** `streamRef.current`. */
    var stream: Option<MediaStream>
    var cameraStarted: bool
    var hasCamera: bool
    var cameraError: Option<string>
    var isCameraOn: bool
    var isMicOn: bool
    /** `mediaRecorderRef.current`. */
    var recorder: Option<Recorder>
    /** `chunksRef.current`, each chunk by its size. */
    var chunks: seq<nat>
    var isRecording: bool
    var timer: nat
    /** How many times the recorder's `stop()` has been called. */
    var stopCalls: nat
    /** The recording behind `recordedVideoUrl`. */
    var recorded: Option<RecordedVideo>

    /** Only non-empty chunks are ever kept, and the page records only with a
        stream and a recorder. */
    predicate Valid()
      reads this
    {
      && (forall i :: 0 <= i < |chunks| ==> chunks[i] > 0)
      && (isRecording ==> stream.Some? && recorder.Some?)
    }

    constructor ()
      ensures Valid()
      ensures stream == None && recorder == None && chunks == [] && recorded == None
      ensures !isRecording && timer == 0 && stopCalls == 0
      ensures !cameraStarted && !hasCamera && cameraError == None && isCameraOn && isMicOn
    {
      stream, cameraStarted, hasCamera, cameraError := None, false, false, None;
      isCameraOn, isMicOn := true, true;
      recorder, chunks, isRecording, timer, stopCalls, recorded := None, [], false, 0, 0, None;
    }

    /** `handleStartCamera`, given what `getUserMedia` granted (None when it
        was refused): a granted stream is kept and the camera marked
        started; a refusal records the error and marks the camera missing. */
    method StartCamera(granted: Option<MediaStream>)
      requires Valid()
      modifies this
      ensures Valid()
      ensures granted.Some? ==> stream == granted && cameraStarted && hasCamera && cameraError == None
      ensures granted.None? ==>
        && stream == old(stream) && cameraStarted == old(cameraStarted)
        && !hasCamera && cameraError == Some(CAMERA_ERROR)
      ensures isCameraOn == old(isCameraOn) && isMicOn == old(isMicOn)
      ensures recorder == old(recorder) && chunks == old(chunks) && isRecording == old(isRecording)
      ensures timer == old(timer) && stopCalls == old(stopCalls) && recorded == old(recorded)
    {
      if granted.Some? {
        stream := granted;
        cameraStarted, hasCamera, cameraError := true, true, None;
      } else {
        cameraError := Some(CAMERA_ERROR);
        hasCamera := false;
      }
    }

    /** `toggleCamera`: the first video track's flag flips and the page
        mirrors it; without a stream or a video track nothing changes. */
    method ToggleCamera()
      requires Valid()
      modifies this
      ensures Valid()
      ensures old(stream).Some? && old(stream).value.video.Some? ==>
        var enabled := !old(stream).value.video.value;
        stream == Some(old(stream).value.(video := Some(enabled))) && isCameraOn == enabled
      ensures !(old(stream).Some? && old(stream).value.video.Some?) ==> stream == old(stream) && isCameraOn == old(isCameraOn)
      ensures isMicOn == old(isMicOn) && cameraStarted == old(cameraStarted) && hasCamera == old(hasCamera)
      ensures cameraError == old(cameraError) && recorder == old(recorder) && chunks == old(chunks)
      ensures isRecording == old(isRecording) && timer == old(timer) && stopCalls == old(stopCalls)
      ensures recorded == old(recorded)
    {
      if stream.Some? && stream.value.video.Some? {
        var enabled := !stream.value.video.value;
        stream := Some(stream.value.(video := Some(enabled)));
        isCameraOn := enabled;
      }
    }

    /** `toggleMic`: the same for the first audio track. */
    method ToggleMic()
      requires Valid()
      modifies this
      ensures Valid()
      ensures old(stream).Some? && old(stream).value.audio.Some? ==>
        var enabled := !old(stream).value.audio.value;
        stream == Some(old(stream).value.(audio := Some(enabled))) && isMicOn == enabled
      ensures !(old(stream).Some? && old(stream).value.audio.Some?) ==> stream == old(stream) && isMicOn == old(isMicOn)
      ensures isCameraOn == old(isCameraOn) && cameraStarted == old(cameraStarted) && hasCamera == old(hasCamera)
      ensures cameraError == old(cameraError) && recorder == old(recorder) && chunks == old(chunks)
      ensures isRecording == old(isRecording) && timer == old(timer) && stopCalls == old(stopCalls)
      ensures recorded == old(recorded)
    {
      if stream.Some? && stream.value.audio.Some? {
        var enabled := !stream.value.audio.value;
        stream := Some(stream.value.(audio := Some(enabled)));
        isMicOn := enabled;
      }
    }

    /** `handleStartRecording`. Without a stream, or when `new MediaRecorder`
        throws, nothing changes. Once the recorder exists, the chunks
        collected so far are dropped and it becomes the page's recorder; when
        its `start(1000)` then throws, it stays there inactive while
        recording and the timer are left as they were. Otherwise it records,
        recording is on and the timer is back at 0. */
    method StartRecording(isTypeSupported: string -> bool, created: bool, started: bool)
      requires Valid()
      modifies this
      ensures Valid()
      ensures old(stream).None? || !created ==>
        recorder == old(recorder) && chunks == old(chunks) && isRecording == old(isRecording) && timer == old(timer)
      ensures old(stream).Some? && created ==>
        && chunks == []
        && recorder == Some(Recorder(ChooseMimeType(isTypeSupported), if started then Recording else Inactive))
      ensures old(stream).Some? && created && started ==> isRecording && timer == 0
      ensures old(stream).Some? && created && !started ==> isRecording == old(isRecording) && timer == old(timer)
      ensures stream == old(stream) && stopCalls == old(stopCalls) && recorded == old(recorded)
      ensures cameraStarted == old(cameraStarted) && hasCamera == old(hasCamera) && cameraError == old(cameraError)
      ensures isCameraOn == old(isCameraOn) && isMicOn == old(isMicOn)
    {
      if stream.None? || !created {
        return;
      }
      var mimeType := ChooseMimeType(isTypeSupported);
      chunks := [];
      if !started {
        recorder := Some(Recorder(mimeType, Inactive));
        return;
      }
      recorder := Some(Recorder(mimeType, Recording));
      isRecording := true;
      timer := 0;
    }

    /** `ondataavailable`: a chunk with data is appended after the others; an
        empty one is dropped. */
    method DataAvailable(size: nat)
      requires Valid()
      modifies this
      ensures Valid()
      ensures chunks == if size > 0 then old(chunks) + [size] else old(chunks)
      ensures stream == old(stream) && recorder == old(recorder) && isRecording == old(isRecording)
      ensures timer == old(timer) && stopCalls == old(stopCalls) && recorded == old(recorded)
      ensures cameraStarted == old(cameraStarted) && hasCamera == old(hasCamera) && cameraError == old(cameraError)
      ensures isCameraOn == old(isCameraOn) && isMicOn == old(isMicOn)
    {
      if size > 0 {
        chunks := chunks + [size];
      }
    }

    /** `handleStopRecording`: a recorder that is not inactive is stopped;
        recording is off in every case. */
    method StopRecording()
      requires Valid()
      modifies this
      ensures Valid()
      ensures !isRecording
      ensures old(recorder).Some? && old(recorder).value.state != Inactive ==>
        stopCalls == old(stopCalls) + 1 && recorder == Some(old(recorder).value.(state := Inactive))
      ensures !(old(recorder).Some? && old(recorder).value.state != Inactive) ==>
        stopCalls == old(stopCalls) && recorder == old(recorder)
      ensures stream == old(stream) && chunks == old(chunks) && timer == old(timer) && recorded == old(recorded)
      ensures cameraStarted == old(cameraStarted) && hasCamera == old(hasCamera) && cameraError == old(cameraError)
      ensures isCameraOn == old(isCameraOn) && isMicOn == old(isMicOn)
    {
      if recorder.Some? && recorder.value.state != Inactive {
        stopCalls := stopCalls + 1;
        recorder := Some(recorder.value.(state := Inactive));
      }
      isRecording := false;
    }

    /** `onstop`: the chunks collected become the recorded video, in the
        recorder's type. */
    method RecorderStopped()
      requires Valid()
      modifies this
      ensures Valid()
      ensures old(recorder).Some? ==> recorded == Some(RecordedVideo(old(chunks), old(recorder).value.mimeType))
      ensures old(recorder).None? ==> recorded == old(recorded)
      ensures stream == old(stream) && recorder == old(recorder) && chunks == old(chunks)
      ensures isRecording == old(isRecording) && timer == old(timer) && stopCalls == old(stopCalls)
      ensures cameraStarted == old(cameraStarted) && hasCamera == old(hasCamera) && cameraError == old(cameraError)
      ensures isCameraOn == old(isCameraOn) && isMicOn == old(isMicOn)
    {
      if recorder.Some? {
        recorded := Some(RecordedVideo(chunks, recorder.value.mimeType));
      }
    }

    /** One firing of the one-second interval, which exists only while
        recording: the timer goes up by exactly one. */
    method Tick()
      requires Valid()
      modifies this
      ensures Valid()
      ensures timer == if old(isRecording) then old(timer) + 1 else old(timer)
      ensures stream == old(stream) && recorder == old(recorder) && chunks == old(chunks)
      ensures isRecording == old(isRecording) && stopCalls == old(stopCalls) && recorded == old(recorded)
      ensures cameraStarted == old(cameraStarted) && hasCamera == old(hasCamera) && cameraError == old(cameraError)
      ensures isCameraOn == old(isCameraOn) && isMicOn == old(isMicOn)
    {
      if isRecording {
        timer := timer + 1;
      }
    }
  }
}
