/** GET /api/answers-stream (src/app/api/answers-stream/route.ts): a
    server-sent-event stream per connection, fed by one shared poller per
    user. The per-process registry of channels is a class; each poll, each
    connection and each disconnection is a method on it. The rows a read of
    `star_answers` returned are parameters (None when the read threw), and
    the timers are the callers of `Tick` and `Heartbeat`. */
module AnswersStream {
  import opened Common
  import opened Schema
  import GetAnswers
  import Text

  const POLL_INTERVAL_MS: nat := 2000
  const HEARTBEAT_INTERVAL_MS: nat := 30000

  /** One open connection's listener. */
  type ListenerId = nat

  /** `{ answers, count }` as `fetchAnswers` builds it. */
  datatype Snapshot = Snapshot(answers: seq<GetAnswers.AnswerPayload>, count: nat)

  function SnapshotOf(rows: seq<StarAnswerRow>): (p: Snapshot)
    ensures p.count == |p.answers| == |rows|
    ensures forall i :: 0 <= i < p.count ==> p.answers[i].id == i + 1 && GetAnswers.Copies(p.answers[i], rows[i])
  {
    var answers := GetAnswers.FormatAnswers(rows);
    Snapshot(answers, |answers|)
  }

  /** The three events a connection is sent. */
  datatype StreamEvent = Initial(snapshot: Snapshot) | Update(snapshot: Snapshot) | Heartbeat(timestamp: int)

  /** A user's shared channel: its listeners, whether its poller runs, and
      the count the poller last broadcast. */
  datatype Channel = Channel(listeners: set<ListenerId>, polling: bool, lastCount: nat)

  /** A live channel: its poller runs and it has listeners, all of them
      connections that were opened. */
  predicate ChannelOk(c: Channel, connected: set<ListenerId>)
  {
    c.polling && c.listeners != {} && c.listeners <= connected
  }

  datatype ConnectResponse =
    | Unauthorized            // 401
    | ServerError             // the session lookup threw
    | Stream(listener: ListenerId)

  /** `u`'s channel once listener `l` has been added to it: the existing
      channel, or a new one at count 0, now polling. */
  function WithListener(channels: map<UserId, Channel>, u: UserId, l: ListenerId): map<UserId, Channel>
  {
    var c := if u in channels then channels[u] else Channel({}, true, 0);
    channels[u := Channel(c.listeners + {l}, true, c.lastCount)]
  }

  /** `u`'s channel once listener `l` has left it: removed with its poller
      when no listener remains. */
  function WithoutListener(channels: map<UserId, Channel>, u: UserId, l: ListenerId): map<UserId, Channel>
    requires u in channels
  {
    var rest := channels[u].listeners - {l};
    if rest == {} then channels - {u} else channels[u := channels[u].(listeners := rest)]
  }

  /** Every channel is live; a user has one poller exactly while the user
      has a channel, and never two; listener ids are never reused. */
  ghost predicate RegistryInv(
    channels: map<UserId, Channel>, sent: map<ListenerId, seq<StreamEvent>>, next: ListenerId, pollers: multiset<UserId>)
  {
    && (forall u :: u in channels ==> ChannelOk(channels[u], sent.Keys))
    && (forall u :: pollers[u] == if u in channels then 1 else 0)
    && (forall l :: l in sent ==> l < next)
  }

  /** Registering a new listener keeps the registry consistent, starting a
      poller only for a user who had none. */
  lemma RegisterKeepsInv(
    channels: map<UserId, Channel>, sent: map<ListenerId, seq<StreamEvent>>, next: ListenerId, pollers: multiset<UserId>,
    u: UserId, first: seq<StreamEvent>)
    requires RegistryInv(channels, sent, next, pollers)
    ensures RegistryInv(WithListener(channels, u, next), sent[next := first], next + 1,
      if u in channels then pollers else pollers + multiset{u})
  {
    var channels' := WithListener(channels, u, next);
    var pollers' := if u in channels then pollers else pollers + multiset{u};
    forall v | v in channels' ensures ChannelOk(channels'[v], sent[next := first].Keys) {
      if v != u {
        assert channels'[v] == channels[v];
      }
    }
    forall v ensures pollers'[v] == if v in channels' then 1 else 0 {
      if v != u {
        assert (v in channels') == (v in channels);
      }
    }
  }

  lemma UpdateTwice<K, V>(m: map<K, V>, k: K, a: V, b: V)
    ensures m[k := a][k := b] == m[k := b]
  {
  }

  lemma UpdateThenRemove<K, V>(m: map<K, V>, k: K, v: V)
    ensures m[k := v] - {k} == m - {k}
  {
  }

  /** Changing a channel's last count, or what was sent on connections
      already open, keeps the registry consistent. */
  lemma RecountKeepsInv(
    channels: map<UserId, Channel>, sent: map<ListenerId, seq<StreamEvent>>, next: ListenerId, pollers: multiset<UserId>,
    sent': map<ListenerId, seq<StreamEvent>>, u: UserId, count: nat)
    requires RegistryInv(channels, sent, next, pollers) && u in channels && sent'.Keys == sent.Keys
    ensures RegistryInv(channels[u := channels[u].(lastCount := count)], sent', next, pollers)
  {
    var channels' := channels[u := channels[u].(lastCount := count)];
    forall v | v in channels' ensures ChannelOk(channels'[v], sent'.Keys) {
      if v != u {
        assert channels'[v] == channels[v];
      }
    }
  }

  /** Removing a listener keeps the registry consistent, stopping the poller
      exactly when the channel is left empty. */
  lemma UnregisterKeepsInv(
    channels: map<UserId, Channel>, sent: map<ListenerId, seq<StreamEvent>>, next: ListenerId, pollers: multiset<UserId>,
    u: UserId, l: ListenerId)
    requires RegistryInv(channels, sent, next, pollers) && u in channels
    ensures RegistryInv(WithoutListener(channels, u, l), sent, next,
      if channels[u].listeners - {l} == {} then pollers - multiset{u} else pollers)
  {
    var channels' := WithoutListener(channels, u, l);
    var pollers' := if channels[u].listeners - {l} == {} then pollers - multiset{u} else pollers;
    forall v | v in channels' ensures ChannelOk(channels'[v], sent.Keys) {
      if v != u {
        assert channels'[v] == channels[v];
      }
    }
    forall v ensures pollers'[v] == if v in channels' then 1 else 0 {
      if v != u {
        assert (v in channels') == (v in channels);
      }
    }
  }

  class Registry {
    /** `userChannels`. */
    var channels: map<UserId, Channel>
    /** Everything each connection has been sent, in order. */
    var sent: map<ListenerId, seq<StreamEvent>>
    var nextListener: ListenerId
    /** The shared pollers (`setInterval` handles) currently running, by user. */
    ghost var pollers: multiset<UserId>

    ghost predicate Valid()
      reads this
    {
      RegistryInv(channels, sent, nextListener, pollers)
    }

    /** A connection is open while its listener is registered. */
    predicate Open(u: UserId, l: ListenerId)
      reads this
    {
      u in channels && l in channels[u].listeners
    }

    constructor ()
      ensures Valid()
      ensures channels == map[] && sent == map[]
    {
      channels, sent, nextListener := map[], map[], 0;
      pollers := multiset{};
    }

    /** `ensureChannel`: create the user's channel if missing (no listeners,
        count 0), and start its poller unless one already runs. */
    method EnsureChannel(u: UserId)
      modifies this
      ensures channels == old(channels)[u := (if u in old(channels) then old(channels)[u] else Channel({}, false, 0)).(polling := true)]
      ensures pollers == if u in old(channels) && old(channels)[u].polling then old(pollers) else old(pollers) + multiset{u}
      ensures sent == old(sent) && nextListener == old(nextListener)
    {
      var channel := if u in channels then channels[u] else Channel({}, false, 0);
      if !channel.polling {
        channel := channel.(polling := true);
        pollers := pollers + multiset{u};
      }
      channels := channels[u := channel];
    }

    /** `stopChannelIfIdle`: a channel left without listeners loses its
        poller and is removed. */
    method StopChannelIfIdle(u: UserId)
      modifies this
      ensures var idle := u in old(channels) && old(channels)[u].listeners == {} && old(channels)[u].polling;
        && channels == (if idle then old(channels) - {u} else old(channels))
        && pollers == (if idle then old(pollers) - multiset{u} else old(pollers))
      ensures sent == old(sent) && nextListener == old(nextListener)
    {
      if u in channels && channels[u].listeners == {} && channels[u].polling {
        channels := channels - {u};
        pollers := pollers - multiset{u};
      }
    }

    /** `ensureChannel(userId)` followed by `channel.listeners.add(listener)`
        for a new connection that has been sent `first`. */
    method RegisterListener(u: UserId, first: seq<StreamEvent>)
      requires Valid()
      modifies this
      ensures Valid()
      ensures channels == WithListener(old(channels), u, old(nextListener))
      ensures sent == old(sent)[old(nextListener) := first]
      ensures nextListener == old(nextListener) + 1
      ensures pollers == if u in old(channels) then old(pollers) else old(pollers) + multiset{u}
    {
      RegisterKeepsInv(channels, sent, nextListener, pollers, u, first);
      var l := nextListener;
      ghost var before := channels;
      ghost var c := if u in channels then channels[u] else Channel({}, true, 0);
      assert u in channels ==> channels[u].polling by {
        if u in channels { assert ChannelOk(channels[u], sent.Keys); }
      }
      EnsureChannel(u);
      assert channels[u] == c;
      UpdateTwice(before, u, channels[u], Channel(c.listeners + {l}, true, c.lastCount));
      channels := channels[u := channels[u].(listeners := channels[u].listeners + {l})];
      sent := sent[l := first];
      nextListener := nextListener + 1;
    }

    /** A request as written: the session lookup is not guarded, so a thrown
        lookup fails the request; without a user id it is a 401. Otherwise
        the initial snapshot (if the read succeeded) is sent first, the
        channel's count is raised to it only when a channel already exists,
        and then the channel is ensured and the listener registered. A first
        subscriber therefore leaves the new channel at count 0. */
    method Connect(session: Session, initialRead: Option<seq<StarAnswerRow>>) returns (r: ConnectResponse)
      requires Valid()
      modifies this
      ensures Valid()
      ensures session.LookupError? ==> r == ServerError
      ensures !session.LookupError? && !Authenticated(session) ==> r == Unauthorized
      ensures !Authenticated(session) ==> channels == old(channels) && sent == old(sent) && pollers == old(pollers)
      ensures Authenticated(session) ==> r == Stream(old(nextListener))
      ensures r.Stream? ==>
        var u := session.userId;
        var counted := if u in old(channels) && initialRead.Some?
          then old(channels)[u := old(channels)[u].(lastCount := Max(old(channels)[u].lastCount, |initialRead.value|))]
          else old(channels);
        && sent == old(sent)[r.listener := if initialRead.Some? then [Initial(SnapshotOf(initialRead.value))] else []]
        && channels == WithListener(counted, u, r.listener)
        && pollers == if u in old(channels) then old(pollers) else old(pollers) + multiset{u}
    {
      if session.LookupError? {
        return ServerError;
      }
      if !Authenticated(session) {
        return Unauthorized;
      }
      var u := session.userId;
      var first: seq<StreamEvent> := [];
      if initialRead.Some? {
        var initial := SnapshotOf(initialRead.value);
        first := [Initial(initial)];
        if u in channels {
          var count := Max(channels[u].lastCount, initial.count);
          RecountKeepsInv(channels, sent, nextListener, pollers, sent, u, count);
          channels := channels[u := channels[u].(lastCount := count)];
        }
      }
      RegisterListener(u, first);
      r := Stream(nextListener - 1);
    }

    /** The corrected request: the channel is ensured before the snapshot's
        count is recorded, so a first subscriber's channel starts at the
        count it was just sent. */
    method ConnectRegisteringFirst(session: Session, initialRead: Option<seq<StarAnswerRow>>) returns (r: ConnectResponse)
      requires Valid()
      modifies this
      ensures Valid()
      ensures session.LookupError? ==> r == ServerError
      ensures !session.LookupError? && !Authenticated(session) ==> r == Unauthorized
      ensures !Authenticated(session) ==> channels == old(channels) && sent == old(sent) && pollers == old(pollers)
      ensures Authenticated(session) ==> r == Stream(old(nextListener))
      ensures r.Stream? ==>
        var u := session.userId;
        var registered := WithListener(old(channels), u, r.listener);
        && sent == old(sent)[r.listener := if initialRead.Some? then [Initial(SnapshotOf(initialRead.value))] else []]
        && channels == (if initialRead.Some?
             then registered[u := registered[u].(lastCount := Max(registered[u].lastCount, |initialRead.value|))]
             else registered)
        && pollers == if u in old(channels) then old(pollers) else old(pollers) + multiset{u}
    {
      if session.LookupError? {
        return ServerError;
      }
      if !Authenticated(session) {
        return Unauthorized;
      }
      var u := session.userId;
      var first: seq<StreamEvent> := [];
      if initialRead.Some? {
        first := [Initial(SnapshotOf(initialRead.value))];
      }
      RegisterListener(u, first);
      r := Stream(nextListener - 1);
      if initialRead.Some? {
        var count := Max(channels[u].lastCount, |initialRead.value|);
        RecountKeepsInv(channels, sent, nextListener, pollers, sent, u, count);
        channels := channels[u := channels[u].(lastCount := count)];
      }
    }

    /** One firing of `u`'s shared poller. A failed read is logged and
        changes nothing. A read whose count differs from the channel's last
        count is broadcast, as one `update`, to every listener of the channel
        and becomes the new last count; an equal count sends nothing. A user
        without a channel has no poller, so nothing fires. */
    method Tick(u: UserId, read: Option<seq<StarAnswerRow>>) returns (notified: bool)
      requires Valid()
      modifies this
      ensures Valid()
      ensures notified <==> u in old(channels) && read.Some? && |read.value| != old(channels)[u].lastCount
      ensures notified ==>
        && channels == old(channels)[u := old(channels)[u].(lastCount := |read.value|)]
        && sent.Keys == old(sent).Keys
        && forall l :: l in sent ==>
             sent[l] == if l in old(channels)[u].listeners then old(sent)[l] + [Update(SnapshotOf(read.value))] else old(sent)[l]
      ensures !notified ==> channels == old(channels) && sent == old(sent)
      ensures nextListener == old(nextListener) && pollers == old(pollers)
    {
      notified := false;
      if u !in channels || read.None? {
        return;
      }
      var payload := SnapshotOf(read.value);
      if payload.count == channels[u].lastCount {
        return;
      }
      notified := true;
      var listeners := channels[u].listeners;
      assert listeners <= sent.Keys by {
        assert ChannelOk(channels[u], sent.Keys);
      }
      var remaining := listeners;
      while remaining != {}
        invariant remaining <= listeners
        invariant channels == old(channels) && pollers == old(pollers) && nextListener == old(nextListener)
        invariant sent.Keys == old(sent).Keys
        invariant forall l :: l in sent ==>
          sent[l] == if l in listeners - remaining then old(sent)[l] + [Update(payload)] else old(sent)[l]
        decreases remaining
      {
        var l :| l in remaining;
        sent := sent[l := sent[l] + [Update(payload)]];
        remaining := remaining - {l};
      }
      RecountKeepsInv(old(channels), old(sent), old(nextListener), old(pollers), sent, u, payload.count);
      channels := channels[u := channels[u].(lastCount := payload.count)];
    }

    /** The 30-second heartbeat of one connection: an open connection is
        sent a `heartbeat` event carrying the time; a closed one nothing. */
    method SendHeartbeat(u: UserId, l: ListenerId, timestamp: int)
      requires Valid()
      modifies this
      ensures Valid()
      ensures Open(u, l) ==> l in old(sent) && sent == old(sent)[l := old(sent)[l] + [Heartbeat(timestamp)]]
      ensures !Open(u, l) ==> sent == old(sent)
      ensures channels == old(channels) && nextListener == old(nextListener) && pollers == old(pollers)
    {
      if Open(u, l) {
        assert ChannelOk(channels[u], sent.Keys);
        var sent' := sent[l := sent[l] + [Heartbeat(timestamp)]];
        RecountKeepsInv(channels, sent, nextListener, pollers, sent', u, channels[u].lastCount);
        assert channels[u := channels[u].(lastCount := channels[u].lastCount)] == channels;
        sent := sent';
      }
    }

    /** The client aborts the connection of listener `l` for user `u`: the
        listener leaves the channel, and a channel left without listeners
        stops its poller and is removed; every other channel, and what was
        sent, is unchanged. */
    method Disconnect(u: UserId, l: ListenerId)
      requires Valid()
      modifies this
      ensures Valid()
      ensures u !in old(channels) ==> channels == old(channels) && pollers == old(pollers)
      ensures u in old(channels) ==>
        && channels == WithoutListener(old(channels), u, l)
        && pollers == if old(channels)[u].listeners - {l} == {} then old(pollers) - multiset{u} else old(pollers)
      ensures sent == old(sent) && nextListener == old(nextListener)
    {
      if u !in channels {
        return;
      }
      assert channels[u].polling by {
        assert ChannelOk(channels[u], sent.Keys);
      }
      UnregisterKeepsInv(channels, sent, nextListener, pollers, u, l);
      UpdateThenRemove(channels, u, channels[u].(listeners := channels[u].listeners - {l}));
      channels := channels[u := channels[u].(listeners := channels[u].listeners - {l})];
      StopChannelIfIdle(u);
    }
  }

  /** The finding, as written: a first subscriber to a user with answers is
      sent the snapshot as `initial`, and the poller's first read of the
      same, unchanged rows sends it again as `update`. */
  method FirstSubscriberDuplicate(u: UserId, rows: seq<StarAnswerRow>) returns (events: seq<StreamEvent>)
    requires u != "" && rows != []
    ensures events == [Initial(SnapshotOf(rows)), Update(SnapshotOf(rows))]
  {
    var registry := new Registry();
    var r := registry.Connect(SignedIn(u), Some(rows));
    var notified := registry.Tick(u, Some(rows));
    events := registry.sent[r.listener];
  }

  /** The finding, corrected: the same subscriber is sent the snapshot once,
      and an unchanged read sends nothing more. */
  method FirstSubscriberNoDuplicate(u: UserId, rows: seq<StarAnswerRow>) returns (events: seq<StreamEvent>)
    requires u != ""
    ensures events == [Initial(SnapshotOf(rows))]
  {
    var registry := new Registry();
    var r := registry.ConnectRegisteringFirst(SignedIn(u), Some(rows));
    var notified := registry.Tick(u, Some(rows));
    events := registry.sent[r.listener];
  }

  // -------------------------------------------------------------------------
  // Event framing
  // -------------------------------------------------------------------------

  /** `event: <event>\ndata: <data>\n\n`, where `data` is the JSON text of
      the payload (JSON text never holds a raw line break). */
  function Frame(event: string, data: string): (s: string)
    ensures |s| == |event| + |data| + 16
  {
    "event: " + event + "\ndata: " + data + "\n\n"
  }

  /** How a reader of the stream splits one frame back into its event name
      and its data line; anything else is not a frame. */
  function ParseFrame(s: string): Option<(string, string)>
  {
    if |s| < 16 || s[..7] != "event: " || s[|s| - 2..] != "\n\n" then None
    else
      var body := s[7..|s| - 2];
      match Text.IndexOf(body, '\n')
      case None => None
      case Some(i) =>
        var rest := body[i..];
        if |rest| < 7 || rest[..7] != "\ndata: " || '\n' in rest[7..] then None
        else Some((body[..i], rest[7..]))
  }

  /** A frame reads back as the event and data it was built from, whenever
      neither holds a line break. */
  lemma ParseFrameOfFrame(event: string, data: string)
    requires '\n' !in event && '\n' !in data
    ensures ParseFrame(Frame(event, data)) == Some((event, data))
  {
    var s := Frame(event, data);
    assert s[..7] == "event: ";
    assert s[|s| - 2..] == "\n\n";
    var body := s[7..|s| - 2];
    assert body == event + "\ndata: " + data;
    assert body[|event|] == '\n';
    assert body[..|event|] == event;
    var i := Text.IndexOf(body, '\n');
    assert i == Some(|event|);
    assert body[|event|..] == "\ndata: " + data;
    assert body[|event|..][7..] == data;
  }

  /** And only frames parse: whatever reads back as an event and a data
      line is exactly the frame of those two, neither holding a line break. */
  lemma FrameOfParseFrame(s: string)
    requires ParseFrame(s).Some?
    ensures var (event, data) := ParseFrame(s).value;
      && '\n' !in event && '\n' !in data
      && Frame(event, data) == s
  {
    var body := s[7..|s| - 2];
    var i := Text.IndexOf(body, '\n').value;
    var rest := body[i..];
    assert ParseFrame(s).value == (body[..i], rest[7..]);
    SplitFrame(s, body[..i], rest[7..]);
  }

  lemma SplitFrame(s: string, event: string, data: string)
    requires |s| >= 16 && s[..7] == "event: " && s[|s| - 2..] == "\n\n" && |event| + 16 <= |s|
    requires s[7..|s| - 2][..|event|] == event
    requires s[7..|s| - 2][|event|..][..7] == "\ndata: " && s[7..|s| - 2][|event|..][7..] == data
    ensures Frame(event, data) == s
  {
    var body := s[7..|s| - 2];
    SplitBody(body, event, data);
    assert s == s[..7] + body + s[|s| - 2..];
  }

  lemma SplitBody(body: string, event: string, data: string)
    requires |event| + 7 <= |body|
    requires body[..|event|] == event
    requires body[|event|..][..7] == "\ndata: " && body[|event|..][7..] == data
    ensures body == event + "\ndata: " + data
  {
    var rest := body[|event|..];
    assert rest == rest[..7] + rest[7..];
    assert body == body[..|event|] + rest;
  }
}
