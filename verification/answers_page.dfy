/** The daisy-chained generation page (src/app/answers/page.tsx): the client
    asks /api/generate-answers for one batch at a time and, each time a batch
    has finished, decides from the number of completed answers whether to ask
    for the next one or to stop. The streaming hook is the environment: its
    `submit`, its completion callbacks and the moment it reports that loading
    is over are calls on the page object. */
module AnswersPage {
  import opened Common
  import GenerateRoute

  const BATCH_SIZE: nat := 5
  const TARGET_TOTAL: nat := 25

  /** The body `submit` posts: `{ startId, batchSize }`. */
  datatype Request = Request(startId: nat, batchSize: nat)

  /** What one run of the chaining effect does. */
  datatype ChainStep = Idle | Finish | SubmitNext(request: Request)

  /** The chaining effect's decision: nothing while chaining is off or a
      request is loading; stop once the target is reached; otherwise, with at
      least one answer, ask for the next batch starting right after the
      answers already completed. With no answer at all it does nothing. */
  function ChainDecision(isChaining: bool, isLoading: bool, count: nat): (step: ChainStep)
    ensures step.Finish? <==> isChaining && !isLoading && count >= TARGET_TOTAL
    ensures step.SubmitNext? <==> isChaining && !isLoading && 0 < count < TARGET_TOTAL
    ensures step.SubmitNext? ==>
      step.request.startId == count + 1 && step.request.batchSize == BATCH_SIZE && step.request.startId <= TARGET_TOTAL
  {
    if !isChaining || isLoading then Idle
    else if count >= TARGET_TOTAL then Finish
    else if count > 0 then SubmitNext(Request(count + 1, BATCH_SIZE))
    else Idle
  }

  // -------------------------------------------------------------------------
  // A whole chain, when no request fails
  // -------------------------------------------------------------------------

  function Sum(sizes: seq<nat>): nat
  {
    if sizes == [] then 0 else sizes[0] + Sum(sizes[1..])
  }

  /** Where a chain stands: the requests it submitted after the point of
      departure, the answers completed, whether chaining is still on, and
      whether a request is still outstanding. */
  datatype ChainRun = ChainRun(submitted: seq<Request>, count: nat, chaining: bool, loading: bool)

  /** The chain from a moment when one request is outstanding and `count`
      answers are complete, when the outstanding request and each following
      one finish with `sizes[0]`, `sizes[1]`, ... answers: each finished batch
      is appended, loading ends, and the effect decides. */
  function ChainFrom(count: nat, sizes: seq<nat>): ChainRun
    decreases |sizes|
  {
    if sizes == [] then ChainRun([], count, true, true)
    else
      var completed := count + sizes[0];
      match ChainDecision(true, false, completed)
      case Finish => ChainRun([], completed, false, false)
      case Idle => ChainRun([], completed, true, false)
      case SubmitNext(request) =>
        var rest := ChainFrom(completed, sizes[1..]);
        rest.(submitted := [request] + rest.submitted)
  }

  /** A chain from `startGeneration`, whose own first request starts at 1. */
  function Chain(sizes: seq<nat>): ChainRun
  {
    var run := ChainFrom(0, sizes);
    run.(submitted := [Request(1, BATCH_SIZE)] + run.submitted)
  }

  lemma SumPrefixStep(sizes: seq<nat>, i: nat)
    requires 0 < i <= |sizes|
    ensures Sum(sizes[..i]) == sizes[0] + Sum(sizes[1..][..i - 1])
  {
    assert sizes[..i][1..] == sizes[1..][..i - 1];
  }

  /** Every request the chain submits starts right after the answers then
      completed, which are fewer than the target. */
  lemma {:induction false} ChainRequestsFollowCount(count: nat, sizes: seq<nat>)
    ensures RequestsFollowCount(count, sizes, ChainFrom(count, sizes).submitted)
    decreases |sizes|
  {
    if sizes != [] {
      var completed := count + sizes[0];
      var r := ChainFrom(count, sizes);
      match ChainDecision(true, false, completed)
      case Finish =>
      case Idle =>
      case SubmitNext(request) =>
        var rest := ChainFrom(completed, sizes[1..]);
        ChainRequestsFollowCount(completed, sizes[1..]);
        assert RequestsFollowCount(completed, sizes[1..], rest.submitted);
        assert r.submitted == [request] + rest.submitted;
        forall i | 0 <= i < |r.submitted|
          ensures r.submitted[i] == Request(count + Sum(sizes[..i + 1]) + 1, BATCH_SIZE)
          ensures count + Sum(sizes[..i + 1]) < TARGET_TOTAL
        {
          SumPrefixStep(sizes, i + 1);
          if i > 0 {
            assert r.submitted[i] == rest.submitted[i - 1];
            assert rest.submitted[i - 1] == Request(completed + Sum(sizes[1..][..i]) + 1, BATCH_SIZE);
          } else {
            assert sizes[1..][..0] == [];
            assert Sum(sizes[..1]) == sizes[0];
            assert r.submitted[0] == request;
          }
        }
        assert RequestsFollowCount(count, sizes, r.submitted);
    }
  }

  /** The `i`-th request of `submitted` starts right after the answers of the
      first `i + 1` batches, and those are fewer than the target. */
  predicate RequestsFollowCount(count: nat, sizes: seq<nat>, submitted: seq<Request>)
  {
    && |submitted| <= |sizes|
    && forall i :: 0 <= i < |submitted| ==>
         submitted[i] == Request(count + Sum(sizes[..i + 1]) + 1, BATCH_SIZE)
         && count + Sum(sizes[..i + 1]) < TARGET_TOTAL
  }

  /** How the chain ends: while a request is outstanding every batch so far
      has been submitted and counted; otherwise the batches up to the last
      one submitted have been counted; it stops only once the target is
      reached; and the only way to be left chaining with nothing
      outstanding is to have no answer at all. */
  lemma {:induction false} ChainOutcome(count: nat, sizes: seq<nat>)
    ensures var r := ChainFrom(count, sizes);
      && (r.loading ==> r.chaining && |r.submitted| == |sizes| && r.count == count + Sum(sizes))
      && (!r.loading ==> |r.submitted| < |sizes| && r.count == count + Sum(sizes[..|r.submitted| + 1]))
      && (!r.chaining ==> r.count >= TARGET_TOTAL)
      && (r.chaining && !r.loading ==> r.count == 0)
    decreases |sizes|
  {
    if sizes != [] {
      var completed := count + sizes[0];
      match ChainDecision(true, false, completed)
      case Finish =>
        assert sizes[..1] == [sizes[0]];
      case Idle =>
        assert sizes[..1] == [sizes[0]];
      case SubmitNext(request) =>
        var rest := ChainFrom(completed, sizes[1..]);
        ChainOutcome(completed, sizes[1..]);
        if !rest.loading {
          SumPrefixStep(sizes, |rest.submitted| + 2);
        }
    }
  }

  /** When every batch returns five answers the page asks for 1, 6, 11, 16
      and 21 — the same ranges the background job walks — and then stops
      with all 25. */
  lemma FullBatchesChain()
    ensures Chain([5, 5, 5, 5, 5]) ==
      ChainRun([Request(1, 5), Request(6, 5), Request(11, 5), Request(16, 5), Request(21, 5)], 25, false, false)
  {
    var s := [5, 5, 5, 5, 5];
    assert s[1..] == [5, 5, 5, 5];
    assert s[1..][1..] == [5, 5, 5];
    assert s[1..][1..][1..] == [5, 5];
    assert s[1..][1..][1..][1..] == [5];
  }

  /** A short batch moves the next start back with it: after 3 answers the
      page asks for answers from 4 on. */
  lemma ShortBatchShiftsNextStart(rest: seq<nat>)
    requires rest != []
    ensures Chain([3] + rest).submitted[1] == Request(4, BATCH_SIZE)
  {
    ChainRequestsFollowCount(0, [3] + rest);
    ChainOutcome(0, [3] + rest);
    assert ([3] + rest)[..1] == [3];
  }

  /** An empty first batch leaves the page chaining with no request
      outstanding: the effect never submits again, and only an error or a
      reload ends it. */
  lemma EmptyFirstBatchStalls(rest: seq<nat>)
    ensures Chain([0] + rest) == ChainRun([Request(1, BATCH_SIZE)], 0, true, false)
  {
    assert ([0] + rest)[1..] == rest;
  }

  /** If no batch comes back empty, the chain stops — with at least the
      target — after at most 25 batches. */
  lemma NonEmptyBatchesFinish(sizes: seq<nat>)
    requires |sizes| >= TARGET_TOTAL
    requires forall i :: 0 <= i < |sizes| ==> sizes[i] >= 1
    ensures !ChainFrom(0, sizes).chaining && ChainFrom(0, sizes).count >= TARGET_TOTAL
  {
    var r := ChainFrom(0, sizes);
    ChainOutcome(0, sizes);
    LoadingBelowTarget(0, sizes);
    SumAtLeastLength(sizes);
    var counted := if r.loading then 0 else |r.submitted| + 1;
    SumAtLeastLength(sizes[..counted]);
  }

  /** While a request is outstanding, the answers completed are fewer than
      the target. */
  lemma LoadingBelowTarget(count: nat, sizes: seq<nat>)
    ensures ChainFrom(count, sizes).loading && sizes != [] ==> count + Sum(sizes) < TARGET_TOTAL
  {
    var r := ChainFrom(count, sizes);
    ChainRequestsFollowCount(count, sizes);
    ChainOutcome(count, sizes);
    if r.loading && sizes != [] {
      assert r.submitted[|sizes| - 1] == Request(count + Sum(sizes[..|sizes|]) + 1, BATCH_SIZE);
      assert sizes[..|sizes|] == sizes;
    }
  }

  lemma {:induction false} SumAtLeastLength(sizes: seq<nat>)
    requires forall i :: 0 <= i < |sizes| ==> sizes[i] >= 1
    ensures Sum(sizes) >= |sizes|
  {
    if sizes != [] {
      SumAtLeastLength(sizes[1..]);
    }
  }

  // -------------------------------------------------------------------------
  // The page's state
  // -------------------------------------------------------------------------

  class ChainPage {
    /** `completedAnswers`: every finished batch, in order. */
    var completed: seq<StarAnswer>
    var isChaining: bool
    /** The hook's `isLoading`. */
    var isLoading: bool
    /** The hook's partial `object?.answers` of the batch being streamed. */
    var streaming: seq<StarAnswer>
    /** Every body handed to the hook's `submit`, in order. */
    var submitted: seq<Request>

    constructor ()
      ensures completed == [] && !isChaining && !isLoading && streaming == [] && submitted == []
    {
      completed, isChaining, isLoading, streaming, submitted := [], false, false, [], [];
    }

    /** The hook's `submit`: the previous object is dropped, the request is
        sent and loading begins. Until the new batch's first partial arrives
        the page shows exactly the completed answers, each once. */
    method Submit(request: Request)
      modifies this
      ensures submitted == old(submitted) + [request] && isLoading && streaming == []
      ensures completed == old(completed) && isChaining == old(isChaining)
      ensures Display() == completed
    {
      streaming := [];
      submitted := submitted + [request];
      isLoading := true;
    }

    /** `startGeneration`: a fresh run with no completed answer, chaining on,
        and the first batch requested from answer 1. */
    method StartGeneration()
      modifies this
      ensures completed == [] && isChaining && isLoading
      ensures submitted == old(submitted) + [Request(1, BATCH_SIZE)]
      ensures streaming == [] && Display() == []
    {
      completed := [];
      isChaining := true;
      Submit(Request(1, BATCH_SIZE));
    }

    /** A new partial object arrived on the stream. */
    method Stream(partial: seq<StarAnswer>)
      modifies this
      ensures streaming == partial
      ensures completed == old(completed) && isChaining == old(isChaining)
      ensures isLoading == old(isLoading) && submitted == old(submitted)
    {
      streaming := partial;
    }

    /** `onFinish`: a finished object's answers (absent when the object has
        none) are appended after the completed ones; nothing is removed. */
    method OnFinish(answers: Option<seq<StarAnswer>>)
      modifies this
      ensures completed == old(completed) + (if answers.Some? then answers.value else [])
      ensures isChaining == old(isChaining) && isLoading == old(isLoading)
      ensures streaming == old(streaming) && submitted == old(submitted)
    {
      if answers.Some? {
        completed := completed + answers.value;
      }
    }

    /** `onError`: chaining stops; the completed answers stay. */
    method OnError()
      modifies this
      ensures !isChaining
      ensures completed == old(completed) && isLoading == old(isLoading)
      ensures streaming == old(streaming) && submitted == old(submitted)
    {
      isChaining := false;
    }

    /** The hook reports that the request is over. */
    method Settle()
      modifies this
      ensures !isLoading
      ensures completed == old(completed) && isChaining == old(isChaining)
      ensures streaming == old(streaming) && submitted == old(submitted)
    {
      isLoading := false;
    }

    /** The hook handed the route's response: a finished object goes to
        `onFinish`, an error status to `onError`; either way loading ends. */
    method Receive(reply: GenerateRoute.GenerateResponse)
      modifies this
      ensures reply.Generated? ==> completed == old(completed) + reply.answers && isChaining == old(isChaining)
      ensures !reply.Generated? ==> completed == old(completed) && !isChaining
      ensures !isLoading && streaming == old(streaming) && submitted == old(submitted)
    {
      if reply.Generated? {
        OnFinish(Some(reply.answers));
      } else {
        OnError();
      }
      Settle();
    }

    /** The page against /api/generate-answers as that route is written:
        the body the page posts, `{ startId, batchSize }`, has no `content`,
        so the route answers 400 without consulting the model, the hook
        reports an error, and the chain ends after its first request with
        no answer, whatever the model would have said. */
    method StartAgainstRoute(generate: string -> Option<string>, parse: string -> Option<GenerateRoute.ParsedReply>)
      returns (step: ChainStep)
      modifies this
      ensures submitted == old(submitted) + [Request(1, BATCH_SIZE)]
      ensures completed == [] && !isChaining && !isLoading && step == Idle
    {
      StartGeneration();
      var reply := GenerateRoute.GenerateAnswers(Some(GenerateRoute.Falsy), generate, parse);
      Receive(reply);
      step := Effect();
    }

    /** One run of the chaining effect: what `ChainDecision` says, and
        nothing else. */
    method Effect() returns (step: ChainStep)
      modifies this
      ensures step == ChainDecision(old(isChaining), old(isLoading), |old(completed)|)
      ensures isChaining == (old(isChaining) && !step.Finish?)
      ensures submitted == old(submitted) + (if step.SubmitNext? then [step.request] else [])
      ensures isLoading == (old(isLoading) || step.SubmitNext?)
      ensures completed == old(completed)
      ensures streaming == if step.SubmitNext? then [] else old(streaming)
      ensures step.SubmitNext? ==> Display() == completed
    {
      step := ChainDecision(isChaining, isLoading, |completed|);
      match step
      case Idle =>
      case Finish =>
        isChaining := false;
      case SubmitNext(request) =>
        Submit(request);
    }

    /** `allAnswersToDisplay`: the completed answers, then the ones still
        streaming. */
    function Display(): (shown: seq<StarAnswer>)
      reads this
      ensures |shown| == |completed| + |streaming|
      ensures shown[..|completed|] == completed && shown[|completed|..] == streaming
    {
      completed + streaming
    }
  }
}
