/** The background job `generateAnswers` (src/lib/inngest/functions.ts):
    purge the user's answers, then for startId = 1, 6, ..., 21 ask the
    language model for one batch and insert exactly that batch, and finally
    report how many answers were generated. The model is the parameter
    `generate`, an uninterpreted function from prompt to batch. */
module BatchJob {
  import opened Common
  import opened Schema
  import opened AnswerStore

  const BATCH_SIZE: nat := 5
  const TARGET_TOTAL: nat := 25
  const FIRST_START: nat := 1

  /** The answer ids one batch asks for, `startId..endId` inclusive. */
  datatype BatchRange = BatchRange(startId: nat, endId: nat)

  /** `Math.floor(startId / BATCH_SIZE) + 1`. */
  function BatchNumber(startId: nat): nat
  {
    startId / BATCH_SIZE + 1
  }

  /** `Math.min(startId + BATCH_SIZE - 1, TARGET_TOTAL)`. */
  function EndId(startId: nat): nat
  {
    Min(startId + BATCH_SIZE - 1, TARGET_TOTAL)
  }

  /** The iterations of `for (let startId = s; startId <= TARGET_TOTAL;
      startId += BATCH_SIZE)`, each with its `endId`. */
  function Ranges(startId: nat): seq<BatchRange>
    decreases TARGET_TOTAL + 1 - startId
  {
    if startId > TARGET_TOTAL then [] else [BatchRange(startId, EndId(startId))] + Ranges(startId + BATCH_SIZE)
  }

  /** The career document a prompt embeds: the uploaded text, or the built-in
      sample document when the event carried none (`resumeText || ...`). */
  datatype Document = Uploaded(text: string) | SampleCareerDocument

  function DocumentFor(resumeText: string): Document
  {
    if resumeText == "" then SampleCareerDocument else Uploaded(resumeText)
  }

  /** What a prompt varies in: the document, how many answers to generate
      (`endId - startId + 1`) and the id to number them from. The fixed
      instructions around them are not modelled. */
  datatype BatchPrompt = BatchPrompt(document: Document, answerCount: int, firstId: nat)

  function Prompt(doc: Document, r: BatchRange): BatchPrompt
  {
    BatchPrompt(doc, r.endId - r.startId + 1, r.startId)
  }

  /** What one model call yields: some answers (their number and shape are
      not checked), or a thrown error. */
  datatype Generation = Generated(answers: seq<StarAnswer>) | GenerationFailed

  /** The ids of the durable steps, `purge-existing-answers`,
      `generate-batch-<n>` and `save-batch-<n>`. */
  datatype StepId = PurgeExistingAnswers | GenerateBatch(n: nat) | SaveBatch(n: nat)

  /** How a run ends: `{ success: true, count }`, or the step that threw. */
  datatype JobOutcome = Completed(count: nat) | PurgeFailed | GenerateFailed(batch: nat) | SaveFailed(batch: nat)

  /** `answer.fullAnswer || situation + "\n\n" + task + "\n\n" + action +
      "\n\n" + result`: a missing or empty full answer is replaced by the four
      sections joined by blank lines, so what is stored is never empty. */
  function StoredFullAnswer(a: StarAnswer): (s: string)
    ensures s != ""
    ensures a.fullAnswer.Some? && a.fullAnswer.value != "" ==> s == a.fullAnswer.value
    ensures a.fullAnswer.None? || a.fullAnswer.value == "" ==>
      s == a.situation + "\n\n" + a.task + "\n\n" + a.action + "\n\n" + a.result
  {
    if a.fullAnswer.Some? && a.fullAnswer.value != "" then a.fullAnswer.value
    else a.situation + "\n\n" + a.task + "\n\n" + a.action + "\n\n" + a.result
  }

  /** The row one generated answer becomes: owned by the job's user, with the
      six text fields copied and the full answer filled in. */
  function ToRow(u: UserId, a: StarAnswer): NewStarAnswer
  {
    NewStarAnswer(u, a.competency, a.question, a.situation, a.task, a.action, a.result, StoredFullAnswer(a))
  }

  /** `batchResult.answers.map(...)`: the rows of one save, only this batch's
      answers, every one owned by `u`. */
  function SaveValues(u: UserId, batch: seq<StarAnswer>): (vs: seq<NewStarAnswer>)
    ensures |vs| == |batch|
    ensures forall k :: 0 <= k < |vs| ==> vs[k] == ToRow(u, batch[k])
    ensures forall v :: v in vs ==> v.userId == u
  {
    seq(|batch|, k requires 0 <= k < |batch| => ToRow(u, batch[k]))
  }

  /** The state of a run: how it ended, the answers saved so far, and the
      steps completed so far. */
  datatype Run = Run(outcome: JobOutcome, saved: seq<StarAnswer>, steps: seq<StepId>)

  /** The batch loop from the iteration whose range is `ranges[0]` on, after
      `saved` has been saved and `steps` completed. A save fails when the
      batch is empty (the query builder refuses an insert of no rows) or
      when the user row does not exist. */
  function RunFrom(
    ranges: seq<BatchRange>, doc: Document, generate: BatchPrompt -> Generation,
    userKnown: bool, saved: seq<StarAnswer>, steps: seq<StepId>): Run
    decreases |ranges|
  {
    if ranges == [] then Run(Completed(|saved|), saved, steps)
    else
      var n := BatchNumber(ranges[0].startId);
      match generate(Prompt(doc, ranges[0]))
      case GenerationFailed => Run(GenerateFailed(n), saved, steps)
      case Generated(batch) =>
        if batch == [] || !userKnown then Run(SaveFailed(n), saved, steps + [GenerateBatch(n)])
        else RunFrom(ranges[1..], doc, generate, userKnown, saved + batch, steps + [GenerateBatch(n), SaveBatch(n)])
  }

  /** A whole run once the purge has succeeded. */
  function Job(doc: Document, generate: BatchPrompt -> Generation, userKnown: bool): Run
  {
    RunFrom(Ranges(FIRST_START), doc, generate, userKnown, [], [PurgeExistingAnswers])
  }

  /** The job. The purge runs first and completes before any batch is
      generated; if it is rejected the job stops with nothing changed.
      Otherwise the run is `Job(...)`: the user's stored answers are exactly
      the saved batches, in order, and every other user's rows are untouched. */
  method GenerateAnswers(store: Store, userId: UserId, resumeText: string, generate: BatchPrompt -> Generation)
    returns (outcome: JobOutcome, steps: seq<StepId>)
    requires store.Valid()
    modifies store
    ensures store.Valid()
    ensures AnswerDeleteBlocked(old(store.answers), old(store.practice), userId) ==>
      outcome == PurgeFailed && steps == [] && store.answers == old(store.answers)
    ensures !AnswerDeleteBlocked(old(store.answers), old(store.practice), userId) ==>
      var run := Job(DocumentFor(resumeText), generate, userId in old(store.users));
      && outcome == run.outcome && steps == run.steps
      && Contents(RowsOf(store.answers, userId)) == SaveValues(userId, run.saved)
      && RowsNotOf(store.answers, userId) == RowsNotOf(old(store.answers), userId)
    ensures store.users == old(store.users) && store.practice == old(store.practice)
    ensures store.sessions == old(store.sessions) && store.accounts == old(store.accounts)
  {
    var purged := store.Purge(userId);
    if !purged {
      return PurgeFailed, [];
    }
    RowsNotOfPurged(old(store.answers), userId);
    outcome, steps := RunBatches(store, userId, DocumentFor(resumeText), generate);
  }

  /** The loop after the purge: from no answers for the user, generate and
      save batch after batch as `Job` describes. */
  method RunBatches(store: Store, userId: UserId, doc: Document, generate: BatchPrompt -> Generation)
    returns (outcome: JobOutcome, steps: seq<StepId>)
    requires store.Valid() && RowsOf(store.answers, userId) == []
    modifies store
    ensures store.Valid()
    ensures var run := Job(doc, generate, userId in old(store.users));
      && outcome == run.outcome && steps == run.steps
      && Contents(RowsOf(store.answers, userId)) == SaveValues(userId, run.saved)
    ensures RowsNotOf(store.answers, userId) == RowsNotOf(old(store.answers), userId)
    ensures unchanged(store`users, store`practice, store`sessions, store`accounts)
  {
    assert Contents(RowsOf(store.answers, userId)) == [] == SaveValues(userId, []);
    outcome, steps := RunLoop(store, userId, doc, generate, FIRST_START, [], [PurgeExistingAnswers], userId in store.users);
  }

  /** `for (let startId = start; startId <= TARGET_TOTAL; startId += BATCH_SIZE)`
      after `saved` has been saved and `stepsBefore` completed: the run goes
      as `RunFrom` says, the user's rows are the ones it saved, and no other
      row changes. */
  method RunLoop(
    store: Store, userId: UserId, doc: Document, generate: BatchPrompt -> Generation,
    start: nat, saved: seq<StarAnswer>, stepsBefore: seq<StepId>, ghost known: bool)
    returns (outcome: JobOutcome, steps: seq<StepId>)
    requires store.Valid() && known == (userId in store.users)
    requires Contents(RowsOf(store.answers, userId)) == SaveValues(userId, saved)
    modifies store
    ensures store.Valid()
    ensures var run := RunFrom(Ranges(start), doc, generate, known, saved, stepsBefore);
      && outcome == run.outcome && steps == run.steps
      && Contents(RowsOf(store.answers, userId)) == SaveValues(userId, run.saved)
    ensures RowsNotOf(store.answers, userId) == RowsNotOf(old(store.answers), userId)
    ensures unchanged(store`users, store`practice, store`sessions, store`accounts)
  {
    ghost var run := RunFrom(Ranges(start), doc, generate, known, saved, stepsBefore);
    var allAnswers := saved;
    var startId := start;
    steps := stepsBefore;
    while startId <= TARGET_TOTAL
      invariant store.Valid()
      invariant unchanged(store`users, store`practice, store`sessions, store`accounts)
      invariant RunFrom(Ranges(startId), doc, generate, known, allAnswers, steps) == run
      invariant Contents(RowsOf(store.answers, userId)) == SaveValues(userId, allAnswers)
      invariant RowsNotOf(store.answers, userId) == RowsNotOf(old(store.answers), userId)
    {
      var stop, allAnswers', steps' := RunBatch(store, userId, doc, generate, startId, allAnswers, steps, known);
      if stop.Some? {
        RunFromStopped(startId, doc, generate, known, allAnswers, steps, Run(stop.value, allAnswers, steps'));
        return stop.value, steps';
      }
      var nextId := startId + BATCH_SIZE;
      RunFromContinued(startId, nextId, doc, generate, known, allAnswers, steps, allAnswers', steps');
      allAnswers, steps, startId := allAnswers', steps', nextId;
    }
    RunFromDone(startId, doc, generate, known, allAnswers, steps);
    outcome := Completed(|allAnswers|);
  }

  /** One iteration of the loop, for the range starting at `startId`: the
      `generate-batch-<n>` step, then the `save-batch-<n>` step, each of which
      may throw and end the job (`stop`). Either the job stops as `RunFrom`
      says it does, with the user's rows still those saved before, or the
      iteration completes with this batch saved after them. */
  method RunBatch(
    store: Store, userId: UserId, doc: Document, generate: BatchPrompt -> Generation,
    startId: nat, allAnswers: seq<StarAnswer>, steps: seq<StepId>, ghost known: bool)
    returns (stop: Option<JobOutcome>, allAnswers': seq<StarAnswer>, steps': seq<StepId>)
    requires startId <= TARGET_TOTAL && known == (userId in store.users)
    requires store.Valid() && Contents(RowsOf(store.answers, userId)) == SaveValues(userId, allAnswers)
    modifies store
    ensures store.Valid()
    ensures unchanged(store`users, store`practice, store`sessions, store`accounts)
    ensures RowsNotOf(store.answers, userId) == RowsNotOf(old(store.answers), userId)
    ensures var step := Iteration(startId, doc, generate, known, allAnswers, steps);
      if stop.Some? then
        step == Stopped(Run(stop.value, allAnswers, steps')) && store.answers == old(store.answers)
      else
        step == Continued(allAnswers', steps')
        && Contents(RowsOf(store.answers, userId)) == SaveValues(userId, allAnswers')
  {
    var batchNumber := BatchNumber(startId);
    var range := BatchRange(startId, EndId(startId));
    var batchResult := generate(Prompt(doc, range));
    if batchResult.GenerationFailed? {
      return Some(GenerateFailed(batchNumber)), allAnswers, steps;
    }
    steps' := steps + [GenerateBatch(batchNumber)];
    allAnswers' := allAnswers + batchResult.answers;
    var saved := SaveBatchRows(store, userId, batchResult.answers, allAnswers);
    if !saved {
      return Some(SaveFailed(batchNumber)), allAnswers', steps';
    }
    steps' := steps + [GenerateBatch(batchNumber), SaveBatch(batchNumber)];
    stop := None;
  }

  /** The `save-batch-<n>` step: one multi-row insert of this batch's rows,
      all owned by the job's user. It throws, and nothing is saved, when the
      batch is empty (an insert needs at least one row) or the user does not
      exist; otherwise the user's rows grow by exactly this batch and nobody
      else's change. */
  method SaveBatchRows(store: Store, userId: UserId, batch: seq<StarAnswer>, ghost savedBefore: seq<StarAnswer>)
    returns (ok: bool)
    requires store.Valid()
    requires Contents(RowsOf(store.answers, userId)) == SaveValues(userId, savedBefore)
    modifies store
    ensures store.Valid()
    ensures ok == (batch != [] && userId in old(store.users))
    ensures ok ==> Contents(RowsOf(store.answers, userId)) == SaveValues(userId, savedBefore + batch)
    ensures !ok ==> store.answers == old(store.answers)
    ensures RowsNotOf(store.answers, userId) == RowsNotOf(old(store.answers), userId)
    ensures unchanged(store`users, store`practice, store`sessions, store`accounts)
  {
    if batch == [] {
      return false;
    }
    var values := SaveValues(userId, batch);
    ghost var rowsBefore := store.answers;
    ghost var idBefore := store.nextId;
    assert (forall v :: v in values ==> v.userId in store.users) <==> userId in store.users by {
      assert values[0] in values;
    }
    ok := store.Insert(values);
    if ok {
      SaveBatchEffect(rowsBefore, userId, idBefore, store.clock, savedBefore, batch);
    }
  }

  /** One iteration of the batch loop: it stops the run, or goes on with
      this batch saved and its two steps completed. */
  datatype IterationEnd = Stopped(run: Run) | Continued(saved: seq<StarAnswer>, steps: seq<StepId>)

  function Iteration(
    startId: nat, doc: Document, generate: BatchPrompt -> Generation,
    known: bool, saved: seq<StarAnswer>, steps: seq<StepId>): IterationEnd
  {
    var n := BatchNumber(startId);
    match generate(Prompt(doc, BatchRange(startId, EndId(startId))))
    case GenerationFailed => Stopped(Run(GenerateFailed(n), saved, steps))
    case Generated(batch) =>
      if batch == [] || !known then Stopped(Run(SaveFailed(n), saved, steps + [GenerateBatch(n)]))
      else Continued(saved + batch, steps + [GenerateBatch(n), SaveBatch(n)])
  }

  /** `RunFrom` over the loop's ranges is one iteration followed by the rest
      of the loop: a run whose iteration stops ends there, ... */
  lemma RunFromStopped(
    startId: nat, doc: Document, generate: BatchPrompt -> Generation,
    known: bool, saved: seq<StarAnswer>, steps: seq<StepId>, run: Run)
    requires startId <= TARGET_TOTAL
    requires Iteration(startId, doc, generate, known, saved, steps) == Stopped(run)
    ensures RunFrom(Ranges(startId), doc, generate, known, saved, steps) == run
  {
    assert Ranges(startId)[0] == BatchRange(startId, EndId(startId));
  }

  /** ... past the last range the run has completed ... */
  lemma RunFromDone(
    startId: nat, doc: Document, generate: BatchPrompt -> Generation,
    known: bool, saved: seq<StarAnswer>, steps: seq<StepId>)
    requires startId > TARGET_TOTAL
    ensures RunFrom(Ranges(startId), doc, generate, known, saved, steps) == Run(Completed(|saved|), saved, steps)
  {
    assert Ranges(startId) == [];
  }

  /** ... and a completed iteration hands on to the next range. */
  lemma RunFromContinued(
    startId: nat, nextId: nat, doc: Document, generate: BatchPrompt -> Generation,
    known: bool, saved: seq<StarAnswer>, steps: seq<StepId>, saved': seq<StarAnswer>, steps': seq<StepId>)
    requires startId <= TARGET_TOTAL && nextId == startId + BATCH_SIZE
    requires Iteration(startId, doc, generate, known, saved, steps) == Continued(saved', steps')
    ensures RunFrom(Ranges(startId), doc, generate, known, saved, steps)
      == RunFrom(Ranges(nextId), doc, generate, known, saved', steps')
  {
    assert Ranges(startId)[0] == BatchRange(startId, EndId(startId));
    assert Ranges(startId)[1..] == Ranges(nextId);
  }

  /** One save appends exactly the batch's rows to the user's rows and leaves
      every other row alone. */
  lemma SaveBatchEffect(
    before: seq<StarAnswerRow>, u: UserId, id: Uuid, at: Timestamp,
    savedBefore: seq<StarAnswer>, batch: seq<StarAnswer>)
    requires Contents(RowsOf(before, u)) == SaveValues(u, savedBefore)
    ensures var after := before + Stamp(SaveValues(u, batch), id, at);
      && Contents(RowsOf(after, u)) == SaveValues(u, savedBefore + batch)
      && RowsNotOf(after, u) == RowsNotOf(before, u)
  {
    var values := SaveValues(u, batch);
    var added := Stamp(values, id, at);
    RowsOfAppend(before, added, u);
    RowsNotOfAppend(before, added, u);
    RowsOfOwned(added, u);
    ContentsAppend(RowsOf(before, u), added);
    ContentsStamp(values, id, at);
    SaveValuesAppend(u, savedBefore, batch);
    assert RowsNotOf(before, u) + [] == RowsNotOf(before, u);
  }

  lemma ContentsStamp(values: seq<NewStarAnswer>, id: Uuid, at: Timestamp)
    ensures Contents(Stamp(values, id, at)) == values
  {
  }

  lemma SaveValuesAppend(u: UserId, a: seq<StarAnswer>, b: seq<StarAnswer>)
    ensures SaveValues(u, a + b) == SaveValues(u, a) + SaveValues(u, b)
  {
  }

  lemma {:induction false} ContentsAppend(a: seq<StarAnswerRow>, b: seq<StarAnswerRow>)
    ensures Contents(a + b) == Contents(a) + Contents(b)
  {
    if a == [] {
      assert a + b == b;
    } else {
      assert (a + b)[1..] == a[1..] + b;
      ContentsAppend(a[1..], b);
    }
  }

  // -----------------------------------------------------------------------
  // The loop's ranges
  // -----------------------------------------------------------------------

  /** The loop runs exactly five times, over 1-5, 6-10, 11-15, 16-20 and
      21-25. */
  lemma JobRanges()
    ensures Ranges(FIRST_START) == [BatchRange(1, 5), BatchRange(6, 10), BatchRange(11, 15), BatchRange(16, 20), BatchRange(21, 25)]
  {
    assert EndId(1) == 5 && EndId(6) == 10 && EndId(11) == 15 && EndId(16) == 20 && EndId(21) == 25;
    assert Ranges(26) == [];
    assert Ranges(21) == [BatchRange(21, 25)];
    assert Ranges(16) == [BatchRange(16, 20), BatchRange(21, 25)];
    assert Ranges(11) == [BatchRange(11, 15), BatchRange(16, 20), BatchRange(21, 25)];
    assert Ranges(6) == [BatchRange(6, 10), BatchRange(11, 15), BatchRange(16, 20), BatchRange(21, 25)];
  }

  predicate InRange(r: BatchRange, n: int)
  {
    r.startId <= n <= r.endId
  }

  /** The ranges partition 1..25: they start at 1, each starts right after
      the one before ends, the last ends at 25, and each prompt asks for five
      answers numbered from `5k + 1`. */
  lemma RangesPartitionTarget(doc: Document)
    ensures |Ranges(FIRST_START)| == 5 && Ranges(FIRST_START)[0].startId == 1 && Ranges(FIRST_START)[4].endId == TARGET_TOTAL
    ensures forall k :: 0 <= k < 4 ==> Ranges(FIRST_START)[k + 1].startId == Ranges(FIRST_START)[k].endId + 1
    ensures forall k :: 0 <= k < 5 ==> Ranges(FIRST_START)[k].endId - Ranges(FIRST_START)[k].startId + 1 == BATCH_SIZE
    ensures forall k :: 0 <= k < 5 ==> Prompt(doc, Ranges(FIRST_START)[k]) == BatchPrompt(doc, 5, 5 * k + 1)
  {
    JobRanges();
  }

  /** `batchNumber` is the 1-based iteration index, so the step ids of one
      run are pairwise distinct. */
  lemma BatchNumbersAreIterationIndex()
    ensures forall k :: 0 <= k < |Ranges(FIRST_START)| ==> BatchNumber(Ranges(FIRST_START)[k].startId) == k + 1
  {
    JobRanges();
  }

  // -----------------------------------------------------------------------
  // What a run saves and returns
  // -----------------------------------------------------------------------

  /** The answers of the batch for one range (none if the call failed). */
  function BatchOf(doc: Document, generate: BatchPrompt -> Generation, r: BatchRange): seq<StarAnswer>
  {
    match generate(Prompt(doc, r))
    case Generated(b) => b
    case GenerationFailed => []
  }

  function Flatten(doc: Document, generate: BatchPrompt -> Generation, ranges: seq<BatchRange>): seq<StarAnswer>
  {
    if ranges == [] then [] else BatchOf(doc, generate, ranges[0]) + Flatten(doc, generate, ranges[1..])
  }

  /** Every call of the given iterations returned at least one answer. */
  predicate AllGenerated(doc: Document, generate: BatchPrompt -> Generation, ranges: seq<BatchRange>)
  {
    forall r :: r in ranges ==> generate(Prompt(doc, r)).Generated? && generate(Prompt(doc, r)).answers != []
  }

  /** The step ids of the given iterations: generate then save, batch after
      batch. */
  function StepsFor(ranges: seq<BatchRange>): seq<StepId>
  {
    if ranges == [] then []
    else [GenerateBatch(BatchNumber(ranges[0].startId)), SaveBatch(BatchNumber(ranges[0].startId))] + StepsFor(ranges[1..])
  }

  /** When every call succeeds and the user exists, the loop completes,
      saves every batch in order and counts them all. */
  lemma {:induction false} RunAllGenerated(
    ranges: seq<BatchRange>, doc: Document, generate: BatchPrompt -> Generation,
    saved: seq<StarAnswer>, steps: seq<StepId>)
    requires AllGenerated(doc, generate, ranges)
    ensures RunFrom(ranges, doc, generate, true, saved, steps)
      == Run(Completed(|saved + Flatten(doc, generate, ranges)|), saved + Flatten(doc, generate, ranges), steps + StepsFor(ranges))
  {
    if ranges == [] {
      assert saved + [] == saved && steps + [] == steps;
    } else {
      var n := BatchNumber(ranges[0].startId);
      var batch := BatchOf(doc, generate, ranges[0]);
      var head := [GenerateBatch(n), SaveBatch(n)];
      assert ranges[0] in ranges;
      assert generate(Prompt(doc, ranges[0])) == Generated(batch);
      assert RunFrom(ranges, doc, generate, true, saved, steps)
        == RunFrom(ranges[1..], doc, generate, true, saved + batch, steps + head);
      RunAllGenerated(ranges[1..], doc, generate, saved + batch, steps + head);
      AppendAssoc(saved, batch, Flatten(doc, generate, ranges[1..]));
      AppendAssoc(steps, head, StepsFor(ranges[1..]));
    }
  }

  lemma AppendAssoc<T>(a: seq<T>, b: seq<T>, c: seq<T>)
    ensures a + b + c == a + (b + c)
  {
  }

  /** A run stores whole batches only: what it has saved is always the
      answers of its first `m` batches for some `m`, never part of a
      batch. */
  lemma {:induction false} RunSavesWholeBatches(
    ranges: seq<BatchRange>, doc: Document, generate: BatchPrompt -> Generation,
    userKnown: bool, saved: seq<StarAnswer>, steps: seq<StepId>)
    ensures exists m :: (0 <= m <= |ranges|
      && RunFrom(ranges, doc, generate, userKnown, saved, steps).saved == saved + Flatten(doc, generate, ranges[..m]))
  {
    var run := RunFrom(ranges, doc, generate, userKnown, saved, steps);
    assert Flatten(doc, generate, ranges[..0]) == [];
    if ranges == [] {
      assert run.saved == saved + Flatten(doc, generate, ranges[..0]);
    } else {
      var n := BatchNumber(ranges[0].startId);
      match generate(Prompt(doc, ranges[0]))
      case GenerationFailed =>
        assert run.saved == saved + Flatten(doc, generate, ranges[..0]);
      case Generated(batch) =>
        if batch == [] || !userKnown {
          assert run.saved == saved + Flatten(doc, generate, ranges[..0]);
        } else {
          var rest := RunFrom(ranges[1..], doc, generate, userKnown, saved + batch, steps + [GenerateBatch(n), SaveBatch(n)]);
          assert run == rest;
          RunSavesWholeBatches(ranges[1..], doc, generate, userKnown, saved + batch, steps + [GenerateBatch(n), SaveBatch(n)]);
          var m :| 0 <= m <= |ranges[1..]| && rest.saved == saved + batch + Flatten(doc, generate, ranges[1..][..m]);
          FlattenPrefix(doc, generate, ranges, m);
          AppendAssoc(saved, batch, Flatten(doc, generate, ranges[1..][..m]));
          assert run.saved == saved + Flatten(doc, generate, ranges[..m + 1]);
        }
    }
  }

  lemma FlattenPrefix(doc: Document, generate: BatchPrompt -> Generation, ranges: seq<BatchRange>, m: nat)
    requires m < |ranges|
    ensures Flatten(doc, generate, ranges[..m + 1]) == BatchOf(doc, generate, ranges[0]) + Flatten(doc, generate, ranges[1..][..m])
  {
    assert ranges[..m + 1][0] == ranges[0];
    assert ranges[..m + 1][1..] == ranges[1..][..m];
  }

  /** A run completes only if every model call succeeded with at least one
      answer. */
  lemma {:induction false} CompletedOnlyIfAllGenerated(
    ranges: seq<BatchRange>, doc: Document, generate: BatchPrompt -> Generation,
    userKnown: bool, saved: seq<StarAnswer>, steps: seq<StepId>)
    ensures RunFrom(ranges, doc, generate, userKnown, saved, steps).outcome.Completed? ==> AllGenerated(doc, generate, ranges)
  {
    if ranges != [] {
      var n := BatchNumber(ranges[0].startId);
      match generate(Prompt(doc, ranges[0]))
      case GenerationFailed =>
      case Generated(batch) =>
        CompletedOnlyIfAllGenerated(ranges[1..], doc, generate, userKnown, saved + batch, steps + [GenerateBatch(n), SaveBatch(n)]);
        forall r | r in ranges ensures RunFrom(ranges, doc, generate, userKnown, saved, steps).outcome.Completed? ==>
          generate(Prompt(doc, r)).Generated? && generate(Prompt(doc, r)).answers != [] {
          if r != ranges[0] {
            assert r in ranges[1..];
          }
        }
    }
  }

  /** When every one of the five calls succeeds and the user exists, the job
      completes with the five batches saved in order, returns their total
      size, and its steps are purge, then generate-batch-k and save-batch-k
      for k = 1..5. No count or shape check is made on the batches. */
  lemma JobCompleted(doc: Document, generate: BatchPrompt -> Generation)
    requires AllGenerated(doc, generate, Ranges(FIRST_START))
    ensures var run := Job(doc, generate, true);
      && run.saved == BatchOf(doc, generate, BatchRange(1, 5)) + (BatchOf(doc, generate, BatchRange(6, 10))
           + (BatchOf(doc, generate, BatchRange(11, 15)) + (BatchOf(doc, generate, BatchRange(16, 20))
           + BatchOf(doc, generate, BatchRange(21, 25)))))
      && run.outcome == Completed(|run.saved|)
      && run.steps == [PurgeExistingAnswers, GenerateBatch(1), SaveBatch(1), GenerateBatch(2), SaveBatch(2),
                       GenerateBatch(3), SaveBatch(3), GenerateBatch(4), SaveBatch(4), GenerateBatch(5), SaveBatch(5)]
  {
    var ranges := Ranges(FIRST_START);
    var f := Flatten(doc, generate, ranges);
    RunAllGenerated(ranges, doc, generate, [], [PurgeExistingAnswers]);
    assert [] + f == f;
    JobFlatten(doc, generate);
    JobSteps();
  }

  lemma JobFlatten(doc: Document, generate: BatchPrompt -> Generation)
    ensures Flatten(doc, generate, Ranges(FIRST_START))
      == BatchOf(doc, generate, BatchRange(1, 5)) + (BatchOf(doc, generate, BatchRange(6, 10))
         + (BatchOf(doc, generate, BatchRange(11, 15)) + (BatchOf(doc, generate, BatchRange(16, 20))
         + BatchOf(doc, generate, BatchRange(21, 25)))))
  {
    JobRanges();
    var r1, r2, r3, r4, r5 := BatchRange(1, 5), BatchRange(6, 10), BatchRange(11, 15), BatchRange(16, 20), BatchRange(21, 25);
    var b1, b2, b3, b4, b5 := BatchOf(doc, generate, r1), BatchOf(doc, generate, r2), BatchOf(doc, generate, r3),
      BatchOf(doc, generate, r4), BatchOf(doc, generate, r5);
    assert [r5][1..] == [];
    assert [r4, r5][1..] == [r5];
    assert [r3, r4, r5][1..] == [r4, r5];
    assert [r2, r3, r4, r5][1..] == [r3, r4, r5];
    assert [r1, r2, r3, r4, r5][1..] == [r2, r3, r4, r5];
    assert Flatten(doc, generate, [r5]) == b5 + [];
    assert Flatten(doc, generate, [r4, r5]) == b4 + b5;
    assert Flatten(doc, generate, [r3, r4, r5]) == b3 + (b4 + b5);
    assert Flatten(doc, generate, [r2, r3, r4, r5]) == b2 + (b3 + (b4 + b5));
  }

  lemma JobSteps()
    ensures [PurgeExistingAnswers] + StepsFor(Ranges(FIRST_START)) == [PurgeExistingAnswers, GenerateBatch(1), SaveBatch(1), GenerateBatch(2), SaveBatch(2),
      GenerateBatch(3), SaveBatch(3), GenerateBatch(4), SaveBatch(4), GenerateBatch(5), SaveBatch(5)]
  {
    JobRanges();
    var r1, r2, r3, r4, r5 := BatchRange(1, 5), BatchRange(6, 10), BatchRange(11, 15), BatchRange(16, 20), BatchRange(21, 25);
    assert [r5][1..] == [];
    assert [r4, r5][1..] == [r5];
    assert [r3, r4, r5][1..] == [r4, r5];
    assert [r2, r3, r4, r5][1..] == [r3, r4, r5];
    assert [r1, r2, r3, r4, r5][1..] == [r2, r3, r4, r5];
    assert StepsFor([r5]) == [GenerateBatch(5), SaveBatch(5)] + [];
    assert StepsFor([r4, r5]) == [GenerateBatch(4), SaveBatch(4)] + StepsFor([r5]);
    assert StepsFor([r3, r4, r5]) == [GenerateBatch(3), SaveBatch(3)] + StepsFor([r4, r5]);
    assert StepsFor([r2, r3, r4, r5]) == [GenerateBatch(2), SaveBatch(2)] + StepsFor([r3, r4, r5]);
  }

  /** If every batch has exactly five answers, the job reports 25. */
  lemma FiveEachGivesTarget(doc: Document, generate: BatchPrompt -> Generation)
    requires forall k :: 0 <= k < 5 ==>
      generate(BatchPrompt(doc, 5, 5 * k + 1)).Generated? && |generate(BatchPrompt(doc, 5, 5 * k + 1)).answers| == 5
    ensures Job(doc, generate, true).outcome == Completed(TARGET_TOTAL)
  {
    JobRanges();
    RangesPartitionTarget(doc);
    assert AllGenerated(doc, generate, Ranges(FIRST_START)) by {
      forall r | r in Ranges(FIRST_START) ensures generate(Prompt(doc, r)).Generated? && generate(Prompt(doc, r)).answers != [] {
        var k :| 0 <= k < 5 && Ranges(FIRST_START)[k] == r;
      }
    }
    JobCompleted(doc, generate);
    assert Prompt(doc, BatchRange(1, 5)) == BatchPrompt(doc, 5, 5 * 0 + 1);
    assert Prompt(doc, BatchRange(6, 10)) == BatchPrompt(doc, 5, 5 * 1 + 1);
    assert Prompt(doc, BatchRange(11, 15)) == BatchPrompt(doc, 5, 5 * 2 + 1);
    assert Prompt(doc, BatchRange(16, 20)) == BatchPrompt(doc, 5, 5 * 3 + 1);
    assert Prompt(doc, BatchRange(21, 25)) == BatchPrompt(doc, 5, 5 * 4 + 1);
  }

  /** A first batch that comes back empty ends the job at `save-batch-1`,
      with nothing saved, whether or not the user exists. */
  lemma EmptyBatchFailsSave(doc: Document, generate: BatchPrompt -> Generation, userKnown: bool)
    requires generate(BatchPrompt(doc, 5, 1)) == Generated([])
    ensures Job(doc, generate, userKnown) == Run(SaveFailed(1), [], [PurgeExistingAnswers, GenerateBatch(1)])
  {
    JobRanges();
    assert Prompt(doc, BatchRange(1, 5)) == BatchPrompt(doc, 5, 1);
  }

  /** A model whose batches have 6, 4, 5, 5 and 5 answers. */
  function UnevenBatches(a: StarAnswer, p: BatchPrompt): (g: Generation)
    ensures g.Generated? && |g.answers| == if p.firstId == 1 then 6 else if p.firstId == 6 then 4 else 5
  {
    Generated(seq(if p.firstId == 1 then 6 else if p.firstId == 6 then 4 else 5, _ => a))
  }

  /** The converse does not hold: a count of 25 does not mean every batch had
      five answers. A model that answers 6, 4, 5, 5, 5 also yields 25. */
  lemma TargetWithoutFiveEach(a: StarAnswer, doc: Document)
    ensures var generate := (p: BatchPrompt) => UnevenBatches(a, p);
      && Job(doc, generate, true).outcome == Completed(TARGET_TOTAL)
      && |BatchOf(doc, generate, BatchRange(1, 5))| == 6
  {
    var generate := (p: BatchPrompt) => UnevenBatches(a, p);
    JobRanges();
    assert AllGenerated(doc, generate, Ranges(FIRST_START));
    JobCompleted(doc, generate);
    assert |BatchOf(doc, generate, BatchRange(1, 5))| == 6;
    assert |BatchOf(doc, generate, BatchRange(6, 10))| == 4;
    assert |BatchOf(doc, generate, BatchRange(11, 15))| == 5;
    assert |BatchOf(doc, generate, BatchRange(16, 20))| == 5;
    assert |BatchOf(doc, generate, BatchRange(21, 25))| == 5;
  }
}
