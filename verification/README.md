# behave: the answer-generation core, modelled in Dafny

behave turns a user's career document into behavioural-interview answers in
STAR form: Situation, Task, Action, Result. A language model writes them.
They are stored per user in the `star_answers` table and shown to the user
while they are being generated. This project models and proves the core of that
pipeline:

- **The background job** (`BatchJob`). It purges the user's answers, then
  asks the model for five batches (ids 1-5, 6-10, ..., 21-25). It saves
  each batch as soon as it has it, filling in a missing full answer, and
  reports how many answers it generated.
- **The store** (`Schema`, `AnswerStore`). The five tables the pipeline
  touches are one `Store` object whose sequences the DELETE and the
  multi-row INSERT update in place. Foreign keys and their referential
  actions are part of its invariant. The `created_at` default stamps every
  row of one insert alike.
- **The readers.** `GET /api/get-answers` (`GetAnswers`) returns a polling
  snapshot numbered 1..n by position. `GET /api/answers-stream`
  (`AnswersStream`) is a registry of per-user channels that share one
  poller each and broadcast a snapshot only when its count changes.
  `POST /api/clear-answers` (`ClearAnswers`) deletes the caller's answers.
- **The chaining page** (`AnswersPage`). It requests one batch at a time
  and decides from the number of completed answers whether to ask for the
  next one.
- **The smaller pieces.**
  - `GenerateRoute`: the one-shot generation route, with its JSON
    extraction and fallback answer.
  - `UploadCareerDoc` and `PresignSchemas`: the upload form's file-name
    derivation and the presign validators.
  - `QueryKeys`: the query-key factory.
  - `ResultsExport`: the plain-text export of the results page.
  - `PracticePage`: the practice page's clock, codec choice and recorder
    state. The repository has two copies of that page with the same
    logic, and one model covers both.

Whatever the code cannot see is a parameter of the model:

| collaborator | in the model |
|---|---|
| the language model | a function from prompt to batch or to reply text |
| `JSON.parse` | a function from text to parsed object |
| the rows a query returned | a parameter (`None` when the query threw) |
| the session lookup | a `Session` value |
| timers | the callers of `Tick` and `SendHeartbeat` |
| the browser's media devices | parameters: what `getUserMedia` granted, `isTypeSupported`, and whether `new MediaRecorder` and its `start` succeeded |

Where the behaviour one would expect of such a system and the code
differ, the model follows the code:

- **No batch validation.** The intended behaviour would be to check each
  batch's size and shape and to fail a malformed batch. The code checks
  nothing and saves whatever comes back. So a completed job reports the
  sum of the batch sizes, which need not be 25 (`TargetWithoutFiveEach`).
- **Empty batches.** A batch that comes back empty fails its save step.
  The query builder refuses an insert of no rows.
- **No duplicate-free stream.** A push subscriber should never receive
  the same snapshot twice. The code sends a first subscriber its snapshot
  twice (see Findings).
- **No rate limiter.** Generation is not limited per user: no core file
  implements a rate limiter.
- **A page the route refuses.** The chaining page posts
  `{ startId, batchSize }` to `/api/generate-answers`. That route reads
  only `content` and answers 400 when it is missing. As written, every
  chain therefore ends after its first request with no answer
  (`AnswersPage.ChainPage.StartAgainstRoute`). The chain lemmas describe
  the page's own logic when a request does return a batch.

## Model

| member | source | states |
|---|---|---|
| Schema.Stamp | src/db/schema.ts:86-98 | the rows one insert creates: one per value, in order, values unchanged, fresh consecutive ids, and one shared `created_at` |
| Schema.RowsOf | src/app/api/get-answers/route.ts:52-56 | `WHERE user_id = u` keeps exactly the rows of `u` and no others |
| Schema.RowsNotOf | src/app/api/clear-answers/route.ts:24 | the DELETE leaves exactly the rows of other users |
| Schema.AuthRowsNotOf | src/db/schema.ts:40-51 | the cascade removes exactly the user's `session` and `account` rows |
| Schema.RowsNotOfPurged | src/app/api/clear-answers/route.ts:24 | after the purge the user owns no row, and purging again changes nothing |
| Schema.RowsNotOfKeepsOthers | src/app/api/clear-answers/route.ts:24 | purging one user leaves every other user's rows identical and in the same order |
| Schema.BatchesInInsertOrder | src/app/api/get-answers/route.ts:52-56 | in any read ordered by `created_at`, a row of an earlier insert precedes every row of a later one |
| Schema.IsOrderedRead | src/app/api/get-answers/route.ts:52-56 | a read ordered by `created_at`: the user's rows, each once, ties in any order; see `BatchesInInsertOrder` and `OrderedReadsAgreeOnRows` |
| Schema.OrderedReadsAgreeOnRows | src/app/api/get-answers/route.ts:52-56 | two ordered reads differ only in how ties are broken: same rows, same count |
| AnswerStore.Store.constructor | src/db/schema.ts:16-115 | empty tables satisfy every foreign key |
| AnswerStore.Store.Snapshot | src/app/api/get-answers/route.ts:52-56 | one admissible ordered read: exactly the user's rows in non-decreasing `created_at` order |
| AnswerStore.Store.AddUser | src/db/schema.ts:16-28 | a `user` row is added and nothing else changes |
| AnswerStore.Store.AddSession | src/db/schema.ts:30-43 | a `session` row is accepted exactly when it names an existing user |
| AnswerStore.Store.AddPracticeSession | src/db/schema.ts:101-115 | a practice session is accepted exactly when its user and its answer exist |
| AnswerStore.Store.Purge | src/db/schema.ts:106-108 | deleting a user's answers removes all of them and only them, or is rejected as a whole while a practice session refers to one |
| AnswerStore.Store.Insert | src/db/schema.ts:86-99 | a multi-row insert appends the stamped rows after all others, or is rejected as a whole when a row names an unknown user |
| AnswerStore.Store.DeleteUser | src/db/schema.ts:30-51 | deleting a user cascades to sessions and accounts, and is rejected while the user owns answers or practice sessions |
| GetAnswers.FormatAnswers | src/app/api/get-answers/route.ts:64-73 | one payload per row, in order, numbered 1..n by position, with the seven text fields copied unchanged |
| GetAnswers.GetAnswers | src/app/api/get-answers/route.ts:33-86 | a failed lookup or read is 500; without a user id it is 401; otherwise every row read, numbered, with `count` equal to their number |
| GetAnswers.PollingSnapshot | src/app/api/get-answers/route.ts:52-78 | for any ordered read: count equals the number of the caller's rows, each answer copies one of them, and earlier batches are numbered first |
| ClearAnswers.ClearAnswers | src/app/api/clear-answers/route.ts:13-34 | 401 without a user id, 500 on failure with the table unchanged; on success the caller has no answer and every other user's snapshot is unchanged |
| ClearAnswers.ClearTwice | src/app/api/clear-answers/route.ts:24-26 | when the first call succeeds the second succeeds too, and the table is as after one purge |
| QueryKeys.FilesAll | src/lib/query-keys.ts:4 | the key is the single segment `files` |
| QueryKeys.FilesByUser | src/lib/query-keys.ts:5 | exactly the key `files`, `byUser`, then the user id |
| QueryKeys.AllPrefixesByUser | src/lib/query-keys.ts:4-5 | `all()` is a proper prefix of every `byUser(u)`, so invalidating it reaches every user's key |
| QueryKeys.ByUserInjective | src/lib/query-keys.ts:5 | two users share a key exactly when their ids are equal |
| PresignSchemas.RequestIssues | src/lib/zod-schemas.ts:3-11 | no issue exactly when the name is non-empty and the type is one of the four; each issue present exactly when its check fails |
| PresignSchemas.ParseRequest | src/lib/zod-schemas.ts:3-11 | accepted, unchanged, exactly when the request has no issue; otherwise rejected with all its issues |
| PresignSchemas.AnyNonEmptyNameAccepted | src/lib/zod-schemas.ts:4 | any non-empty file name with an allowed type is accepted |
| PresignSchemas.OctetStreamRejected | src/lib/zod-schemas.ts:5-10 | the generic binary type is always rejected |
| PresignSchemas.ParameterisedTypeRejected | src/lib/zod-schemas.ts:5-10 | a content type with parameters is rejected even when its bare type is allowed |
| PresignSchemas.ParseResponse | src/lib/zod-schemas.ts:15-17 | a response is accepted exactly when `uploadURL` is a string that parses as a URL |
| UploadCareerDoc.FormLimitCountsCodeUnits | src/components/upload-career-doc.tsx:27-29 | the 50 limit is on code units: for names within the Basic Multilingual Plane it is the character count, no longer name passes, and 30 emoji (60 code units) are refused |
| UploadCareerDoc.FormValid | src/components/upload-career-doc.tsx:27-29 | the custom name's length in UTF-16 code units is at most 50; see `FormLimitCountsCodeUnits` |
| UploadCareerDoc.UserSlug | src/components/upload-career-doc.tsx:36 | the slug exists exactly when the name does, has its length and no space |
| UploadCareerDoc.BaseFileName | src/components/upload-career-doc.tsx:97-99 | a non-blank custom name wins, its untrimmed spaces dashed; otherwise the file's own name; never a space |
| UploadCareerDoc.ContentTypeOf | src/components/upload-career-doc.tsx:102 | the file's type when known, else a non-empty fallback |
| UploadCareerDoc.FileName | src/components/upload-career-doc.tsx:97-101 | the user slug, a dash and the base name, or the base name alone; see `FileNameHasNoSpace` and `FileNameEmptyIff` |
| UploadCareerDoc.FileNameHasNoSpace | src/components/upload-career-doc.tsx:97-101 | no derived object name contains a space |
| UploadCareerDoc.FileNameEmptyIff | src/components/upload-career-doc.tsx:97-101 | the name is empty exactly when there is no user name to prefix, the custom name is blank and the file name is empty |
| UploadCareerDoc.UntypedDocumentRejected | src/components/upload-career-doc.tsx:102-109 | a file of unknown type is always refused by the presign schema |
| UploadCareerDoc.RequestFor | src/components/upload-career-doc.tsx:101-102 | the derived request has a space-free name and a non-empty type |
| UploadCareerDoc.Validate | src/components/upload-career-doc.tsx:90-109 | the form schema (at most 50 UTF-16 code units) is checked first, then the presence of a file, then the derived request, whose first issue is reported; the request goes ahead exactly when all three pass, and it is the one derived from the file |
| UploadCareerDoc.UploadForm.constructor | src/components/upload-career-doc.tsx:43-53 | no document, an empty custom name, nothing sent |
| UploadCareerDoc.UploadForm.SelectDocument | src/components/upload-career-doc.tsx:179-185 | the chosen file becomes the document; nothing is sent |
| UploadCareerDoc.UploadForm.SetCustomName | src/components/upload-career-doc.tsx:196-224 | the field takes the typed value; nothing is sent |
| UploadCareerDoc.UploadForm.Submit | src/components/upload-career-doc.tsx:90-156 | nothing is sent unless the form and the request validate, with the first issue reported; each exchange runs only after the previous one succeeded; only a recorded upload resets the form |
| UploadCareerDoc.UploadForm.Send | src/components/upload-career-doc.tsx:110-146 | presign, upload and record in that order, each only after the previous success, with the exact request, URL and metadata sent |
| BatchJob.StoredFullAnswer | src/lib/inngest/functions.ts:185-187 | never empty: the model's full answer when non-empty, else the four STAR parts joined by blank lines |
| BatchJob.SaveValues | src/lib/inngest/functions.ts:176-188 | one row per answer of this batch only, each owned by the job's user |
| BatchJob.RunFrom | src/lib/inngest/functions.ts:74-203 | the batch loop from a given iteration on; see `RunLoop`, `RunAllGenerated`, `RunSavesWholeBatches` and `CompletedOnlyIfAllGenerated` |
| BatchJob.Iteration | src/lib/inngest/functions.ts:75-196 | one iteration: generate, then save, stopping at the first failure; see `RunBatch` |
| BatchJob.Job | src/lib/inngest/functions.ts:65-203 | the purge step, then the loop from answer 1; see `GenerateAnswers`, `JobCompleted` and `JobRanges` |
| BatchJob.GenerateAnswers | src/lib/inngest/functions.ts:55-203 | a rejected purge stops the job with nothing changed; otherwise the run goes as `Job` says, the user's rows are exactly the saved batches and no other row changes |
| BatchJob.RunBatches | src/lib/inngest/functions.ts:65-203 | from no rows for the user, the loop ends as `Job` says, with exactly its saved answers stored |
| BatchJob.RunLoop | src/lib/inngest/functions.ts:74-197 | the loop from any start follows `RunFrom`: same outcome and steps, the user's rows are the answers it saved, and other users' rows are unchanged |
| BatchJob.RunBatch | src/lib/inngest/functions.ts:75-196 | one iteration: it stops as `Iteration` says with nothing saved, or completes with this batch stored after the earlier ones |
| BatchJob.SaveBatchRows | src/lib/inngest/functions.ts:170-196 | the save succeeds exactly when the batch is non-empty and the user exists, and then adds exactly this batch |
| BatchJob.SaveBatchEffect | src/lib/inngest/functions.ts:176-191 | one insert appends exactly the batch to the user's rows and no other row changes |
| BatchJob.JobRanges | src/lib/inngest/functions.ts:74-76 | the loop runs exactly five times, over 1-5, 6-10, 11-15, 16-20 and 21-25 |
| BatchJob.RangesPartitionTarget | src/lib/inngest/functions.ts:74-134 | the ranges partition 1..25 without gap or overlap, and prompt k asks for five answers numbered from 5k+1 |
| BatchJob.BatchNumbersAreIterationIndex | src/lib/inngest/functions.ts:75 | `batchNumber` is the 1-based iteration index, so step ids never repeat |
| BatchJob.RunAllGenerated | src/lib/inngest/functions.ts:74-203 | when every call returns answers and the user exists, the run completes, saves every batch in order, and reports their total |
| BatchJob.RunSavesWholeBatches | src/lib/inngest/functions.ts:161-191 | what a run has saved is always its first m batches, never part of one |
| BatchJob.CompletedOnlyIfAllGenerated | src/lib/inngest/functions.ts:83-196 | a run completes only if every model call returned at least one answer |
| BatchJob.JobCompleted | src/lib/inngest/functions.ts:55-203 | on success the five batches are saved in order, the count is their total, and the steps are purge then generate-k and save-k for k = 1..5 |
| BatchJob.EmptyBatchFailsSave | src/lib/inngest/functions.ts:170-191 | an empty first batch ends the job at `save-batch-1` with nothing saved |
| BatchJob.FiveEachGivesTarget | src/lib/inngest/functions.ts:161-203 | five answers per batch give a count of 25 |
| BatchJob.TargetWithoutFiveEach | src/lib/inngest/functions.ts:203 | the converse fails: batches of 6, 4, 5, 5, 5 also report 25 |
| GenerateRoute.ExtractJson | src/app/api/generate-answers/route.ts:58 | a match exists exactly when some `}` follows some `{`, and it runs from the first `{` to the last `}` |
| GenerateRoute.ReadAnswers | src/app/api/generate-answers/route.ts:55-80 | the parsed `answers`, none when the member is missing, and the one fallback answer when there is no object or it does not parse |
| GenerateRoute.FallbackAnswer | src/app/api/generate-answers/route.ts:68-79 | the whole reply as the full answer of one general answer; see `ReadAnswers` and `ReplyWithoutObjectIsKept` |
| GenerateRoute.GenerateAnswers | src/app/api/generate-answers/route.ts:5-92 | blank or missing content is 400; a failed call or a non-string content is 500; otherwise the answers read from the reply with their count |
| GenerateRoute.BlankContentNeverCallsModel | src/app/api/generate-answers/route.ts:9-11 | for blank content the response is 400 whatever the model would answer |
| GenerateRoute.ReplyWithoutObjectIsKept | src/app/api/generate-answers/route.ts:62-80 | a reply without `{` comes back whole as the full answer of the one fallback answer |
| GenerateRoute.ObjectReplyParsedWhole | src/app/api/generate-answers/route.ts:58-60 | a JSON object surrounded by brace-free text is handed to the parser exactly |
| Text.Utf16Length | src/components/upload-career-doc.tsx:28 | JavaScript `length` in UTF-16 code units: between the character count and twice it, equal to it exactly when no character lies beyond U+FFFF, twice it when all do |
| Text.Trim | src/app/api/generate-answers/route.ts:9 | `trim()`; see `TrimEmptyIffBlank` |
| Text.TrimEmptyIffBlank | src/app/api/generate-answers/route.ts:9 | `trim()` is empty exactly when every character is whitespace |
| AnswersStream.SnapshotOf | src/app/api/answers-stream/route.ts:32-49 | one payload per row, numbered 1..n by position, fields copied, count equal to their number |
| AnswersStream.RegisterKeepsInv | src/app/api/answers-stream/route.ts:61-88 | adding a listener keeps every channel live and at most one poller per user, starting one only for a new channel |
| AnswersStream.RecountKeepsInv | src/app/api/answers-stream/route.ts:76-80 | changing a channel's last count keeps the registry consistent |
| AnswersStream.UnregisterKeepsInv | src/app/api/answers-stream/route.ts:161-167 | removing a listener keeps the registry consistent, and stops the poller exactly when the channel empties |
| AnswersStream.Registry.constructor | src/app/api/answers-stream/route.ts:30 | no channel and no poller |
| AnswersStream.Registry.EnsureChannel | src/app/api/answers-stream/route.ts:61-88 | an existing channel is reused, a missing one created at count 0, and a poller started only if none runs |
| AnswersStream.Registry.StopChannelIfIdle | src/app/api/answers-stream/route.ts:51-59 | a polling channel without listeners is removed with its poller; anything else is left alone |
| AnswersStream.Registry.RegisterListener | src/app/api/answers-stream/route.ts:146-148 | the new listener joins its user's channel under a fresh id, and a poller starts only for a new channel |
| AnswersStream.Registry.Connect | src/app/api/answers-stream/route.ts:106-149 | as written: 401 without a user id and nothing created; otherwise the snapshot is sent, the count raised only on an existing channel, and the listener registered |
| AnswersStream.Registry.ConnectRegisteringFirst | src/app/api/answers-stream/route.ts:131-148 | corrected: the channel is registered before its count is raised to the snapshot sent |
| AnswersStream.Registry.Tick | src/app/api/answers-stream/route.ts:73-84 | a changed count is sent once to every listener and recorded; an equal count or a failed read changes nothing |
| AnswersStream.Registry.SendHeartbeat | src/app/api/answers-stream/route.ts:151-159 | an open connection gets one heartbeat carrying the time; nothing else changes |
| AnswersStream.Registry.Disconnect | src/app/api/answers-stream/route.ts:161-167 | only this listener leaves; the channel and its poller go exactly when it was the last |
| AnswersStream.FirstSubscriberDuplicate | src/app/api/answers-stream/route.ts:137-148 | as written, a first subscriber to existing answers receives the same snapshot as `initial` and again as `update` |
| AnswersStream.FirstSubscriberNoDuplicate | src/app/api/answers-stream/route.ts:137-148 | corrected, the same subscriber receives the snapshot once |
| AnswersStream.Frame | src/app/api/answers-stream/route.ts:121-128 | an event line, a data line and a blank line |
| AnswersStream.ParseFrameOfFrame | src/app/api/answers-stream/route.ts:121-128 | a frame reads back as its event and data when neither holds a line break |
| AnswersStream.FrameOfParseFrame | src/app/api/answers-stream/route.ts:121-128 | only frames read back: whatever parses is the frame of what it parsed to |
| AnswersPage.ChainDecision | src/app/answers/page.tsx:66-108 | idle while not chaining or loading; finish at 25 or more; else with at least one answer ask for count+1 in a batch of 5; with none do nothing |
| AnswersPage.ChainFrom | src/app/answers/page.tsx:66-108 | the chain of batches, each finish followed by the effect's decision; see `ChainOutcome` and `ChainRequestsFollowCount` |
| AnswersPage.ChainRequestsFollowCount | src/app/answers/page.tsx:91-107 | every request of a chain starts right after the answers then completed, which are fewer than 25 |
| AnswersPage.ChainOutcome | src/app/answers/page.tsx:66-108 | a chain stops only at 25 or more, counts every finished batch, and stays chaining with nothing outstanding only with no answer |
| AnswersPage.FullBatchesChain | src/app/answers/page.tsx:91-130 | full batches request 1, 6, 11, 16, 21 and stop at 25 |
| AnswersPage.ShortBatchShiftsNextStart | src/app/answers/page.tsx:91-106 | after a batch of 3 the next request starts at 4 |
| AnswersPage.EmptyFirstBatchStalls | src/app/answers/page.tsx:91-107 | an empty first batch leaves the page chaining forever with no request outstanding |
| AnswersPage.NonEmptyBatchesFinish | src/app/answers/page.tsx:77-107 | when no batch is empty the chain stops with at least 25 answers |
| AnswersPage.LoadingBelowTarget | src/app/answers/page.tsx:77-107 | while a request is outstanding fewer than 25 answers are complete |
| AnswersPage.ChainPage.constructor | src/app/answers/page.tsx:20-40 | nothing completed, not chaining, nothing sent |
| AnswersPage.ChainPage.Submit | src/app/answers/page.tsx:106 | the request is sent and loading begins; the hook's `submit` first drops its previous object, so the page then shows exactly the completed answers, none twice |
| AnswersPage.ChainPage.StartGeneration | src/app/answers/page.tsx:120-130 | completed answers emptied, chaining on, the batch from 1 requested, and nothing of an earlier run left on display |
| AnswersPage.ChainPage.Stream | src/app/answers/page.tsx:114 | the partial object replaces the streaming answers |
| AnswersPage.ChainPage.OnFinish | src/app/answers/page.tsx:43-48 | a finished batch is appended after the completed answers and nothing is removed |
| AnswersPage.ChainPage.OnError | src/app/answers/page.tsx:49-57 | chaining stops and the completed answers stay |
| AnswersPage.ChainPage.Settle | src/app/answers/page.tsx:38 | loading ends |
| AnswersPage.ChainPage.Receive | src/app/answers/page.tsx:43-57 | answers go to the completed list; an error stops chaining; loading ends |
| AnswersPage.ChainPage.StartAgainstRoute | src/app/answers/page.tsx:120-130 | against the route as written the first request is refused and the chain ends with no answer |
| AnswersPage.ChainPage.Effect | src/app/answers/page.tsx:66-108 | the effect does what `ChainDecision` says and nothing else; submitting the next batch clears the streamed one, so the display is the completed answers |
| AnswersPage.ChainPage.Display | src/app/answers/page.tsx:114-115 | the completed answers followed by the streaming ones; `Submit` and `Effect` state that right after a request it is the completed answers alone |
| ResultsExport.Blocks | app/upload/results/page.tsx:43-63 | one block per answer, in list order, numbered by position |
| ResultsExport.Block | app/upload/results/page.tsx:44-63 | one answer's text; see `BlockFrame` and `ExportIgnoresIds` |
| ResultsExport.Export | app/upload/results/page.tsx:43-65 | the blocks joined by line breaks; see `ExportEmptyIff`, `ExportSnoc` and `Download` |
| ResultsExport.BlockFrame | app/upload/results/page.tsx:44-63 | each block opens with `ANSWER k+1` and ends with exactly 80 `=` and a line break |
| ResultsExport.ExportIgnoresIds | app/upload/results/page.tsx:46 | the export does not depend on the answers' ids |
| ResultsExport.ExportEmptyIff | app/upload/results/page.tsx:65 | the export is empty exactly when there is no answer |
| ResultsExport.ExportSnoc | app/upload/results/page.tsx:43-65 | one more answer adds one line break and its block at the end, changing nothing before |
| ResultsExport.ResultsPage.constructor | app/upload/results/page.tsx:21-25 | no answers, nothing selected, no redirect |
| ResultsExport.ResultsPage.Load | app/upload/results/page.tsx:27-40 | stored answers replace the list and the first is selected; with nothing stored the page goes to `/upload` |
| ResultsExport.ResultsPage.Select | app/upload/results/page.tsx:127-129 | the clicked answer becomes the selection, and exactly the entries with its id are highlighted |
| ResultsExport.ResultsPage.Highlighted | app/upload/results/page.tsx:129 | an entry is highlighted when its id is the selected answer's; see `Select` |
| ResultsExport.ResultsPage.Download | app/upload/results/page.tsx:42-74 | the downloaded text is empty exactly when no answer is loaded |
| PracticePage.FormatTimeRoundTrip | src/app/practice/page.tsx:95-101 | reading the clock back gives minutes times 60 plus seconds, the original number |
| PracticePage.ParseClock | src/app/practice/page.tsx:98-100 | two numerals around a colon read back as minutes and seconds |
| PracticePage.FormatTimeShape | app/practice/page.tsx:79-82 | under 100 minutes the clock is exactly `MM:SS` with seconds below 60 |
| PracticePage.ChooseMimeType | src/app/practice/page.tsx:159-169 | vp8/opus when supported, else vp9/opus when supported, else plain webm, each exactly in its case; any type but the plain-webm fallback is a supported one |
| PracticePage.FormatTime | src/app/practice/page.tsx:95-101 | padded minutes, `:`, padded seconds; its meaning is stated by `FormatTimeRoundTrip` and `FormatTimeShape` |
| PracticePage.PracticeSession.constructor | src/app/practice/page.tsx:21-35 | no stream, no recorder, no chunks, camera and mic on, timer 0 |
| PracticePage.PracticeSession.StartCamera | src/app/practice/page.tsx:103-130 | a granted stream is kept and the camera marked started; a refusal records the error |
| PracticePage.PracticeSession.ToggleCamera | app/practice/page.tsx:110-118 | the first video track's flag flips and the page mirrors it; without a stream or track nothing changes |
| PracticePage.PracticeSession.ToggleMic | app/practice/page.tsx:120-128 | the same for the first audio track |
| PracticePage.PracticeSession.StartRecording | src/app/practice/page.tsx:152-208 | without a stream, or when the recorder cannot be created, nothing changes; once created it replaces the recorder and the chunks are emptied; if `start` throws it stays inactive and recording and timer are untouched, otherwise recording is on and the timer is 0; the camera, mic and stream are untouched |
| PracticePage.PracticeSession.DataAvailable | src/app/practice/page.tsx:179-184 | only a non-empty chunk is appended, after the others; the camera and mic state is untouched |
| PracticePage.PracticeSession.StopRecording | src/app/practice/page.tsx:210-219 | the recorder is stopped only when not inactive, and recording is off in every case; the camera and mic state is untouched |
| PracticePage.PracticeSession.RecorderStopped | src/app/practice/page.tsx:186-198 | the collected chunks become the recording, in the recorder's type; the camera and mic state is untouched |
| PracticePage.PracticeSession.Tick | src/app/practice/page.tsx:36-44 | the timer goes up by exactly one, and only while recording; the camera and mic state is untouched |

## Left out

- The language model, `JSON.parse`, URL parsing, S3, `fetch` and the identity service are parameters: their own behaviour is not modelled.
- The prompt text is not modelled. Only what varies in it is: the document, or the built-in sample when none was given, the answer count and the first id.
- Step memoisation and retries by the job runner are not modelled. Each step runs once, and a thrown step ends the run.
- Timers are not modelled. `setInterval` for the poller, the heartbeat and the practice clock, and the clock behind `Date.now()`, are callers or parameters.
- Concurrency is not modelled: interleavings of pollers, connections and jobs. Each operation runs atomically.
- The transport is not modelled. `ReadableStream`, encoding frames to bytes, the abort signal and `EventSource` are outside the model. Disconnect is a call that names the listener.
- React hook internals are not modelled: re-rendering, effect scheduling and the streaming hook's partial-JSON parsing. Toasts, console logging and the JSX markup are also outside the model.
- Session storage and `JSON.parse` of stored answers are not modelled: `Load` receives the parsed list. The blob and object URL of the download are not modelled either.
- The practice page's playback controls are not modelled: `handlePlayRecording`, `handleBackToCamera` and the video elements' `play`/`pause` calls. They only switch a display flag and drive the browser's video element.
- Releasing the camera when the practice page unmounts is not modelled.
- A media chunk is modelled by its size only.
- The columns of `user`, `session`, `account`, `verification` and `session_feedback` that no constraint of the pipeline involves are not modelled.
- Primary-key uniqueness of the text ids is not modelled. Uuids are drawn from a counter, so they never collide.
- `AnswerStore.Store.Snapshot`: this is one admissible ordered read. Rows of one insert share a `created_at` and may come back in any order. Statements about every admissible order are made on `Schema.IsOrderedRead`.
- The upload form's file input with no file selected is not modelled. `SelectDocument` takes a document.
- src/app/api/add-file-to-db/route.ts and src/app/api/get-s3-presigned-url/route.ts are not part of this model. The upload form's exchanges with them are parameters.
- `UploadCareerDoc.UploadForm.Submit`: the schema's message says "less than 50 characters", but `max(50)` accepts exactly 50. The model follows the check.
- `UploadCareerDoc.UploadForm.Submit`: the `s3Key` the form records is whatever the presign reply carried. The presigning route as written returns only `uploadURL`, so the key is absent.
- A per-user rate limit on generation is not modelled. No core file implements one.

## Findings

| source | as written | input that shows it | evidently intended | confidence | as-written member | corrected member |
|---|---|---|---|---|---|---|
| src/app/api/answers-stream/route.ts:137-148 | the initial snapshot raises `lastCount` only when a channel already exists, before `ensureChannel` creates it, so a first subscriber's channel starts at 0 | the first subscriber for a user with one or more stored answers, followed by one poll of the same rows | each snapshot reaches a connection once; an unchanged count sends no `update` | not executed | AnswersStream.FirstSubscriberDuplicate (with AnswersStream.Registry.Connect) | AnswersStream.FirstSubscriberNoDuplicate (with AnswersStream.Registry.ConnectRegisteringFirst) |
