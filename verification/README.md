# Verified model of the benchmark engine and the browse core

This project models, in Dafny, the parts of rolebox whose correctness depends on more than one function:

* **The benchmark engine** (`src/benchmark/`): N consumers share one cursor, an abort controller, a record and a
  store; a worker process and a command grader race exits against deadlines and aborts; workspaces are
  captured, written and compared; a strict parser decides what a record may say; a summary and a
  comparison rely on what the parser established; a watch loop restarts runs when inputs change.
* **The browse core** (`src/browse/`): the capped accessibility walk with its ref numbers, the session manager's
  life cycle, the lifetime of refs on a page, and the target grammar.
* **The throttle report** (`scripts/log-event-density.ts`): a greedy selection and a two-index window.

Asynchronous code is modelled as atomic steps between awaits. The environment chooses the interleaving and the
outcome of every await, within the contract of the code that is awaited, and those contracts are theorems of the
modules that own them: `WorkerProcess.WorkerLifecycle` gives the worker protocol, `CommandGrader.CommandLifecycle` the
command contract, and `WorkspaceDiff.DescribeWorkspace` the change list that `Runner` assumes. Each state machine is
written twice: as a function on values, over which the whole-run theorems are stated, and as a class whose methods
update fields in place. Each class has an `Execute` method that takes any sequence of events, is proved to end where the
function's run ends, and concludes the whole-run promises about its own fields (`BenchmarkRun`, `CommandRun`, `WorkerRun`,
`WatchLoop`, `BrowseSessionManager`).

What a result says is proved of what happened, not of the functions that computed it. Histories are gathered from the
events alone (`RunHistory`, `CommandHistory`, `WorkerHistory`), and a recorded trial, the evidence of a command and a worker's
report are described by them. The lines of a page are described by addresses in its tree (`PageTree`), a target by a
grammar (`TargetGrammar`), a summary and a comparison by counts over the recorded trials (`Totals`, `Comparison`), and the
steps of the watch loop and of a session by what they do to log, pages and map (`WatchSteps`, `SessionSteps`, `ManagerSteps`).

SHA-256 and the UTF-8 decoder are function parameters, durations, rates and totals are exact reals, the database is two tables.

Five promises do not hold as one would first state them; the exact condition is proved for each:

* `describeTarget` prints a snapshot ref as text that `parseTarget` rejects, so the grammar round trip holds exactly
  for the plans that are not refs (`Target.RoundTrip`).
* A valid snapshot may hold more directories than the capture's traversal limit; it survives being written and
  captured again exactly when it occupies at most 4,096 places (`Materialize.Resnapshot`, `RoundTripLimit.WrittenButNotCaptured`).
* `dispose` does not wait for a `close` that already took its record out of the map; it leaves no browser behind exactly
  when every browser is still in the map at the call (`SessionManager.DisposeReleasesIff`, `SessionManager.DisposeCanLeaveBrowser`).
* `maxInWindow` does not return for a negative window when some time lies above it, because past the end of the list it
  compares with zero for ever; for every other input it returns the largest count (`LogDensity.MaxInWindow`).
* Sorting trials by six-digit ids is numeric order exactly up to a million jobs (`Scheduler.PaddedSortIsNumeric`); a loaded
  plan has at most 20,000.

`dafny verify dfyconfig.toml` checks the whole project.

## Model

| member | source | states |
|---|---|---|
| `Scheduler.ProducedRecordValid` | src/benchmark/runner.ts:124-196 | For every interleaving, worker result, grader outcome, capture failure and abort, the record a run finishes with passes every check of the parser |
| `Scheduler.ExactlyOnce` | src/benchmark/runner.ts:90-91 | On normal return trial `k` is job `k`'s, for every job, none lost or repeated |
| `Scheduler.LateJobsNeverRun` | src/benchmark/runner.ts:124-132 | A job taken after the abort never reaches the executor, and a run with such a job never ends completed |
| `Scheduler.CrashConsistent` | src/benchmark/store.ts:17-48 | At every prefix of a run after `create` the store reads back as a valid record holding exactly the trials recorded so far, completed only if the final record was stored with every planned trial scored, also when writing the file after it fails |
| `Scheduler.NeverRefused` | src/benchmark/runner.ts:184-185 | The primary key never refuses a trial, because no two jobs share an id |
| `Scheduler.Reachable` | src/benchmark/runner.ts:124-196 | The invariant holds in every reachable state: in-flight, recorded and lost jobs are disjoint and make up those taken, store and memory hold the same trials, every draft is sound |
| `Scheduler.PaddedSortIsNumeric` | src/benchmark/runner.ts:184-193 | Padded ids sort in numeric order for all jobs below `n` exactly when `n` is at most a million |
| `Scheduler.InJobOrder` | src/benchmark/runner.ts:193-194 | Sorting the recorded trials by id puts trial `k` at position `k` |
| `RunSafety.UnconfirmedAborts` | src/benchmark/runner.ts:146-182 | Whatever the environment does, a trial directory is removed only after confirmed termination, and an unconfirmed trial or a failed consumer has aborted the run |
| `RunSafety.NoNewJobsAfterAbort` | src/benchmark/runner.ts:124-146 | After an abort no job that had not been taken reaches the executor, in any continuation |
| `Runner.StepSound` | src/benchmark/runner.ts:124-189 | Whatever its await resolves to within contract, a consumer's draft stays one the parser accepts |
| `Runner.JobsArePlanned` | src/benchmark/runner.ts:90-90 | The job list holds only planned pairs and no (case, repetition) twice |
| `Runner.JobCount` | src/benchmark/runner.ts:79-90 | There are as many jobs as planned trials |
| `RunHistory.TrialsTellWhatHappened` | src/benchmark/runner.ts:124-189 | Over every run: the trial recorded for a job carries the result its executor returned, as an infrastructure error when termination was not confirmed, or the interrupted result of what failed instead; its grade is made from that result, from the output without a workspace, otherwise from the texts and steps the grading reported, or an error after a failed or secret capture |
| `RunHistory.AbortedIff` | src/benchmark/runner.ts:124-189 | The abort flag is set exactly when the run began aborted or some event gave one of the reasons |
| `RunHistory.FinalRecordMeans` | src/benchmark/runner.ts:190-196 | The final record carries the identity of its plan, holds the recorded trials and is completed exactly when every planned trial was recorded, scored and confirmed |
| `BenchmarkRun.RunPromised` | src/benchmark/runner.ts:78-196 | Everything `Execute` promises, of the run as a value |
| `BenchmarkRun.BenchmarkRun.constructor` | src/benchmark/runner.ts:78-92 | A fresh run satisfies the invariant |
| `BenchmarkRun.BenchmarkRun.Execute` | src/benchmark/runner.ts:78-196 | After any interleaving: the final record is valid and holds one trial per job in job order, each telling what its consumer was given; and at any time the store reads back as a valid record with exactly the recorded trials |
| `BenchmarkRun.BenchmarkRun.Advance` | src/benchmark/runner.ts:124-189 | One consumer step, in place, is the specified step and keeps the invariant |
| `BenchmarkRun.BenchmarkRun.Settle` | src/benchmark/runner.ts:190-196 | Sorting, status and store update after all consumers settle are the specified step |
| `BenchmarkRun.BenchmarkRun.Abort` | src/benchmark/runner.ts:86-89 | An abort changes the flag only |
| `Grading.GradeResultSound` | src/benchmark/grading.ts:4-20 | A grade from the output passes the parser's grade checks; it is a pass exactly when the run is confirmed and every assertion holds |
| `Grading.IncludesMeans` | src/benchmark/grading.ts:4-20 | Containing a text means that it stands at some place |
| `Grading.GradeResultMeans` | src/benchmark/grading.ts:4-20 | Each assertion of an output grade reports whether the output equals, or somewhere holds, the text asked for |
| `Grading.GradeWorkspace` | src/benchmark/grading.ts:32-65 | The loop with its early returns computes the specified grade |
| `Grading.WorkspaceGradeSound` | src/benchmark/grading.ts:32-65 | A workspace grade passes the parser's grade checks whatever the commands return within contract |
| `Grading.WorkspaceGradeMeans` | src/benchmark/grading.ts:32-65 | Each file assertion of a workspace grade reports whether the file is there, equals or somewhere holds the text asked for, each command assertion what its command reported, up to the first step that stops the grading |
| `CommandGrader.CommandLifecycle` | src/benchmark/command-grader.ts:113-204 | For every order of events: completed exactly without cancellation, expiry and error, and then with exit code and confirmed termination and without lingering group or group stop; at most one group stop; directory removed only after confirmed termination; the command contract holds |
| `CommandHistory.EvidenceMeans` | src/benchmark/command-grader.ts:113-204 | The exit code of the evidence is the one the first exit of the race brought, none if an unconfirmed stop won; completed exactly without trouble, abort and deadline among the events, timed out exactly when the deadline came and nothing failed, cancelled exactly after an abort; passed exactly when completed with the expected code |
| `CommandGrader.StepSound` | src/benchmark/command-grader.ts:113-204 | Every event keeps the lifecycle invariant, also where the finally block does not wait for a stop |
| `CommandGrader.OutputBuffer.Data` | src/benchmark/command-grader.ts:149-155 | A buffer holds the first 16,384 characters of all data seen and is marked truncated exactly when there was more |
| `CommandRun.CommandRun.Handle` | src/benchmark/command-grader.ts:113-204 | Every callback, in place, is the specified step and keeps the invariant |
| `CommandRun.CommandRun.Execute` | src/benchmark/command-grader.ts:113-204 | After any sequence of callbacks the fields are those of the whole-run model; once done they are completed exactly without cancellation, expiry and error, the exit code is that of the event that won the race, and the assertion passes exactly if that is the expected code after an untroubled run |
| `WorkerProcess.WorkerLifecycle` | src/benchmark/process.ts:153-241 | For every order of events: the result keeps the protocol; completed only after a clean, timely, uncancelled exit confirmed on both sides; at most one group stop; directory removed only after confirmed termination |
| `WorkerProcess.UntroubledResultKept` | src/benchmark/process.ts:201-241 | A worker that left by itself, in time, cleanly and uncancelled with an accepted result gets exactly that result back |
| `WorkerHistory.ReportMeans` | src/benchmark/process.ts:153-241 | What is reported, of the events: cancelled after an abort whatever the worker wrote, invalid and redacted after a leak, invalid if it may not start, the accepted result of an orderly run, as an infrastructure error if it did not confirm its own teardown, and an infrastructure error for every other end |
| `WorkerProcess.StepSound` | src/benchmark/process.ts:153-241 | Every event keeps the lifecycle invariant |
| `WorkerRun.WorkerRun.Handle` | src/benchmark/process.ts:153-241 | Every callback, in place, is the specified step and keeps the invariant |
| `WorkerRun.WorkerRun.Execute` | src/benchmark/process.ts:153-241 | After any sequence of callbacks: a result once done, within the protocol, and it tells the truth about the events: cancelled after an abort, the worker's own result after an orderly run, a failure otherwise |
| `Report.ParseRunRecord` | src/benchmark/report.ts:47-110 | The parser accepts exactly the valid records and returns them unchanged |
| `Report.CheckTrials` | src/benchmark/report.ts:55-105 | The trial loop accepts exactly planned, unrepeated and sound trials |
| `Report.CheckTrial` | src/benchmark/report.ts:63-105 | The checks on one trial, taken together |
| `Report.CheckChanges` | src/benchmark/report.ts:77-89 | Change lists are accepted exactly when paths are unique and kinds, digests, texts and bits agree |
| `Report.VerdictAgrees` | src/benchmark/report.ts:158-163 | In a valid record the verdict recomputed from the evidence is the stored one |
| `Summary.Summarize` | src/benchmark/report.ts:165-211 | The counting loops return the specified summary, or throw exactly when a trial is outside the plan |
| `Summary.CountsMean` | src/benchmark/report.ts:170-180 | Each counter is the number of positions with that case and verdict |
| `Summary.CountsAddUp` | src/benchmark/report.ts:184-200 | Passed, failed, unscored and missing trials add up to the plan, and the first three to the recorded trials |
| `Summary.MarksStored` | src/benchmark/report.ts:158-180 | What is counted is the verdict stored in each trial |
| `Summary.RowsBounded` | src/benchmark/report.ts:51-61 | Unique planned pairs cannot outnumber the plan, and reach it only if every case has all its repetitions |
| `Summary.SuccessRateIffCompleted` | src/benchmark/report.ts:181-200 | An overall success rate is given exactly for completed runs; it is then passed over planned and every case has exactly its repetitions |
| `Summary.UsageComplete` | src/benchmark/report.ts:145-156 | Known and unknown trials make up the plan; a total is complete exactly when the run is and every trial reported the amount |
| `Summary.StatusesPartition` | src/benchmark/report.ts:166-172 | Every trial is counted under exactly one worker status |
| `Totals.SummaryHolds` | src/benchmark/report.ts:145-211 | Every number of a summary, of the recorded trials alone: verdicts and statuses are numbers of trials, coverage is the scored share of the plan, each row is its case's, rates are shares and their mean, and each usage total is the sum of its own reported amounts |
| `Totals.UsageTotals` | src/benchmark/report.ts:145-156 | Input tokens, output tokens and cost are each the sum of what the host reported under that name, and none without a report |
| `Totals.CoverageHolds` | src/benchmark/report.ts:184-195 | Coverage times the plan is the number of scored trials, and coverage is at most one |
| `Compare.RunningMean` | src/benchmark/compare.ts:100-100 | The incremental mean is the mean |
| `Compare.DescribeDurations` | src/benchmark/compare.ts:95-104 | The duration summary, computed with the incremental mean, is the specified one |
| `Compare.DurationSound` | src/benchmark/compare.ts:95-104 | Mean, median, least and greatest are those of the recorded durations, and mean and median lie between the extremes |
| `Compare.SortedMedian` | src/benchmark/compare.ts:96-101 | The values split into two halves of one size around the median; for an even number it is the midpoint of the two middle values |
| `Compare.MedianBalances` | src/benchmark/compare.ts:96-101 | At most half of the values lie strictly below a median and at most half strictly above |
| `Compare.CheckCompatibility` | src/benchmark/compare.ts:106-142 | Every reason that holds of the two records is given once, what blocks before what is unverified and each in the order of the checks, and no other; comparable exactly without a reason, incompatible exactly with a blocking one |
| `Compare.ReasonMeans` | src/benchmark/compare.ts:106-142 | What each reason says of the trials and plans: two trials with different runtimes or routes, one runtime or route on each side and not the same, a trial without a runtime, no route at all, other case ids or counts |
| `Comparison.CompareRuns` | src/benchmark/compare.ts:144-194 | A comparison is returned exactly for two valid records; it means what `ComparisonHolds` says, and gives every reason and every warning that applies and no other |
| `Comparison.ComparisonHolds` | src/benchmark/compare.ts:144-194 | Of the two records alone: the cases are those of either run, once and in order, with the rows of that case; deltas are there exactly when nothing speaks against comparing two completed runs, and are candidate less baseline for rates, usage, mean and median; improved, regressed and unchanged are the direction the passing share moved in |
| `Comparison.NothingMissing` | src/benchmark/compare.ts:186-192 | Whatever is read without a null check is there |
| `Comparison.Antisymmetric` | src/benchmark/compare.ts:144-194 | Swapping the runs keeps the status, negates every delta and swaps improved with regressed |
| `Comparison.OverallDeltaIsMean` | src/benchmark/compare.ts:154-190 | For comparable completed runs every case has a delta and the overall delta is their mean |
| `Json.CanonicalIdentity` | src/benchmark/compare.ts:63-71 | Two JSON values have the same canonical text exactly when they are equal up to object key order and undefined properties |
| `Json.ShowFree` | src/benchmark/compare.ts:63-71 | A value printed inside any document can be read back in only one way |
| `Json.QuoteFree` | src/benchmark/compare.ts:68-70 | A quoted string, escaped as in section 7 of RFC 8259, ends where it says |
| `RecordIdentity.RecordTextIdentity` | src/benchmark/compare.ts:73-79 | Two valid records are hashed from the same text exactly when they differ only by permuting case ids, trials and object keys |
| `Store.BenchmarkStore.Create` | src/benchmark/store.ts:17-19 | Refused exactly for a taken id; keys stay unique; the first run of an empty store reads back without trials and not as running |
| `Store.BenchmarkStore.RecordTrial` | src/benchmark/store.ts:21-23 | Reading afterwards gives the old trials and this one, every other field as before, or the old ones if the key was taken; other runs keep theirs |
| `Store.BenchmarkStore.Finish` | src/benchmark/store.ts:25-32 | Reading afterwards gives the final record with the trials stored before; keys stay unique |
| `Store.ReadBenchmarkRun` | src/benchmark/store.ts:37-48 | Reads the one run with its trials in id order, running read as incomplete, accepted exactly if valid |
| `Store.ValidPermutation` | src/benchmark/store.ts:43-46 | Validity does not depend on the order of the trials |
| `Watch.NoUpdateLost` | src/benchmark/watch.ts:88-153 | Over every run of the loop: at most one active benchmark, each finished once, none current that saw any change of inputs, and two consecutive starts of one fingerprint only if the first was stale or of other inputs |
| `Watch.QuietMeansCurrent` | src/benchmark/watch.ts:88-134 | With no active run and the last attempt equal to the desired inputs, the last run started was of those inputs and was reported current |
| `Watch.StartsAfterQuiet` | src/benchmark/watch.ts:117-128 | No run starts before its inputs have been quiet for the debounce time, or that long after a run that did not match its inputs |
| `Watch.NeverIdle` | src/benchmark/watch.ts:117-142 | When the desired inputs are seen again, due and with no run active, either their last run was reported current or a run of them starts now |
| `Watch.StepSound` | src/benchmark/watch.ts:88-153 | Every step keeps the loop invariant |
| `WatchSteps.EveryTurn` | src/benchmark/watch.ts:109-143 | Every turn of every run: the loop is left exactly on the signal or a throwing callback; a settled run is logged as it ended and current exactly if nothing changed and all is confirmed; a run starts exactly when the watch goes on unsignalled, idle, with valid inputs that are due and not already reported current |
| `WatchSteps.AbortedExactlyWhen` | src/benchmark/watch.ts:86-153 | Over every run: the active run is aborted exactly if its inputs changed, the signal fired or the watch is stopping |
| `WatchSteps.NoStartAfterSignal` | src/benchmark/watch.ts:110-130 | Once the signal has fired no run starts in any continuation |
| `WatchSteps.DesiredIsLastSeen` | src/benchmark/watch.ts:110-124 | The desired inputs are always those of the last probe acted on |
| `WatchSteps.SignalFromEvents` | src/benchmark/watch.ts:86-87 | The loop is signalled only by a signal or a callback, and by every signal |
| `WatchSteps.QuietStep` | src/benchmark/watch.ts:132-153 | The other events: the first outcome of a run is kept, a pause leads to the next probe, and a stopping watch reports its run as not current |
| `WatchLoop.WatchLoop.Execute` | src/benchmark/watch.ts:88-153 | After any sequence of steps the fields and the history keep the start, finish and debounce discipline, the active run is aborted exactly when it should be, the desired inputs are those of the last probe, and an idle loop has reported its inputs current |
| `WatchLoop.WatchLoop.ProbeReturns` | src/benchmark/watch.ts:109-143 | The loop body after a probe, in place, is the specified step and keeps the invariant |
| `WatchLoop.WatchLoop.DoneAwaited` | src/benchmark/watch.ts:145-153 | The finally block finishes the run it waited for |
| `Workspace.ValidateSnapshot` | src/benchmark/workspace.ts:39-67 | Of decoded files: accepts exactly the snapshots within limits whose paths are safe, distinct and prefix-free by component and whose digest matches; returns the files sorted |
| `StoredSnapshot.ValidateStored` | src/benchmark/workspace.ts:39-67 | Accepts exactly the stored snapshots whose contents are canonical base64 of files that form a valid snapshot |
| `StoredSnapshot.CanonicalIff` | src/benchmark/workspace.ts:51-52 | A text survives decoding and encoding exactly when it encodes some bytes |
| `StoredSnapshot.DecodeEncode` | src/benchmark/workspace.ts:113-113 | Decoding undoes encoding for every byte string |
| `StoredSnapshot.GroupIsNumber` | src/benchmark/workspace.ts:113-113 | A group of base64 letters is its three bytes, most significant first, read as one number (section 4 of RFC 4648) |
| `StoredSnapshot.SameTextSameBytes` | src/benchmark/workspace.ts:161-161 | Comparing canonical texts, as the diff does, is comparing bytes |
| `StoredSnapshot.StoringKeeps` | src/benchmark/workspace.ts:113-120 | A snapshot is valid as stored exactly when it is valid, and its files read back |
| `Workspace.FindOverlap` | src/benchmark/workspace.ts:58-63 | The ancestor loop finds an overlap exactly when some path is a component prefix of another |
| `Paths.PrefixSafe` | src/benchmark/workspace.ts:16-20 | Every directory on a safe path is safe |
| `SnapshotStream.StreamInjective` | src/benchmark/workspace.ts:26-33 | The hashed byte stream is uniquely decodable: equal streams come from equal file lists |
| `WorkspaceTree.Collector.Collect` | src/benchmark/workspace.ts:75-117 | The recursive walk, for any directory order, succeeds and counts exactly as the ordered visit does; links, special files and files that change while they are read make it fail |
| `WorkspaceTree.ListDirectory` | src/benchmark/workspace.ts:80-88 | Listing fails exactly when the entry limit is passed or a kept name is unsafe |
| `WorkspaceRoundTrip.CaptureExact` | src/benchmark/workspace.ts:71-121 | A capture succeeds exactly when every kept node is acceptable and within the limits, and returns every kept file and no other, sorted |
| `WorkspaceRoundTrip.SnapshotFiles` | src/benchmark/workspace.ts:122-131 | Two captures must agree in digest; the first is returned |
| `Materialize.MaterializeFiles` | src/benchmark/workspace.ts:133-151 | On an empty destination every write of a valid snapshot succeeds, and the directory then holds its files, their directories and nothing else |
| `Materialize.RoundTrip` | src/benchmark/workspace.ts:69-151 | Written and captured again, with or without the state directory, the kept files come back exactly when they occupy at most 4,096 places |
| `Materialize.Resnapshot` | src/benchmark/workspace.ts:69-151 | Writing and capturing returns the same digest and sorted files exactly when the snapshot occupies at most 4,096 places |
| `RoundTripLimit.ValidButTooManyPlaces` | src/benchmark/workspace.ts:7-11 | A thousand empty files five levels deep pass every check of validation and occupy more than 4,096 places |
| `RoundTripLimit.CannotBeCapturedAgain` | src/benchmark/workspace.ts:71-121 | The walk of a directory that holds those files fails |
| `RoundTripLimit.WrittenButNotCaptured` | src/benchmark/workspace.ts:69-151 | The failing input end to end: the snapshot is valid, is written into an empty directory, and capturing that directory throws |
| `WorkspaceDiff.DescribeWorkspace` | src/benchmark/workspace.ts:153-188 | A path is listed, once and in order, exactly when presence, content or executable bit differs; each entry is truthful; replaying the entries on `before` gives `after`; the parser accepts the list; previews stay within 65,536 bytes |
| `WorkspaceDiff.PatchGivesAfter` | src/benchmark/workspace.ts:159-186 | Any exact and truthful list turns the recorded start into the recorded end |
| `WorkspaceDiff.EvidenceSound` | src/benchmark/report.ts:77-89 | Two 1,000-file snapshots give at most 2,000 entries, each consistent in kind and nulls |
| `WorkspaceDiff.DescribeFile` | src/benchmark/workspace.ts:163-176 | A preview is shown exactly when it decodes, has no control characters, is small enough and still fits the budget |
| `Snapshot.LongestPrefix` | src/browse/snapshot.ts:422-507 | The capped walk prints exactly the longest prefix of the uncapped walk that fits, and printed and truncated nodes add up to its length |
| `PageTree.WalkListsPage` | src/browse/snapshot.ts:444-495 | The uncapped walk, by addresses in the tree: exactly the shown frames, the shown elements with a role and, in full mode, the shown texts that are not blank and not their parent's name; once each, in document order, as deep as they have named ancestors, with a ref exactly on the actionable ones. Shown means not skipped and below nothing skipped and no frame |
| `PageTree.WalkUnique` | src/browse/snapshot.ts:444-495 | A page has only one such walk |
| `Snapshot.PrintedRefs` | src/browse/snapshot.ts:465-482 | A printed ref says the same in the list of refs, in its line and on its element |
| `Snapshot.Walker.Record` | src/browse/snapshot.ts:422-442 | One line is printed if it fits and counted as truncated otherwise |
| `Snapshot.Walker.PrintElement` | src/browse/snapshot.ts:459-482 | A ref that was not printed is withdrawn from refs, counter and stamps |
| `Snapshot.Walker.Walk` | src/browse/snapshot.ts:444-495 | The recursive walk emits the element's entries in order, although depth depends on what was printed |
| `Snapshot.EmitStamps` | src/browse/snapshot.ts:465-481 | The stamped elements are in bijection with the returned refs, numbered contiguously from the offset |
| `Snapshot.TakeSnapshot` | src/browse/snapshot.ts:191-507 | Without a root an empty result that leaves old markers alone; otherwise the longest prefix that fits of the walk of the page, as `PageTree` describes it, with its refs, stamps and counts, for every page and cap |
| `Snapshot.TextLength` | src/browse/snapshot.ts:498-501 | The text is one character shorter than the budget spent, or, when cut, exactly the budget spent and the marker |
| `Snapshot.RefNumbers.Reserve` | src/browse/playwright-driver.ts:994-996 | The block lies above every block reserved before |
| `Snapshot.RefNumbers.Walk` | src/browse/playwright-driver.ts:994-1000 | Whenever a reserved walk comes to run, no two refs printed so far by the process share a name |
| `Snapshot.RefsNeverShared` | src/browse/playwright-driver.ts:994-1000 | Over every run of one process, in any interleaving of reservations and walks, no two refs ever printed share a name |
| `Session.StepTaskSound` | src/browse/session.ts:581-734 | Every step of a queued task, awaits for titles and closing pages included, keeps the record sound: one task at a time in order, pages within the limit, active names a page exactly when there is one |
| `Session.EnsurePageSound` | src/browse/session.ts:894-950 | Finding or creating a page keeps the table sound, and the branch that reuses an existing main page is never taken |
| `SessionSteps.UseMeans` | src/browse/session.ts:894-920 | A page asked for by name is used and becomes active if it exists and is refused otherwise; without a name the active page is used, and "main" is created when there is none |
| `SessionSteps.OpenMeans` | src/browse/session.ts:636-661 | A new page is created under exactly the name asked for, refused when the name is bad or taken or there are too many |
| `SessionSteps.CreatedMeans` | src/browse/session.ts:922-950 | A created page comes last and becomes active; a failure leaves the table alone |
| `SessionSteps.OperatedMeans` | src/browse/session.ts:581-604 | After an operation its page is forgotten exactly if it closed meanwhile |
| `SessionSteps.SelectMeans` | src/browse/session.ts:664-682 | Selecting makes exactly the named page active, or is refused |
| `SessionSteps.ClosePageMeans` | src/browse/session.ts:685-708 | Closing removes exactly the page meant, keeps the order of the others and hands the active role on only if it was that page's, to "main" or else the first page |
| `SessionSteps.LookMeans` | src/browse/session.ts:624-633 | Listing and describing pages change nothing but the clock |
| `SessionSteps.TouchMeans` | src/browse/session.ts:581-722 | Every operation but closing restarts the idle time of its session |
| `SessionSteps.RefusedMeans` | src/browse/session.ts:785-849 | A cancelled task, or one that comes to a closed session, is refused and changes nothing |
| `SessionSteps.LaunchMeans` | src/browse/session.ts:869-892 | A browser is launched exactly when there is none; a launch that fails ends the task |
| `SessionSteps.CloseMeans` | src/browse/session.ts:725-771 | Closing marks the record at once, a sweep only if the session has been idle long enough |
| `SessionSteps.ClosingMeans` | src/browse/session.ts:1011-1031 | A closing record loses its pages and then its browser |
| `Session.EarlierSettled` | src/browse/session.ts:839-849 | A task that runs has every earlier task of its session settled, rejected or not |
| `SessionManager.NoLeakedBrowser` | src/browse/session.ts:724-849 | In every reachable state tasks of a session run one at a time, its page table is sound, a record that is not closed is in the map until dispose, and after dispose every record ever created is closed |
| `SessionManager.FirstInFirstOut` | src/browse/session.ts:839-849 | Over whole runs: once a task of a session has begun, every task asked for before it has settled for good, rejected or not, in every continuation |
| `SessionManager.ClosedForGood` | src/browse/session.ts:785-821 | A closed record stays closed in every continuation and never gains a browser |
| `SessionManager.DisposeReleasesAll` | src/browse/session.ts:736-746 | If every browser is current at the call, none is left when dispose resolves |
| `SessionManager.DisposeReleasesIff` | src/browse/session.ts:725-746 | Dispose leaves no browser behind in every continuation exactly when every browser is in the map at the call |
| `SessionManager.DisposeCanLeaveBrowser` | src/browse/session.ts:725-746 | A concrete run: a close in flight when dispose is called leaves its browser open after dispose resolves |
| `SessionManager.StepSound` | src/browse/session.ts:724-849 | Every call, task step, sweep and disposal step keeps the manager invariant |
| `SessionManager.RightPage` | src/browse/session.ts:581-604 | In every reachable state of every run an operation that runs is on the page it asked for, which is the active one, and a page is being created only under the name asked for, or as "main" for a session without pages |
| `ManagerSteps.CallMeans` | src/browse/session.ts:795-821 | An operation goes to the open session of its key or to a new one, behind everything asked before, and is refused after dispose |
| `ManagerSteps.CallKnownMeans` | src/browse/session.ts:711-733 | Closing or looking at an unknown session does nothing |
| `ManagerSteps.SweepMeans` | src/browse/session.ts:756-771 | A sweep queues a closing task exactly for the records idle long enough |
| `ManagerSteps.SweptMeans` | src/browse/session.ts:756-771 | A swept record leaves the map unless its key has a new one |
| `ManagerSteps.DisposeMeans` | src/browse/session.ts:736-746 | Dispose empties the map at once and closes what it held one after the other |
| `BrowseSessionManager.BrowseSessionManager.Execute` | src/browse/session.ts:538-849 | After any interleaving the fields hold sound page tables and one running task per session, every operation is on the right page, every open record is in the map until dispose, and after dispose all are closed |
| `BrowseSessionManager.BrowseSessionManager.Call` | src/browse/session.ts:581-604 | Public operations enqueue on the session's record, refused after dispose |
| `BrowseSessionManager.BrowseSessionManager.Advance` | src/browse/session.ts:581-604 | A task step, in place, is the specified step and keeps the invariant |
| `BrowseSessionManager.BrowseSessionManager.SweepStep` | src/browse/session.ts:756-771 | One turn of the idle sweep, in place |
| `BrowseSessionManager.BrowseSessionManager.DisposeStep` | src/browse/session.ts:736-746 | One turn of the disposal, in place |
| `SessionPage.RefsAreLive` | src/browse/session.ts:189-226 | In every history the map holds exactly the refs the last successful snapshot installed, with no navigation ended since and no action reporting them stale |
| `SessionPage.QuietRefs` | src/browse/session.ts:189-226 | With no navigation under way, a usable ref has seen none attempted since its snapshot, successful or not |
| `SessionPage.BrowseSessionPage.Snapshot` | src/browse/session.ts:190-194 | A successful snapshot replaces the refs, a failed one keeps them |
| `SessionPage.BrowseSessionPage.StartNavigation` | src/browse/session.ts:196-226 | Up to its await a navigation leaves the refs alone |
| `SessionPage.BrowseSessionPage.EndNavigation` | src/browse/session.ts:196-226 | When it ends, well or not, no ref is left |
| `SessionPage.BrowseSessionPage.Resolve` | src/browse/session.ts:419-446 | A ref reaches the driver only if it is live, and with no navigation under way only if none was attempted since its snapshot; otherwise none is reached |
| `SessionPage.BrowseSessionPage.Settle` | src/browse/session.ts:454-496 | A failure that says an element is gone drops the refs it blames, whatever happened since they were resolved |
| `SessionPage.BrowseSessionPage.TargetAction` | src/browse/session.ts:419-476 | An action resolves its ref first and drops a ref reported stale |
| `SessionPage.BrowseSessionPage.Drag` | src/browse/session.ts:268-277 | Both ends of a drag are resolved, and stale ones dropped |
| `SessionPage.BrowseSessionPage.Scroll` | src/browse/session.ts:279-296 | A scroll resolves its target and its anchor, and drops the one it blames |
| `Target.RoundTrip` | src/browse/target.ts:58-158 | Printing and parsing a plan gives it back exactly when it is not a ref |
| `Target.ProducibleIff` | src/browse/target.ts:58-132 | The well-formed plans are exactly those some input parses to |
| `TargetGrammar.ParserReadsGrammar` | src/browse/target.ts:58-132 | An input parses to a plan exactly when the documented grammar says it denotes that plan: white space around targets and values ignored, prefixes and roles without case, quoted names with escapes, bare text as text, everything else refused |
| `TargetGrammar.GrammarUnambiguous` | src/browse/target.ts:1-20 | The grammar gives an input at most one meaning |
| `TargetGrammar.UnescapeOnlyEscapes` | src/browse/target.ts:165-168 | Unescaping changes exactly the texts that hold an escaped quote or backslash, and shortens those |
| `Target.RefNotReadBack` | src/browse/target.ts:134-158 | A printed ref is rejected by the parser |
| `Target.UnescapeEscape` | src/browse/target.ts:165-172 | Unescaping undoes escaping for every string |
| `Target.EscapeIsQuotable` | src/browse/target.ts:111-132 | An escaped name is read back up to exactly its closing quote |
| `LogDensity.MaxInWindow` | scripts/log-event-density.ts:77-87 | The two-index loop returns the largest count over all closed windows, for every window; it never returns exactly when the window is negative and some time lies above it |
| `LogDensity.EmittedInOneWindow` | scripts/log-event-density.ts:118-130 | The greedy count is the largest number of times pairwise at least the throttle apart |
| `LogDensity.WindowCountIsLargest` | scripts/log-event-density.ts:118-130 | The specification function of the greedy count has that meaning |
| `LogDensity.OneWindowUnderstates` | scripts/log-event-density.ts:89-97 | A single window never counts more than the subjects' windows together, for any assignment of subjects |
| `LogDensity.EmittedUnderThrottle` | scripts/log-event-density.ts:98-116 | The per-subject sum, computed by grouping, and never below the single-window count |
| `LogDensity.GroupBySubject` | scripts/log-event-density.ts:106-112 | The map holds, for each subject, its times in reading order |

## Left out

- Playwright calls, page events, screenshots, downloads, dialogs and error-message mapping: foreign calls and I/O.
- Role, name and actionability derivation in the walker: node data here; `parseSnapshotRefs` and the payload shape check are not modelled.
- Report.ParseRunRecord: does not state the field-shape limits of the record schema (string lengths, digest and date patterns, safe paths in records, schema version), which are declarations; text the engine writes into errors is an enumeration.
- Compare.CheckCompatibility: does not have the isolation reason, because the schema admits one isolation value only and the comparison of two parsed records never differs there.
- Comparison.CompareRuns: does not throw on usage totals beyond the numeric range (src/benchmark/compare.ts:83-87), because totals are exact reals; the record digest that a warning compares is a parameter.
- The order in which a snapshot's checks fail: one rejection is like another. The diff and the writer take decoded files.
- Strings are sequences of Unicode characters ordered by code point; JavaScript orders UTF-16 units, which differs between supplementary characters and U+E000 to U+FFFF, and lone surrogates do not exist in the model.
- `localeCompare` on trial ids (src/benchmark/runner.ts:193) is taken as code-point order, which it is for strings of digits.
- Numbers: rounding and overflow; times that are not numbers.
- The encoding of each record field as JSON: record identity is stated for every JSON object that has case ids and trials, whatever its other fields.
- Entries appearing or vanishing during one capture, and other writers in the destination: each capture and each write sees one state of the directory; modes are one executable bit; the file system is case-sensitive.
- Session keys are taken as trimmed and not empty; calls that fail before touching any state (cancelled, empty key) are not steps.
- Session records, pages and tasks are values inside the manager, so aliasing between a task and its record is not modelled; idle timers are sweep steps chosen by the environment. The second `touch` when an operation ends is left out: it only moves the clock that sweeps compare with, and sweeps may come at any time.
- HTML and Markdown reports, the JSON copy of a finished run, artifacts and plan files on disk, the suite and role loaders, baselines, scaffolding and the command line: templates and I/O.
- `redactEnvironmentValues` and `redactGrade` are modelled by whether a secret leaked; the search for secrets is not.
