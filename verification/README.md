# Verified models of the data centre

A Dafny model of the parts of the data centre whose correctness is hardest to see, with proofs about
every run, every graph, every ranking or every inventory. `dafny verify dfyconfig.toml` checks all of it.

- **Ledger download page** (`Ledger*.dfy`). The browser controller is a transition system: user actions, timers,
  sign-in expiry, answers and failures come in any order, and each call in flight remembers the epoch and identity
  it was issued with. An invariant holds in every reachable page. From it follow exact polling, linear handling of
  URLs, faithful idempotency keys, and isolation: leaving out all answers to earlier epochs changes nothing.
  `LedgerRevalidation.dfy` shows that checking the selection in chunks and pages, over any run of one epoch, comes to
  one unbounded check. `LedgerEffects.dfy` and `LedgerChoices.dfy` say field by field what every event does, and
  `LedgerRequests.dfy` what a request and its answer do together, over every run between them. `LedgerController.dfy`
  and `LedgerSelection.dfy` are the mutable objects, proved to make exactly these steps on every event and over every
  run.
- **Canonical JSON** (`Json.dfy`). Change detection by serialising a canonical form, on UTF-16 text.
- **Staging rollout** (`EnvFile.dfy`, `Rollout.dfy`). The remote scripts as a host that changes command by command;
  which commands work is given beforehand for all of them, so that the results say both what a success means and when
  one must come; any script may be cut off.
- **npm audit policy** (`AuditPolicy.dfy`). The recursive walk over an arbitrary `via` graph, against a definition
  by paths.
- **Retrieval metrics** (`CumulativeGain.dfy`, `Retrieval.dfy`). NDCG by a rearrangement inequality, over the reals.
- **Cost-card manifest** (`CostCards.dfy`). Read, sign and re-read against a store that changes meanwhile.
- **Store cleanup** (`StoreCleanup.dfy`). The confirmed deletion, retried when a connection is lost, with others
  writing in between.
- **Cutover inspection** (`Cutover.dfy`, `CutoverInspection.dfy`),
  **acceptance window and polling** (`Acceptance.dfy`), **spreadsheet fixtures** (`Workbook.dfy`).

Where the code does something a reader might not expect, the model follows the code:

- Signing in as another employee clears everything kept except the last query's error code
  (`LedgerIsolation.OldErrorIsShown` has the run; `LedgerIsolation.SwitchIsCleanIff` says exactly when nothing
  stays).
- When a rollout of a release unaware of order scope fails after arming, before the release came up, and the trap is
  not let in, the writers the first guard stopped stay down (`Rollout.DenialLeavesWritersDown`; `Rollout.Host.RollOut`
  says exactly when they run on).
- A cleanup whose commit was applied and whose answer was lost ends in an error (`StoreCleanup.CommittedYetRefused`;
  `StoreCleanup.Database.Execute` says exactly when an error leaves the tables alone).
- Where two categories, dimensions or keyed resources share an id, the cutover inspection sees the last
  (`Cutover.KeyedLastIsOnly` says when that is the only one).
- A ranking that lists a chunk twice can measure above 1 (`CumulativeGain.RepeatsExceedOne`); with distinct ids it
  cannot.
- The evaluation's leak counters are zero for every corpus, because its own ranking already filters what they count
  (`Retrieval.EvaluateMode`).
- An advisory of severity "medium" is accepted like "moderate" but not registered as one
  (`AuditPolicy.MediumIsNotRegistered`; `AuditPolicy.OneAdvisory` says exactly when one is).

## Model

| member | source | states |
|---|---|---|
| `Json.ChangedIffMeaningDiffers` | apps/admin-web/src/model.ts:12 | `changed` is false exactly for two values that differ at most in object key order, at any depth |
| `Json.ChangedIffNotSame` | apps/admin-web/src/model.ts:12 | `changed` is false exactly if the values are the same kind by kind, item by item and member by member, objects compared by key in both directions |
| `Json.SameMeans` | apps/admin-web/src/model.ts:7-11 | being the same, spelled out, is having one meaning |
| `Json.PlainPrints` | apps/admin-web/src/model.ts:12 | a string without control characters, quotation marks, backslashes or surrogates prints as it is between quotation marks |
| `Json.LessMeans` | apps/admin-web/src/model.ts:9 | text is less where it first differs by a smaller code unit, or ends |
| `Json.LessWhere` | apps/admin-web/src/model.ts:9 | and only then |
| `Json.StableKeepsMeaning` | apps/admin-web/src/model.ts:7-11 | the canonical form is well formed and has the same meaning (index-like keys first, then string order) |
| `Json.StableIsCanonical` | apps/admin-web/src/model.ts:7-11 | values with one meaning have one canonical form |
| `Json.StableIdempotent` | apps/admin-web/src/model.ts:7-11 | canonicalising twice is canonicalising once |
| `Json.PrintUnique` | apps/admin-web/src/model.ts:12 | serialisation is injective on values, even with more text behind it |
| `LedgerModel.LedgerKeyInjective` | apps/admin-web/src/ledger-model.ts:3 | two files share a key text only if store and date are the same |
| `LedgerModel.ChooseKept` | apps/admin-web/src/ledger-model.ts:9 | choosing or dropping a file keeps the insertion order and the items in step |
| `LedgerModel.ReconcileExact` | apps/admin-web/src/ledger-model.ts:11-14 | no key is dropped or added; each holds the last answer for it or is unverified without size |
| `LedgerModel.SortKeysSorts` | apps/admin-web/src/ledger-model.ts:17 | the listing holds exactly the selected keys, each once, in key order |
| `LedgerModel.ListingDependsOnKeys` | apps/admin-web/src/ledger-model.ts:17 | selections of the same files have one listing, whatever the order they were chosen in |
| `LedgerModel.ChunkEndExact` | apps/admin-web/src/ledger-controller.ts:26-32 | a chunk advances, respects page, store and date limits and stops only where the next file would break one |
| `LedgerModel.ChunksCover` | apps/admin-web/src/ledger-controller.ts:23-40 | the chunks concatenate to exactly the listing, each non-empty and within the limits |
| `LedgerModel.ChunkedCheckIsWholeCheck` | apps/admin-web/src/ledger-controller.ts:22-42 | checking chunk by chunk leaves the selection as one check without limits would |
| `LedgerModel.FingerprintInjective` | apps/admin-web/src/ledger-controller.ts:139 | equal fingerprints mean equal listings |
| `LedgerChoices.KeyMeans` | apps/admin-web/src/ledger-model.ts:3 | a plain store and date make the key text `["store","date"]` |
| `LedgerChoices.ChooseMeans` | apps/admin-web/src/ledger-model.ts:9 | unticking takes a file out of its place and leaves the rest; ticking a ready file renews it in place or adds it last; ticking any other does nothing |
| `LedgerChoices.UntickMeans` | apps/admin-web/src/ledger-model.ts:10 | unticking a batch drops exactly its files |
| `LedgerChoices.TickMeans` | apps/admin-web/src/ledger-model.ts:10 | after ticking a batch a file has its last ready row of the batch |
| `LedgerChoices.TickNothing` | apps/admin-web/src/ledger-model.ts:10 | a file with no ready row in the batch is left alone |
| `LedgerChoices.RefreshMeans` | apps/admin-web/src/ledger-controller.ts:94 | a selected file takes over its last row among those that came |
| `LedgerChoices.RefreshNothing` | apps/admin-web/src/ledger-controller.ts:94 | a file without a row stays as it was |
| `LedgerChoices.ReconcileMeans` | apps/admin-web/src/ledger-model.ts:11-14 | after a check a file has the last answer for it, or is unverified without size |
| `LedgerChoices.SummaryWithout` | apps/admin-web/src/ledger-model.ts:20 | a file taken out takes exactly its own size from the total, none if that is not a safe positive integer |
| `LedgerChoices.SummaryMeans` | apps/admin-web/src/ledger-model.ts:18-26 | the counts are those of files, stores, dates, unsized and unready files; a submit is allowed exactly if there are files, within the limits, all ready and sized, and the total is safe and within its limit |
| `LedgerSelection.Selection.Select` | apps/admin-web/src/ledger-model.ts:9 | in place, the same selection as the value-level choice |
| `LedgerSelection.Selection.SelectBatch` | apps/admin-web/src/ledger-model.ts:10 | the loop chooses its items in order |
| `LedgerSelection.Selection.Reconcile` | apps/admin-web/src/ledger-model.ts:11-14 | the loops amount to one simultaneous reconciliation |
| `LedgerSelection.Selection.Clear` | apps/admin-web/src/ledger-model.ts:15 | nothing is selected afterwards |
| `LedgerSelection.Selection.Refresh` | apps/admin-web/src/ledger-controller.ts:94 | selected rows take over the answer, others are left alone |
| `LedgerSelection.Selection.Summary` | apps/admin-web/src/ledger-model.ts:18-26 | totals and the submit permission, as counts over the selected set |
| `LedgerSelection.NextChunk` | apps/admin-web/src/ledger-controller.ts:27-32 | the inner loop ends at the chunk's specified end |
| `LedgerSafety.StartOk` | apps/admin-web/src/ledger-controller.ts:4-8 | the initial page satisfies the page invariant |
| `LedgerSafety.StepOk` | apps/admin-web/src/ledger-controller.ts:12-162 | every user action, timer, answer and failure keeps the page invariant (marks and calls in flight agree, calls are dated, timers match, URLs balance, keys are faithful) |
| `LedgerSession.FileRecoveryOk` | apps/admin-web/src/ledger-controller.ts:43-50 | a recovery has one call in flight and shows itself as recovering exactly during a full recovery |
| `LedgerBoard.QueryArrivesOk` | apps/admin-web/src/ledger-controller.ts:88-97 | a query's answer keeps the querying mark tied to the newest query in flight, and its calls dated (what the table then shows is `LedgerEffects.RowsAreShown`) |
| `LedgerViewer.PreviewArrivesOk` | apps/admin-web/src/ledger-controller.ts:102-107 | a preview's answer keeps the held URL, the waiting mark and the URL balance in order |
| `LedgerViewer.EndDownloadOk` | apps/admin-web/src/ledger-controller.ts:113-118 | a download of this epoch unmarks its own key, which was marked, and gives it its notice; a late one leaves marks and notices alone |
| `LedgerJobs.QueueScheduled` | apps/admin-web/src/ledger-controller.ts:121-124 | queueing a task that has no timer gives exactly one timer and loses no wake-up |
| `LedgerJobs.StartPollOk` | apps/admin-web/src/ledger-controller.ts:125-128 | starting a poll trades the task's timer for one call in flight |
| `LedgerJobs.FireTimerOk` | apps/admin-web/src/ledger-controller.ts:123-128 | a firing timer always finds its task ready to be polled |
| `LedgerJobs.QueueAllOk` | apps/admin-web/src/ledger-controller.ts:76-77 | after a recovery every pending task has a live timer of its own, and no task is changed |
| `LedgerSubmission.StartSubmitOk` | apps/admin-web/src/ledger-controller.ts:137-145 | a submit keeps each key with one selection and at most one task |
| `LedgerSubmission.SubmitArrivesOk` | apps/admin-web/src/ledger-controller.ts:145-150 | an accepted submit makes the first and only task of its key |
| `LedgerEffects.StartMeans` | apps/admin-web/src/ledger-controller.ts:5-8 | the page starts signed out, with nothing known, shown, selected or under way |
| `LedgerEffects.QueryAsks` | apps/admin-web/src/ledger-controller.ts:84-89 | a query is asked only while signed in; it asks for the scope and for the page the cursors know, shows itself as querying, clears the last error and changes nothing shown |
| `LedgerEffects.RowsAreShown` | apps/admin-web/src/ledger-controller.ts:90-94 | the answer to the newest query of the epoch: rows, scope, batch and next cursor are those that came and were asked, its page's cursor is set and earlier ones kept (reset for the first page), stores grow by exactly those of the rows, querying ends |
| `LedgerEffects.RowsRenewSelection` | apps/admin-web/src/ledger-controller.ts:94 | selected files take over their last row that came; which files are selected, and their order, stays |
| `LedgerEffects.OldQueryEnds` | apps/admin-web/src/ledger-controller.ts:91-96 | the answer of any other query only takes its call off |
| `LedgerEffects.ExpiryMeans` | apps/admin-web/src/ledger-controller.ts:14-16 | an expiry: new epoch, signed out, token gone, sign-in asked for; nothing in progress, no timer, preview closed and its URL released; employee, rows, selection, tasks and attempt kept |
| `LedgerEffects.ResumeMeans` | apps/admin-web/src/ledger-controller.ts:43-66 | a resume under way stays; a passive one while signed in only asks; any other begins a new epoch with nothing in progress and asks for the context |
| `LedgerEffects.SettledMeans` | apps/admin-web/src/ledger-controller.ts:82 | a settled recovery can be followed by another |
| `LedgerEffects.ContextMeansNothing` | apps/admin-web/src/ledger-controller.ts:57-62 | a late context only ends its recovery; a passive one that names the same employee and token only clears the error |
| `LedgerEffects.ContextIsAdopted` | apps/admin-web/src/ledger-controller.ts:67-77 | a live context sets employee and token; the same employee keeps everything, another nothing but the query error; all selected files wait for their check, and with none selected the page is signed in |
| `LedgerEffects.PassiveContextIsAdopted` | apps/admin-web/src/ledger-controller.ts:59-77 | a passive one that names another employee or token first interrupts everything in a new epoch, then is adopted |
| `LedgerEffects.CheckAsksOn` | apps/admin-web/src/ledger-controller.ts:33-39 | a page with a cursor asks for the next page of its chunk with that cursor, the last page of a chunk for the next chunk; answers are carried along; a late page only ends the recovery |
| `LedgerEffects.CheckSignsIn` | apps/admin-web/src/ledger-controller.ts:41-77 | the last page of the last chunk signs in; files have their last answer or are unverified without size; exactly the unfinished tasks have timers |
| `LedgerEffects.RecoveryFailureIsShown` | apps/admin-web/src/ledger-controller.ts:50-56 | a failed recovery ends, and shows its code if it is of this epoch |
| `LedgerEffects.RecoveryFailureExpires` | apps/admin-web/src/ledger-controller.ts:52-53 | a code that signs out expires the page, unless it answers a full recovery's context request |
| `LedgerEffects.PreviewOpens` | apps/admin-web/src/ledger-controller.ts:98-103 | a preview opens on its file, waiting; what was shown is released; its call carries the file and the newest version |
| `LedgerEffects.PreviewCloses` | apps/admin-web/src/ledger-controller.ts:13 | closing shows nothing and releases what was shown |
| `LedgerEffects.PreviewShows` | apps/admin-web/src/ledger-controller.ts:104-107 | the URL of the open preview is shown in it and ends its waiting; any other URL is released |
| `LedgerEffects.DownloadAsks` | apps/admin-web/src/ledger-controller.ts:109-114 | a file is downloaded once at a time; it is marked and its notice cleared |
| `LedgerEffects.DownloadSaves` | apps/admin-web/src/ledger-controller.ts:115-118 | a download of this epoch is saved, noted and unmarked; a late one is released |
| `LedgerEffects.PollAsks` | apps/admin-web/src/ledger-controller.ts:125-130 | a task is polled only while signed in, once at a time, unfinished; it waits, shows no error and has no timer |
| `LedgerEffects.TimerAsks` | apps/admin-web/src/ledger-controller.ts:123 | a timer that fires polls its own task |
| `LedgerEffects.StatusIsShown` | apps/admin-web/src/ledger-controller.ts:131-135 | status and error that come are the task's, which waits no longer and has a new timer exactly while unfinished; a late one changes nothing |
| `LedgerEffects.LinkAsks` | apps/admin-web/src/ledger-controller.ts:152-156 | a link is asked for only while signed in, once at a time, for a task that succeeded |
| `LedgerEffects.LinkIsSaved` | apps/admin-web/src/ledger-controller.ts:157-160 | a link of this epoch is saved; its task shows that it started and until when it is good; a late one changes nothing |
| `LedgerEffects.SubmitSends` | apps/admin-web/src/ledger-controller.ts:137-145 | a submit goes on with the attempt for the same listing, or takes a new key; it sends key and listing, or shows the task the attempt has |
| `LedgerEffects.TaskIsListed` | apps/admin-web/src/ledger-controller.ts:146-150 | an accepted submit lists its task first and shows it, with the request and status that came and the selection that was sent; it belongs to the attempt and has a timer exactly if unfinished; a late one changes nothing |
| `LedgerEffects.SelectMeans` | apps/admin-web/src/ledger-model.ts:9 | ticking a file changes the selection and nothing else, as ChooseMeans says |
| `LedgerEffects.SelectBatchMeans` | apps/admin-web/src/ledger-model.ts:10 | ticking a batch changes the selection and nothing else, file by file |
| `LedgerEffects.ClearMeans` | apps/admin-web/src/ledger-model.ts:15 | clearing leaves no file selected and changes nothing else |
| `LedgerEffects.QueryFailureMeans` | apps/admin-web/src/ledger-controller.ts:17-21 | a code that signs out expires the page; otherwise the newest query shows its code, any other changes nothing |
| `LedgerEffects.PreviewFailureMeans` | apps/admin-web/src/ledger-controller.ts:106-107 | likewise the open preview shows its code and waits no longer |
| `LedgerEffects.DownloadFailureMeans` | apps/admin-web/src/ledger-controller.ts:117-118 | likewise the file has the code as its notice and is unmarked |
| `LedgerEffects.StatusFailureMeans` | apps/admin-web/src/ledger-controller.ts:134-135 | likewise the task has the code and waits no longer |
| `LedgerEffects.LinkFailureMeans` | apps/admin-web/src/ledger-controller.ts:159-160 | likewise the task has the code and links no longer |
| `LedgerEffects.SubmitFailureMeans` | apps/admin-web/src/ledger-controller.ts:149-150 | likewise the code is shown and the submit can be repeated |
| `LedgerRequests.StepKeepsCalls` | apps/admin-web/src/ledger-controller.ts:17-21 | no event confuses one call with another: a call still in flight is the one that was, with what it asked, and numbers are not used again |
| `LedgerRequests.RunKeepsCalls` | apps/admin-web/src/ledger-controller.ts:17-21 | the same over every run |
| `LedgerRequests.QueryIsAnswered` | apps/admin-web/src/ledger-controller.ts:84-97 | asked, then any run of the epoch without another query, then answered: the table shows the rows that came for the scope and page asked, without error |
| `LedgerRequests.PreviewIsAnswered` | apps/admin-web/src/ledger-controller.ts:98-108 | opened, then any run of the epoch that neither opens nor closes one, then answered: the pane shows that file with that URL, without error |
| `LedgerRequests.DownloadIsAnswered` | apps/admin-web/src/ledger-controller.ts:109-119 | asked, then any run of the epoch, then answered: the URL is saved, and the file asked for is noted and free again |
| `LedgerRequests.PollIsAnswered` | apps/admin-web/src/ledger-controller.ts:125-136 | polled, then any run of the epoch, then answered: that task has the status, and a timer exactly while unfinished |
| `LedgerRequests.LinkIsAnswered` | apps/admin-web/src/ledger-controller.ts:152-161 | asked, then any run of the epoch, then answered: the link is saved and that task shows it |
| `LedgerRequests.SubmitIsAnswered` | apps/admin-web/src/ledger-controller.ts:137-151 | submitted, then any run of the epoch whatever is ticked meanwhile, then accepted: the task shown has exactly the files selected at the submit |
| `LedgerIsolation.LateTakesOff` | apps/admin-web/src/ledger-controller.ts:88-160 | an answer or failure of an earlier epoch changes nothing but its own entry among the calls (a late URL is released) |
| `LedgerIsolation.LateRecoveryEndsOnly` | apps/admin-web/src/ledger-controller.ts:57-79 | a late context or check answer changes nothing but the recovering flag |
| `LedgerIsolation.LiveAlike` | apps/admin-web/src/ledger-controller.ts:12-162 | a live event acts the same on pages that differ only in calls of earlier epochs |
| `LedgerIsolation.Isolation` | apps/admin-web/src/ledger-controller.ts:12-162 | for every run, leaving out all late answers leads to the same page |
| `LedgerIsolation.SwitchStartsAfresh` | apps/admin-web/src/ledger-controller.ts:70-77 | a context of another employee leaves a page like a fresh one, but for the query error |
| `LedgerIsolation.KeptIsOwn` | apps/admin-web/src/ledger-controller.ts:14-161 | after a switch, every later page is the one a fresh session of the new employee would have reached from its own events; every call it listens to was issued as the employee signed in, who is the new one until a context of the epoch names another |
| `LedgerIsolation.QueryErrorSurvives` | apps/admin-web/src/ledger-controller.ts:70-72 | no context, whoever it names, changes the query error shown |
| `LedgerIsolation.OldErrorIsShown` | apps/admin-web/src/ledger-controller.ts:70-72 | for any two employees and any error code that does not end the session, a page can be reached that is signed in as the second and shows the code left by a query of the first |
| `LedgerIsolation.SwitchIsCleanIff` | apps/admin-web/src/ledger-controller.ts:70-72 | a switch leaves nothing of the old employee exactly when no query error was shown before it |
| `LedgerTheorems.StepIsReachable` | apps/admin-web/src/ledger-controller.ts:12-162 | reachable pages are closed under every possible event |
| `LedgerTheorems.SignInIsReachable` | apps/admin-web/src/ledger-controller.ts:63-80 | any employee can come to be signed in, so the promises are not about nothing |
| `LedgerTheorems.PollingIsExact` | apps/admin-web/src/ledger-controller.ts:120-136 | in every reachable page: one timer or one live poll a task, no pending task without timer, poll or error while signed in, no timer when signed out |
| `LedgerTheorems.UrlsAreLinear` | apps/admin-web/src/ledger-controller.ts:98-119 | in every reachable page the URLs returned are those released, those saved and the one shown, each once |
| `LedgerTheorems.KeysAreFaithful` | apps/admin-web/src/ledger-controller.ts:137-151 | in every reachable page an idempotency key has carried one selection and made at most one task |
| `LedgerTheorems.AttemptStays` | apps/admin-web/src/ledger-controller.ts:137-151 | failures, expiries, late contexts of anybody and live contexts of the same employee keep the attempt and its key |
| `LedgerTheorems.RetryReusesKey` | apps/admin-web/src/ledger-controller.ts:137-151 | over any run in which no new submit and no live context of another employee replaces the attempt, a retry of the same selection sends the same key |
| `LedgerTheorems.SubmitSendsListing` | apps/admin-web/src/ledger-controller.ts:139-145 | what is sent is the sorted selection under the attempt's key, and nothing if the task exists |
| `LedgerRevalidation.CheckInFlight` | apps/admin-web/src/ledger-controller.ts:22-42 | in every run within the epoch, the check call in flight is for one chunk of the listing made at adoption and carries everything answered so far |
| `LedgerRevalidation.RecoveryReconciles` | apps/admin-web/src/ledger-controller.ts:22-42 | in every such run without edits, each selected file is unverified until the page signs in, and then has the last answer collected for it or stays unverified without size |
| `LedgerRevalidation.ListingAnswered` | apps/admin-web/src/ledger-controller.ts:26-40 | once signed in, the pages collected over all chunks answer the whole listing, however many pages each chunk took |
| `LedgerRevalidation.RecoveryIsOneCheck` | apps/admin-web/src/ledger-controller.ts:22-42 | chunked, paged revalidation refines one unbounded check: over every run of the epoch with any other events in between, a recovery that signs in leaves the same files, each as the server has it or unverified without size |
| `LedgerRevalidation.CheckEnds` | apps/admin-web/src/ledger-controller.ts:22-42 | even if files are dropped or chosen meanwhile, the answer that signs in drops and adds none; files of the listing are as the server has them, later ones unverified |
| `LedgerRevalidation.RecoveryCanFinish` | apps/admin-web/src/ledger-controller.ts:22-42 | whatever the server has, such a run to a signed-in page exists |
| `LedgerController.Controller.constructor` | apps/admin-web/src/ledger-controller.ts:4-8 | the object starts as the initial page |
| `LedgerController.Controller.ClearPreview` | apps/admin-web/src/ledger-controller.ts:13 | closes the preview and releases the URL it held (in place, equal to the transition the theorems speak of) |
| `LedgerController.Controller.StopTimers` | apps/admin-web/src/ledger-controller.ts:12 | no timer of the page stays live (in place, equal to the transition the theorems speak of) |
| `LedgerController.Controller.Expire` | apps/admin-web/src/ledger-controller.ts:14-16 | the expiry step of the page (in place, equal to the transition the theorems speak of) |
| `LedgerController.Controller.Refused` | apps/admin-web/src/ledger-controller.ts:17-21 | a sign-in failure of the current epoch expires the page, any other leaves it (in place, equal to the transition the theorems speak of) |
| `LedgerController.Controller.FileStep` | apps/admin-web/src/ledger-controller.ts:36 | a recovery call is issued with the current epoch and identity (in place, equal to the transition the theorems speak of) |
| `LedgerController.Controller.BeginRecovery` | apps/admin-web/src/ledger-controller.ts:63-66 | the beginning of a full recovery: new epoch, nothing in progress (in place, equal to the transition the theorems speak of) |
| `LedgerController.Controller.Resume` | apps/admin-web/src/ledger-controller.ts:43-49 | the resume step, also while one is under way (in place, equal to the transition the theorems speak of) |
| `LedgerController.Controller.ForgetEmployee` | apps/admin-web/src/ledger-controller.ts:70-72 | everything kept for the old employee is given up (in place, equal to the transition the theorems speak of) |
| `LedgerController.Controller.QueueAll` | apps/admin-web/src/ledger-controller.ts:77 | the loop queues every pending task (in place, equal to the transition the theorems speak of) |
| `LedgerController.Controller.NextCheck` | apps/admin-web/src/ledger-controller.ts:26-41 | the next chunk of the check is sent, or the recovery completes (in place, equal to the transition the theorems speak of) |
| `LedgerController.Controller.AdoptContext` | apps/admin-web/src/ledger-controller.ts:70-74 | the context is adopted and the check begins (in place, equal to the transition the theorems speak of) |
| `LedgerController.Controller.ContextAnswered` | apps/admin-web/src/ledger-controller.ts:57-74 | the step of a context answer, passive or full, live or late (in place, equal to the transition the theorems speak of) |
| `LedgerController.Controller.CheckAnswered` | apps/admin-web/src/ledger-controller.ts:36-41 | the step of a check page, live or late (in place, equal to the transition the theorems speak of) |
| `LedgerController.Controller.RecoveryFailed` | apps/admin-web/src/ledger-controller.ts:50-56 | the step of a failed recovery call (in place, equal to the transition the theorems speak of) |
| `LedgerController.Controller.Query` | apps/admin-web/src/ledger-controller.ts:84-89 | the query step (in place, equal to the transition the theorems speak of) |
| `LedgerController.Controller.QueryAnswered` | apps/admin-web/src/ledger-controller.ts:90-96 | the step of a coverage answer (in place, equal to the transition the theorems speak of) |
| `LedgerController.Controller.QueryFailure` | apps/admin-web/src/ledger-controller.ts:95-96 | the step of a failed query (in place, equal to the transition the theorems speak of) |
| `LedgerController.Controller.ShowPreview` | apps/admin-web/src/ledger-controller.ts:98-103 | the preview step (in place, equal to the transition the theorems speak of) |
| `LedgerController.Controller.PreviewAnswered` | apps/admin-web/src/ledger-controller.ts:104-107 | the step of a preview URL (in place, equal to the transition the theorems speak of) |
| `LedgerController.Controller.PreviewFailure` | apps/admin-web/src/ledger-controller.ts:106-107 | the step of a failed preview (in place, equal to the transition the theorems speak of) |
| `LedgerController.Controller.Download` | apps/admin-web/src/ledger-controller.ts:109-114 | the download step (in place, equal to the transition the theorems speak of) |
| `LedgerController.Controller.DownloadAnswered` | apps/admin-web/src/ledger-controller.ts:115-118 | the step of a download URL (in place, equal to the transition the theorems speak of) |
| `LedgerController.Controller.DownloadFailure` | apps/admin-web/src/ledger-controller.ts:117-118 | the step of a failed download (in place, equal to the transition the theorems speak of) |
| `LedgerController.Controller.QueuePoll` | apps/admin-web/src/ledger-controller.ts:121-124 | cancels the task's timer and sets a new one if it is pending (in place, equal to the transition the theorems speak of) |
| `LedgerController.Controller.Poll` | apps/admin-web/src/ledger-controller.ts:125-130 | the poll step (in place, equal to the transition the theorems speak of) |
| `LedgerController.Controller.TimerFired` | apps/admin-web/src/ledger-controller.ts:123 | the callback forgets its timer and polls (in place, equal to the transition the theorems speak of) |
| `LedgerController.Controller.PollAnswered` | apps/admin-web/src/ledger-controller.ts:131-135 | the step of a status answer (in place, equal to the transition the theorems speak of) |
| `LedgerController.Controller.PollFailure` | apps/admin-web/src/ledger-controller.ts:134-135 | the step of a failed poll (in place, equal to the transition the theorems speak of) |
| `LedgerController.Controller.Link` | apps/admin-web/src/ledger-controller.ts:152-156 | the link step (in place, equal to the transition the theorems speak of) |
| `LedgerController.Controller.LinkAnswered` | apps/admin-web/src/ledger-controller.ts:157-160 | the step of a link answer (in place, equal to the transition the theorems speak of) |
| `LedgerController.Controller.LinkFailure` | apps/admin-web/src/ledger-controller.ts:159-160 | the step of a failed link (in place, equal to the transition the theorems speak of) |
| `LedgerController.Controller.SendSelection` | apps/admin-web/src/ledger-controller.ts:140-145 | the attempt is reused or replaced, and sent unless it has its task (in place, equal to the transition the theorems speak of) |
| `LedgerController.Controller.Submit` | apps/admin-web/src/ledger-controller.ts:137-145 | the submit step (in place, equal to the transition the theorems speak of) |
| `LedgerController.Controller.SubmitAnswered` | apps/admin-web/src/ledger-controller.ts:146-150 | the step of an accepted submit (in place, equal to the transition the theorems speak of) |
| `LedgerController.Controller.SubmitFailure` | apps/admin-web/src/ledger-controller.ts:149-150 | the step of a failed submit (in place, equal to the transition the theorems speak of) |
| `LedgerController.Controller.Handle` | apps/admin-web/src/ledger-controller.ts:12-162 | whichever event comes, the object makes exactly the step of the transition system |
| `LedgerController.Controller.HandleReachable` | apps/admin-web/src/ledger-controller.ts:12-162 | an object on a reachable page stays on reachable pages, where every promise of the page holds |
| `LedgerController.Controller.Run` | apps/admin-web/src/ledger-controller.ts:12-162 | a whole run of the page is a run of the object, which ends where the run ends |
| `LedgerController.Serve` | apps/admin-web/src/ledger-controller.ts:3-162 | a new object driven by any run from the start stands for the page that run leads to, a reachable one: the theorems about runs are about this object |
| `EnvFile.UpdateSets` | scripts/deploy-staging.ts:173-189 | an update reads back as the new triple and keeps every other line in order |
| `EnvFile.ReadMeans` | scripts/deploy-staging.ts:213-215 | what is read is what stands behind the name on the last line that begins with it |
| `EnvFile.ReadNothing` | scripts/deploy-staging.ts:213-215 | nothing is read if no line begins with the name |
| `EnvFile.OthersMeans` | scripts/deploy-staging.ts:179-183 | exactly the lines that set one of the three images are filtered out |
| `EnvFile.UpdateBack` | scripts/deploy-staging.ts:173-189 | going to a new triple and back leaves what one update would leave |
| `EnvFile.ReadBack` | scripts/deploy-staging.ts:213-215 | three written lines read back as written, whatever stands before them |
| `EnvFile.CutOff` | scripts/deploy-staging.ts:250-251 | a record cut off after any number of characters names only beginnings of what was to be written, and the third image only if the first two are there in full |
| `EnvFile.UpdateImages` | scripts/deploy-staging.ts:173-189 | the filter and three appends give the updated file |
| `EnvFile.SignedKeepsImages` | scripts/deploy-staging.ts:709-723 | setting the signing secret changes no image and no other line |
| `EnvFile.SignedMeans` | scripts/deploy-staging.ts:717-720 | the secret reads back, and every line that does not set it stays where it was |
| `Rollout.Host.Moment` | scripts/deploy-staging.ts:108-142 | between commands only a running aware writer can put order scope to use; the invariant holds at every recorded moment |
| `Rollout.Host.Quiesce` | scripts/deploy-staging.ts:120-140 | admits only with both writers stopped and order scope unused, after exactly the steps list, stop, probe; a refusal although the commands worked means order scope is in use; with `docker start` working a refusal leaves both writers as they were |
| `Rollout.Host.Guard` | scripts/deploy-staging.ts:108-142 | admits a target only if it is aware or, with both writers stopped, order scope is unused; if its commands work it refuses only an unaware target while order scope is in use; a refusal restarts only what ran, all of it if `docker start` works |
| `Rollout.Host.PutRecord` | scripts/deploy-staging.ts:250-251 | the record holds the starting triple; on failure the old record, or the new one cut off anywhere; either way a record that names three images names two of one label |
| `Rollout.Host.Prepare` | scripts/deploy-staging.ts:240-256 | arming means the previous record is the starting triple (release-ops defaulted) and the compose file is saved, after exactly the steps up to there, all of which worked; if the commands work it fails to arm only for a missing image name or an unaware release while order scope is in use; a failure leaves the writers as they were if they can be started |
| `Rollout.Host.ExitUnarmed` | scripts/deploy-staging.ts:228-230 | an unarmed exit starts again only writers the guard stopped, and all of them if `docker start` works |
| `Rollout.Host.Enter` | scripts/deploy-staging.ts:158-256 | without the lock or a staged compose file nothing is touched; otherwise as Prepare, behind the lock |
| `Rollout.Host.Advance` | scripts/deploy-staging.ts:257-271 | the steps run in order up to the first that fails, and it succeeds exactly if none fails; success means new images, new compose file and both writers on the new release, both of which have names |
| `Rollout.Host.RestorePrevious` | scripts/deploy-staging.ts:208-227 | if all its commands work, it lets the previous release in exactly if that is aware or order scope is not in use, and then restores triple, compose file and writers; a refused one touches no file and, with `docker start` working, no writer |
| `Rollout.Host.Restore` | scripts/deploy-staging.ts:218-226 | behind the guard exactly these commands run in order, errors not stopping them: the saved compose file if there is one, the images, pull, bring up, wait; if they work, triple, compose file and both writers are the previous release's |
| `Rollout.Host.Proceed` | scripts/deploy-staging.ts:207-274 | an armed rollout runs its steps up to the first that fails; that ends it or hands over to the trap, whose commands, if they work, restore the release whenever it is let in |
| `Rollout.Host.RollOut` | scripts/deploy-staging.ts:144-274 | if all commands work the rollout completes, unless an image name is missing or an unaware release meets order scope in use; a completed one ran exactly the commands called for, in their order: migrated exactly if asked, brought the writers up after compose file, images, pull, Qdrant and migration, and waited for health and readiness after that; a failed one ran a beginning of them; an exit before arming leaves both files, and the writers if they can be started; afterwards the record reads back the starting triple; a failure after arming whose trap commands work is let in exactly if the old release is aware or order scope unused, and then has the old triple, compose file, other lines and writers; a trap that is not let in before the new release came up leaves the writers as they were exactly if the new release is aware or none ran |
| `Rollout.ObeyedRollout` | scripts/deploy-staging.ts:158-271 | the steps of a rollout, up to the first that fails, hold each command at most once, in order, none without all that come before it; complete, they are exactly those called for |
| `Rollout.CompleteIsUp` | scripts/deploy-staging.ts:257-271 | in a complete rollout the writers come up after compose file, images, pull, Qdrant and, exactly if asked for, the migration, and are waited for after that |
| `Rollout.RollbackComplete` | scripts/deploy-staging.ts:286-353 | the commands of a complete manual rollback: lock, guard, saved compose file if there is one, images, check, pull, bring up, wait, record, list, in this order |
| `Rollout.DenialLeavesWritersDown` | scripts/deploy-staging.ts:207-231 | an input on which both writers run before, every command up to arming works, and neither writer runs afterwards, although the guard's comment says that denial restores the current services |
| `Rollout.Host.PutBack` | scripts/deploy-staging.ts:310-353 | behind the guard the steps run up to the first that fails; if none does, the previous release is installed and brought up |
| `Rollout.Host.RollBack` | scripts/deploy-staging.ts:276-354 | if all its commands work, it lets the recorded release in exactly if that is aware or order scope is not in use, and then runs the recorded triple with all other lines kept; a done one ran exactly the commands called for, in order; a refused one touches no file and, with `docker start` working, no writer |
| `Rollout.Host.BackTo` | scripts/deploy-staging.ts:308-353 | the same behind the lock |
| `Rollout.Host.PutSecret` | scripts/deploy-staging.ts:709-727 | sets the secret's line and nothing else if the command works and the secret is not empty, otherwise nothing |
| `Rollout.Host.Deploy` | scripts/deploy-staging.ts:1036-1077 | if all commands work, the release is verified unless an image name or the secret is missing or the guard keeps an unaware release out; a verified deployment uploaded, set the secret, ran a whole rollout (migrated exactly if asked, before bringing the writers up), checked in public, smoke-tested and recorded, in this order; it runs the asked release and records the way back; the invariant holds throughout |
| `Rollout.Host.Operate` | scripts/deploy-staging.ts:966-1077 | over any sequence of deployments and rollbacks, failing or cut off anywhere, no unaware release runs while order scope is in use, at any moment |
| `AuditPolicy.FirstCovering` | scripts/check-vulnerability-policy.ts:87-97 | the exception covers the advisory and no earlier one does; none only if none covers it |
| `AuditPolicy.WalkDecides` | scripts/check-vulnerability-policy.ts:144-187 | the walk accepts exactly when every path below the package ends in order; it terminates on cyclic graphs |
| `AuditPolicy.WalkFromStart` | scripts/check-vulnerability-policy.ts:144-187 | an accepted walk visits exactly the reachable packages and matches exactly the advisories on its paths |
| `AuditPolicy.RootOkMeans` | scripts/check-vulnerability-policy.ts:190-197 | a root passes exactly when all its paths are in order under one exception id |
| `AuditPolicy.NormalizedMeans` | scripts/check-vulnerability-policy.ts:75-78 | severities compare without regard to capitals, "medium" is "moderate", and critical is critical in any capitals |
| `AuditPolicy.ExceptionMeans` | scripts/check-vulnerability-policy.ts:80-97 | the exception found is the first, moderates last, that is for production and lists the advisory by id, package and severity; none for a critical one |
| `AuditPolicy.ObjectionMeans` | scripts/check-vulnerability-policy.ts:168-181 | an advisory is accepted exactly if such an exception exists, its review day has not passed, and it names the root and allows every package on the path |
| `AuditPolicy.WalkShows` | scripts/check-vulnerability-policy.ts:144-187 | a walk that is turned down names something a path it could take shows: an unreadable finding, a cycle, an unreadable advisory, one without an exception in time, or one whose exception does not allow the path |
| `AuditPolicy.BackToRoot` | scripts/check-vulnerability-policy.ts:189-206 | in a report without cycles every package is reached from a root |
| `AuditPolicy.AcceptedIsSound` | scripts/check-vulnerability-policy.ts:189-206 | if all roots pass and every package was covered, the report is sound |
| `AuditPolicy.SoundIsCovered` | scripts/check-vulnerability-policy.ts:204-206 | in a sound report the roots' walks leave no package for the last loop |
| `AuditPolicy.SoundMeans` | scripts/check-vulnerability-policy.ts:70-97 | on any path of a sound report no package comes twice, and each advisory is not critical and has a first exception that lists it, whose deadline exists and is not before now, that names that root and allows every package of the path |
| `AuditPolicy.UnapprovedIsUnsound` | scripts/check-vulnerability-policy.ts:70-97 | the converse: one advisory below a root without such an exception (missing, lapsed, undated, for another root, or not allowing a package), and the report is not sound |
| `AuditPolicy.SoundIsAcceptable` | scripts/check-vulnerability-policy.ts:121-212 | soundness spelled out, both directions: on every path from a package nothing names the end is in order, the advisories below it are decided by exceptions with one id, and every package is on such a path |
| `AuditPolicy.AcceptsMeans` | scripts/check-vulnerability-policy.ts:195-202 | the accepted and registered ids, spelled out: of exceptions that decide below a passing root, registered if an advisory is called moderate in any capitals |
| `AuditPolicy.SoundIsTame` | scripts/check-vulnerability-policy.ts:144-187 | a sound report has no cycle and names no package it does not hold |
| `AuditPolicy.IdsMean` | scripts/check-vulnerability-policy.ts:195-202 | the ids reported are those of exceptions met below passing roots |
| `AuditPolicy.Distinct` | scripts/check-vulnerability-policy.ts:207-208 | each name once, none lost |
| `AuditPolicy.Evaluation.Resolve` | scripts/check-vulnerability-policy.ts:144-187 | the mutating walk returns, traverses and rejects exactly as the path semantics says |
| `AuditPolicy.Evaluation.EvaluateRoots` | scripts/check-vulnerability-policy.ts:189-203 | no violation so far exactly when every root passes |
| `AuditPolicy.Evaluation.Evaluate` | scripts/check-vulnerability-policy.ts:134-209 | accepted exactly when the report is sound |
| `AuditPolicy.EvaluateNpmAudit` | scripts/check-vulnerability-policy.ts:121-212 | ok exactly for a readable report that is acceptable as spelled out; accepted and registered ids are exactly those of passing roots, without repetition; every violation reported has its cause in the report |
| `AuditPolicy.OneAdvisory` | scripts/check-vulnerability-policy.ts:195-202 | in a report with one covered advisory the exception is accepted, and registered exactly if the severity reads moderate in any case of letters |
| `AuditPolicy.MediumIsNotRegistered` | scripts/check-vulnerability-policy.ts:195-202 | a report whose advisory of severity "medium" is accepted and not registered |
| `CumulativeGain.SortDownSorts` | scripts/golden-retrieval-eval.ts:734-735 | the ideal order holds the same grades, largest first |
| `CumulativeGain.TopIsLargest` | scripts/golden-retrieval-eval.ts:730-740 | no choice of grades sums to more gain than as many of the largest |
| `CumulativeGain.DrawnFromGrades` | scripts/golden-retrieval-eval.ts:731-733 | distinct ids draw their grades from different entries |
| `CumulativeGain.LeadByParts` | scripts/golden-retrieval-eval.ts:730-744 | summation by parts: the lead in discounted gain is at least the weighted lead in plain gain |
| `CumulativeGain.NdcgBounded` | scripts/golden-retrieval-eval.ts:730-744 | 0 <= NDCG <= 1 for every ranking with distinct ids and non-negative grades |
| `CumulativeGain.NdcgIsOneIff` | scripts/golden-retrieval-eval.ts:730-744 | NDCG is 1 exactly when some grade is positive and the ranking shows the ideal grades place by place |
| `CumulativeGain.NdcgMeans` | scripts/golden-retrieval-eval.ts:730-744 | the measure times the weighted gain of the k best grades is that of the grades shown in the first k places, an ungraded id counting 0; 0 if the best gain nothing |
| `CumulativeGain.GradedFirstMeasuresOne` | scripts/golden-retrieval-eval.ts:730-744 | graded chunks first in non-increasing grade measure 1 |
| `CumulativeGain.RepeatsExceedOne` | scripts/golden-retrieval-eval.ts:730-744 | a repeated id can push the measure above 1 |
| `Retrieval.ChunkIdInjective` | scripts/golden-retrieval-eval.ts:815-817 | chunk ids tell documents and sections apart |
| `Retrieval.CorpusIdsDistinct` | scripts/golden-retrieval-eval.ts:773-784 | a corpus with unique document and section ids has distinct chunk ids |
| `Retrieval.RankingExact` | scripts/golden-retrieval-eval.ts:639-658 | a ranking holds exactly the active, current chunks within clearance that score at least 0.05, for a caller who is not disabled; best first, ties by id, no id twice |
| `Retrieval.FirstRelevant` | scripts/golden-retrieval-eval.ts:725-728 | the first relevant place and none before it |
| `Retrieval.RelevantBounded` | scripts/golden-retrieval-eval.ts:583-594 | the hits counted are the distinct relevant ids shown, at most as many as are relevant |
| `Retrieval.MeasuresMean` | scripts/golden-retrieval-eval.ts:579-595 | a hit is a relevant id among the first five; recall times the number of relevant ids, and precision times five, count the relevant places among the first ten and five; the reciprocal rank times the first relevant place is 1 if that is among the first ten, and it is 0 exactly if none is |
| `Retrieval.NdcgValue` | scripts/golden-retrieval-eval.ts:596 | the gain is measured on the ranking's first ten places |
| `Retrieval.TotalAdds` | scripts/golden-retrieval-eval.ts:576-597 | sums over queries add up |
| `Retrieval.TotalOne` | scripts/golden-retrieval-eval.ts:586-597 | an answerable query counts with its value, another not at all |
| `Retrieval.AverageMeans` | scripts/golden-retrieval-eval.ts:616-626 | an average times the number of answerable queries is their sum; 0 if there are none |
| `Retrieval.AverageBounded` | scripts/golden-retrieval-eval.ts:616-626 | every averaged measure lies between 0 and 1 |
| `Retrieval.NothingLeaks` | scripts/golden-retrieval-eval.ts:600-613 | nothing a ranking returns is above clearance, archived, stale or for a disabled caller |
| `Retrieval.EvaluateMode` | scripts/golden-retrieval-eval.ts:558-637 | the loop's metrics are the averages over answerable queries, their number, and the rate of wrongly answered unanswerable ones; all leak counts are zero for every corpus |
| `CostCards.ReadIsSound` | packages/db/src/cost-cards.ts:564-605 | a snapshot shows exactly the unarchived, authorized, selected cards of one store state |
| `CostCards.ReadRefuses` | packages/db/src/cost-cards.ts:564-605 | a read is refused exactly if the employee is disabled, more cards than allowed are to be seen, or one asked for by id is not to be seen, with the error of the first that applies |
| `CostCards.FixedCards` | apps/api/src/cost-cards.ts:18-43 | all cards fit, or the list is refused |
| `CostCards.FixedCardMeans` | apps/api/src/cost-cards.ts:18-43 | a card fits exactly if it is of the supported kind and schema with safe counts; the schema is checked first |
| `CostCards.FixedCardsRefuse` | apps/api/src/cost-cards.ts:18-43 | the first card that does not fit decides the error |
| `CostCards.WholeSecond` | apps/api/src/cost-cards.ts:76-81 | the last whole second not after an instant |
| `CostCards.ExpiryMeans` | apps/api/src/cost-cards.ts:133-148 | a URL states its expiry by `Expires` in seconds, or else by a date and seconds from it, or not at all |
| `CostCards.NumberMeans` | apps/api/src/cost-cards.ts:136 | decimal notation, digit by digit |
| `CostCards.CreateService` | apps/api/src/cost-cards.ts:45-60 | limits must be positive; the lifetime is what was asked, at most 900 seconds |
| `CostCards.SignOne` | apps/api/src/cost-cards.ts:80-92 | the URL is for the object, name and lifetime asked; the expiry falls to what it allows, and no further than its start or stated expiry demands |
| `CostCards.SignAll` | apps/api/src/cost-cards.ts:76-92 | each entry has its card's fields and a URL for its card's own object under its own name; the expiry is no later than any issued URL's real expiry, and one of its bounds is met |
| `CostCards.SumRows` | apps/api/src/cost-cards.ts:117-119 | the row total of all entries |
| `CostCards.RowsAdd` | apps/api/src/cost-cards.ts:117-119 | the total is the sum of the entries' row counts |
| `CostCards.CreateManifest` | apps/api/src/cost-cards.ts:62-122 | a manifest shows, place by place and field by field, the cards of two reads under one authorization, each with a URL for that card's own object; it expires no later than any of its URLs, after the final check, and no earlier than one of its bounds; an error names the first step that went wrong |
| `CostCards.CardStays` | apps/api/src/cost-cards.ts:62-122 | with growing revisions, a card of both reads was the same at every moment between |
| `CostCards.EntryStays` | apps/api/src/cost-cards.ts:62-122 | each entry was stored, unarchived, selected and authorized with these fields and this object at every moment between the reads |
| `StoreCleanup.SelectedExact` | scripts/partition-store-cleanup-support.ts:182-216 | targets are exactly the rows in scope |
| `StoreCleanup.ScopeMeans` | scripts/partition-store-cleanup-support.ts:199-204 | a scope names organization, enterprise, one of the datasets, one of the stores and parts of names if given, and the days from first to last |
| `StoreCleanup.TargetsMean` | scripts/partition-store-cleanup-support.ts:182-217 | the targets are the rows of exactly the partitions the scope names; none is the empty match, several enterprises are ambiguous |
| `StoreCleanup.KeptOrder` | scripts/partition-store-cleanup-support.ts:266-268 | a cleanup leaves the partitions the scope does not name, in their order |
| `StoreCleanup.CleansMeans` | scripts/partition-store-cleanup-support.ts:266-293 | a cleanup takes exactly the partitions the scope names, queues exactly the keys of those that none left refers to, and adds one audit record with the number of rows deleted and requests invalidated |
| `StoreCleanup.PreservedCounted` | scripts/partition-store-cleanup-support.ts:226-229 | preserved are the organization's partitions the scope does not name |
| `StoreCleanup.DeletesTargets` | scripts/partition-store-cleanup-support.ts:265-267 | deleting by the targets' ids deletes the rows in scope and nothing else |
| `StoreCleanup.CleanupIsOnce` | scripts/partition-store-cleanup-support.ts:182-208 | right after a cleanup its scope matches nothing, so a repeated attempt gets the empty-match error |
| `StoreCleanup.PreviewIsWhatIsDeleted` | scripts/partition-store-cleanup-support.ts:242-267 | whatever happened since the preview, a confirmed run finds exactly the previewed partitions in their previewed state |
| `StoreCleanup.Database.Preview` | scripts/partition-store-cleanup-support.ts:221-241 | an inventory states the targets, what is preserved, and their fingerprint |
| `StoreCleanup.Database.Enqueue` | scripts/partition-store-cleanup-support.ts:269-279 | exactly the target keys no surviving partition refers to are queued |
| `StoreCleanup.RemovedDoNotMatch` | scripts/partition-store-cleanup-support.ts:263-265 | once the targets' ids are gone the scope no longer selects the targets, whatever rows others add |
| `StoreCleanup.Database.Apply` | scripts/partition-store-cleanup-support.ts:266-299 | one commit of deletion, queueing and audit together |
| `StoreCleanup.Database.Attempt` | scripts/partition-store-cleanup-support.ts:256-300 | all of the cleanup takes effect or nothing, exactly if the commit is reached and the tables confirm the inventory; the caller learns of it only if the commit is acknowledged |
| `StoreCleanup.Database.Retry` | packages/db/src/retry.ts:35-60 | of up to three attempts, with anything done by others in between, at most one takes effect; an applied commit whose answer was lost makes the next attempt fail with the empty match |
| `StoreCleanup.ThreeAttempts` | packages/db/src/retry.ts:39-57 | a commit takes effect in one of three attempts, the ones before it lost without a commit in a transient error |
| `StoreCleanup.Database.Execute` | scripts/partition-store-cleanup-support.ts:242-300 | at most one commit takes effect and it is the confirmed cleanup: exactly the confirmed rows gone, exactly the unreferenced target keys queued, one audit record; success means it took effect and its answer is that record; undisturbed, an error leaves the tables alone exactly unless the tables confirm the inventory and some attempt's commit is applied, and success comes exactly if that commit is acknowledged |
| `StoreCleanup.CommittedYetRefused` | packages/db/src/retry.ts:39-57 | an input on which the only row is deleted, queued and audited and the caller is told that the scope matched nothing |
| `Workbook.ColumnName` | scripts/generate-structured-xlsx-fixtures.ts:79-87 | the loop's name is the word at position index in bijective base 26 |
| `Workbook.ColumnsAreBijective` | scripts/generate-structured-xlsx-fixtures.ts:79-87 | indexes and non-empty A-Z words correspond one to one |
| `Workbook.ColumnsKeepOrder` | scripts/generate-structured-xlsx-fixtures.ts:79-87 | column order is the shortlex order of names |
| `Workbook.EscapeIsMapped` | scripts/generate-structured-xlsx-fixtures.ts:52-59 | five replacements in a row are one simultaneous character map |
| `Workbook.UnescapeUndoes` | scripts/generate-structured-xlsx-fixtures.ts:52-59 | reading the five predefined entities of XML 1.0 gives the text back |
| `Workbook.CollectShared` | scripts/generate-structured-xlsx-fixtures.ts:167-187 | exactly the strings the cells share, each once |
| `Workbook.FindIndex` | scripts/generate-structured-xlsx-fixtures.ts:101-112 | the first place of a string: it stands there and nowhere earlier; -1 only if it is absent |
| `Workbook.SharedCellFindsItself` | scripts/generate-structured-xlsx-fixtures.ts:101-113 | a shared cell's index is the one place where its own text stands |
| `Acceptance.YearOf` | scripts/official-manual-acceptance-support.ts:245-251 | the calendar year that holds a day |
| `Acceptance.YearLength` | scripts/official-manual-acceptance-support.ts:245-251 | years have 366 days exactly in Gregorian leap years |
| `Acceptance.KnownDays` | scripts/official-manual-acceptance-support.ts:245-251 | the calendar is the usual one: 1 January 1970 was a Thursday, 1 January 2000 a Saturday |
| `Acceptance.IsoWeekIsStandard` | scripts/official-manual-acceptance-support.ts:245-251 | `isoWeek` is the week number of section 4.1.4 of ISO 8601:2004, counted from the week with 4 January |
| `Acceptance.WeekYearIsUnique` | scripts/official-manual-acceptance-support.ts:245-251 | every day has one week year |
| `Acceptance.CreateWindow` | scripts/official-manual-acceptance-support.ts:172-175 | a negative attempt is refused |
| `Acceptance.WindowIsOneWeek` | scripts/official-manual-acceptance-support.ts:172-202 | Monday start no later than the 28th; all four dates in one week whose week year and number are the labelled ones |
| `Acceptance.WindowFollowsDigest` | scripts/official-manual-acceptance-support.ts:176-182 | the first two bytes choose one of forty years from 2040, the third the month, the fourth one of its first four Mondays |
| `Acceptance.FortyTwo` | scripts/official-manual-acceptance-support.ts:121-149 | the 2, 5, 10, 15 second schedule reaches ten minutes with the 42nd delay and not before |
| `Acceptance.PollImport` | scripts/official-manual-acceptance-support.ts:121-149 | a sleep of 2, 5, 10 and then 15 seconds before each of at most 42 calls, only the last cut short, and no other waiting; every answer but the last is of the asked batch and not terminal, and the last decides: returned if terminal, a failure with its cause otherwise; it gives up only after ten minutes |
| `Cutover.IndexResources` | apps/api/src/business-authorization-cutover.ts:64-87 | every index holds exactly the resources a scan would find, the last one where a key repeats |
| `Cutover.IndexCategories` | apps/api/src/business-authorization-cutover.ts:58 | under each id the last category that has it |
| `Cutover.IndexDimensions` | apps/api/src/business-authorization-cutover.ts:59-61 | under each id the values of the last dimension that has it |
| `Cutover.KeyedLastIsOnly` | apps/api/src/business-authorization-cutover.ts:58-87 | where ids and keys identify, the last one found is the only one there is |
| `Cutover.FindIsScan` | apps/api/src/business-authorization-cutover.ts:106 | an indexed category is the last one a scan finds |
| `Cutover.DimensionIsScan` | apps/api/src/business-authorization-cutover.ts:137-138 | a dimension is indexed exactly when a scan finds one, and a value exactly when the last one found has it |
| `Cutover.LookIsScan` | apps/api/src/business-authorization-cutover.ts:160 | an indexed review or card resource is the last one a scan finds under its key |
| `CutoverInspection.ResourceExact` | apps/api/src/business-authorization-cutover.ts:104-140 | a resource gets a code exactly when the un-indexed condition fails |
| `CutoverInspection.DocumentExact` | apps/api/src/business-authorization-cutover.ts:141-155 | a document is reported exactly when no resource covers it or a fragment is of another dataset |
| `CutoverInspection.ReviewExact` | apps/api/src/business-authorization-cutover.ts:158-174 | a review is reported exactly when its enterprise is not reviewed or the last resource under its key does not match it |
| `CutoverInspection.ReviewMatchesMeans` | apps/api/src/business-authorization-cutover.ts:162-172 | a resource is for a review exactly if it is valid, of no document, and the review's store is its only scope |
| `CutoverInspection.CardMatchesMeans` | apps/api/src/business-authorization-cutover.ts:178-184 | a resource is for a card exactly if the card's group is its only scope and it is valid exactly while the card is not archived |
| `CutoverInspection.SingleStoreMeans` | apps/api/src/business-authorization-cutover.ts:126-129 | a single store is one scope and no other, owned by a store |
| `CutoverInspection.NamesMean` | apps/api/src/business-authorization-cutover.ts:90-92 | the adapters and fixed categories asked for, by name |
| `CutoverInspection.CardExact` | apps/api/src/business-authorization-cutover.ts:175-186 | a card is reported exactly when the last resource under its key does not match it |
| `CutoverInspection.KeyedMeansAny` | apps/api/src/business-authorization-cutover.ts:158-186 | where a key identifies a resource, a review or card is reported exactly when no resource at all matches it |
| `CutoverInspection.GrantExact` | apps/api/src/business-authorization-cutover.ts:188-203 | a grant is reported exactly when it is invalid or names a missing store or value |
| `CutoverInspection.Inspect` | apps/api/src/business-authorization-cutover.ts:56-209 | the report holds exactly the issues of the nested scans, for every inventory, and is ready exactly when there are none |
| `CutoverInspection.ReadyMeansCovered` | apps/api/src/business-authorization-cutover.ts:141-187 | ready implies every document, partition, review, card and PDF is covered |
| `CutoverInspection.ReadyNamesExist` | apps/api/src/business-authorization-cutover.ts:131-140 | ready implies no scope or grant names a missing store or dimension value |

## Left out

- The page itself (rendering, DOM, wording), HTTP, SSH, Docker, Prisma, object storage and vector search: arbitrary
  answers or abstract state take their place.
- Ledger page: a task is known by its id and not by object identity; `newKey` never repeats a key and the browser
  never repeats a timer handle; a task's buttons belong to a listed task; the `changed` callback does not call back
  into the controller; file names and delays of 2.5 seconds are not modelled.
- LedgerModel.ListingDependsOnKeys: `items`, which only sorts the selection for display, is not modelled.
- Json.ChangedIffMeaningDiffers: `undefined` and `toJSON` are not modelled, a number is known by its printed text, and
  key order is that of UTF-16 code units; `replaceGrant` and `removeGrant` would only add easy members.
- Rollout.Host.Operate: API and worker of one release carry one label, `compose up` of both writers is one step,
  `update_images` is one command that replaces the file as a whole or not at all, as is `install`, container ids are
  always hexadecimal, migrations do not put order scope to use, and deployments follow one another
  (the upload and the signing secret are set outside the lock; another operator's upload in between is not modelled).
- Rollout.Host.Deploy: building, scanning, registry login and removal of old images.
- AuditPolicy.EvaluateNpmAudit: lower-casing is that of ASCII, advisory ids are taken as extracted, and the review
  day's last instant as parsed; Trivy reports are left out.
- CumulativeGain.NdcgBounded: reals instead of floating point; the gain is any strictly rising function that is 0 at
  0, the weights any positive sequence that never rises (strictly falling where equality is characterised).
- Retrieval.EvaluateMode: scoring is any function, locale order any order of ids, and rounding and latencies are left
  out.
- CostCards.CreateManifest: the descriptive fields travel as one text, comparing the two serialisations is comparing
  the fields, the parsing of an `X-Amz-Date` is any function, numbers do not overflow, the clock does not run back, the
  storage signs for the object, name and lifetime it is asked for,
  and a URL that states no expiry is valid for the asked time from its signing.
- CostCards.ReadIsSound: the authorization and selection conditions compiled to SQL are arbitrary predicates on cards.
- CostCards.EntryStays: assumes that versions and revisions only grow and that an id does not come back.
- StoreCleanup.Database.Execute: the fingerprint is taken as injective, scope normalisation as any function, the
  invalidation of download requests enters as its reported result, ids of deleted rows do not come back, and the exact
  conditions for errors and success are stated for runs in which nobody else writes between two attempts.
- StoreCleanup.Database.Preview: its own lost connections and retries, which change nothing.
- Acceptance.WindowIsOneWeek: the digest is any sequence of bytes, days are numbers and their printing is left out.
- CutoverInspection.Inspect: scope and grant validation are arbitrary predicates; loading the inventory and activating
  are left out.
- LedgerRevalidation.RecoveryIsOneCheck: the page, store and date limits of a chunk are at least 1, without which the
  chunk loop of the source does not advance; answers name each file by its own key.
- Workbook.CollectShared: the XML around cells, styles and the archive.
- Command-line parsing, environment checks, readiness, smoke, fixture and purge scripts, and the structured-data,
  ledger archive and worker packages.
