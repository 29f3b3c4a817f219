# Court4: verified models of its stateful services

Court4 keeps uploads, analyses, sessions and stored objects in a database, at a multipart provider
and in process memory, under concurrency, crashes and retries. This project models the services that
own this state and proves what holds in every reachable state, over every run and for every input.

Each stateful service is described twice. A class has the service's fields and methods, with the
source's loops and step-by-step updates; every method is proved equal to a function on values, its
transaction. A transition system then lets these transactions interleave in any order, with failing
and late providers, processes that die between or inside transactions, and unique indexes that abort
a step. Invariants are proved for each write, lifted to each transaction and from there to every run;
the `Serve` method of each class takes exactly the steps of the transition system and stays in its
reachable states, so the theorems are about the classes too.

| files | what they model |
|---|---|
| `common.dfy` | optional values, a clamp at zero, id-ordered listings |
| `upload_parts.dfy` | part sizes, the recovery listing, the part numbers completion accepts |
| `upload_rows.dfy`, `upload_service.dfy` | the transactions of the direct multipart upload, on values and as a service |
| `upload_answers.dfy`, `upload_completion.dfy` | when each upload call succeeds and what it writes, the verification lease over whole runs, and how every unfinished upload can be completed |
| `upload_protocol.dfy`, `upload_invariant.dfy`, `upload_steps.dfy`, `upload_theorems.dfy`, `upload_assembly.dfy` | the upload protocol with in-flight calls, crashes, expiry, cancellation, the sweeper and duplicate cleanup; objects before verification |
| `artifact_registry.dfy`, `artifact_answers.dfy` | the table of artifacts and its view of current rows |
| `run_store.dfy`, `run_service.dfy` | reservations, run starts, transitions, saves and deletion, on values and as a service |
| `run_history.dfy`, `run_steps.dfy`, `run_theorems.dfy`, `run_sources.dfy`, `run_saves.dfy` | attempt chains, event log, idempotency, optimistic locking, effects of saves, duplicates, and where saves go past the other rules |
| `run_answers.dfy` | when each run-store call is accepted, and every table after it |
| `stage_keys.dfy`, `stage_executions.dfy`, `stage_service.dfy`, `stage_answers.dfy` | optional stage attempts and where their artifacts live |
| `auth_sessions.dfy`, `auth_service.dfy`, `auth_families.dfy`, `auth_theorems.dfy` | refresh-token families and account links |
| `auth_answers.dfy` | when each account call succeeds, and passwords, links and logins over whole runs |
| `object_streams.dfy`, `object_lines.dfy`, `object_parts.dfy` | file identity, bounded line stream, part listing |
| `court_sweep.dfy`, `court_quantile.dfy`, `court_verdict.dfy`, `court_answers.dfy` | line coverage, weighted p95, verdict |
| `capacity_ledger.dfy`, `capacity_protocol.dfy`, `capacity_answers.dfy` | reserved storage under concurrent holders |
| `rate_limit.dfy` | the sliding-window limiter |

Some things one would expect turn out not to hold of the code; each is stated exactly.

- `revoke_all_sessions` takes its reason from the caller. With the reason "rotated", and only then, it
  breaks the family chain (`OnlyMisuseBreaksFamilies`, `RotatedAsAReasonIsMistaken`,
  `RotatedReasonsDoMislead`).
- An expired account link is marked invalid and the mark is rolled back with the raise, so presenting
  it never invalidates it (`ExpiryMarkIsRolledBack`, `ExpiredLinksAreNotInvalidated`,
  `MarksAreRolledBack`, `PresentedLinksStayUsable`), while the family revocation of `refresh` survives
  its raise.
- Deleting a match cancels its active run without an event, so exactly there the log falls one state
  short (`DeletionSkipsTheLog`, `DeletionsDoSkipTheLog`).
- Runs leave the transition table exactly when an accepted save of a finished job meets a queued run,
  and such saves are accepted (`LeavesTheTableExactlyByEndingQueued`, `SavesDoLeaveTheTable`).
- One live analysis per recording holds exactly as long as no call writes a recording that the
  duplicate query finds elsewhere; saves can (`DuplicatesAppearExactlyByClashes`, `SavesCanClash`).
- A corrected court withdraws `tracking/`, but a save that carries such files registers them again, so
  such a key shows something exactly when the save carries one (`CorrectedCourtsKeepTheirOwnTracking`,
  `CourtWithdrawalShows`, `CorrectedCourtsDoShowTracking`).
- The withdrawal of `active_play/` is an SQL prefix match, whose underscore matches any character,
  while the filter on the inputs is literal; the keys on which they differ are known exactly, and such
  a key can vanish (`PrefixTestsDifferExactlyThere`, `EvidenceWithdrawalShows`, `MisreadKeysDoVanish`).

## Model

| member | source | states |
|---|---|---|
| UploadParts.PartSizesPartitionTheUpload | app/services/uploads.py:159-160 | with part_count = ceil(size / part_size) every expected part is non-empty and at most a part size, and together they are exactly the declared bytes |
| UploadParts.CheckListing | app/services/uploads.py:258-282 | recovery accepts a provider listing exactly when every part has a number in range, its expected size and a usable tag, and no number occurs twice |
| UploadParts.ListingAccountsForTheUpload | app/services/uploads.py:258-282 | an accepted listing never claims more than the declared bytes, and accounts for all of them exactly when it lists part_count parts |
| UploadParts.CompletionAcceptsPermutations | app/services/uploads.py:356-362 | completion accepts exactly the permutations of 1..part_count |
| UploadService.DirectUploadService.AbortProvider | app/services/uploads.py:770-778 | the provider gives an upload back, idempotently, unless it cannot be reached |
| UploadService.DirectUploadService.ExpireRecordIfNeeded | app/services/uploads.py:780-790 | an overdue claim is aborted at the provider before it is marked expired; a provider failure leaves it as it was |
| UploadService.DirectUploadService.Initiate | app/services/uploads.py:74-209 | one admission: reply, rows and provider state for every branch, including the rollback of rows when the provider or an index fails half-way, and the signing that can fail after the commit |
| UploadService.DirectUploadService.Resume | app/services/uploads.py:104-115 | the branch of initiate for a key that is already bound |
| UploadService.DirectUploadService.Get | app/services/uploads.py:303-307 | reading a session expires it when it is overdue |
| UploadService.DirectUploadService.CreatePartUrls | app/services/uploads.py:309-335 | part URLs are refused for wrong numbers, wrong status and overdue sessions, and otherwise move the session to uploading |
| UploadService.DirectUploadService.BeginComplete | app/services/uploads.py:337-370 | the first transaction of complete: what it accepts and the claim on `completing` it commits before talking to the provider |
| UploadService.DirectUploadService.CompleteAtProvider | app/services/uploads.py:372-391 | the provider call between the two transactions, which may assemble the object and still report failure |
| UploadService.DirectUploadService.FinishComplete | app/services/uploads.py:393-423 | the second transaction of complete: size and type are checked against the provider before the session may be verified |
| UploadService.DirectUploadService.RestoreUploading | app/services/uploads.py:806-814 | a failed completion gives the claim back only while the session is still completing |
| UploadService.DirectUploadService.Fail | app/services/uploads.py:816-831 | failure is recorded only where the session has not settled and no cleanup intent is committed |
| UploadService.DirectUploadService.FenceAbort | app/services/uploads.py:605-617 | the first transaction of abort fences the session before the provider is told |
| UploadService.DirectUploadService.ReleaseAbort | app/services/uploads.py:618-631 | the second transaction of abort gives the upload back and settles the session |
| UploadService.DirectUploadService.Abort | app/services/uploads.py:601-631 | both transactions of abort in a row |
| UploadService.DirectUploadService.MarkAborted | scripts/reconcile_multipart_uploads.py:75-91 | the sweeper re-reads the session under its lock and settles it only if it is still overdue |
| UploadService.DirectUploadService.Reconcile | scripts/reconcile_multipart_uploads.py:37-72 | the sweep over a list of candidates, which stops at no failure |
| UploadService.DirectUploadService.TakeLease | app/services/uploads.py:440-463 | the verification lease: who may take it, and when an expired one is taken over |
| UploadService.DirectUploadService.RecordVerified | app/services/uploads.py:500-520 | the outcome of hashing is written only by a worker whose session still waits for it, and a mismatch fails the session |
| UploadService.DirectUploadService.CommitDuplicateIntent | app/services/uploads.py:553-567 | the intent to delete a duplicate is committed before anything is deleted |
| UploadService.DirectUploadService.CommitResult | app/services/uploads.py:568-581 | the workflow result settles the session |
| UploadService.DirectUploadService.CleanupDuplicate | app/services/uploads.py:833-875 | the duplicate cleanup re-checks the intent and every registration under its locks, then deletes and settles |
| UploadService.DirectUploadService.Serve | app/services/uploads.py:74-875 | whatever transaction is asked of it, with whatever calls in flight, the service takes exactly the protocol step and stays in a reachable state, so every theorem below holds of it |
| UploadSteps.EventStep | app/services/uploads.py:74-875 | every transaction, provider answer, late provider effect, unexpected exception, crash inside a transaction and death of a worker keeps the protocol invariant, and no row and no settled upload goes back |
| UploadTheorems.QuotaHolds | app/services/uploads.py:136-146 | whatever interleaves, no owner ever holds more unfinished sessions than the cap |
| UploadTheorems.AdmissionReleasesClaims | app/services/uploads.py:122-154 | a fresh admission commits only when every expired or cancel-requested claim of the owner has been given back by the provider |
| UploadTheorems.KeyNamesOneSession | app/persistence/models.py:139-143 | an idempotency key names one session for ever; another request under it is refused |
| UploadTheorems.StatusesAreFinal | app/services/uploads.py:806-831 | completed, failed and aborted are never left, expired leads only to aborted, an aborted-at stamp means expired or aborted, every status change raises the row version |
| UploadTheorems.OneEdgeAtATime | app/services/uploads.py:347-423 | one event moves a session along one edge of the status graph or not at all |
| UploadTheorems.VerifiedBeforeAnalysis | app/services/uploads.py:493-520 | analyzing and completed imply a verified checksum, equal to the announced one when there is one; the missing-checksum failure is unreachable |
| UploadTheorems.IntentLeadsToCompleted | app/services/uploads.py:553-567 | once a cleanup intent is committed the only later status is completed, with the same result |
| UploadTheorems.DeletedSourcesStayUnused | app/services/uploads.py:833-875 | a deleted source belongs to a settled duplicate and is never the source of a registered analysis or video, then or later |
| UploadTheorems.DeletionNeedsIntent | app/services/uploads.py:833-875 | a step deletes a source only under a committed intent and while no analysis or video is registered on it |
| UploadTheorems.CancellationFencesCompletion | app/services/uploads.py:601-631 | after the first transaction of a cancellation no completion of the session is in flight, then or ever; once the row carries its abort stamp the upload is not open and never changes again, whatever the provider executes late |
| UploadTheorems.SettledUploadsStay | app/services/uploads.py:770-778 | an upload that was given back never becomes an object and an object never becomes an open upload, in any later state, late requests included |
| UploadTheorems.OneCompletionAtATime | app/services/uploads.py:352-376 | at most one completion per session talks to the provider, and the session is completing while it does |
| UploadTheorems.FencedStaysFenced | app/services/uploads.py:618-625 | the second transaction of a cancellation only ever finds the session expired or aborted |
| UploadAssembly.VerifiedUploadsAreAssembled | app/services/uploads.py:372-423 | a session that is verifying, analyzing or completed has an assembled object, then and in every later state, and a completion of it was begun |
| UploadAssembly.ObjectsComeFromCompletions | app/services/uploads.py:337-391 | in every reachable state an object exists only where a completion of its upload was begun |
| UploadAnswers.AdmittedExactly | app/services/uploads.py:98-209 | in every reachable state a request under a new key is admitted exactly if every overdue claim of the owner can be given back, fewer than the cap stay, and the provider starts an upload under a new name and id; each refusal has its exact condition |
| UploadAnswers.AdmissionWritesExactly | app/services/uploads.py:120-209 | an admission expires exactly the overdue claims, gives back exactly their uploads, inserts the row as requested with parts that sum to the declared size, and touches nothing else |
| UploadAnswers.RefusedAdmissionLeaves | app/services/uploads.py:120-209 | a refused admission leaves every table as it was; the provider keeps the uploads given back, all of them if it could be reached, and the one started for an id that is taken |
| UploadAnswers.ResumedExactly | app/services/uploads.py:106-118 | a request under a bound key is answered with its session exactly if the match lives, the request is the same, and expiry and signing succeed |
| UploadAnswers.ExpiryAnswersExactly | app/services/uploads.py:780-804 | a read expires exactly an overdue session, asks the provider exactly once per upload, and leaves the row when the provider cannot be reached |
| UploadAnswers.ListingsAreAcceptedExactly | app/services/uploads.py:258-282 | recovery accepts a listing exactly if no number occurs twice and every part has a number in range, a full part size or for the last part the rest, and a tag of at most 512 characters on one line that is not blank |
| UploadAnswers.PartUrlsAnswerExactly | app/services/uploads.py:309-335 | part URLs are handed out exactly for parts that exist of an own unfinished upload; the first ones move it to uploading |
| UploadAnswers.CompletionBeginsExactly | app/services/uploads.py:337-370 | completion is claimed exactly by the owner of an unfinished upload who lists every part once, in any order; any other list answers missing parts, and a refusal changes nothing |
| UploadAnswers.CompletionEndsExactly | app/services/uploads.py:393-423 | a completing session is verified exactly if the stored object has the declared size, session, announced size and type, and fails otherwise |
| UploadAnswers.VerifyingStartsExactly | app/services/uploads.py:393-423 | in every reachable state a session starts to be verified exactly when the completion in flight for it commits having read back the announced object; no other transaction does it |
| UploadAnswers.RestoresExactly | app/services/uploads.py:806-814 | a failed completion gives the claim back exactly while the session is completing |
| UploadAnswers.FailsExactly | app/services/uploads.py:816-831 | a failure is recorded exactly unless the session is completed, aborted or about to lose its duplicate |
| UploadAnswers.ReadingDecidesExactly | app/services/uploads.py:376-391 | once the provider has answered, whether the object can be read back decides between ending, failing and giving the claim back |
| UploadAnswers.FencesExactly | app/services/uploads.py:605-617 | a cancellation fences exactly an own upload that is unfinished or expired |
| UploadAnswers.ReleasesExactly | app/services/uploads.py:618-631 | and settles it exactly once the provider has been reached |
| UploadAnswers.SweepsExactly | scripts/reconcile_multipart_uploads.py:75-91 | the sweeper settles exactly sessions that were overdue when its scan began and still are, once the provider has been reached |
| UploadAnswers.LeaseIsTakenExactly | app/services/uploads.py:440-457 | a worker takes the lease exactly of a session to be verified or analyzed that has no start time, or one at least a lease ago |
| UploadAnswers.LeasesAreSpaced | app/services/uploads.py:440-457 | over any run, whatever happens in between, two takings of the lease of one session are at least a lease apart |
| UploadAnswers.HashingGoesOnExactly | app/services/uploads.py:480-499 | a worker goes on exactly if identity and checksum are those announced, where announced, and everything could be computed; which failure is recorded otherwise |
| UploadAnswers.ChecksumIsRecordedExactly | app/services/uploads.py:500-520 | the checksum is written exactly while the session waits for it and the object has the declared size; another size fails the session |
| UploadAnswers.ResumedWorkGoesOnExactly | app/services/uploads.py:467-476 | in every reachable state a resumed worker goes on with the recorded checksum exactly while the session is analyzing |
| UploadAnswers.IntentIsCommittedExactly | app/services/uploads.py:553-567 | the intent to delete a duplicate is committed exactly while the session is analyzing |
| UploadAnswers.ResultIsCommittedExactly | app/services/uploads.py:568-581 | and so is the result |
| UploadAnswers.CleansUpExactly | app/services/uploads.py:833-875 | a cleanup deletes exactly the disposable source under a committed intent and settles the session; a second cleanup is idle |
| UploadAnswers.TransactionsSettle | app/services/uploads.py:74-875 | a transaction that raises leaves every table as it was and only its calls to the provider; one that answers is committed; no other call is touched |
| UploadAnswers.DyingLeavesTheTables | app/services/uploads.py:74-875 | a process that dies inside a transaction leaves every table as it was, its provider calls done and its call gone |
| UploadAnswers.CallsStartExactly | app/services/uploads.py:337-463 | completions, cancellations and workers start exactly if their transaction succeeds |
| UploadAnswers.CallsTakeTheirNextStep | app/services/uploads.py:393-600 | a transaction that is not the next step of a call in flight does nothing; the next step takes the call along |
| UploadAnswers.AnswersArriveExactly | app/services/uploads.py:372-391 | an object comes to be exactly if the provider assembles an open upload, and success is reported only for an object that is there |
| UploadAnswers.WorkflowsAnswerExactly | app/services/uploads.py:529-581 | the workflow registers match and source exactly if it creates one, even if it then fails |
| UploadAnswers.RaisesAndHashesExactly | app/services/uploads.py:465-600 | whatever a worker raises ends in the failure of its session |
| UploadAnswers.StrayEventsDoNothing | app/services/uploads.py:372-581 | an event that no call awaits does nothing |
| UploadAnswers.TheWorldGoesOn | app/services/uploads.py:372-391 | time, deaths of processes, completions the provider carries out late, and deletions asked for change exactly this |
| UploadAnswers.CallsHaveSessions | app/services/uploads.py:372-581 | in every reachable state each call in flight has its session |
| UploadCompletion.UnfinishedUploadsCanComplete | app/services/uploads.py:337-600 | from every reachable state an unfinished session whose upload is still held can be completed, with its object stored and its match registered, by ten steps that are written out |
| ArtifactRegistry.RegisterArtifacts | app/persistence/service.py:1287-1337 | the registration loop: what the table and the returned rows are, or that a unique index aborts |
| ArtifactRegistry.RegistrationRefinesMap | app/persistence/service.py:1287-1337 | registration is a map update: each listed key shows its last input, every other key is untouched, rows are only added or retired |
| ArtifactRegistry.ReRegistrationIsIdle | app/persistence/service.py:1307-1315 | registering a list again writes nothing exactly when no key occurs in it with two contents, in particular when its keys are distinct |
| ArtifactRegistry.WithdrawalHidesPrefixes | app/persistence/service.py:1040-1074 | withdrawing prefixes leaves nothing current under them, keeps every other key and deletes no row |
| ArtifactRegistry.WithdrawnStayWithdrawn | app/persistence/service.py:1059-1084 | a save that withdraws prefixes and drops its own inputs under them leaves those prefixes empty |
| ArtifactRegistry.CurrentIsUnique | app/persistence/models.py:524-538 | at most one row per analysis and logical key is current |
| ArtifactAnswers.RegistersOneExactly | app/persistence/service.py:1298-1337 | an input is answered with the shown row that holds it already, refused exactly if another key of the analysis shows its object, and otherwise a new row, given in every column, supersedes the shown one |
| ArtifactAnswers.InputKeyIs | app/persistence/service.py:1298-1306 | an input is registered under its logical key if it names one that is not empty, else under its storage key |
| ArtifactAnswers.HoldsIsSameBytes | app/persistence/service.py:1307-1315 | a row holds an input already if checksum, size, provider and storage key agree; kind and content type are not compared |
| ArtifactAnswers.RefusedExactly | app/persistence/service.py:1298-1337 | a list is refused exactly if one of its inputs, once those before it are registered, meets an object shown under another key |
| ArtifactAnswers.AnsweredRows | app/persistence/service.py:1307-1337 | every input of an accepted list is answered with a row that holds it under its key |
| ArtifactAnswers.WithdrawsExactly | app/persistence/service.py:1040-1074 | a withdrawal retires exactly the rows whose key has a prefix, an underscore standing for any character, and rewrites no other column |
| ArtifactAnswers.FilterKeepsExactly | app/persistence/service.py:1075-1084 | the filter drops exactly the inputs under a prefix; the others stay as often as they were with the same last one per key |
| RunService.PersistenceService.AddRun | app/persistence/service.py:1381-1425 | a new run is attempt n + 1, linked to attempt n, or refused because one is active |
| RunService.PersistenceService.ReserveAnalysis | app/persistence/service.py:223-335 | the reservation: bound key, exact duplicate, or video, analysis, run, two events and the key in one step |
| RunService.PersistenceService.StartRun | app/persistence/service.py:447-505 | starting a run, with its event, the analysis it wakes and the key it binds |
| RunService.PersistenceService.StartRunAgain | app/persistence/service.py:506-537 | the retry after a unique index refused the insert |
| RunService.PersistenceService.TransitionRun | app/persistence/service.py:539-637 | one optimistic transition of a run with the analysis that follows it, both events and the promotion |
| RunService.PersistenceService.PersistJob | app/persistence/service.py:979-1170 | one save: withdrawals, run, analysis, event, video, end of the run, promotion and registrations, or no trace |
| RunService.PersistenceService.DeleteMatch | app/services/jobs/match_lifecycle.py:78-140 | the first transaction of deleting a match |
| RunService.PersistenceService.RemoveSource | app/services/jobs/source_media.py:14-91 | the intent half of removing a source recording |
| RunService.PersistenceService.Serve | app/persistence/service.py:152-1170 | whatever transaction is asked of it, the service takes exactly the step of the transition system and stays in a reachable state, so every theorem below holds of it |
| RunHistory.LookupsFindTheLast | app/persistence/service.py:1428-1438 | on any linked run table both lookups of the service return the last attempt |
| RunSteps.TransactionStep | app/persistence/service.py:152-1170 | every transaction keeps the run-store invariant and undoes nothing |
| RunTheorems.AttemptsFormAChain | app/persistence/service.py:1381-1438 | in every reachable state the runs of an analysis are attempts 1..n, each linked to the one before, only attempt n can be queued or processing, and both lookups return attempt n |
| RunTheorems.EndedRunsNeverMove | app/persistence/service.py:549-552 | a run that ended is never written again, and no run goes back |
| RunTheorems.PromotedRunsAreCompleted | app/persistence/service.py:602-613 | the promoted run is a completed run of that analysis, now and in every later state, and a promotion is never taken back |
| RunTheorems.LogRebuildsRuns | app/persistence/service.py:1479-1498 | the events of a run of a live match chain from nothing to its state with versions exactly 1..row_version |
| RunTheorems.LogRebuildsAnalyses | app/persistence/service.py:1455-1476 | the events of an analysis chain from nothing to its state with strictly increasing versions |
| RunTheorems.DeletionSkipsTheLog | app/services/jobs/match_lifecycle.py:117-128 | after any call the log falls short of a run exactly if it did before or if the call, judged before it, is an acceptable deletion of its match while the run is active |
| RunTheorems.ShortLogsBelongToDeletedMatches | app/services/jobs/match_lifecycle.py:117-128 | in every reachable state the log falls short of a run exactly when it ends in an active state and the match is deleted; the run is cancelled and its version is right |
| RunTheorems.DeletedExactlyWhenAccepted | app/services/jobs/match_lifecycle.py:78-140 | in every reachable state a deletion is accepted exactly when its guard holds: the owner asks, no other match shares the video, no upload is unfinished |
| RunTheorems.UploadKeysStayBound | app/persistence/service.py:183-206 | a bound upload key answers its analysis while the match is live and an error otherwise, on both paths, for ever, and changes nothing; another fingerprint is refused |
| RunTheorems.ReservationBindsItsKey | app/persistence/service.py:262-335 | whatever analysis a reservation answers, its key is bound to it |
| RunTheorems.OneKeyOneAnalysis | app/persistence/service.py:240-335 | two requests under one key never receive two analyses |
| RunTheorems.WorkflowOutcomesAreStable | app/services/jobs/workflow.py:372-398 | what the workflow concludes from a reservation, new recording or duplicate of which match and video, is the same for every later request under the key |
| RunTheorems.RunKeysStayBound | app/persistence/service.py:1262-1269 | a run-start key answers one run for ever, whichever path answers |
| RunTheorems.KnownRecordingIsAnswered | app/persistence/service.py:266-297 | without allow_duplicate a known recording is answered with its latest live analysis, binding the key and creating nothing; an unknown one is admitted unless its id is taken |
| RunSources.NewRecordingIsAdmitted | app/persistence/service.py:298-335 | every table after a plain reservation of a new recording |
| RunSources.StartsTheNextAttempt | app/persistence/service.py:471-505 | a run start appends attempt n + 1 behind attempt n, binds its key and wakes the analysis exactly when it starts processing; with an active run it aborts |
| RunTheorems.CreatedAtMostOnce | app/persistence/service.py:448-505 | at most one call of any run reports that it created what a key stands for |
| RunTheorems.SecondKeyJoinsTheActiveRun | app/persistence/service.py:506-537 | a second key racing an active run aborts without a trace and then joins that run for ever |
| RunTheorems.PassedVersionsNeverSave | app/persistence/service.py:1022-1030 | a save that names a row version already passed is refused in every later state |
| RunTheorems.PassedVersionsNeverTransition | app/persistence/service.py:585-601 | a transition that names a run version already passed never writes |
| RunTheorems.SavingPassesTheVersion | app/persistence/service.py:1094-1098 | an accepted save named the current version and leaves the next one |
| RunTheorems.TransitionPassesTheVersion | app/persistence/service.py:571-637 | a transition that writes makes one permitted change at the version it named; the analysis follows unless the run went stale, and completion promotes the run |
| RunSources.SaveRunsEffect | app/persistence/service.py:1085-1154 | what one save does to the runs: starts attempt n + 1 when work resumes without an active run, ends the active one when the job ended, and nothing else |
| RunSources.SaveRowEffect | app/persistence/service.py:1093-1151 | the analysis row a save leaves, including when it promotes the last attempt |
| RunSources.SavedExactlyWhenAccepted | app/persistence/service.py:979-1084 | a save is accepted exactly when a guard on the state before it holds: no refusal, a status the table allows, and artifacts that fit the unique indexes after the withdrawals |
| RunSources.CreatesExactlyWhenFree | app/persistence/service.py:240-335 | a reservation creates its analysis exactly when key and id are new and the duplicate query finds nothing or is waived |
| RunSources.SaveShowsExactly | app/persistence/service.py:1040-1084 | what every key of every analysis shows after a save; nothing under analytics/ or active_play/ once evidence changed or completed analytics were withdrawn |
| RunSources.DeletedMatchesAreFrozen | app/persistence/service.py:1445-1452 | after a deletion no run, event or artifact of the match is written any more |
| RunSources.RemovedSourcesRefuseSaves | app/persistence/service.py:1032-1034 | once removal of the recording was requested, no save is accepted again |
| RunSources.DuplicatesAppearExactlyByClashes | app/persistence/service.py:338-369 | a call gives one recording to two live matches exactly when its guards, read before the call, let it write a recording that the duplicate query finds under another match |
| RunSources.PlainReservationsNeverClash | app/persistence/service.py:266-297 | corollary: a reservation without allow_duplicate never does that |
| RunSources.OneLiveAnalysisPerRecording | app/persistence/service.py:266-297 | runs without such calls keep at most one live analysis per owner, checksum and sport |
| RunSources.HarmlessRunsKeepRecordingsDistinct | app/persistence/service.py:266-297 | reservations without allow_duplicate and saves that name no source file among their inputs keep recordings distinct in any order |
| RunSources.SavesCanClash | app/persistence/service.py:1113-1135 | two plain reservations and one save with the first recording as its source file leave two live analyses of one video |
| RunSaves.LeavesTheTableExactlyByEndingQueued | app/persistence/service.py:1139-1154 | in every reachable state a call moves a run past the transition table exactly when it is an accepted save of a completed or failed job and that run is still queued |
| RunSaves.SavesDoLeaveTheTable | app/persistence/service.py:1139-1154 | a reachable state (reserve, complete, queue another run) in which such a save is accepted |
| RunSaves.PrefixTestsDifferExactlyThere | app/persistence/service.py:1065-1084 | the database prefix match and the filter on the inputs differ on exactly the keys that read active, one character but the underscore, play/ |
| RunSaves.EvidenceWithdrawalShows | app/persistence/service.py:1040-1084 | what every key shows after an accepted save that withdraws evidence; on those keys only what the save itself carries survives |
| RunSaves.MisreadKeysDoVanish | app/persistence/service.py:1065-1084 | a reachable run in which such a key is shown and then vanishes with a save whose filter would have kept it |
| RunSaves.DeletionsDoSkipTheLog | app/services/jobs/match_lifecycle.py:117-128 | a reachable state in which the log rebuilds a run, and an accepted deletion after which it does not |
| RunSaves.CourtWithdrawalShows | app/persistence/service.py:1040-1084 | after an accepted save with a corrected court a withdrawn key shows something exactly when the save keeps an input of its own under it, and then that input |
| RunSaves.CorrectedCourtsKeepTheirOwnTracking | app/persistence/service.py:1040-1084 | a tracking key shows something after such a save exactly when the save carries an input under it; no filter drops it |
| RunSaves.CorrectedCourtsDoShowTracking | app/persistence/service.py:1040-1084 | a reachable state in which such a save is accepted and its own tracking file is shown |
| RunAnswers.LostAnalyticsShowNothing | app/persistence/service.py:1059-1074 | an accepted save that changes the evidence, or withdraws completed analytics, leaves nothing shown under analytics/ and active_play/ |
| RunAnswers.OtherKeysStay | app/persistence/service.py:1040-1084 | an accepted save that keeps evidence, completed analytics and active calibration leaves every key alone that it has no input for |
| RunAnswers.NewCourtShowsOnlyInputs | app/persistence/service.py:1040-1058 | an accepted save that makes another, unverified and untracked calibration active leaves under tracking/, analytics/ and active_play/ only its own inputs |
| RunAnswers.SaveShows | app/persistence/service.py:1040-1084 | what every key of every analysis shows after an accepted save, in the fields of the two payloads |
| RunAnswers.WithdrawalRowsExactly | app/persistence/service.py:1040-1074 | which rows a save retires, in the fields of the two payloads |
| RunAnswers.KeptInputsExactly | app/persistence/service.py:1075-1084 | which inputs a save drops, in the fields of the two payloads |
| RunAnswers.SaveAnswersExactly | app/persistence/service.py:1000-1039 | in every reachable state, when a save of an existing match is accepted and which refusal comes first; one that names no version is refused once the calibration is completed |
| RunAnswers.ImportAnswersExactly | app/persistence/service.py:1000-1021 | when a match that is not there is imported |
| RunAnswers.SaveWritesExactly | app/persistence/service.py:1085-1154 | every table after an accepted save of an existing match: row, promotion, runs, the exact events, recording and records |
| RunAnswers.ImportWritesExactly | app/persistence/service.py:1000-1154 | and after an import: a match of version 2 with a first run that a finished job ends at once |
| RunAnswers.SavedVideoExactly | app/persistence/service.py:1113-1135 | the recording a save makes available: object and checksum of the first input registered as its source, else the name itself with the old checksum |
| RunAnswers.TransitionAnswersExactly | app/persistence/service.py:539-637 | in every reachable state, when a transition writes, is answered without writing, or is refused and how, with the table of permitted pairs; and every table after it |
| RunAnswers.StartAnswersExactly | app/persistence/service.py:447-505 | in every reachable state, when a start creates its run, what a bound key answers, and the order of the refusals |
| RunAnswers.StartAgainAnswersExactly | app/persistence/service.py:506-537 | the second attempt joins the active run, and binds the key to it, exactly if there is one |
| RunAnswers.DuplicateIsTheLatest | app/persistence/service.py:338-369 | of all live matches of a recording the query names the one created last, ties broken by the greater id |
| RunAnswers.NoDuplicateExactly | app/persistence/service.py:338-369 | and it names none exactly if no live match stands for the recording |
| RunAnswers.ReservationAnswersExactly | app/persistence/service.py:240-335 | in every reachable state, what a reservation answers on each branch and every table after it |
| RunAnswers.ReservedAgainExactly | app/persistence/service.py:183-206 | the read after an aborted insert answers only from the record of the key |
| RunAnswers.DeletionAnswersExactly | app/services/jobs/match_lifecycle.py:78-140 | in every reachable state, when a deletion is accepted, and every table after it |
| RunAnswers.SharedMediaIsTold | app/services/jobs/match_lifecycle.py:88-99 | a recording that two matches share is neither deleted nor removed |
| RunAnswers.RemovalAnswersExactly | app/services/jobs/source_media.py:14-91 | in every reachable state, when the source of a match is removed and which refusal comes first |
| RunAnswers.ShownRowsDiffer | app/persistence/models.py:524-538 | in every reachable state two rows shown for one match differ in key and in object |
| StageKeys.PrefixesAreDisjoint | app/persistence/service.py:1521-1526 | no key lies under the prefixes of two different stage attempts |
| StageService.StageExecutionService.StartStageExecution | app/persistence/service.py:692-742 | one stage attempt is started, or the active one is answered |
| StageService.StageExecutionService.TransitionStageExecution | app/persistence/service.py:757-832 | one optimistic transition of a stage attempt; completion retires the rows of the other attempts |
| StageService.StageExecutionService.RegisterStageArtifacts | app/persistence/service.py:858-909 | artifacts are registered only for an active attempt and only under its own prefix |
| StageService.StageExecutionService.Serve | app/persistence/service.py:692-909 | whatever call is asked of it, the service takes exactly the step of the transition system and stays in a reachable state |
| StageExecutions.CompletedAttemptsSupersede | app/persistence/service.py:818-831 | no current artifact belongs to an attempt older than a completed attempt of its stage |
| StageExecutions.RegistrationKeepsToItsAttempt | app/persistence/service.py:880-887 | registering for one attempt changes nothing under the prefix of any other |
| StageAnswers.CompletionRetiresExactly | app/persistence/service.py:818-831 | after a completion an artifact is current exactly if it was and does not carry the id of a different attempt of the same analysis and stage; no other column changes |
| StageAnswers.CompletionShowsExactly | app/persistence/service.py:818-831 | in every reachable state, what each key shows after a completion |
| StageAnswers.OwnKeysStay | app/persistence/service.py:818-831 | in every reachable state a completion leaves every key under the own prefix of the attempt showing what it showed |
| StageAnswers.CompletedTrackerShowsItsFile | app/services/ball_tracking/shadow.py:184-230 | a tracker that starts, registers a file and completes leaves that file shown |
| StageAnswers.TransitionAnswersExactly | app/persistence/service.py:757-832 | when a transition writes, is answered without writing, or is refused and how, with the table of permitted pairs; only a completion touches the artifacts |
| StageAnswers.StartAnswersExactly | app/persistence/service.py:676-740 | in every reachable state a start answers with the open attempt of the stage, and appends the next one exactly if there is none |
| StageAnswers.AttemptsAreNumbered | app/persistence/service.py:713-729 | in every reachable state the attempts of a stage are numbered from one without gaps |
| StageAnswers.RegistrationAnswersExactly | app/persistence/service.py:858-909 | in every reachable state, when files are registered for an attempt, which refusal comes first, and what every key shows after it |
| StageAnswers.PrefixSpellsTheAttempt | app/persistence/service.py:1521-1525 | the prefix spells the attempt number with at least four digits |
| AuthService.AuthenticationService.CreateSessionTokens | app/auth/service.py:747-782 | the new session row and the token made for it |
| AuthService.AuthenticationService.RotateSession | app/auth/service.py:231-241 | rotation of one session: the marks on the old row, the new row and the link |
| AuthService.AuthenticationService.RevokeUserSessions | app/auth/service.py:537-542 | the loops that revoke every open session of a user but one |
| AuthService.AuthenticationService.Refresh | app/auth/service.py:149-249 | refresh in all branches; family revocation and expiry are committed although the call raises |
| AuthService.AuthenticationService.Logout | app/auth/service.py:251-269 | logout revokes exactly the open session presented |
| AuthService.AuthenticationService.Login | app/auth/service.py:119-147 | login opens a new family |
| AuthService.AuthenticationService.Register | app/auth/service.py:81-117 | registration creates user, link and session, or nothing at all when an index or the delivery fails |
| AuthService.AuthenticationService.ResendVerification | app/auth/service.py:271-301 | a new verification link replaces the usable one; a failed delivery undoes nothing |
| AuthService.AuthenticationService.OpenAccountLink | app/auth/service.py:829-868 | looking a link up: an expired one is marked invalid in the working tables before the error is raised |
| AuthService.AuthenticationService.VerifyEmail | app/auth/service.py:303-368 | verification consumes the link and rotates the presented session or opens one |
| AuthService.AuthenticationService.RequestPasswordReset | app/auth/service.py:397-433 | a new reset link replaces the usable one |
| AuthService.AuthenticationService.ResetPassword | app/auth/service.py:435-477 | reset consumes the link, changes the password and revokes every session |
| AuthService.AuthenticationService.ChangePassword | app/auth/service.py:479-558 | a password change rotates the presented session and revokes the others |
| AuthService.AuthenticationService.RevokeSession | app/auth/service.py:587-613 | one session is revoked |
| AuthService.AuthenticationService.RevokeAllManagedSessions | app/auth/service.py:615-685 | every session is revoked, or all but a rotated current one |
| AuthService.AuthenticationService.RevokeAllSessions | app/auth/service.py:687-699 | the internal primitive with the reason its caller chooses |
| AuthService.AuthenticationService.Serve | app/auth/service.py:81-699 | whatever call is asked of it, the service takes exactly the step of the transition system; unless the call is a misuse it stays in a reachable state |
| AuthFamilies.ExecStep | app/auth/service.py:81-699 | no call rewrites a revoked session or a spent link, and none adds a session to a family without an open member |
| AuthFamilies.OnlyMisuseBreaksFamilies | app/auth/service.py:687-699 | a call keeps the family invariant exactly unless it is revoke_all_sessions with the reason "rotated" and something to revoke |
| AuthTheorems.FamilyIsOneChain | app/auth/service.py:231-241 | each family is one chain of rotations of one user, linked exactly at its rotated rows, and at most its tail is open |
| AuthTheorems.RevokedSessionsNeverChange | app/auth/service.py:962-972 | a revoked session is never written again |
| AuthTheorems.ClosedFamiliesStayClosed | app/auth/service.py:747-782 | a family without an open session never gets one |
| AuthTheorems.ReuseClosesTheFamily | app/auth/service.py:205-215 | presenting a rotated token fails and closes its family, although the call raises |
| AuthTheorems.RefreshRotates | app/auth/service.py:231-241 | corollary of one call: a successful refresh links the presented session to the one it returns and touches no other row |
| AuthTheorems.ReplayedTokensKillTheirFamily | app/auth/service.py:200-247 | a refresh token works at most once; a replay fails and its family has no open session in any later state |
| AuthTheorems.RotatedAtMostOnce | app/auth/service.py:231-241 | a session is rotated at most once, by whichever entry point |
| AuthTheorems.ResetClosesEverySession | app/auth/service.py:449-463 | corollary of one call: after a password reset the user has no open session |
| AuthTheorems.PasswordChangeLeavesOneSession | app/auth/service.py:535-553 | after a password change exactly the session handed out is open |
| AuthTheorems.RevokeAllLeavesAtMostOneSession | app/auth/service.py:645-670 | after a revoke-all exactly the session handed out is open, or none |
| AuthTheorems.UsableLinkIndexNeverFires | app/persistence/models.py:94-100 | the index on usable links never fires; only a repeated random token can make a request fail |
| AuthTheorems.LinksWorkOnce | app/auth/service.py:829-868 | a link that was used is refused for ever |
| AuthTheorems.ExpiryMarkIsRolledBack | app/auth/service.py:855-868 | presenting an expired link writes the mark into the working state and raises; what is committed is the state before, at both endpoints |
| AuthTheorems.ExpiredLinksAreNotInvalidated | app/auth/service.py:855-868 | over any run an expired link is marked invalid exactly if a call replaces it (a new link for its owner, an accepted password change), at the time of the first such call; presenting it never marks it |
| AuthTheorems.RotatedAsAReasonIsMistaken | app/auth/service.py:687-699 | with the reason "rotated" the primitive leaves a session marked rotated that nothing replaced |
| AuthTheorems.MarksAreRolledBack | app/auth/service.py:855-868 | a reachable state in which both kinds of link are presented too late, with the mark written and rolled back |
| AuthTheorems.PresentedLinksStayUsable | app/auth/service.py:855-868 | a reachable state in which a presented expired link stays usable, and a new link then marks it |
| AuthTheorems.RotatedReasonsDoMislead | app/auth/service.py:687-699 | a reachable state in which the misused reason breaks a family |
| AuthAnswers.LoginSucceedsExactly | app/auth/service.py:119-147 | in every reachable state a login succeeds exactly if a user of that email is active and has exactly that password; it hands out an open session in a new family, and otherwise changes nothing |
| AuthAnswers.LoginsFollowThePassword | app/auth/service.py:119-147 | over any run, whether a login succeeds is decided by the password that the accepted calls on the user stored last |
| AuthAnswers.OnlyTheNewPasswordLogsIn | app/auth/service.py:435-558 | over any run, after an accepted reset or change of a password, and until the next one, a login succeeds only with the new one |
| AuthAnswers.UserRowsFollowTheCalls | app/auth/service.py:81-558 | over any run, the row of a user is what the accepted calls on that user make of it, one after the other |
| AuthAnswers.RefreshSucceedsExactly | app/auth/service.py:149-249 | in every reachable state a refresh succeeds exactly for an open unexpired session of an active user with the right secret |
| AuthAnswers.RefusedRefreshLeaves | app/auth/service.py:149-247 | what a refused refresh still writes: a replay stops its family, an expired session is stopped alone, an inactive account stops the family, anything else changes nothing |
| AuthAnswers.LogoutStopsExactly | app/auth/service.py:251-269 | a logout stops exactly the open session it presents |
| AuthAnswers.RegisterSucceedsExactly | app/auth/service.py:81-117 | a registration succeeds exactly for a new email and a new link token; user, link and session are given |
| AuthAnswers.ResendAnswersExactly | app/auth/service.py:271-301 | when a verification link is sent again, and that it replaces exactly the usable ones |
| AuthAnswers.RequestResetAnswersExactly | app/auth/service.py:397-433 | a reset link is made exactly for an active user of that email, and replaces exactly the usable ones; the answer tells nothing |
| AuthAnswers.ResetSucceedsExactly | app/auth/service.py:435-477 | in every reachable state a reset succeeds exactly with a usable unexpired reset link of an active user; it stores the password, spends the link and revokes every session |
| AuthAnswers.VerifySucceedsExactly | app/auth/service.py:303-368 | in every reachable state an email is verified exactly with a live link of an active account that is not presented from another account; which session is handed out |
| AuthAnswers.RefusedLinksAreTold | app/auth/service.py:829-868 | in every reachable state both endpoints tell a link that came too late from one that opens no active account |
| AuthAnswers.ChangeSucceedsExactly | app/auth/service.py:479-558 | in every reachable state a password change succeeds exactly for the right current password and a live session of the user; what it stores and revokes |
| AuthAnswers.ChangeIsRefusedFor | app/auth/service.py:479-533 | when each refusal of a password change is answered |
| AuthAnswers.RevokeSessionStopsExactly | app/auth/service.py:587-613 | one session is revoked exactly if it is an open one of the user |
| AuthAnswers.RevokeAllManagedAnswersExactly | app/auth/service.py:615-685 | a revoke-all stops every open session of the user and rotates the presented one exactly if it is to be kept and live |
| AuthAnswers.RevokeAllStopsExactly | app/auth/service.py:687-699 | the primitive stops exactly the open sessions of the user, with the reason of the caller |
| AuthAnswers.SignUpThenLogin | app/auth/service.py:81-147 | right after a registration exactly the password chosen logs in |
| AuthAnswers.SentResetLinksWork | app/auth/service.py:397-477 | a reset link that was sent works until it ends, and then the new password logs in |
| AuthAnswers.TokensHandedOutWork | app/auth/service.py:119-249 | whichever call signs somebody in, its token shows a new live session of that active user |
| ObjectStreams.FillChunk | app/persistence/object_storage.py:25-30 | the inner loop fills a chunk or reaches the end, however reads are split; it fails exactly when a read did |
| ObjectStreams.StreamFileIdentity | app/persistence/object_storage.py:20-36 | the streamed identity is that of the remaining bytes, however reads are split; there is none exactly when a read failed |
| ObjectStreams.IdentityBindsContent | app/persistence/object_storage.py:20-36 | two contents with one identity exhibit a hash collision of the preimages or of two chunks at the same place |
| ObjectStreams.SameSize | app/persistence/object_storage.py:33-35 | equal preimages have equal sizes, because chunk count and digit count both grow with the size |
| ObjectLines.CutLines | app/persistence/object_storage.py:479-493 | the inner loop hands out exactly the complete lines and stops at the line limit |
| ObjectLines.StreamLines | app/persistence/object_storage.py:439-499 | lines handed out are always the first of the newline split; the stream completes exactly for acceptable objects unless stopped from outside; a failed read is reported exactly when there was one; non-empty reads are bounded by max_bytes + 1 |
| ObjectLines.SplitIsFaithful | app/persistence/object_storage.py:479-496 | the split joins back to the object, and only its last line may lack a newline |
| ObjectLines.SplitIsUnique | app/persistence/object_storage.py:479-496 | no other sequence of well-formed lines joins to the same object |
| ObjectParts.ListParts | app/persistence/object_storage.py:328-358 | the listing follows markers for at most eleven calls and lists at most 10,000 parts |
| ObjectParts.TruthfulListingsAreWholeOrRefused | app/persistence/object_storage.py:328-358 | a provider whose pages, of any length, are truthful is listed whole or not at all: whole exactly when it stores at most 10,000 parts and serves them in at most eleven pages; one that sometimes answers nonsense is never quoted in part |
| ObjectParts.HonestListingsAreComplete | app/persistence/object_storage.py:328-358 | a provider that fills its pages is listed whole exactly when it stores at most 10,000 parts, and refused otherwise |
| CourtSweep.Coverage | scripts/court_vision_metrics.py:77-81 | the sweep is the measure of the union of the runs within the line, for any number, order, overlap and overhang |
| CourtQuantile.WeightedP95 | scripts/court_vision_metrics.py:82-85 | the p95 is the least sample that covers 95% of the weight; without weight there is none |
| CourtQuantile.P95WithinMeansSupport | scripts/court_vision_metrics.py:84-92 | p95 within tolerance means exactly a support of at least 0.95, and support lies in [0, 1] |
| CourtVerdict.Judge | scripts/court_vision_metrics.py:170-211 | when a verdict is incorrect, accept or abstain, and that its reasons are exactly the claims that hold of the frame |
| CourtVerdict.Missing | scripts/court_vision_metrics.py:187-209 | the list of what is missing names exactly the claims that hold, and is empty exactly when everything suffices |
| CourtVerdict.AcceptedExactlyWhenSufficient | scripts/court_vision_metrics.py:187-211 | a frame is accepted exactly when nothing is missing; that already rules out a contradiction |
| CourtVerdict.DoubtOnlyAbstains | scripts/court_vision_metrics.py:171-211 | raising uncertainties never turns abstain or incorrect into accept, nor accept or abstain into incorrect |
| CourtVerdict.SupportTestNeverDecides | scripts/court_vision_metrics.py:194-209 | on measured lines the 0.70 support test changes no verdict and fires only beside a line error or a contradiction |
| CourtAnswers.VerdictFollowsTheNumbers | scripts/court_vision_metrics.py:170-211 | a frame is judged incorrect exactly if some keypoint or line is further off than tolerance and label uncertainty, and accepted exactly if no reason says something true of its numbers |
| CourtAnswers.ClaimsAre | scripts/court_vision_metrics.py:170-211 | what each reason says, in the numbers of the frame and of the policy: 6 of 12 keypoints with the 4 corners, 6 of 8 lines, 30% coverage, 70% support, half a foot |
| CapacityLedger.LedgerStore.ReserveCapacity | app/persistence/storage.py:194-277 | admission: limits, hard stop and what is charged |
| CapacityLedger.LedgerStore.ExtendCapacity | app/persistence/storage.py:361-389 | an extension charges the ledger or is refused at the hard stop |
| CapacityLedger.LedgerStore.ReleaseCapacity | app/persistence/storage.py:391-407 | a release gives back bytes and count and drops empty entries |
| CapacityLedger.StorageReservation.Release | app/persistence/storage.py:86-91 | releasing twice gives back once |
| CapacityLedger.StorageReservation.Extend | app/persistence/storage.py:93-107 | a refused extension changes neither ledger nor reservation |
| CapacityProtocol.LedgerMatchesHolders | app/persistence/storage.py:272-276 | in every interleaving the total is what live reservations hold, charged but unrecorded extensions included, and the counters are the live reservations by kind |
| CapacityProtocol.ClampsNeverAct | app/persistence/storage.py:395-399 | the clamps at zero never act |
| CapacityProtocol.ReleasedRootsVanish | app/persistence/storage.py:400-407 | once everything of a root is released the ledger forgets it |
| CapacityProtocol.AdmissionsLeaveTheHardStop | app/persistence/storage.py:224-227 | every admission and extension leaves the hard stop free, and admissions respect the limit of their kind |
| CapacityAnswers.ReservationsAreGrantedExactly | app/persistence/storage.py:194-277 | in every interleaving a reservation is granted exactly if the limits are positive, fewer live reservations of its kind exist than its limit, and the hard stop stays free after all that is held; which refusal comes first |
| CapacityAnswers.ExtensionsAreGrantedExactly | app/persistence/storage.py:361-389 | in every interleaving an extension is granted exactly if it asks for nothing or leaves the hard stop free; it is charged to its root alone |
| CapacityAnswers.OperationsStart | app/persistence/storage.py:86-107 | a refusal changes nothing, a granted reservation adds its holder, and a granted extension is charged before it is recorded |
| CapacityAnswers.ReleasesGiveBackExactly | app/persistence/storage.py:391-407 | in every interleaving a release takes exactly what its holder has from its root and one from its counter |
| CapacityAnswers.OneOperationAtATime | app/persistence/storage.py:86-107 | a holder that was released, or has an operation under way, starts no other |
| CapacityAnswers.OperationsEnd | app/persistence/storage.py:86-107 | recording an extension and marking a release change the holder alone |
| RateLimit.AuthRateLimiter.Check | app/auth/rate_limit.py:17-30 | the popping loop and the decision, as a function of the queue |
| RateLimit.AcceptedExactlyBelowTheLimit | app/auth/rate_limit.py:17-30 | a check accepts exactly when the window holds fewer than the limit, and leaves exactly the acceptances in the window |
| RateLimit.NoWindowOverflows | app/auth/rate_limit.py:17-30 | no window of the configured length, wherever it ends, holds more than the limit, counted from the last reset |

## Left out

- The purge that ends the deletion of a match (`app/services/jobs/match_lifecycle.py:163-228`) is not modelled: it deletes runs, events and artifacts that the theorems speak about, after which nothing of the match is left to state them for.
- Interleavings inside one transaction under READ COMMITTED are not modelled; in particular a cancellation that commits between the scan (`app/services/uploads.py:122`) and the count (`app/services/uploads.py:136`) of one admission.
- Liveness is not claimed: a crash can leave a session in `completing`.
- The analysis workflow is an oracle with one stable result per session, which for its reservation is proved (`WorkflowOutcomesAreStable`); tracking, active play and match IQ are not part of the model.
- Hashes, random tokens and UUIDs are uninterpreted: fresh, or injective. Where injectivity is impossible (the file identity) the theorem exhibits the collision.
- Every transaction reads the clock once; `updated_at`, heartbeats, leases of runs, user agents, logging and telemetry carry no decision and are left out.
- Payloads, session facts and client metadata keep only the fields that some branch reads; schema validation, file names and content-type cleaning are single-branch checks.
- Player selections and calibration verifications are left out: they repeat the current-row pattern of the artifact registry without its prefixes.
- RunStore.Exec: storage provider, size and content type of the video row are not modelled, because no branch reads them.
- RunStore.Exec: a removal of the source recording is modelled by its intent only (`app/services/jobs/source_media.py:14-91`); the provider deletes that follow are not.
- StageExecutions.Exec: provenance, sport and run checks of `start_stage_execution` are single-branch validation, and the cancellation of stage attempts by a deletion is left out with the purge.
- AuthSessions.Exec: argon2 is equality of passwords, e-mail addresses arrive normalized, and access tokens, password rules, display names and session listings are left out.
- AuthSessions.Exec: mail is an answer of the environment, delivered or not.
- ObjectLines.StreamLines: the generator is a loop that collects what it hands out, and the clock, read failures and the consumer's decision to stop are arbitrary choices.
- CourtVerdict.Judge: homography, projection and the early exits of `evaluate` (no proposal, unreviewed labels, no target, unresolved orientation, invalid geometry) are left out; distances, weights and errors are given exact numbers.
- CourtSweep.Coverage: positions are multiples of 1/D for an arbitrary D, which covers rational positions but not floating-point rounding.
- CapacityLedger.LedgerStore.ReserveCapacity: requests are as the callers make them; the interleaving theorems take them nonnegative.
- Storage reconciliation, legacy import files, the web client and quarantined spikes add no state machine of their own.
