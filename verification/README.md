# Verification of the auto error handler

Auto error handler receives error events, groups them into incidents, has a worker analyse each
incident at a fixed commit, waits for a human approval, and lets a worker prepare a patch that must
pass a diff gate and the registered validation commands. Four actors share one database: intake,
workers, the lease sweeper and the approver. They coordinate through claim tokens, lease times,
attempt counters, an incident version and unique keys.

This project models that system and proves what it relies on. It checks with
`dafny verify dfyconfig.toml`.

## How it is built

| files | what they hold |
|---|---|
| `Base`, `Schema` | limits, the row types and the tables as values; a unique column is a map key or an index map |
| `Slices`, `Transactions` | every write transaction, first on the rows of one incident, then on the whole database |
| `Coherence`, `JobSteps`, `IntakeSteps` | what all tables satisfy together, and that every transaction keeps it |
| `Entities`, `Database` | the same transactions as the code runs them: row objects assigned in place, loops over queries, rollback; each method is proved equal to its transaction |
| `Protocol`, `ProtocolSafety` | the database with its workers, who may stall, lose an answer or arrive late; the invariant of every reachable state |
| `Workflow`, `Fencing`, `Automaton`, `Scheduler`, `Once` | theorems over whole runs: automaton, versions, termination, fencing, PATCH_READY, claim order, exactly-once |
| `Rows`, `Answers`, `Replays` | the same theory in literals: the conditions and the columns of every write, what a sweep may take, what freezes a policy, what the callers of intake and approval are told, and that repeated calls are told the same over every interleaving |
| `Scenario` | one concrete run: a stalled worker marks after its lease and the retry takes the incident back |
| `Concurrency`, `ConcurrencySafety`, `Settling` | intake and approval as separate reads and commits under row locks, unique indexes and retries; every interleaving is a serial run, and when lost races settle |
| `Evidence`, `DiffGate`, `Validation`, `Worker` | what a success rests on, the loops that check it, and the order of `execute` and `run_one` |
| `Lease` | the heartbeat loop and its time bound |
| `Json`, `Cursor`, `Pagination` | the early-aborting check of reproduction data, redaction, the page cursor and keyset pagination |

A run is a list of events, each with an instant of one monotone clock and a step of `Protocol`.
`ProtocolSafety.Good` is the invariant; `StartGood` and `RunGood` show it of every state a run reaches
from the empty database, so a lemma that requires `Good` speaks about every reachable state.

## Where the code and its documentation differ

The model follows the code.

- A retry of a patch takes the incident from VALIDATING back to PATCHING (`aeh/job_repository.py:87-89`);
  the state diagram in `docs/service-architecture.md:263-272` has no such edge. A step takes it exactly
  when it claims a job of a VALIDATING incident (`Automaton.RetryEdgeExactly`); every other step
  is documented (`Automaton.StepIsDocumented`). `Scenario.RetryEdgeHappens` gives a run that takes it.
- A text in `reproductionData` is refused above 2048 characters, although the limit it is compared with
  is 4096: the comparison with the scrubbed text uses the default limit of `scrub`
  (`aeh/contracts.py:98`, `aeh/errors.py:13-14`). `Json.EffectiveTextLimit` states when it is accepted and
  `Json.DocumentedLimitFails` gives the input.
- `mark_validating` does not look at the lease (`aeh/job_repository.py:176-181`), so a late mark may still
  commit. It does exactly while the job row carries its token (`Automaton.MarkCommitsExactly`), and
  `Scenario.LateMarkHappens` gives a run from the empty database in which one does. `Fencing.DeadForever`
  shows that this never revives a dead claim.
- A requeue by the sweeper leaves the version alone; only the cleared token fences the old worker.

## Model

| member | source | states |
|---|---|---|
| ProtocolSafety.NextKeeps | aeh/job_repository.py:37-250 | Every step of intake, approver, sweeper or worker keeps the whole invariant: coherent tables, workers in step with their rows, tokens issued once, attempts never shared, stored successes backed by evidence |
| ProtocolSafety.RunGood | aeh/db.py:252-257 | Every state reachable by any interleaving of transactions satisfies the invariant |
| Workflow.StateFromRows | aeh/db.py:98-99 | In every reachable state the incident's state and its job, run, approval and patch rows determine each other, for all eight states in both directions |
| Workflow.OneActiveJob | aeh/db.py:185-218 | No incident ever has two PENDING or RUNNING jobs |
| Workflow.TxFollows | aeh/job_repository.py:80-89 | On coherent tables each transaction takes one edge the tables allow (or stays) and costs budget for the incidents it takes effect on, with the version counting the edge, and stutters for all others |
| Automaton.StepIsDocumented | docs/service-architecture.md:263-272 | In reachable states every step keeps the state, takes an edge of the documented diagram, or is the claim that retries a patch |
| Automaton.RetryEdgeExactly | aeh/job_repository.py:87-89 | A VALIDATING incident goes back to PATCHING in a step exactly when the step claims its job |
| Automaton.MarkCommitsExactly | aeh/job_repository.py:176-188 | A mark that was sent commits exactly while the row carries its token, whatever the lease, and then takes PATCHING to VALIDATING |
| Scenario.LateMarkHappens | aeh/job_repository.py:176-183 | A concrete run from the empty database ends with a mark that commits after its lease ran out |
| Scenario.RetryEdgeHappens | aeh/job_repository.py:87-89 | The same run continued: after the sweep the next claim takes VALIDATING to PATCHING |
| Workflow.RunVersions | aeh/job_repository.py:77-79 | Over any run the version grows by exactly the number of state changes |
| Workflow.VersionSinceBirth | aeh/db.py:107-108 | Since its birth at version 1 an incident's version is one more than its state changes |
| Workflow.VersionBound | aeh/job_repository.py:182-183 | The version never exceeds 2 * max_attempts + 4 |
| Workflow.RunBudget | aeh/job_repository.py:134-138 | A natural number per incident pays for every claim, mark, finalization, recovery and approval in a run |
| Workflow.Terminates | aeh/job_repository.py:211-216 | No incident sees more than 5 * max_attempts + 1 = 16 effective transactions in any run |
| Workflow.EndsAbsorb | aeh/job_repository.py:229-246 | ANALYSIS_FAILED, PATCH_READY and PATCH_FAILED absorb: no row of the incident changes afterwards, jobs and occurrence count included |
| Workflow.RunFreezes | aeh/job_repository.py:61-76 | Commit, path, input event, policy snapshot, start times and the identities of run, approval and patch run never change, and a finished run keeps everything it stored, whatever is synced or retried |
| Workflow.SameCommit | aeh/service.py:346-366 | One commit binds incident, analysis run, approval and patch run, and the foreign references agree |
| Workflow.TxBirths | aeh/service.py:149-167 | Only an ingest creates incidents, in RECEIVED at version 1 |
| JobSteps.ClaimMoves | aeh/job_repository.py:61-83 | A claim of the next job always takes effect: the missing-run, missing-service and no-approved-patch branches are unreachable |
| Rows.NextExactly | aeh/job_repository.py:38-52 | A claim takes the job that is PENDING, due, and first of all such jobs by available_at, created_at and id; stated on columns |
| Rows.ClaimWrites | aeh/job_repository.py:53-89 | A claim writes RUNNING, one more attempt, worker, lock time and token into the job row, and the state and version of the incident, and nothing else there |
| Rows.FirstRunWrites | aeh/job_repository.py:61-76 | The first claim of an ANALYZE job inserts one RUNNING run with the incident's commit and first event, started now, holding the service's own policy, the incident's path and the model |
| Rows.FirstClaimFreezes | aeh/job_repository.py:66-74 | In every reachable state the first Take of an analysis freezes the policy the service has then, denied paths and commands included, and every later state of every run holds that same snapshot and start time |
| Rows.ReadyByFirstPolicy | aeh/job_repository.py:66-74 | A PATCH_READY incident's evidence is one PASSED entry per command the service had at the first claim, and no changed file matches a path denied then |
| JobSteps.SweepIsComplete | aeh/job_repository.py:109-165 | The 100-row limit never cuts a sweep short: when no row is locked, no RUNNING job has an expired lease afterwards |
| JobSteps.SweepLeavesSkipped | aeh/job_repository.py:112-120 | With rows skipped because they are locked, exactly the skipped expired leases remain and every other job is as it was |
| Rows.SweepTakesStale | aeh/job_repository.py:112-119 | Every job a sweep takes is RUNNING and was renewed 120 s ago or earlier |
| Rows.SweepSparesLive | aeh/job_repository.py:93-119 | In coherent tables a sweep leaves the job row of every claim that could still beat unchanged, whichever rows it selects |
| Rows.SweepLeavesLive | aeh/job_repository.py:112-120 | After a full sweep every job still RUNNING was renewed less than 120 s ago |
| Rows.SweepIsEach | aeh/job_repository.py:121-164 | However many jobs a sweep takes, each one and its incident, run and patch run end as if it had been the only one |
| Rows.RecoverWrites | aeh/job_repository.py:126-164 | An expired job is requeued after 10 s or 60 s, or fails together with its run or patch run and its incident when its attempts are used up; every column is stated |
| JobSteps.RecoverKeeps | aeh/job_repository.py:121-164 | The tables are coherent after every iteration of the sweep and jobs outside the batch are untouched |
| IntakeSteps.ApproveReplies | aeh/service.py:327-353 | In a coherent database the 500 for a missing patch run, the commit mismatch and the second approval check are unreachable |
| Fencing.TxJobs | aeh/job_repository.py:53-59 | In one transaction a job row stays, is claimed, beats, or is released by expiry or by its own finalization with the exact backoff, and nothing else |
| Fencing.DeadIsHarmless | aeh/job_repository.py:93-106 | With a cleared, replaced or expired token neither heartbeat nor finalize changes the database, now or later |
| Rows.BeatsExactly | aeh/job_repository.py:93-106 | A claim can beat exactly while its row carries its token, is RUNNING and was renewed less than 120 s ago |
| Rows.FinalizesExactly | aeh/job_repository.py:196-210 | An outcome is accepted exactly from a claim that can beat and knows the incident's version |
| Rows.MarksWhen | aeh/job_repository.py:168-188 | A mark commits exactly for the token on a RUNNING row that knows the version and has a patch run, whatever the lease |
| Rows.MarkWrites | aeh/job_repository.py:182-187 | A mark writes VALIDATING and one more version into the incident, VALIDATING into the patch run, and nothing else |
| Fencing.DeadForever | aeh/job_repository.py:168-188 | A dead token stays dead over every run, even while its late mark_validating commits |
| Fencing.JobsFinishOnce | aeh/job_repository.py:216-217 | A job becomes SUCCEEDED or FAILED at most once and never changes again |
| Fencing.LastClaimWins | aeh/job_repository.py:196-203 | An accepted finalization comes from the last claim issued for its job |
| Fencing.FinalizeStores | aeh/job_repository.py:211-246 | An accepted finalization stores its whole outcome in job, run and incident, or requeues the job with its backoff and touches nothing else |
| Rows.FinalizeWritesJob | aeh/job_repository.py:211-217 | The whole job row after an accepted outcome: requeued with its backoff exactly for a transient error with attempts left, else ended with the outcome's error |
| Rows.FinalizeWritesRows | aeh/job_repository.py:218-246 | The run or patch run and the incident after an outcome that ends its job, column by column, and that no other column changes |
| Fencing.ResultsLast | aeh/job_repository.py:222-244 | What the last claim stored is what the run or patch run holds for ever after, over every run |
| Fencing.RefusedOnlyWhenAnswerLost | aeh/job_repository.py:209-210 | finalize refuses a current, unexpired claim exactly when its mark committed and the answer was lost; then the worker is one version behind, otherwise level |
| Fencing.ReadyOnlyAfterOwnMark | aeh/worker.py:117-134 | PATCH_READY is entered only from VALIDATING, by the worker whose own mark entered it, with no state change in between |
| Fencing.PatchReadyMeans | aeh/job_repository.py:230-245 | Every PATCH_READY incident stores a diff whose own counts are within min(policy, 400) lines, 512 KiB and min(policy, 10) files, without binary, link or submodule changes or edits of existing tests, on allowed names only, and one PASSED entry per frozen command |
| Fencing.AwaitingMeans | aeh/worker.py:102-111 | Every incident awaiting approval has a stored analysis of medium or high confidence with evidence and changed paths, each matching a pattern allowed by the frozen policy |
| Scheduler.NoOvertaking | aeh/job_repository.py:39-45 | Once a job's time has passed, any n + 1 successful claims take it, where n jobs are ahead, whatever is inserted or requeued |
| Scheduler.NoStarvation | aeh/config.py:28 | A waiting job is taken within 100 successful claims |
| Scheduler.PendingHasAttempt | aeh/job_repository.py:59 | A PENDING job has an attempt left although claim_job never checks |
| Once.ApprovedOnce | aeh/service.py:321-342 | A used key answers the same ids for ever and changes nothing, is refused elsewhere, and every other key is refused for its incident |
| Once.GrantLasts | aeh/service.py:355-388 | What a first approval answers is what its key answers after any run |
| Once.ApprovalKeysInject | aeh/db.py:159-172 | Key, incident, approval and patch run determine each other |
| Once.PatchJobsAreApproved | aeh/service.py:372-379 | No PATCH job exists without the approval it is named after |
| Once.EventRecorded | aeh/service.py:138-176 | An accepted new event is stored with one occurrence on an open incident of its service, fingerprint and commit |
| Once.RetransmissionsAgree | aeh/service.py:61-78 | A stored event answers the same incident for ever, another checksum always conflicts, and neither changes anything |
| Once.OccurrencesConserved | aeh/service.py:168-176 | The occurrence count is the number of occurrences, each event has one, and its service and fingerprint are its incident's |
| Once.OneOpenIncident | aeh/db.py:118-130 | At most one open incident per service, fingerprint and commit, from the transitions |
| Once.RepositoryAgrees | aeh/service.py:48-58 | An open incident's commit belongs to the repository its service points to now |
| IntakeSteps.SyncCoherent | aeh/service.py:30-58 | A sync keeps the tables coherent and touches services only; one that fails midway leaves the database as it was |
| Once.SyncApplies | aeh/service.py:34-58 | A sync that succeeds registers every entry as given and active, keeps known ids, and leaves services it does not name alone |
| Once.SyncSucceedsExactly | aeh/service.py:34-58 | A sync of distinct keys with new ids succeeds exactly if for each entry the path resolves and the service is new, stays in its repository, or has only incidents in final states |
| Once.OpenExactly | aeh/db.py:118-130 | The states that count as open are all but ANALYSIS_FAILED, PATCH_READY and PATCH_FAILED |
| Rows.OpenWrites | aeh/service.py:138-182 | A first report inserts its event, occurrence, RECEIVED incident and PENDING ANALYZE job with the stated columns, each clock in its own column |
| Rows.AppendWrites | aeh/service.py:138-176 | A further report inserts its event and occurrence and adds one to the incident's count |
| Rows.ApproveWrites | aeh/service.py:355-388 | An approval inserts the approval under its key, the patch run and the PENDING PATCH job, and takes the incident to PATCHING |
| Answers.IngestsExactly | aeh/service.py:117-182 | An intake stores a new report exactly for an active service with the same path, an unseen event, and either an open incident of its group or fewer than 100 active jobs; otherwise its answer names a fact of the tables |
| Answers.DecidesExactly | aeh/service.py:321-354 | An approval is granted exactly for an awaiting incident under an unused key with fewer than 100 active jobs; otherwise its answer names a fact of the tables |
| Concurrency.IntakeIsAtomic | aeh/service.py:117-182 | A commit that no unique index refuses writes and answers what one atomic ingest would, although its reads were separate |
| Concurrency.MoveIsSerial | aeh/service.py:305-388 | Every read and commit is one serial transaction or leaves the database alone |
| Answers.ApproveReadTells | aeh/service.py:321-354 | Each read that ends a concurrent call of approve answers with what the tables hold at that move: the key's own approval and patch run, or the reason of its refusal |
| Answers.ApproveReadEnds | aeh/service.py:321-354 | Each read of approve ends the call exactly if the incident is missing, the key is used, the state is not AWAITING_APPROVAL or 100 jobs are active; after a lost race exactly if the key is another incident's |
| Answers.ApprovalsAreOnRecord | aeh/service.py:328-388 | Over every interleaving, a call that was granted or answered as a repetition named the approval and the patch run that its key has in the final tables |
| Answers.IntakeReadTells | aeh/service.py:117-147 | Each read that ends a concurrent call of ingest answers with what the tables hold at that move |
| Answers.IntakeReadEnds | aeh/service.py:88-147 | Each read of ingest ends the call exactly if the service is unknown, the event is stored, git has no such commit, the path has changed or 100 jobs are active, and aims it at an incident exactly if an open one groups it |
| Answers.ReceiptsAreOnRecord | aeh/service.py:138-182 | Over every interleaving, the incident a call of ingest was answered with is the one that has its event in the final tables |
| Replays.TakenKeyAnswers | aeh/service.py:327-342 | Over every interleaving, a call of approve that starts with a key already used ends only with that key's approval and patch run, as a repetition, or, for another incident, with its refusal |
| Replays.StoredEventAnswers | aeh/service.py:61-78 | Over every interleaving, a report whose event is stored before the call looks for it ends only with the incident of that event, as a repetition, or with the conflict of its checksum |
| ConcurrencySafety.InterleavingsSerialize | aeh/service.py:88-114 | After any interleaving of concurrent intakes, approvals and workers the database is that of the serial run of the commits in commit order |
| ConcurrencySafety.IntakeAllOrNothing | aeh/service.py:105-114 | A call of ingest commits exactly once if it stored its event, and leaves no row behind if it ends in an error or gives up after three tries |
| ConcurrencySafety.ApproveAllOrNothing | aeh/service.py:305-318 | A call of approve commits exactly once if it granted, and otherwise changes nothing |
| Settling.NoErrorEscapes | aeh/service.py:305-318 | Over every interleaving a call of approve ends in an answer or a grant; the retry after a refused insert always finds the key it lost to |
| Settling.UnsettledExactly | aeh/service.py:105-114 | A call of ingest ends in the 503 of three tries exactly when three commits were refused; the first two then lost to two different incidents of its group, the first of which has closed, and no refusal follows a loss to the same event |
| Database.Store.SelectNext | aeh/job_repository.py:39-45 | The scan finds the first claimable job in (available_at, created_at, id) order, or there is none |
| Database.Store.ClaimJob | aeh/job_repository.py:37-90 | The in-place claim equals its transaction, hands out the claim the new rows show, and returns none exactly when no job is PENDING and due |
| Database.Store.Heartbeat | aeh/job_repository.py:93-106 | Renews exactly when the row carries the token, is RUNNING and was renewed less than 120 s ago, and writes only the lock time |
| Database.Store.SelectExpired | aeh/job_repository.py:112-120 | Some expired jobs without repetition, and all of them below the limit |
| Database.Store.RecoverExpired | aeh/job_repository.py:109-165 | The loop over row objects equals the sweep, counts exactly the RUNNING jobs last renewed 120 s ago or earlier, and leaves no expired lease |
| Database.Store.MarkValidating | aeh/job_repository.py:168-188 | Equals its transaction and returns the new version, or the 409 with nothing changed |
| Database.Store.Finalize | aeh/job_repository.py:191-250 | Equals its transaction for retry, success and failure of both job types, and reports whether it was accepted |
| Database.Store.ApproveOnce | aeh/service.py:321-388 | Checks in order, then inserts; equals its transaction and keeps the tables coherent |
| Database.Store.IngestResolved | aeh/service.py:117-182 | Checks in order, then inserts or counts; equals its transaction and keeps the tables coherent |
| Database.Store.SyncServices | aeh/service.py:30-58 | The loop with its rollback equals the all-or-nothing sync and succeeds exactly if every entry can be synced |
| DiffGate.ComponentsJoin | aeh/gitops.py:111-112 | Joining the components gives the path back and none contains a slash |
| DiffGate.PartsKeep | aeh/gitops.py:111-112 | The parts of a path are its components without the empty ones and the dots, so a parent step is found wherever it stands |
| DiffGate.RelativeExactly | aeh/gitops.py:110-113 | A changed name is admitted as a path exactly if it is not empty, does not start with a slash, has no line break and no component that is two dots |
| DiffGate.ProtectedExactly | aeh/gitops.py:118-123 | A name is protected exactly if it is one of four prefixes followed by anything, contains /.env, or ends in .pem or .key |
| DiffGate.LineCountExactly | aeh/gitops.py:132-141 | The line count adds up over the records, and each counts its added and its deleted lines |
| DiffGate.CheckDiff | aeh/gitops.py:91-149 | The gate accepts exactly the changes inside the policy and the global limits and returns their names and diff; a denial names a rule that is broken, and only blanks that git refuses end in the error of git itself |
| DiffGate.GateReadsDiff | aeh/gitops.py:95-149 | The gate's answer about a worktree is what its diff text alone decides, plus that there are only regular files and no ignored ones; `Worker.ExecutePatch` rests on it |
| Validation.Capture | aeh/validation.py:62-90 | The bounded capture is the first 32768 bytes of the stream up to the stop point, and it times out exactly when the stopping read is late |
| Validation.StopIsUnique | aeh/validation.py:77-88 | The stop point is the only read before which all are in time and non-empty and which is itself late or empty |
| Validation.ChunkingIsInvisible | aeh/validation.py:83-88 | However the same bytes are cut into reads, the capture is the same |
| Validation.StreamExactly | aeh/validation.py:83-88 | The stream of reads one after the other is their chunks in order |
| Validation.RunValidation | aeh/validation.py:55-104 | One entry per command run, in order; it stops at the first that does not pass, at an unregistered command or without a sandbox |
| Validation.FinishedMeans | aeh/validation.py:91-104 | The entries all pass exactly when every command is registered, ends in time and exits with 0 |
| Validation.SucceedsExactly | aeh/validation.py:61-94 | A command succeeds exactly if some read finds the pipe closed within both its own limit and 300 s, and it exits with 0 |
| Validation.EntryExactly | aeh/validation.py:61-101 | An entry is TIMED_OUT, PASSED or FAILED by its own limit and exit code, and keeps the first 32768 bytes up to the stop |
| Validation.BrokenMeans | aeh/validation.py:102-103 | The evidence of a failure ends with the first command that does not succeed |
| Worker.ExecutePatch | aeh/worker.py:112-134 | It succeeds exactly if nothing strikes, the gate accepts, the mark is granted and every command passes, with evidence for the stored diff; a failing command is returned, not transient, with its code, the worktree's names and diff and all entries up to the first that did not pass; the gate's and the mark's refusals are raised with their codes; the version moves exactly when the mark's answer is heard |
| Worker.Validate | aeh/worker.py:119-134 | The last stage returns success exactly when every command succeeds, a failure with the entries of the commands run, and raises for a missing sandbox or a command that is not registered |
| Worker.ExecuteAnalysis | aeh/worker.py:91-111 | It succeeds exactly within 24 hours on a clean tree with a useful result of at most 131072 bytes; otherwise it ends with what struck it or with the code of the first check that failed |
| Worker.OutcomeOf | aeh/worker.py:165-184 | Only a returned success is a success; each exception has its code, carries no evidence, and is transient exactly for cancellation and two codes |
| Worker.RunPatch | aeh/worker.py:137-191 | The outcome is one the protocol's evidence rule allows; it is transient exactly for a retryable exception that strikes or for want of a sandbox; the version it is finalized with is one higher exactly when the mark's answer was heard |
| Worker.RunAnalysis | aeh/worker.py:137-191 | The outcome of an analysis is one the evidence rule allows and transient exactly for a retryable exception that strikes |
| Lease.KeepLease | aeh/worker.py:143-162 | The loop ends, calls heartbeat when due, cancels at once exactly after a refusal or a database error at or past the deadline, and is left without cancelling exactly by any other exception |
| Lease.CallsAreDue | aeh/worker.py:143-162 | A call begins 30 s after the start or after the answer of a renewal, and 2 s after a database error |
| Lease.GivesUpExactly | aeh/worker.py:152-162 | The worker gives up exactly at a refusal or at a database error that is answered 120 s or more after its last renewal |
| Lease.CancelsInTime | aeh/worker.py:154-160 | When the worker gives up, cancellation comes less than 2 s plus one call after the local deadline |
| Lease.OverrunsDatabaseLease | aeh/worker.py:161-162 | The same bound measured from the database's own lease |
| Lease.RetriesAreBounded | aeh/worker.py:154-156 | At most 46 errors in a row before the loop renews or gives up |
| Lease.HealthyLeaseHolds | aeh/job_repository.py:101-103 | Two renewals in a row keep the lease alive when their calls take less than 90 s together |
| Json.CheckReproductionData | aeh/contracts.py:75-106 | The early-aborting walk accepts exactly the trees of depth at most 8, at most 1000 values, no sensitive key and only texts that scrubbing keeps |
| Json.Walker.Visit | aeh/contracts.py:80-104 | The recursive visit makes the checks in order and complains about the first that fails |
| Json.WalkDecides | aeh/contracts.py:80-104 | Counting with early abort agrees with the declarative predicate on every tree |
| Json.AcceptableExactly | aeh/contracts.py:80-104 | The accepted trees have at most 1000 places, none deeper than 8, and at no place a sensitive member or a text that is long or changed by scrubbing; stated place by place, without the walk |
| Json.RedactAt | aeh/contracts.py:109-119 | At every place not below a sensitive key redaction keeps the shape, replaces each sensitive member, and turns a text into its substituted text cut at the old length |
| Json.AcceptedIsStored | aeh/contracts.py:109-119 | What the walk accepts redaction returns unchanged, for any two patterns |
| Json.RedactFixes | aeh/contracts.py:109-119 | Redaction changes nothing exactly when sensitive fields are already replaced and every text is free of secrets |
| Json.EffectiveTextLimit | aeh/errors.py:13-14 | The default limit caps an accepted text at 2048; a text the pattern leaves alone is accepted up to exactly there |
| Json.DocumentedLimitFails | aeh/contracts.py:97-99 | 2049 times the letter a is refused by every pattern that leaves it alone, although the compared limit is 4096 |
| Cursor.DecodeEncode | aeh/service.py:268 | Base64 decoding inverts encoding on all byte strings |
| Cursor.EncodesVectors | aeh/service.py:268 | The encoder gives the test vectors of section 10 of RFC 4648 |
| Cursor.PaddingRestored | aeh/service.py:273 | The stripped padding is restored exactly |
| Cursor.CursorRoundTrip | aeh/service.py:265-280 | A cursor decodes to the timestamp and id it was made from |
| Cursor.CursorCarries | aeh/service.py:265-268 | A cursor is the base64 of timestamp, bar, id, bar and signature |
| Cursor.SignatureExactly | aeh/service.py:267-268 | The signature spells exactly the first 16 bytes of the digest of the data in 32 hexadecimal digits |
| Cursor.AcceptsExactly | aeh/service.py:271-282 | Under the library's lenient reading of base64, a cursor is accepted exactly when it is data under its own signature that reads as a position |
| Pagination.ListingIsUnique | aeh/repository.py:108-110 | The filtered list in (created_at desc, id desc) order exists once |
| Pagination.RowsExactly | aeh/repository.py:92-98 | A row is listed exactly if it passes the service filter and the state filter that are set |
| Pagination.RepliesExactly | aeh/service.py:293-295 | A listing is refused exactly for a limit outside 1 to 100, then for a cursor that is not empty and does not decode |
| Pagination.PageAdvances | aeh/service.py:285-302 | A page takes its items off the front of what remains and its cursor stands before the rest |
| Pagination.PaginationIsComplete | aeh/service.py:295-302 | Following nextCursor to null yields the whole filtered list, newest first with ties by id, each row once, for any limits |
| Pagination.PaginationEnds | aeh/service.py:299-301 | There are never more pages than rows, but for one empty page of an empty list |
| Pagination.FollowUpAnswered | aeh/service.py:293-296 | A cursor from a page is always accepted |

## Left out

- Each transaction reads the clock once in the model; the code calls `now()` several times in one transaction.
- UUID collisions: new row ids and tokens are assumed unused.
- Scheduler.NoOvertaking: counts claims one after the other; a claimer that skips a row another claimer holds (`SKIP LOCKED`) is not modelled.
- JobSteps.SweepIsComplete: speaks of a sweep that finds no row locked; `recover_expired` also uses `SKIP LOCKED`, and `JobSteps.SweepLeavesSkipped` covers that case. In `Protocol` a sweep may skip any rows.
- Worker.RunPatch: an exception that escapes `keep_lease` is raised again by `run_one`, which then does not finalize; in `Protocol` that is a worker that never finalizes.
- PostgreSQL isolation beyond the row locks, the advisory lock and the unique indexes of `Concurrency`.
- Non-unique database errors inside intake and approval: the code lets them escape and the transaction rolls back.
- Codex, git and bwrap calls, worktrees and file locks: their answers are parameters. Path resolution and commit lookup do not change over time.
- Parsing of git output (`-z` lists, numstat records): `Worktree` holds the parsed answers. What git answers about one worktree is taken to agree with its diff text, read by `Env.read`.
- `durationMs` of a validation entry, and process control beyond the reads of the pipe.
- Schema validation, RFC 8785 canonicalization, checksums, NFC and HMAC: opaque values and functions. The two regular expressions and `fnmatchcase` are arbitrary functions.
- Storage text of timestamps: a total order of integers. The texts of timestamps and ids in a cursor are parameters that can be read back.
- Database.Store.MarkValidating: keeps the tables coherent for a claim that marks in turn, because only the worker protocol rules out a second mark; `ProtocolSafety.MarkerStands` shows that every mark of a run is in turn.
- Heartbeats of a worker in `Protocol` may come at any time; `Lease` treats their timing separately.
- Response bodies, the review pages, health checks, the command line, migrations and configuration parsing: they only shape or route data.
