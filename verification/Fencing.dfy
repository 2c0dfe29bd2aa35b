/**
 * What happens to a job row, and what that gives over whole runs: fencing by token and lease,
 * results only from the last claim, and where PATCH_READY comes from.
 */
module Fencing {
  import opened Base
  import opened Schema
  import opened Slices
  import opened Transactions
  import opened Coherence
  import opened JobSteps
  import opened IntakeSteps
  import opened Evidence
  import opened Protocol
  import opened ProtocolSafety
  import opened Workflow

  ghost predicate SameIdentity(a: Job, b: Job) {
    b.kind == a.kind && b.key == a.key && b.incident == a.incident && b.createdAt == a.createdAt && b.maxAttempts == a.maxAttempts
  }

  ghost predicate Claims(tx: Tx, j: Id, b: Job) {
    tx.ClaimJob? && tx.job == j && b.token == Some(tx.token)
  }

  /** A release: the owner is gone, and a requeued job has an attempt left and waits 10 s once and 60 s later. */
  ghost predicate Releases(now: Time, a: Job, b: Job) {
    && a.status == Running && b.status != Running && b.attempt == a.attempt
    && b.token.None? && b.lockedBy.None? && b.lockedAt.None?
    && (b.status == Pending ==> a.attempt < a.maxAttempts && b.availableAt == now + if a.attempt == 1 then FIRST_BACKOFF else LATER_BACKOFF)
    && (b.status != Pending ==> b.availableAt == a.availableAt)
  }

  /** Everything that can happen to one job row in one transaction. */
  ghost predicate JobStep(db: Db, now: Time, tx: Tx, j: Id, a: Job, b: Job) {
    && SameIdentity(a, b)
    && (|| b == a
        || (Claims(tx, j, b) && Claimable(a, now) && b == Taken(a, now, tx.token, tx.who))
        || (tx.Heartbeat? && tx.claim.job == j && Beats(db, now, tx.claim) && b == a.(lockedAt := Some(now)))
        || (tx.Recover? && Expired(a, now) && Releases(now, a, b))
        || (tx.Finalize? && tx.claim.job == j && Finalizes(db, now, tx.claim, tx.version) && Releases(now, a, b)))
  }

  ghost predicate JobsStep(db: Db, d: Db, now: Time, tx: Tx) {
    && (forall j {:trigger d.jobs[j]} {:trigger db.jobs[j]} | j in db.jobs :: j in d.jobs && JobStep(db, now, tx, j, db.jobs[j], d.jobs[j]))
    && (forall j {:trigger d.jobs[j]} | j in d.jobs && j !in db.jobs :: d.jobs[j].status == Pending && d.jobs[j].availableAt == now && d.jobs[j].token.None?)
    && (tx.Ingest? || tx.Approve? || d.jobs.Keys == db.jobs.Keys)
  }

  lemma StoreJobs(db: Db, d: Db, now: Time, tx: Tx, i: Id, j: Id, t: Slice)
    requires j in db.jobs && JobOf(t, db.jobs[j].kind).Some? && d == Store(db, i, j, t)
    requires JobStep(db, now, tx, j, db.jobs[j], JobOf(t, db.jobs[j].kind).value)
    ensures JobsStep(db, d, now, tx)
  {}

  lemma ClaimedRow(s: Slice, t: Slice, kind: JobKind, now: Time, token: Id, who: string, first: Option<AnalysisRun>)
    requires JobOf(s, kind).Some? && ClaimSlice(s, kind, now, token, who, first) == Some(t)
    ensures JobOf(t, kind).Some?
    ensures JobOf(t, kind).value == Taken(JobOf(s, kind).value, now, token, who)
  {}

  lemma ClaimJobs(env: Env, db: Db, now: Time, j: Id, token: Id, who: string, runId: Id)
    requires Coherent(env, db) && IsNext(db, now, j)
    ensures JobsStep(db, ClaimDb(env, db, now, j, token, who, runId), now, ClaimJob(j, token, who, runId))
  {
    var t := ClaimStore(env, db, now, j, token, who, runId);
    var i, kind := db.jobs[j].incident, db.jobs[j].kind;
    ClaimedRow(SliceOf(db, i), t, kind, now, token, who, FirstRun(env, db, i, now, runId));
    StoreJobs(db, ClaimDb(env, db, now, j, token, who, runId), now, ClaimJob(j, token, who, runId), i, j, t);
  }

  lemma FinalizeReleases(s: Slice, t: Slice, kind: JobKind, now: Time, outcome: Outcome)
    requires JobOf(s, kind).Some? && JobOf(s, kind).value.status == Running
    requires FinalizeSlice(s, kind, now, outcome) == Some(t)
    ensures JobOf(t, kind).Some? && Releases(now, JobOf(s, kind).value, JobOf(t, kind).value)
    ensures SameIdentity(JobOf(s, kind).value, JobOf(t, kind).value)
  {}

  lemma FinalizeJobs(env: Env, db: Db, now: Time, claim: Claim, outcome: Outcome, version: int)
    requires Coherent(env, db) && Genuine(db, claim) && Finalizes(db, now, claim, version)
    ensures JobsStep(db, FinalizeDb(db, now, claim, outcome, version), now, Finalize(claim, outcome, version))
  {
    var t := FinalStore(env, db, now, claim, outcome, version);
    FinalizeReleases(SliceOf(db, claim.incident), t, claim.kind, now, outcome);
    StoreJobs(db, FinalizeDb(db, now, claim, outcome, version), now, Finalize(claim, outcome, version), claim.incident, claim.job, t);
  }

  lemma SameJobs(db: Db, d: Db, now: Time, tx: Tx)
    requires d.jobs == db.jobs
    ensures JobsStep(db, d, now, tx)
  {}

  lemma BeatJobs(db: Db, now: Time, claim: Claim)
    ensures JobsStep(db, BeatDb(db, now, claim), now, Heartbeat(claim))
  {}

  lemma MarkJobs(env: Env, db: Db, now: Time, claim: Claim)
    requires Coherent(env, db) && Genuine(db, claim)
    ensures MarkDb(db, claim).jobs == db.jobs
  {
    if Marks(db, claim) {
      CoherentJob(env, db, claim.job);
    }
  }

  /** After part of a sweep each job is untouched or released after expiry. */
  ghost predicate PartlySwept(db: Db, m: Db, now: Time) {
    && m.jobs.Keys == db.jobs.Keys
    && forall j {:trigger m.jobs[j]} | j in db.jobs ::
         SameIdentity(db.jobs[j], m.jobs[j]) && (m.jobs[j] == db.jobs[j] || (Expired(db.jobs[j], now) && Releases(now, db.jobs[j], m.jobs[j])))
  }

  lemma RecoverReleases(s: Slice, t: Slice, kind: JobKind, now: Time)
    requires JobOf(s, kind).Some? && JobOf(s, kind).value.status == Running
    requires RecoverSlice(s, kind, now) == Some(t)
    ensures JobOf(t, kind).Some? && Releases(now, JobOf(s, kind).value, JobOf(t, kind).value)
    ensures SameIdentity(JobOf(s, kind).value, JobOf(t, kind).value)
  {}

  lemma SweptOneMore(db: Db, m: Db, d: Db, now: Time, i: Id, j: Id, t: Slice)
    requires PartlySwept(db, m, now) && j in db.jobs && m.jobs[j] == db.jobs[j] && Expired(db.jobs[j], now)
    requires JobOf(t, m.jobs[j].kind).Some? && d == Store(m, i, j, t)
    requires Releases(now, m.jobs[j], JobOf(t, m.jobs[j].kind).value) && SameIdentity(m.jobs[j], JobOf(t, m.jobs[j].kind).value)
    ensures PartlySwept(db, d, now)
  {}

  lemma {:induction false} SweepJobs(env: Env, db: Db, now: Time, batch: seq<Id>)
    requires Coherent(env, db) && Distinct(batch)
    requires forall j | j in batch :: j in db.jobs && Expired(db.jobs[j], now)
    ensures PartlySwept(db, RecoverDb(db, now, batch), now)
  {
    if batch != [] {
      var done, last := batch[..|batch| - 1], batch[|batch| - 1];
      assert batch == done + [last] && last !in done;
      SweepJobs(env, db, now, done);
      RecoverKeeps(env, db, now, done);
      var m := RecoverDb(db, now, done);
      assert m.jobs[last] == db.jobs[last];
      var t := RecoverStore(env, m, now, last);
      RecoverReleases(SliceOf(m, m.jobs[last].incident), t, m.jobs[last].kind, now);
      SweptOneMore(db, m, RecoverOne(m, now, last), now, m.jobs[last].incident, last, t);
    }
  }

  lemma SweptStep(db: Db, d: Db, now: Time, tx: Tx)
    requires PartlySwept(db, d, now) && tx.Recover?
    ensures JobsStep(db, d, now, tx)
  {}

  lemma IngestJobs(env: Env, db: Db, now: Time, call: Intake, ids: IntakeIds)
    requires Ready(env, db, now, Ingest(call, ids))
    ensures JobsStep(db, IngestDb(db, now, call, ids), now, Ingest(call, ids))
  {}

  lemma ApproveJobs(env: Env, db: Db, now: Time, k: Id, key: Id, ids: ApproveIds)
    requires Ready(env, db, now, Approve(k, key, ids))
    ensures JobsStep(db, ApproveDb(db, now, k, key, ids), now, Approve(k, key, ids))
  {}

  /** Every transaction moves each job row only along its life cycle, and new jobs are PENDING from now on. */
  lemma TxJobs(env: Env, db: Db, now: Time, tx: Tx)
    requires Coherent(env, db) && Ready(env, db, now, tx)
    ensures JobsStep(db, Run(env, db, now, tx), now, tx)
  {
    match tx
    case Sync(entries) =>
      SyncCoherent(env, db, now, entries);
      SameJobs(db, SyncDb(env, db, entries), now, tx);
    case Ingest(call, ids) => IngestJobs(env, db, now, call, ids);
    case Approve(k, key, ids) => ApproveJobs(env, db, now, k, key, ids);
    case Recover(batch) =>
      SweepJobs(env, db, now, batch);
      SweptStep(db, RecoverDb(db, now, batch), now, tx);
    case Heartbeat(claim) => BeatJobs(db, now, claim);
    case ClaimJob(j, token, who, runId) => ClaimJobs(env, db, now, j, token, who, runId);
    case Mark(claim) =>
      MarkJobs(env, db, now, claim);
      SameJobs(db, MarkDb(db, claim), now, tx);
    case Finalize(claim, outcome, version) =>
      if Finalizes(db, now, claim, version) {
        FinalizeJobs(env, db, now, claim, outcome, version);
      } else {
        SameJobs(db, FinalizeDb(db, now, claim, outcome, version), now, tx);
      }
  }

  // ---- fencing ----

  /** The token is cleared or replaced, or its lease has run out. */
  ghost predicate Dead(s: Sys, k: Id) {
    k in s.workers && !Beats(s.db, s.clock, s.workers[k].claim)
  }

  /** With a dead token neither heartbeat nor finalize changes the database, at this or any later instant. */
  lemma DeadIsHarmless(s: Sys, k: Id, now: Time, outcome: Outcome, version: int)
    requires Dead(s, k) && s.clock <= now
    ensures BeatDb(s.db, now, s.workers[k].claim) == s.db
    ensures FinalizeDb(s.db, now, s.workers[k].claim, outcome, version) == s.db
  {}

  lemma StepJobs(env: Env, s: Sys, now: Time, step: Step)
    requires Good(env, s) && Enabled(env, s, now, step) && TxOf(s, step).Some?
    ensures JobsStep(s.db, Next(env, s, now, step).db, now, TxOf(s, step).value)
  {
    StepTxReady(env, s, now, step);
    TxJobs(env, s.db, now, TxOf(s, step).value);
  }

  /** The workers a step leaves keep their claims. */
  lemma ClaimsStay(env: Env, s: Sys, now: Time, step: Step, k: Id)
    requires Enabled(env, s, now, step) && k in s.workers
    ensures k in Next(env, s, now, step).workers && Next(env, s, now, step).workers[k].claim == s.workers[k].claim
  {}

  /** One job row cannot bring a dead token back. */
  lemma DeadRow(db: Db, now: Time, before: Time, tx: Tx, claim: Claim, a: Job, b: Job)
    requires before <= now && JobStep(db, now, tx, claim.job, a, b)
    requires claim.job in db.jobs && db.jobs[claim.job] == a && HasJob(db, claim.job)
    requires !Beats(db, before, claim)
    requires !Claims(tx, claim.job, b) || b.token != Some(claim.token)
    ensures !(b.token == Some(claim.token) && b.status == Running && b.lockedAt.Some? && b.lockedAt.value > now - LEASE)
  {}

  lemma DeadStep(env: Env, s: Sys, now: Time, step: Step, k: Id)
    requires Good(env, s) && Enabled(env, s, now, step) && Dead(s, k)
    ensures Dead(Next(env, s, now, step), k)
  {
    ClaimsStay(env, s, now, step, k);
    var claim := s.workers[k].claim;
    assert WorkerOk(env, s.db, k, s.workers[k]);
    LinkedJob(s.db, claim.job);
    if TxOf(s, step).Some? {
      StepJobs(env, s, now, step);
      var d := Next(env, s, now, step).db;
      DeadRow(s.db, now, s.clock, TxOf(s, step).value, claim, s.db.jobs[claim.job], d.jobs[claim.job]);
    }
  }

  /** A dead token stays dead over every run, even while its late mark commits. */
  lemma {:induction false} DeadForever(env: Env, s: Sys, run: seq<Event>, k: Id)
    requires Good(env, s) && Legal(env, s, run) && Dead(s, k)
    ensures Dead(End(env, s, run), k)
    decreases |run|
  {
    if run != [] {
      DeadStep(env, s, run[0].now, run[0].step, k);
      NextKeeps(env, s, run[0].now, run[0].step);
      DeadForever(env, Next(env, s, run[0].now, run[0].step), run[1..], k);
    }
  }

  lemma FinishedRow(db: Db, d: Db, now: Time, tx: Tx, j: Id)
    requires JobsStep(db, d, now, tx) && j in db.jobs && !Active(db.jobs[j])
    ensures j in d.jobs && d.jobs[j] == db.jobs[j]
  {
    assert JobStep(db, now, tx, j, db.jobs[j], d.jobs[j]);
  }

  lemma FinishedStays(env: Env, s: Sys, now: Time, step: Step, j: Id)
    requires Good(env, s) && Enabled(env, s, now, step) && j in s.db.jobs && !Active(s.db.jobs[j])
    ensures j in Next(env, s, now, step).db.jobs && Next(env, s, now, step).db.jobs[j] == s.db.jobs[j]
  {
    if TxOf(s, step).Some? {
      StepJobs(env, s, now, step);
      FinishedRow(s.db, Next(env, s, now, step).db, now, TxOf(s, step).value, j);
    }
  }

  /** Succeeded and failed jobs never change again, so a job finishes at most once. */
  lemma {:induction false} JobsFinishOnce(env: Env, s: Sys, run: seq<Event>, j: Id)
    requires Good(env, s) && Legal(env, s, run) && j in s.db.jobs && !Active(s.db.jobs[j])
    ensures j in End(env, s, run).db.jobs && End(env, s, run).db.jobs[j] == s.db.jobs[j]
    decreases |run|
  {
    if run != [] {
      FinishedStays(env, s, run[0].now, run[0].step, j);
      NextKeeps(env, s, run[0].now, run[0].step);
      JobsFinishOnce(env, Next(env, s, run[0].now, run[0].step), run[1..], j);
    }
  }

  /** A finalization that is accepted comes from the last claim issued for its job. */
  lemma LastClaimWins(env: Env, s: Sys, now: Time, k: Id, h: Id)
    requires Good(env, s) && k in s.workers && h in s.workers && h != k
    requires s.workers[h].claim.job == s.workers[k].claim.job
    requires Finalizes(s.db, now, s.workers[k].claim, s.workers[k].versionRef)
    ensures s.workers[h].claim.attempt < s.workers[k].claim.attempt
  {
    assert WorkerOk(env, s.db, k, s.workers[k]);
    assert WorkerOk(env, s.db, h, s.workers[h]);
    LinkedJob(s.db, s.workers[k].claim.job);
  }

  /** Whether `finalize` sends the job back to the queue instead of ending it. */
  predicate Retries(job: Job, outcome: Outcome) {
    outcome.error.Some? && outcome.transient && job.attempt < job.maxAttempts
  }

  /** What an accepted finalization leaves in the rows of its incident. */
  ghost predicate Concluded(d: Db, now: Time, claim: Claim, outcome: Outcome) {
    var i, failed := claim.incident, outcome.error.Some?;
    && claim.job in d.jobs && d.jobs[claim.job].status == (if failed then Failed else Succeeded) && d.jobs[claim.job].lastError == outcome.error
    && i in d.incidents
    && match claim.kind
       case Analyze =>
         && d.incidents[i].state == (if failed then AnalysisFailed else AwaitingApproval)
         && i in d.runs && StoresRun(d.runs[i], now, outcome)
       case Patch =>
         && d.incidents[i].state == (if failed then PatchFailed else PatchReady)
         && i in d.patchRuns && StoresPatch(d.patchRuns[i], now, outcome)
  }

  predicate StoresRun(run: AnalysisRun, now: Time, outcome: Outcome) {
    && run.status == (if outcome.error.Some? then RunFailed else RunSucceeded)
    && run.result == outcome.result && run.thread == outcome.thread && run.error == outcome.error && run.finishedAt == Some(now)
  }

  predicate StoresPatch(patch: PatchRun, now: Time, outcome: Outcome) {
    && patch.status == (if outcome.error.Some? then PatchBroken else PatchDone)
    && patch.changedFiles == outcome.changedFiles && patch.diff == outcome.diff && patch.validation == outcome.validation
    && patch.error == outcome.error && patch.finishedAt == Some(now)
  }

  /** An accepted finalization stores its outcome whole, or requeues the job and touches nothing else. */
  lemma FinalizeStores(env: Env, db: Db, now: Time, claim: Claim, outcome: Outcome, version: int)
    requires Coherent(env, db) && Genuine(db, claim) && Finalizes(db, now, claim, version)
    ensures var d := FinalizeDb(db, now, claim, outcome, version);
            if Retries(db.jobs[claim.job], outcome) then
              d == db.(jobs := db.jobs[claim.job := Released(Requeued(db.jobs[claim.job].(lastError := outcome.error), now))])
            else Concluded(d, now, claim, outcome)
  {
    var t := FinalStore(env, db, now, claim, outcome, version);
    StoresOutcome(db, FinalizeDb(db, now, claim, outcome, version), t, now, claim, outcome);
  }

  lemma StoresOutcome(db: Db, d: Db, t: Slice, now: Time, claim: Claim, outcome: Outcome)
    requires HasJob(db, claim.job) && Genuine(db, claim)
    requires FinalizeSlice(SliceOf(db, claim.incident), claim.kind, now, outcome) == Some(t)
    requires d == Store(db, claim.incident, claim.job, t)
    ensures if Retries(db.jobs[claim.job], outcome) then
              d == db.(jobs := db.jobs[claim.job := Released(Requeued(db.jobs[claim.job].(lastError := outcome.error), now))])
            else Concluded(d, now, claim, outcome)
  {
    var i := claim.incident;
    assert db.incidents == db.incidents[i := db.incidents[i]];
    assert i in db.runs ==> db.runs == db.runs[i := db.runs[i]];
    assert i in db.patchRuns ==> db.patchRuns == db.patchRuns[i := db.patchRuns[i]];
  }

  /** What the last claim stored is what the rows hold for ever after, over every run. */
  lemma ResultsLast(env: Env, s: Sys, now: Time, k: Id, n: Sys, run: seq<Event>)
    requires Good(env, s) && Enabled(env, s, now, CommitFinal(k)) && n == Next(env, s, now, CommitFinal(k)) && Legal(env, n, run)
    requires Finalizes(s.db, now, s.workers[k].claim, s.workers[k].versionRef)
    requires !Retries(s.db.jobs[s.workers[k].claim.job], s.workers[k].outcome.value)
    ensures HasResult(End(env, n, run).db, now, s.workers[k].claim, s.workers[k].outcome.value)
  {
    ResultStored(env, s, now, k);
    NextKeeps(env, s, now, CommitFinal(k));
    RunFreezes(env, n, run, s.workers[k].claim.incident);
  }

  ghost predicate HasResult(d: Db, now: Time, claim: Claim, outcome: Outcome) {
    match claim.kind
    case Analyze => claim.incident in d.incidents && claim.incident in d.runs && StoresRun(d.runs[claim.incident], now, outcome)
    case Patch => claim.incident in d.incidents && claim.incident in d.patchRuns && StoresPatch(d.patchRuns[claim.incident], now, outcome)
  }

  lemma ResultStored(env: Env, s: Sys, now: Time, k: Id)
    requires Good(env, s) && Enabled(env, s, now, CommitFinal(k))
    requires Finalizes(s.db, now, s.workers[k].claim, s.workers[k].versionRef)
    requires !Retries(s.db.jobs[s.workers[k].claim.job], s.workers[k].outcome.value)
    ensures HasResult(Next(env, s, now, CommitFinal(k)).db, now, s.workers[k].claim, s.workers[k].outcome.value)
  {
    StepTxReady(env, s, now, CommitFinal(k));
    FinalizeStores(env, s.db, now, s.workers[k].claim, s.workers[k].outcome.value, s.workers[k].versionRef);
  }

  // ---- versions ----

  /**
   * A worker whose claim is current and unexpired is refused by `finalize` exactly when its mark
   * committed and the answer never reached it.
   */
  lemma RefusedOnlyWhenAnswerLost(env: Env, s: Sys, now: Time, k: Id)
    requires Good(env, s) && k in s.workers && Beats(s.db, now, s.workers[k].claim)
    ensures s.workers[k].claim.incident in s.db.incidents
    ensures Finalizes(s.db, now, s.workers[k].claim, s.workers[k].versionRef)
            <==> !(s.workers[k].phase.Answered? && s.workers[k].phase.reply.Some?)
    ensures s.db.incidents[s.workers[k].claim.incident].version - s.workers[k].versionRef ==
            if s.workers[k].phase.Answered? && s.workers[k].phase.reply.Some? then 1 else 0
  {
    assert WorkerOk(env, s.db, k, s.workers[k]);
    LinkedJob(s.db, s.workers[k].claim.job);
  }

  // ---- PATCH_READY ----

  /** Only a finalization can end an incident well, and only with the outcome of its own worker. */
  lemma ReadyByFinalize(env: Env, s: Sys, now: Time, step: Step, i: Id)
    requires Good(env, s) && Enabled(env, s, now, step) && i in s.db.incidents
    requires s.db.incidents[i].state != PatchReady && i in Next(env, s, now, step).db.incidents
    requires Next(env, s, now, step).db.incidents[i].state == PatchReady
    ensures step.CommitFinal? && StepHits(s, now, step, i)
  {
    StepFollows(env, s, now, step, i);
    if TxOf(s, step).Some? {
      StepTxReady(env, s, now, step);
      ReadyTx(env, s.db, now, TxOf(s, step).value, i);
    }
  }

  lemma ReadyTx(env: Env, db: Db, now: Time, tx: Tx, i: Id)
    requires Coherent(env, db) && Ready(env, db, now, tx) && MarksInTurn(db, tx) && i in db.incidents
    requires db.incidents[i].state != PatchReady && i in Run(env, db, now, tx).incidents
    requires Run(env, db, now, tx).incidents[i].state == PatchReady
    ensures tx.Finalize? && Hits(db, now, tx, i)
  {
    match tx
    case Recover(batch) => SweepStates(env, db, now, batch, i);
    case ClaimJob(j, token, who, runId) => ClaimNotReady(env, db, now, j, token, who, runId, i);
    case Approve(k, key, ids) => ApproveNotReady(db, now, k, key, ids, i);
    case Mark(claim) => MarkNotReady(db, claim, i);
    case _ => TxFollows(env, db, now, tx, i);
  }

  lemma ApproveNotReady(db: Db, now: Time, k: Id, key: Id, ids: ApproveIds, i: Id)
    requires i in db.incidents && db.incidents[i].state != PatchReady
    ensures i in ApproveDb(db, now, k, key, ids).incidents && ApproveDb(db, now, k, key, ids).incidents[i].state != PatchReady
  {}

  lemma MarkNotReady(db: Db, claim: Claim, i: Id)
    requires i in db.incidents && db.incidents[i].state != PatchReady
    ensures i in MarkDb(db, claim).incidents && MarkDb(db, claim).incidents[i].state != PatchReady
  {}

  lemma ClaimedState(s: Slice, t: Slice, kind: JobKind, now: Time, token: Id, who: string, first: Option<AnalysisRun>)
    requires JobOf(s, kind).Some? && ClaimSlice(s, kind, now, token, who, first) == Some(t)
    ensures t.incident.state == s.incident.state || t.incident.state == Analyzing || t.incident.state == Patching
  {}

  lemma ClaimNotReady(env: Env, db: Db, now: Time, j: Id, token: Id, who: string, runId: Id, i: Id)
    requires Coherent(env, db) && IsNext(db, now, j) && i in db.incidents && db.incidents[i].state != PatchReady
    ensures i in ClaimDb(env, db, now, j, token, who, runId).incidents
    ensures ClaimDb(env, db, now, j, token, who, runId).incidents[i].state != PatchReady
  {
    var t := ClaimStore(env, db, now, j, token, who, runId);
    var m := db.jobs[j].incident;
    ClaimedState(SliceOf(db, m), t, db.jobs[j].kind, now, token, who, FirstRun(env, db, m, now, runId));
  }

  lemma RecoveredState(s: Slice, t: Slice, kind: JobKind, now: Time)
    requires JobOf(s, kind).Some? && RecoverSlice(s, kind, now) == Some(t)
    ensures t.incident.state == s.incident.state || t.incident.state == AnalysisFailed || t.incident.state == PatchFailed
  {}

  /** A sweep leaves a state alone or fails it. */
  ghost predicate SweptState(a: IncidentState, b: IncidentState) {
    b == a || b == AnalysisFailed || b == PatchFailed
  }

  lemma RecoverOneState(env: Env, db: Db, now: Time, j: Id, i: Id)
    requires Coherent(env, db) && j in db.jobs && db.jobs[j].status == Running && i in db.incidents
    ensures i in RecoverOne(db, now, j).incidents && SweptState(db.incidents[i].state, RecoverOne(db, now, j).incidents[i].state)
  {
    var t := RecoverStore(env, db, now, j);
    RecoveredState(SliceOf(db, db.jobs[j].incident), t, db.jobs[j].kind, now);
  }

  lemma {:induction false} SweepStates(env: Env, db: Db, now: Time, batch: seq<Id>, i: Id)
    requires Coherent(env, db) && Distinct(batch) && i in db.incidents
    requires forall j | j in batch :: j in db.jobs && db.jobs[j].status == Running
    ensures i in RecoverDb(db, now, batch).incidents && SweptState(db.incidents[i].state, RecoverDb(db, now, batch).incidents[i].state)
  {
    if batch != [] {
      var done, last := batch[..|batch| - 1], batch[|batch| - 1];
      assert batch == done + [last] && last !in done;
      SweepStates(env, db, now, done, i);
      RecoverKeeps(env, db, now, done);
      RecoverOneState(env, RecoverDb(db, now, done), now, last, i);
    }
  }

  /**
   * PATCH_READY is entered only from VALIDATING, by the worker whose own mark entered VALIDATING:
   * the version is still the one its mark returned, so no other state change came between.
   */
  lemma ReadyOnlyAfterOwnMark(env: Env, s: Sys, now: Time, step: Step, i: Id)
    requires Good(env, s) && Enabled(env, s, now, step) && i in s.db.incidents
    requires s.db.incidents[i].state != PatchReady && i in Next(env, s, now, step).db.incidents
    requires Next(env, s, now, step).db.incidents[i].state == PatchReady
    ensures s.db.incidents[i].state == Validating
    ensures step.CommitFinal? && s.workers[step.token].claim.incident == i && s.workers[step.token].phase == Heard
    ensures s.db.incidents[i].version == s.workers[step.token].claim.version + 1
  {
    ReadyByFinalize(env, s, now, step, i);
    var w := s.workers[step.token];
    assert WorkerOk(env, s.db, step.token, w);
    LinkedJob(s.db, w.claim.job);
    ReadyFinal(env, s.db, FinalizeDb(s.db, now, w.claim, w.outcome.value, w.versionRef), now, w.claim, w.outcome.value, w.versionRef);
  }

  lemma ReadyFinal(env: Env, db: Db, d: Db, now: Time, claim: Claim, outcome: Outcome, version: int)
    requires Coherent(env, db) && Placed(db, claim) && Finalizes(db, now, claim, version) && d == FinalizeDb(db, now, claim, outcome, version)
    requires db.incidents[claim.incident].state != PatchReady && claim.incident in d.incidents && d.incidents[claim.incident].state == PatchReady
    ensures claim.kind == Patch && outcome.error.None?
  {
    var t := FinalStore(env, db, now, claim, outcome, version);
    ReadyOutcome(SliceOf(db, claim.incident), t, claim.kind, now, outcome);
  }

  lemma ReadyOutcome(s: Slice, t: Slice, kind: JobKind, now: Time, outcome: Outcome)
    requires JobOf(s, kind).Some? && FinalizeSlice(s, kind, now, outcome) == Some(t)
    requires s.incident.state != PatchReady && t.incident.state == PatchReady
    ensures kind == Patch && outcome.error.None?
  {}

  /**
   * What PATCH_READY means in every reachable state, judged by the policy frozen at the first claim:
   * the stored diff itself meets every limit of the gate and every frozen command passed.
   */
  lemma PatchReadyMeans(env: Env, s: Sys, i: Id)
    requires Good(env, s) && i in s.db.incidents && s.db.incidents[i].state == PatchReady
    ensures i in s.db.patchRuns && i in s.db.runs && s.db.runs[i].snapshot.Some? && s.db.patchRuns[i].diff.Some?
    ensures AllPassed(s.db.runs[i].snapshot.value.policy.commands, s.db.patchRuns[i].validation)
    ensures var c, policy := env.read(s.db.patchRuns[i].diff.value), s.db.runs[i].snapshot.value.policy;
            && s.db.patchRuns[i].changedFiles == c.names && 1 <= |c.names| <= Min(policy.maxChangedFiles, 10)
            && LineCount(c.stats) <= Min(policy.maxDiffLines, 400) && Numeric(c.stats)
            && c.bytes <= 512 * 1024 && c.clean
    ensures var c, policy := env.read(s.db.patchRuns[i].diff.value), s.db.runs[i].snapshot.value.policy;
            forall name | name in s.db.patchRuns[i].changedFiles ::
              && RelativePath(name) && !Protected(name)
              && (exists p :: p in policy.allowedPaths && env.glob(name, p)) && (forall p | p in policy.deniedPaths :: !env.glob(name, p))
              && ("tests/" <= name ==> c.added(name))
              && !c.link(name) && forall line | line in c.modes(name) :: !("120000" <= line) && !("160000" <= line)
  {
    assert SliceOk(SliceOf(s.db, i));
    assert Proven(env, SliceOf(s.db, i));
    ChangedNames(env.glob, env.read(s.db.patchRuns[i].diff.value), s.db.runs[i].snapshot.value.policy);
  }

  lemma ChangedNames(glob: Glob, c: Changes, policy: Policy)
    requires ChangeOk(glob, c, policy)
    ensures forall name | name in c.names ::
              && RelativePath(name) && !Protected(name)
              && (exists p :: p in policy.allowedPaths && glob(name, p)) && (forall p | p in policy.deniedPaths :: !glob(name, p))
              && ("tests/" <= name ==> c.added(name))
              && !c.link(name) && forall line | line in c.modes(name) :: !("120000" <= line) && !("160000" <= line)
  {
    forall name | name in c.names
      ensures ChangeNameOk(glob, c, policy, name)
      ensures exists p :: p in policy.allowedPaths && glob(name, p)
      ensures forall p | p in policy.deniedPaths :: !glob(name, p)
      ensures forall line | line in c.modes(name) :: !LinkMode(line)
    {
      var k :| 0 <= k < |c.names| && c.names[k] == name;
      MatchesExactly(glob, name, policy.allowedPaths);
      MatchesExactly(glob, name, policy.deniedPaths);
    }
  }

  lemma MatchesExactly(glob: Glob, path: string, patterns: seq<string>)
    ensures Matches(glob, path, patterns) <==> exists p :: p in patterns && glob(path, p)
  {
    if p :| p in patterns && glob(path, p) {
      var k :| 0 <= k < |patterns| && patterns[k] == p;
    }
  }

  /** What may be approved in every reachable state: a useful analysis under the frozen policy. */
  lemma AwaitingMeans(env: Env, s: Sys, i: Id)
    requires Good(env, s) && i in s.db.incidents && s.db.incidents[i].state == AwaitingApproval
    ensures i in s.db.runs && s.db.runs[i].snapshot.Some?
    ensures s.db.runs[i].result.Some?
    ensures var result, allowed := s.db.runs[i].result.value, s.db.runs[i].snapshot.value.policy.allowedPaths;
            && result.confidence in {Medium, High} && result.evidence != [] && result.changedPaths != []
            && forall path | path in result.changedPaths :: exists p :: p in allowed && env.glob(path, p)
  {
    assert SliceOk(SliceOf(s.db, i));
    assert Proven(env, SliceOf(s.db, i));
    var result, allowed := s.db.runs[i].result.value, s.db.runs[i].snapshot.value.policy.allowedPaths;
    forall path | path in result.changedPaths
      ensures exists p :: p in allowed && env.glob(path, p)
    {
      var k :| 0 <= k < |result.changedPaths| && result.changedPaths[k] == path;
      MatchesExactly(env.glob, path, allowed);
    }
  }
}
