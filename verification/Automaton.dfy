/**
 * The documented state diagram and the two places where the code goes beyond what it says: the
 * retry edge from VALIDATING back to PATCHING, and marks that commit after their lease.
 */
module Automaton {
  import opened Base
  import opened Schema
  import opened Slices
  import opened Transactions
  import opened Coherence
  import opened JobSteps
  import opened IntakeSteps
  import opened Protocol
  import opened ProtocolSafety
  import opened Workflow
  import opened Fencing

  /** The state diagram of `docs/service-architecture.md`. */
  predicate Documented(a: IncidentState, b: IncidentState) {
    match a
    case Received => b == Analyzing
    case Analyzing => b == AwaitingApproval || b == AnalysisFailed
    case AwaitingApproval => b == Patching
    case Patching => b == Validating || b == PatchFailed
    case Validating => b == PatchReady || b == PatchFailed
    case _ => false
  }

  /** The step claims a job of the incident. */
  predicate Claims(s: Sys, step: Step, i: Id) {
    step.Take? && step.job in s.db.jobs && s.db.jobs[step.job].incident == i
  }

  /** A claim of a VALIDATING incident's job finds a patch job to retry. */
  lemma ClaimRetries(env: Env, s: Sys, now: Time, step: Step, i: Id)
    requires Good(env, s) && Enabled(env, s, now, step) && i in s.db.incidents
    requires s.db.incidents[i].state == Validating && Claims(s, step, i)
    ensures i in Next(env, s, now, step).db.incidents && Next(env, s, now, step).db.incidents[i].state == Patching
  {
    var t := ClaimStore(env, s.db, now, step.job, step.token, step.who, step.runId);
    CoherentJob(env, s.db, step.job);
    RetriedRows(SliceOf(s.db, i), t, s.db.jobs[step.job].kind, now, step.token, step.who, FirstRun(env, s.db, i, now, step.runId));
  }

  lemma RetriedRows(s: Slice, t: Slice, kind: JobKind, now: Time, token: Id, who: string, first: Option<AnalysisRun>)
    requires SliceOk(s) && s.incident.state == Validating && JobOf(s, kind).Some? && JobOf(s, kind).value.status == Pending
    requires ClaimSlice(s, kind, now, token, who, first) == Some(t)
    ensures t.incident.state == Patching
  {}

  /** Nothing else does: a mark enters VALIDATING, a finalization or a sweep ends the incident or leaves its state. */
  lemma OnlyClaimsRetry(env: Env, db: Db, now: Time, tx: Tx, i: Id)
    requires Coherent(env, db) && Ready(env, db, now, tx) && MarksInTurn(db, tx) && i in db.incidents
    requires db.incidents[i].state == Validating && i in Run(env, db, now, tx).incidents
    requires Run(env, db, now, tx).incidents[i].state == Patching
    ensures tx.ClaimJob? && tx.job in db.jobs && db.jobs[tx.job].incident == i
  {
    if tx.Recover? {
      SweepStates(env, db, now, tx.batch, i);
    } else if tx.Finalize? {
      FinalizeEnds(env, db, now, tx.claim, tx.outcome, tx.version, i);
    } else {
      OthersDoNotRetry(env, db, now, tx, i);
    }
  }

  lemma OthersDoNotRetry(env: Env, db: Db, now: Time, tx: Tx, i: Id)
    requires Coherent(env, db) && Ready(env, db, now, tx) && MarksInTurn(db, tx) && i in db.incidents
    requires !tx.Recover? && !tx.Finalize? && db.incidents[i].state == Validating && i in Run(env, db, now, tx).incidents
    requires Run(env, db, now, tx).incidents[i].state == Patching
    ensures tx.ClaimJob? && tx.job in db.jobs && db.jobs[tx.job].incident == i
  {
    TxFollows(env, db, now, tx, i);
    OnlyClaimsHit(db, now, tx, i);
  }

  lemma OnlyClaimsHit(db: Db, now: Time, tx: Tx, i: Id)
    requires MarksInTurn(db, tx) && !tx.Recover? && !tx.Finalize? && i in db.incidents && db.incidents[i].state == Validating
    ensures Hits(db, now, tx, i) ==> tx.ClaimJob?
  {}

  lemma FinalizeEnds(env: Env, db: Db, now: Time, claim: Claim, outcome: Outcome, version: int, i: Id)
    requires Coherent(env, db) && Genuine(db, claim) && i in db.incidents
    ensures i in FinalizeDb(db, now, claim, outcome, version).incidents
    ensures var st := FinalizeDb(db, now, claim, outcome, version).incidents[i].state;
            st == db.incidents[i].state || st in {AwaitingApproval, AnalysisFailed, PatchReady, PatchFailed}
  {
    FinalizeFollows(env, db, now, claim, outcome, version, i);
    if Finalizes(db, now, claim, version) {
      FinalizeStores(env, db, now, claim, outcome, version);
    }
  }

  /**
   * The retry edge: a reachable VALIDATING incident goes back to PATCHING in a step exactly when the
   * step claims its job.
   */
  lemma RetryEdgeExactly(env: Env, s: Sys, now: Time, step: Step, i: Id)
    requires Good(env, s) && Enabled(env, s, now, step) && i in s.db.incidents && s.db.incidents[i].state == Validating
    ensures i in Next(env, s, now, step).db.incidents
    ensures Next(env, s, now, step).db.incidents[i].state == Patching <==> Claims(s, step, i)
  {
    StepFollows(env, s, now, step, i);
    if Claims(s, step, i) {
      ClaimRetries(env, s, now, step, i);
    } else if Next(env, s, now, step).db.incidents[i].state == Patching && TxOf(s, step).Some? {
      StepTxReady(env, s, now, step);
      OnlyClaimsRetry(env, s.db, now, TxOf(s, step).value, i);
    }
  }

  /** Every step of a reachable state keeps an incident's state, takes a documented edge, or retries a patch. */
  lemma StepIsDocumented(env: Env, s: Sys, now: Time, step: Step, i: Id)
    requires Good(env, s) && Enabled(env, s, now, step) && i in s.db.incidents
    ensures i in Next(env, s, now, step).db.incidents
    ensures var a, b := s.db.incidents[i].state, Next(env, s, now, step).db.incidents[i].state;
            a == b || Documented(a, b) || (a == Validating && b == Patching && Claims(s, step, i))
  {
    StepFollows(env, s, now, step, i);
    var a, b := s.db.incidents[i].state, Next(env, s, now, step).db.incidents[i].state;
    if a == Validating {
      RetryEdgeExactly(env, s, now, step, i);
    } else if a == Patching && b == PatchReady {
      ReadyOnlyAfterOwnMark(env, s, now, step, i);
    }
  }

  /**
   * Late marks: a mark that was sent commits exactly while the job row carries its token. The lease
   * plays no part: until the sweeper or the next claim takes the token away, an expired claim marks.
   */
  lemma MarkCommitsExactly(env: Env, s: Sys, now: Time, k: Id, claim: Claim, n: Sys)
    requires Good(env, s) && Enabled(env, s, now, CommitMark(k)) && claim == s.workers[k].claim && n == Next(env, s, now, CommitMark(k))
    ensures claim.job in s.db.jobs && claim.incident in s.db.incidents
    ensures Marks(s.db, claim) <==> s.db.jobs[claim.job].token == Some(k)
    ensures n.db != s.db <==> Marks(s.db, claim)
    ensures Marks(s.db, claim) ==> MarksEnter(s.db, n.db, claim)
  {
    MarkerMarks(env, s.db, k, s.workers);
    MarkedDb(env, s, now, k);
  }

  lemma MarkedDb(env: Env, s: Sys, now: Time, k: Id)
    requires Enabled(env, s, now, CommitMark(k))
    ensures Next(env, s, now, CommitMark(k)).db == MarkDb(s.db, s.workers[k].claim)
  {}

  lemma MarkerMarks(env: Env, db: Db, k: Id, workers: map<Id, Worker>)
    requires Coherent(env, db) && WorkersOk(env, db, workers) && k in workers && workers[k].phase == Sent
    ensures workers[k].claim.job in db.jobs && workers[k].claim.incident in db.incidents
    ensures Marks(db, workers[k].claim) <==> db.jobs[workers[k].claim.job].token == Some(k)
    ensures if Marks(db, workers[k].claim) then MarksEnter(db, MarkDb(db, workers[k].claim), workers[k].claim) else MarkDb(db, workers[k].claim) == db
  {
    var w := workers[k];
    assert WorkerOk(env, db, k, w);
    MarksExactly(env, db, k, w);
    if Marks(db, w.claim) {
      MarkEnters(env, db, MarkDb(db, w.claim), k, w);
    }
  }

  lemma MarksExactly(env: Env, db: Db, k: Id, w: Worker)
    requires Coherent(env, db) && WorkerOk(env, db, k, w) && w.phase == Sent
    ensures db.jobs[w.claim.job].token == Some(k) <==> Marks(db, w.claim)
  {
    CoherentJob(env, db, w.claim.job);
    JobShaped(SliceOf(db, w.claim.incident), w.claim.kind);
  }

  lemma MarkEnters(env: Env, db: Db, d: Db, k: Id, w: Worker)
    requires Coherent(env, db) && WorkerOk(env, db, k, w) && w.phase == Sent && Marks(db, w.claim) && d == MarkDb(db, w.claim)
    ensures MarksEnter(db, d, w.claim) && d != db
  {
    MarkerStands(env, db, k, w);
  }

  ghost predicate MarksEnter(db: Db, d: Db, claim: Claim) {
    && claim.incident in db.incidents && db.incidents[claim.incident].state == Patching
    && claim.incident in d.incidents && d.incidents[claim.incident] == Enter(db.incidents[claim.incident], Validating)
  }
}
