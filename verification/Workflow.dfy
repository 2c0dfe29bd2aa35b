/**
 * What one transaction means for one incident, and what that gives over whole runs: the workflow
 * automaton, version accounting, termination, absorbing ends and frozen inputs.
 */
module Workflow {
  import opened Base
  import opened Schema
  import opened Slices
  import opened Transactions
  import opened Coherence
  import opened JobSteps
  import opened IntakeSteps
  import opened Protocol
  import opened ProtocolSafety

  /** The transaction takes effect on incident `i`: a claim, mark, finalization, recovery or approval of it. */
  ghost predicate Hits(db: Db, now: Time, tx: Tx, i: Id) {
    match tx
    case ClaimJob(j, _, _, _) => j in db.jobs && db.jobs[j].incident == i
    case Mark(claim) => Marks(db, claim) && claim.incident == i
    case Finalize(claim, _, version) => Finalizes(db, now, claim, version) && claim.incident == i
    case Recover(batch) => HitsBatch(db, batch, i)
    case Approve(k, key, ids) => k == i && Decide(db, k, key, ids) == Approved(ids.approval, ids.patch, false)
    case _ => false
  }

  ghost predicate HitsBatch(db: Db, batch: seq<Id>, i: Id) {
    exists j :: j in batch && j in db.jobs && db.jobs[j].incident == i
  }

  /** Only the occurrence count and lease times may differ. */
  ghost predicate Stays(s: Slice, t: Slice)
    requires s.analyze.Some? && t.analyze.Some?
  {
    && t.incident == s.incident.(count := t.incident.count)
    && t.run == s.run && t.approval == s.approval && t.patch == s.patch
    && Budget(t) == Budget(s)
  }

  ghost predicate Follows(db: Db, d: Db, i: Id, hit: bool) {
    && i in db.incidents && i in d.incidents
    && SliceOf(db, i).analyze.Some? && SliceOf(d, i).analyze.Some?
    && if hit then Advances(SliceOf(db, i), SliceOf(d, i)) else Stays(SliceOf(db, i), SliceOf(d, i))
  }

  // ---- the state and the rows determine each other ----

  /** In every reachable state the incident's state says exactly what its jobs, runs and approvals are. */
  lemma StateFromRows(env: Env, s: Sys, i: Id)
    requires Good(env, s) && i in s.db.incidents
    ensures var st, rows := s.db.incidents[i].state, SliceOf(s.db, i);
            && rows.analyze.Some?
            && (st == Received <==> rows.run.None? && rows.analyze.value.attempt == 0)
            && (st == Analyzing <==> Active(rows.analyze.value) && rows.analyze.value.attempt >= 1 && rows.run.Some? && rows.run.value.status == RunRunning)
            && (st == AnalysisFailed <==> rows.analyze.value.status == Failed)
            && (st == AwaitingApproval <==> rows.analyze.value.status == Succeeded && rows.approval.None? && rows.patch.None? && rows.patchJob.None?)
            && (st in {Patching, Validating} <==> rows.approval.Some? && rows.patch.Some? && rows.patchJob.Some? && Active(rows.patchJob.value))
            && (st == Validating <==> rows.patch.Some? && rows.patch.value.status == PatchValidating)
            && (st == PatchReady <==> rows.patchJob.Some? && rows.patchJob.value.status == Succeeded)
            && (st == PatchFailed <==> rows.patchJob.Some? && rows.patchJob.value.status == Failed)
  {
    assert SliceOk(SliceOf(s.db, i));
  }

  // ---- at most one active job per incident ----

  lemma OneActiveRow(s: Slice)
    requires SliceOk(s) && s.patchJob.Some?
    ensures !(Active(s.analyze.value) && Active(s.patchJob.value))
  {}

  /** An incident never has two PENDING or RUNNING jobs at once. */
  lemma OneActiveJob(env: Env, db: Db, a: Id, b: Id)
    requires Coherent(env, db) && a in db.jobs && b in db.jobs
    requires Active(db.jobs[a]) && Active(db.jobs[b]) && db.jobs[a].incident == db.jobs[b].incident
    ensures a == b
  {
    CoherentJob(env, db, a);
    CoherentJob(env, db, b);
    if db.jobs[a].kind != db.jobs[b].kind {
      OneActiveRow(SliceOf(db, db.jobs[a].incident));
    } else {
      assert JobNamed(db, db.jobs[a]) && JobNamed(db, db.jobs[b]);
    }
  }

  // ---- each transaction ----

  lemma MovedFollows(env: Env, db: Db, d: Db, m: Id, i: Id)
    requires Coherent(env, db) && Moved(db, d, m) && i in db.incidents
    ensures Follows(db, d, i, i == m) && d.incidents[i].count == db.incidents[i].count
  {
    assert SliceOk(SliceOf(db, i));
    if i != m {
      assert SliceOf(d, i) == SliceOf(db, i);
    }
  }

  lemma SameFollows(env: Env, db: Db, d: Db, i: Id)
    requires Coherent(env, db) && i in db.incidents && i in d.incidents && SliceOf(d, i) == SliceOf(db, i)
    ensures Follows(db, d, i, false) && d.incidents[i].count == db.incidents[i].count
  {
    assert SliceOk(SliceOf(db, i));
  }

  /** A batch holds at most one job of an incident. */
  lemma LastOfIncident(env: Env, db: Db, done: seq<Id>, last: Id)
    requires Coherent(env, db) && last in db.jobs && last !in done && db.jobs[last].status == Running
    requires forall j | j in done :: j in db.jobs && db.jobs[j].status == Running
    ensures !HitsBatch(db, done, db.jobs[last].incident)
  {
    forall j | j in done
      ensures db.jobs[j].incident != db.jobs[last].incident
    {
      if db.jobs[j].incident == db.jobs[last].incident {
        OneActiveJob(env, db, j, last);
      }
    }
  }

  lemma {:induction false} RecoverFollows(env: Env, db: Db, now: Time, batch: seq<Id>, i: Id)
    requires Coherent(env, db) && Distinct(batch) && i in db.incidents
    requires forall j | j in batch :: j in db.jobs && db.jobs[j].status == Running
    ensures Follows(db, RecoverDb(db, now, batch), i, HitsBatch(db, batch, i))
    ensures RecoverDb(db, now, batch).incidents[i].count == db.incidents[i].count
    ensures !HitsBatch(db, batch, i) ==> SliceOf(RecoverDb(db, now, batch), i) == SliceOf(db, i)
  {
    if batch == [] {
      SameFollows(env, db, db, i);
    } else {
      var done, last := batch[..|batch| - 1], batch[|batch| - 1];
      assert batch == done + [last] && last !in done;
      RecoverFollows(env, db, now, done, i);
      RecoverKeeps(env, db, now, done);
      var m := RecoverDb(db, now, done);
      assert m.jobs[last] == db.jobs[last];
      RecoverOneMoves(env, m, now, last);
      if db.jobs[last].incident == i {
        LastOfIncident(env, db, done, last);
        MovedFollows(env, m, RecoverDb(db, now, batch), i, i);
      } else {
        assert HitsBatch(db, batch, i) <==> HitsBatch(db, done, i);
      }
    }
  }

  lemma IngestFollows(env: Env, db: Db, now: Time, call: Intake, ids: IntakeIds, i: Id)
    requires Coherent(env, db) && Ready(env, db, now, Ingest(call, ids)) && i in db.incidents
    ensures Follows(db, IngestDb(db, now, call, ids), i, false)
  {
    var reply := IngestReply(db, call, ids);
    var o := OpenIncident(db, call.service, call.fingerprint, call.sha);
    if !reply.Accepted? || reply.duplicate {
      SameFollows(env, db, db, i);
    } else if o.None? {
      OpenedSlices(env, db, IngestDb(db, now, call, ids), now, call, ids);
      SameFollows(env, db, IngestDb(db, now, call, ids), i);
    } else {
      AppendFollows(env, db, IngestDb(db, now, call, ids), now, call, ids, o.value, i);
    }
  }

  lemma AppendFollows(env: Env, db: Db, d: Db, now: Time, call: Intake, ids: IntakeIds, o: Id, i: Id)
    requires AllSlices(db) && Appending(db, call, ids, o) && d == Appended(db, now, call, ids, o) && i in db.incidents
    ensures Follows(db, d, i, false)
  {
    assert SliceOk(SliceOf(db, i));
    AppendedSlices(db, d, now, call, ids, o);
    CountBudget(SliceOf(db, i), d.incidents[i].count);
  }

  lemma CountBudget(s: Slice, n: int)
    requires s.analyze.Some?
    ensures Stays(s, s.(incident := s.incident.(count := n)))
  {}

  lemma BeatFollows(env: Env, db: Db, now: Time, claim: Claim, i: Id)
    requires Coherent(env, db) && i in db.incidents
    ensures Follows(db, BeatDb(db, now, claim), i, false) && BeatDb(db, now, claim).incidents[i].count == db.incidents[i].count
  {
    if Beats(db, now, claim) {
      BeatKeepsAll(env, db, now, claim);
      var m, kind := db.jobs[claim.job].incident, db.jobs[claim.job].kind;
      if i == m {
        assert SliceOk(SliceOf(db, i));
        BeatKeeps(SliceOf(db, i), kind, now);
        BeatStays(SliceOf(db, i), kind, now);
      } else {
        SameFollows(env, db, BeatDb(db, now, claim), i);
      }
    } else {
      SameFollows(env, db, db, i);
    }
  }

  lemma BeatStays(s: Slice, kind: JobKind, now: Time)
    requires SliceOk(s) && JobOf(s, kind).Some?
    ensures BeatSlice(s, kind, now).analyze.Some? && Stays(s, BeatSlice(s, kind, now))
  {}

  lemma SyncFollows(env: Env, db: Db, now: Time, entries: seq<Entry>, i: Id)
    requires Coherent(env, db) && Ready(env, db, now, Sync(entries)) && i in db.incidents
    ensures Follows(db, SyncDb(env, db, entries), i, false) && SyncDb(env, db, entries).incidents[i].count == db.incidents[i].count
  {
    SyncCoherent(env, db, now, entries);
    SameFollows(env, db, SyncDb(env, db, entries), i);
  }

  lemma ApproveFollows(env: Env, db: Db, now: Time, k: Id, key: Id, ids: ApproveIds, i: Id)
    requires Coherent(env, db) && Ready(env, db, now, Approve(k, key, ids)) && i in db.incidents
    ensures Follows(db, ApproveDb(db, now, k, key, ids), i, Hits(db, now, Approve(k, key, ids), i))
    ensures ApproveDb(db, now, k, key, ids).incidents[i].count == db.incidents[i].count
  {
    var reply := Decide(db, k, key, ids);
    if reply.Approved? && !reply.duplicate {
      ApprovedMoves(db, ApproveDb(db, now, k, key, ids), now, k, key, ids);
      MovedFollows(env, db, ApproveDb(db, now, k, key, ids), k, i);
    } else {
      SameFollows(env, db, db, i);
    }
  }

  /** A mark, where it is enabled, finds its incident PATCHING. */
  ghost predicate MarksInTurn(db: Db, tx: Tx) {
    tx.Mark? && Marks(db, tx.claim) ==> db.incidents[tx.claim.incident].state == Patching
  }

  /** Every transaction is a step of the workflow of the incidents it hits and a stutter for all others. */
  lemma TxFollows(env: Env, db: Db, now: Time, tx: Tx, i: Id)
    requires Coherent(env, db) && Ready(env, db, now, tx) && MarksInTurn(db, tx) && i in db.incidents
    ensures Follows(db, Run(env, db, now, tx), i, Hits(db, now, tx, i))
    ensures !tx.Ingest? ==> Run(env, db, now, tx).incidents[i].count == db.incidents[i].count
  {
    match tx
    case Sync(entries) => SyncFollows(env, db, now, entries, i);
    case Ingest(call, ids) => IngestFollows(env, db, now, call, ids, i);
    case Approve(k, key, ids) => ApproveFollows(env, db, now, k, key, ids, i);
    case Recover(batch) => RecoverFollows(env, db, now, batch, i);
    case Heartbeat(claim) => BeatFollows(env, db, now, claim, i);
    case ClaimJob(j, token, who, runId) =>
      ClaimMoves(env, db, now, j, token, who, runId);
      MovedFollows(env, db, ClaimDb(env, db, now, j, token, who, runId), db.jobs[j].incident, i);
    case Mark(claim) => MarkFollows(env, db, claim, i);
    case Finalize(claim, outcome, version) => FinalizeFollows(env, db, now, claim, outcome, version, i);
  }

  lemma MarkFollows(env: Env, db: Db, claim: Claim, i: Id)
    requires Coherent(env, db) && Genuine(db, claim) && i in db.incidents
    requires Marks(db, claim) ==> db.incidents[claim.incident].state == Patching
    ensures Follows(db, MarkDb(db, claim), i, Marks(db, claim) && claim.incident == i)
    ensures MarkDb(db, claim).incidents[i].count == db.incidents[i].count
  {
    if Marks(db, claim) {
      MarkMoves(env, db, claim);
      MovedFollows(env, db, MarkDb(db, claim), claim.incident, i);
    } else {
      SameFollows(env, db, db, i);
    }
  }

  lemma FinalizeFollows(env: Env, db: Db, now: Time, claim: Claim, outcome: Outcome, version: int, i: Id)
    requires Coherent(env, db) && Genuine(db, claim) && i in db.incidents
    ensures Follows(db, FinalizeDb(db, now, claim, outcome, version), i, Finalizes(db, now, claim, version) && claim.incident == i)
    ensures FinalizeDb(db, now, claim, outcome, version).incidents[i].count == db.incidents[i].count
  {
    if Finalizes(db, now, claim, version) {
      FinalizeMoves(env, db, now, claim, outcome, version);
      MovedFollows(env, db, FinalizeDb(db, now, claim, outcome, version), claim.incident, i);
    } else {
      SameFollows(env, db, db, i);
    }
  }

  // ---- steps and runs of the machine ----

  ghost predicate StepHits(s: Sys, now: Time, step: Step, i: Id) {
    TxOf(s, step).Some? && Hits(s.db, now, TxOf(s, step).value, i)
  }

  /** The transactions workers send are the ones the tables expect. */
  lemma StepTxReady(env: Env, s: Sys, now: Time, step: Step)
    requires Good(env, s) && Enabled(env, s, now, step) && TxOf(s, step).Some?
    ensures Ready(env, s.db, now, TxOf(s, step).value) && MarksInTurn(s.db, TxOf(s, step).value)
  {
    if step.Beat? || step.CommitMark? || step.CommitFinal? {
      assert WorkerOk(env, s.db, step.token, s.workers[step.token]);
    }
    if step.CommitMark? && Marks(s.db, s.workers[step.token].claim) {
      MarkerStands(env, s.db, step.token, s.workers[step.token]);
    }
  }

  lemma StepFollows(env: Env, s: Sys, now: Time, step: Step, i: Id)
    requires Good(env, s) && Enabled(env, s, now, step) && i in s.db.incidents
    ensures Follows(s.db, Next(env, s, now, step).db, i, StepHits(s, now, step, i))
  {
    if TxOf(s, step).Some? {
      StepTxReady(env, s, now, step);
      TxFollows(env, s.db, now, TxOf(s, step).value, i);
    } else {
      SameFollows(env, s.db, s.db, i);
    }
  }

  /** How often a run changes the state of incident `i`. */
  ghost function StateChanges(env: Env, s: Sys, run: seq<Event>, i: Id): nat
    requires Legal(env, s, run)
    decreases |run|
  {
    if run == [] then 0
    else
      var n := Next(env, s, run[0].now, run[0].step);
      var changed := i in s.db.incidents && i in n.db.incidents && n.db.incidents[i].state != s.db.incidents[i].state;
      (if changed then 1 else 0) + StateChanges(env, n, run[1..], i)
  }

  /** How many claims, marks, finalizations, recoveries and approvals a run commits on incident `i`. */
  ghost function HitCount(env: Env, s: Sys, run: seq<Event>, i: Id): nat
    requires Legal(env, s, run)
    decreases |run|
  {
    if run == [] then 0
    else
      (if StepHits(s, run[0].now, run[0].step, i) then 1 else 0) + HitCount(env, Next(env, s, run[0].now, run[0].step), run[1..], i)
  }

  lemma StepVersion(env: Env, s: Sys, now: Time, step: Step, i: Id)
    requires Good(env, s) && Enabled(env, s, now, step) && i in s.db.incidents
    ensures var d := Next(env, s, now, step).db;
            && i in d.incidents
            && d.incidents[i].version == s.db.incidents[i].version + (if d.incidents[i].state != s.db.incidents[i].state then 1 else 0)
  {
    StepFollows(env, s, now, step, i);
  }

  /** Over any run the version grows by exactly the number of state changes. */
  lemma {:induction false} RunVersions(env: Env, s: Sys, run: seq<Event>, i: Id)
    requires Good(env, s) && Legal(env, s, run) && i in s.db.incidents
    ensures i in End(env, s, run).db.incidents
    ensures End(env, s, run).db.incidents[i].version == s.db.incidents[i].version + StateChanges(env, s, run, i)
    decreases |run|
  {
    if run != [] {
      StepVersion(env, s, run[0].now, run[0].step, i);
      NextKeeps(env, s, run[0].now, run[0].step);
      RunVersions(env, Next(env, s, run[0].now, run[0].step), run[1..], i);
    }
  }

  /** The version of an incident born during a run is one more than its state changes since. */
  lemma {:induction false} VersionSinceBirth(env: Env, s: Sys, run: seq<Event>, i: Id)
    requires Good(env, s) && Legal(env, s, run) && i !in s.db.incidents && i in End(env, s, run).db.incidents
    ensures End(env, s, run).db.incidents[i].version == 1 + StateChanges(env, s, run, i)
    decreases |run|
  {
    if run != [] {
      var n := Next(env, s, run[0].now, run[0].step);
      NextKeeps(env, s, run[0].now, run[0].step);
      if i in n.db.incidents {
        StepTxReady(env, s, run[0].now, run[0].step);
        TxBirths(env, s.db, run[0].now, TxOf(s, run[0].step).value, i);
        RunVersions(env, n, run[1..], i);
      } else {
        VersionSinceBirth(env, n, run[1..], i);
      }
    }
  }

  /** The budget pays for every effective transaction. */
  lemma {:induction false} RunBudget(env: Env, s: Sys, run: seq<Event>, i: Id)
    requires Good(env, s) && Legal(env, s, run) && i in s.db.incidents
    ensures SliceOf(s.db, i).analyze.Some? && HitCount(env, s, run, i) <= Budget(SliceOf(s.db, i))
    decreases |run|
  {
    assert SliceOk(SliceOf(s.db, i));
    if run == [] {
      BudgetBounds(SliceOf(s.db, i));
    } else {
      StepFollows(env, s, run[0].now, run[0].step, i);
      NextKeeps(env, s, run[0].now, run[0].step);
      RunBudget(env, Next(env, s, run[0].now, run[0].step), run[1..], i);
    }
  }

  /** Nothing takes effect on an incident that does not exist yet. */
  lemma NoEarlyHits(env: Env, s: Sys, now: Time, step: Step, i: Id)
    requires Good(env, s) && Enabled(env, s, now, step) && i !in s.db.incidents
    ensures !StepHits(s, now, step, i)
  {
    forall j | j in s.db.jobs
      ensures s.db.jobs[j].incident in s.db.incidents
    {
      LinkedJob(s.db, j);
    }
  }

  /**
   * Frozen inputs: over any run the incident's commit, path and first event, the run's snapshot,
   * commit, input event and start, the approval and the patch run's identity never change.
   */
  lemma {:induction false} RunFreezes(env: Env, s: Sys, run: seq<Event>, i: Id)
    requires Good(env, s) && Legal(env, s, run) && i in s.db.incidents
    ensures i in End(env, s, run).db.incidents
    ensures Frozen(SliceOf(s.db, i), SliceOf(End(env, s, run).db, i))
    decreases |run|
  {
    if run != [] {
      var n := Next(env, s, run[0].now, run[0].step);
      StepFollows(env, s, run[0].now, run[0].step, i);
      NextKeeps(env, s, run[0].now, run[0].step);
      RunFreezes(env, n, run[1..], i);
      FrozenTwice(SliceOf(s.db, i), SliceOf(n.db, i), SliceOf(End(env, s, run).db, i));
    }
  }

  /** One commit and one policy bind the incident, its run, its approval and its patch run. */
  lemma SameCommit(env: Env, s: Sys, i: Id)
    requires Good(env, s) && i in s.db.incidents
    ensures i in s.db.runs ==>
      && s.db.runs[i].sha == s.db.incidents[i].sha && s.db.runs[i].inputEvent == s.db.incidents[i].firstEvent
      && s.db.runs[i].snapshot.Some? && s.db.runs[i].snapshot.value.repositoryPath == s.db.incidents[i].path
    ensures i in s.db.approvals ==> i in s.db.patchRuns
    ensures i in s.db.patchRuns ==>
      && i in s.db.approvals && i in s.db.runs
      && s.db.approvals[i].run == s.db.runs[i].id && s.db.patchRuns[i].approval == s.db.approvals[i].id
      && s.db.approvals[i].sha == s.db.incidents[i].sha && s.db.patchRuns[i].sha == s.db.incidents[i].sha
  {
    assert SliceOk(SliceOf(s.db, i));
  }

  lemma FrozenTwice(a: Slice, b: Slice, c: Slice)
    requires Frozen(a, b) && Frozen(b, c)
    ensures Frozen(a, c)
  {}

  /** In a whole run no incident sees more than 5 * max_attempts + 1 effective transactions, whatever else happens. */
  lemma {:induction false} Terminates(env: Env, s: Sys, run: seq<Event>, i: Id)
    requires Good(env, s) && Legal(env, s, run)
    ensures HitCount(env, s, run, i) <= 5 * MAX_ATTEMPTS + 1
    decreases |run|
  {
    if i in s.db.incidents {
      RunBudget(env, s, run, i);
      assert SliceOk(SliceOf(s.db, i));
      BudgetBounds(SliceOf(s.db, i));
    } else if run != [] {
      NoEarlyHits(env, s, run[0].now, run[0].step, i);
      NextKeeps(env, s, run[0].now, run[0].step);
      Terminates(env, Next(env, s, run[0].now, run[0].step), run[1..], i);
    }
  }

  lemma BudgetBounds(s: Slice)
    requires SliceOk(s)
    ensures 0 <= Budget(s) <= 16
    ensures s.incident.state in {AnalysisFailed, PatchReady, PatchFailed} <==> Budget(s) == 0
  {}

  /** The version never exceeds 2 * max_attempts + 4. */
  lemma VersionBound(env: Env, s: Sys, i: Id)
    requires Good(env, s) && i in s.db.incidents
    ensures 1 <= s.db.incidents[i].version <= 2 * MAX_ATTEMPTS + 4
  {
    assert SliceOk(SliceOf(s.db, i));
  }

  ghost predicate Ended(st: IncidentState) {
    st in {AnalysisFailed, PatchReady, PatchFailed}
  }

  // ---- final states ----

  lemma EndedRows(s: Slice)
    requires SliceOk(s) && Ended(s.incident.state)
    ensures !Active(s.analyze.value) && (s.patchJob.Some? ==> !Active(s.patchJob.value))
  {}

  /** An ended incident has no active job left. */
  lemma EndedIdle(env: Env, db: Db, j: Id)
    requires Coherent(env, db) && j in db.jobs && Active(db.jobs[j])
    ensures db.jobs[j].incident in db.incidents && !Ended(db.incidents[db.jobs[j].incident].state)
  {
    CoherentJob(env, db, j);
    if Ended(db.incidents[db.jobs[j].incident].state) {
      EndedRows(SliceOf(db, db.jobs[j].incident));
    }
  }

  ghost predicate Untouched(db: Db, d: Db, i: Id) {
    i in db.incidents && i in d.incidents && SliceOf(d, i) == SliceOf(db, i)
  }

  lemma IngestLeaves(env: Env, db: Db, now: Time, call: Intake, ids: IntakeIds, i: Id)
    requires Coherent(env, db) && Ready(env, db, now, Ingest(call, ids)) && i in db.incidents && Ended(db.incidents[i].state)
    ensures Untouched(db, IngestDb(db, now, call, ids), i)
  {
    var reply := IngestReply(db, call, ids);
    var o := OpenIncident(db, call.service, call.fingerprint, call.sha);
    if reply.Accepted? && !reply.duplicate {
      if o.None? {
        OpenedSlices(env, db, IngestDb(db, now, call, ids), now, call, ids);
      } else {
        AppendLeaves(db, IngestDb(db, now, call, ids), now, call, ids, o.value, i);
      }
    }
  }

  lemma AppendLeaves(db: Db, d: Db, now: Time, call: Intake, ids: IntakeIds, o: Id, i: Id)
    requires AllSlices(db) && Appending(db, call, ids, o) && d == Appended(db, now, call, ids, o)
    requires i in db.incidents && Ended(db.incidents[i].state)
    ensures Untouched(db, d, i)
  {
    AppendedSlices(db, d, now, call, ids, o);
  }

  lemma BeatLeaves(env: Env, db: Db, now: Time, claim: Claim, i: Id)
    requires Coherent(env, db) && i in db.incidents && Ended(db.incidents[i].state)
    ensures Untouched(db, BeatDb(db, now, claim), i)
  {
    if Beats(db, now, claim) {
      EndedIdle(env, db, claim.job);
      BeatKeepsAll(env, db, now, claim);
    }
  }

  lemma RecoverLeaves(env: Env, db: Db, now: Time, batch: seq<Id>, i: Id)
    requires Coherent(env, db) && IsSweep(db, now, batch) && i in db.incidents && Ended(db.incidents[i].state)
    ensures Untouched(db, RecoverDb(db, now, batch), i)
  {
    forall j | j in batch ensures db.jobs[j].incident != i {
      EndedIdle(env, db, j);
    }
    RecoverFollows(env, db, now, batch, i);
  }

  lemma ClaimLeaves(env: Env, db: Db, now: Time, j: Id, token: Id, who: string, runId: Id, i: Id)
    requires Coherent(env, db) && IsNext(db, now, j) && i in db.incidents && Ended(db.incidents[i].state)
    ensures Untouched(db, ClaimDb(env, db, now, j, token, who, runId), i)
  {
    EndedIdle(env, db, j);
    ClaimMoves(env, db, now, j, token, who, runId);
  }

  lemma FinalizeLeaves(env: Env, db: Db, now: Time, claim: Claim, outcome: Outcome, version: int, i: Id)
    requires Coherent(env, db) && Genuine(db, claim) && i in db.incidents && Ended(db.incidents[i].state)
    ensures Untouched(db, FinalizeDb(db, now, claim, outcome, version), i)
  {
    if Finalizes(db, now, claim, version) {
      EndedIdle(env, db, claim.job);
      FinalizeMoves(env, db, now, claim, outcome, version);
    }
  }

  lemma MarkLeaves(env: Env, db: Db, claim: Claim, i: Id)
    requires Coherent(env, db) && Genuine(db, claim) && i in db.incidents && Ended(db.incidents[i].state)
    requires Marks(db, claim) ==> db.incidents[claim.incident].state == Patching
    ensures Untouched(db, MarkDb(db, claim), i)
  {
    if Marks(db, claim) {
      MarkMoves(env, db, claim);
    }
  }

  lemma ApproveLeaves(db: Db, now: Time, k: Id, key: Id, ids: ApproveIds, i: Id)
    requires JobsLinked(db) && AllSlices(db) && ApproveIdsNew(db, ids) && i in db.incidents && Ended(db.incidents[i].state)
    ensures Untouched(db, ApproveDb(db, now, k, key, ids), i)
  {
    var reply := Decide(db, k, key, ids);
    if reply.Approved? && !reply.duplicate {
      ApprovedSlices(db, ApproveDb(db, now, k, key, ids), now, k, key, ids);
    }
  }

  lemma SyncLeavesRows(env: Env, db: Db, now: Time, entries: seq<Entry>, i: Id)
    requires Coherent(env, db) && Ready(env, db, now, Sync(entries)) && i in db.incidents
    ensures Untouched(db, SyncDb(env, db, entries), i)
  {
    SyncCoherent(env, db, now, entries);
  }

  /** No transaction touches the rows of an ended incident. */
  lemma TxLeavesEnded(env: Env, db: Db, now: Time, tx: Tx, i: Id)
    requires Coherent(env, db) && Ready(env, db, now, tx) && MarksInTurn(db, tx) && i in db.incidents && Ended(db.incidents[i].state)
    ensures Untouched(db, Run(env, db, now, tx), i)
  {
    match tx
    case Sync(entries) => SyncLeavesRows(env, db, now, entries, i);
    case Ingest(call, ids) => IngestLeaves(env, db, now, call, ids, i);
    case Approve(k, key, ids) => ApproveLeaves(db, now, k, key, ids, i);
    case Recover(batch) => RecoverLeaves(env, db, now, batch, i);
    case Heartbeat(claim) => BeatLeaves(env, db, now, claim, i);
    case ClaimJob(j, token, who, runId) => ClaimLeaves(env, db, now, j, token, who, runId, i);
    case Mark(claim) => MarkLeaves(env, db, claim, i);
    case Finalize(claim, outcome, version) => FinalizeLeaves(env, db, now, claim, outcome, version, i);
  }

  lemma StepLeavesEnded(env: Env, s: Sys, now: Time, step: Step, i: Id)
    requires Good(env, s) && Enabled(env, s, now, step) && i in s.db.incidents && Ended(s.db.incidents[i].state)
    ensures Untouched(s.db, Next(env, s, now, step).db, i)
  {
    if TxOf(s, step).Some? {
      StepTxReady(env, s, now, step);
      TxLeavesEnded(env, s.db, now, TxOf(s, step).value, i);
    }
  }

  /** Final states absorb: no run changes any row of an ended incident, its occurrence count and its jobs included. */
  lemma {:induction false} EndsAbsorb(env: Env, s: Sys, run: seq<Event>, i: Id)
    requires Good(env, s) && Legal(env, s, run) && i in s.db.incidents && Ended(s.db.incidents[i].state)
    ensures i in End(env, s, run).db.incidents && SliceOf(End(env, s, run).db, i) == SliceOf(s.db, i)
    decreases |run|
  {
    if run != [] {
      var n := Next(env, s, run[0].now, run[0].step);
      StepLeavesEnded(env, s, run[0].now, run[0].step, i);
      NextKeeps(env, s, run[0].now, run[0].step);
      assert Untouched(s.db, n.db, i);
      EndsAbsorb(env, n, run[1..], i);
    }
  }

  /** A new incident enters the workflow in RECEIVED, at version 1, and only by an ingest. */
  lemma TxBirths(env: Env, db: Db, now: Time, tx: Tx, i: Id)
    requires Coherent(env, db) && Ready(env, db, now, tx) && MarksInTurn(db, tx)
    requires i !in db.incidents && i in Run(env, db, now, tx).incidents
    ensures tx.Ingest?
    ensures Run(env, db, now, tx).incidents[i].state == Received && Run(env, db, now, tx).incidents[i].version == 1
  {
    match tx
    case Sync(entries) => SyncCoherent(env, db, now, entries);
    case Ingest(call, ids) => IngestBirths(db, now, call, ids, i);
    case Approve(k, key, ids) => ApproveCoherent(env, db, now, k, key, ids);
    case Recover(batch) => SweptIncidents(env, db, now, batch);
    case Heartbeat(claim) => BeatIncidents(env, db, now, claim);
    case ClaimJob(j, token, who, runId) => ClaimMoves(env, db, now, j, token, who, runId);
    case Mark(claim) =>
      if Marks(db, claim) {
        MarkMoves(env, db, claim);
      }
    case Finalize(claim, outcome, version) =>
      if Finalizes(db, now, claim, version) {
        FinalizeMoves(env, db, now, claim, outcome, version);
      }
  }

  lemma IngestBirths(db: Db, now: Time, call: Intake, ids: IntakeIds, i: Id)
    requires i !in db.incidents && i in IngestDb(db, now, call, ids).incidents
    ensures IngestDb(db, now, call, ids).incidents[i].state == Received && IngestDb(db, now, call, ids).incidents[i].version == 1
  {
    IngestIncidents(db, IngestDb(db, now, call, ids), now, call, ids);
  }

  lemma IngestIncidents(db: Db, d: Db, now: Time, call: Intake, ids: IntakeIds)
    requires d == IngestDb(db, now, call, ids)
    ensures d.incidents.Keys == db.incidents.Keys || d.incidents == db.incidents[ids.incident := NewIncident(call, now, ids)]
  {
    var o := OpenIncident(db, call.service, call.fingerprint, call.sha);
    if o.Some? && d != db {
      assert d == Appended(db, now, call, ids, o.value);
    }
  }

  lemma BeatIncidents(env: Env, db: Db, now: Time, claim: Claim)
    requires Coherent(env, db)
    ensures BeatDb(db, now, claim).incidents.Keys == db.incidents.Keys
  {
    if Beats(db, now, claim) {
      BeatKeepsAll(env, db, now, claim);
    }
  }

  lemma {:induction false} SweptIncidents(env: Env, db: Db, now: Time, batch: seq<Id>)
    requires Coherent(env, db) && Distinct(batch)
    requires forall j | j in batch :: j in db.jobs && db.jobs[j].status == Running
    ensures RecoverDb(db, now, batch).incidents.Keys == db.incidents.Keys
  {
    if batch != [] {
      var done, last := batch[..|batch| - 1], batch[|batch| - 1];
      assert batch == done + [last] && last !in done;
      SweptIncidents(env, db, now, done);
      RecoverKeeps(env, db, now, done);
      RecoverOneMoves(env, RecoverDb(db, now, done), now, last);
    }
  }
}
