/**
 * The claim order as a scheduler: nothing overtakes a waiting job once its time has come.
 */
module Scheduler {
  import opened Base
  import opened Schema
  import opened Slices
  import opened Transactions
  import opened Coherence
  import opened JobSteps
  import opened Protocol
  import opened ProtocolSafety
  import opened Workflow
  import opened Fencing

  /** The PENDING jobs that `claim_job` would take before `j`. */
  function Ahead(db: Db, j: Id): set<Id>
    requires j in db.jobs
  {
    set k | k in db.jobs && k != j && db.jobs[k].status == Pending && Before(db, k, j)
  }

  ghost predicate Waiting(s: Sys, j: Id) {
    j in s.db.jobs && s.db.jobs[j].status == Pending && s.db.jobs[j].availableAt < s.clock
  }

  /** What one transaction after `j`'s time does to the queue in front of it. */
  lemma QueueShrinks(db: Db, d: Db, now: Time, tx: Tx, j: Id)
    requires JobsStep(db, d, now, tx) && j in db.jobs && db.jobs[j].status == Pending && db.jobs[j].availableAt < now
    requires tx.ClaimJob? ==> IsNext(db, now, tx.job) && tx.job != j && tx.job in d.jobs && d.jobs[tx.job].status == Running
    ensures j in d.jobs && d.jobs[j] == db.jobs[j]
    ensures Ahead(d, j) <= Ahead(db, j)
    ensures tx.ClaimJob? ==> tx.job in Ahead(db, j) && tx.job !in Ahead(d, j)
  {
    assert JobStep(db, now, tx, j, db.jobs[j], d.jobs[j]);
    assert d.jobs[j] == db.jobs[j];
    forall k | k in Ahead(d, j)
      ensures k in Ahead(db, j)
    {
      assert k in db.jobs;
      assert JobStep(db, now, tx, k, db.jobs[k], d.jobs[k]);
    }
  }

  lemma ClaimRuns(env: Env, db: Db, now: Time, j: Id, token: Id, who: string, runId: Id)
    requires Coherent(env, db) && j in db.jobs && db.jobs[j].status == Pending
    ensures var d := ClaimDb(env, db, now, j, token, who, runId); j in d.jobs && d.jobs[j].status == Running
  {
    CoherentJob(env, db, j);
    ClaimMoves(env, db, now, j, token, who, runId);
    ClaimedJob(SliceOf(db, db.jobs[j].incident), db.jobs[j].kind, now, token, who, FirstRun(env, db, db.jobs[j].incident, now, runId));
  }

  lemma ClaimedJob(s: Slice, kind: JobKind, now: Time, token: Id, who: string, first: Option<AnalysisRun>)
    requires JobOf(s, kind).Some? && ClaimSlice(s, kind, now, token, who, first).Some?
    ensures var t := ClaimSlice(s, kind, now, token, who, first).value;
            JobOf(t, kind).Some? && JobOf(t, kind).value.status == Running
  {}

  /** A claim of another job takes one that was ahead. */
  lemma ClaimQueue(env: Env, s: Sys, now: Time, step: Step, j: Id)
    requires Good(env, s) && Enabled(env, s, now, step) && Waiting(s, j) && step.Take? && step.job != j
    ensures Waiting(Next(env, s, now, step), j)
    ensures |Ahead(Next(env, s, now, step).db, j)| < |Ahead(s.db, j)|
  {
    var d := Next(env, s, now, step).db;
    StepJobs(env, s, now, step);
    ClaimRuns(env, s.db, now, step.job, step.token, step.who, step.runId);
    ClaimShrinks(s.db, d, now, TxOf(s, step).value, j);
  }

  lemma ClaimShrinks(db: Db, d: Db, now: Time, tx: Tx, j: Id)
    requires JobsStep(db, d, now, tx) && j in db.jobs && db.jobs[j].status == Pending && db.jobs[j].availableAt < now
    requires tx.ClaimJob? && IsNext(db, now, tx.job) && tx.job != j && tx.job in d.jobs && d.jobs[tx.job].status == Running
    ensures j in d.jobs && d.jobs[j] == db.jobs[j]
    ensures |Ahead(d, j)| < |Ahead(db, j)|
  {
    QueueShrinks(db, d, now, tx, j);
    SubsetSize(Ahead(d, j) + {tx.job}, Ahead(db, j));
  }

  /** Nothing else lets the queue grow. */
  lemma OtherQueue(env: Env, s: Sys, now: Time, step: Step, j: Id)
    requires Good(env, s) && Enabled(env, s, now, step) && Waiting(s, j) && !step.Take?
    ensures Waiting(Next(env, s, now, step), j)
    ensures |Ahead(Next(env, s, now, step).db, j)| <= |Ahead(s.db, j)|
  {
    if TxOf(s, step).Some? {
      StepJobs(env, s, now, step);
      QueueShrinks(s.db, Next(env, s, now, step).db, now, TxOf(s, step).value, j);
      SubsetSize(Ahead(Next(env, s, now, step).db, j), Ahead(s.db, j));
    }
  }

  lemma QueueStep(env: Env, s: Sys, now: Time, step: Step, j: Id)
    requires Good(env, s) && Enabled(env, s, now, step) && Waiting(s, j) && !(step.Take? && step.job == j)
    ensures Waiting(Next(env, s, now, step), j)
    ensures |Ahead(Next(env, s, now, step).db, j)| + (if step.Take? then 1 else 0) <= |Ahead(s.db, j)|
  {
    if step.Take? {
      ClaimQueue(env, s, now, step, j);
    } else {
      OtherQueue(env, s, now, step, j);
    }
  }

  function ClaimCount(run: seq<Event>): nat {
    if run == [] then 0 else (if run[0].step.Take? then 1 else 0) + ClaimCount(run[1..])
  }

  ghost predicate Claimed(run: seq<Event>, j: Id) {
    exists n :: 0 <= n < |run| && run[n].step.Take? && run[n].step.job == j
  }

  /** Among any |Ahead| + 1 successful claims one takes `j`, whatever is inserted or requeued meanwhile. */
  lemma {:induction false} NoOvertaking(env: Env, s: Sys, run: seq<Event>, j: Id)
    requires Good(env, s) && Legal(env, s, run) && Waiting(s, j)
    requires ClaimCount(run) > |Ahead(s.db, j)|
    ensures Claimed(run, j)
    decreases |run|
  {
    var step := run[0].step;
    if step.Take? && step.job == j {
      assert run[0].step.job == j;
    } else {
      QueueStep(env, s, run[0].now, step, j);
      NextKeeps(env, s, run[0].now, step);
      NoOvertaking(env, Next(env, s, run[0].now, step), run[1..], j);
      var n :| 0 <= n < |run[1..]| && run[1..][n].step.Take? && run[1..][n].step.job == j;
      assert run[n + 1].step.job == j;
    }
  }

  /** A waiting job is taken within 100 successful claims. */
  lemma NoStarvation(env: Env, s: Sys, run: seq<Event>, j: Id)
    requires Good(env, s) && Legal(env, s, run) && Waiting(s, j)
    requires ClaimCount(run) >= JOB_LIMIT
    ensures Claimed(run, j)
  {
    assert Ahead(s.db, j) + {j} <= ActiveJobs(s.db);
    SubsetSize(Ahead(s.db, j) + {j}, ActiveJobs(s.db));
    NoOvertaking(env, s, run, j);
  }

  /** A PENDING job always has an attempt left, although `claim_job` never looks. */
  lemma PendingHasAttempt(env: Env, s: Sys, j: Id)
    requires Good(env, s) && j in s.db.jobs && s.db.jobs[j].status == Pending
    ensures s.db.jobs[j].attempt < s.db.jobs[j].maxAttempts
  {
    CoherentJob(env, s.db, j);
    JobShaped(SliceOf(s.db, s.db.jobs[j].incident), s.db.jobs[j].kind);
  }
}
