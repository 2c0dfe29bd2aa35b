/**
 * `aeh/job_repository.py` keeps the invariant: each of its transactions either changes nothing or
 * advances exactly one incident, and none of its RuntimeError branches can be reached.
 */
module JobSteps {
  import opened Base
  import opened Schema
  import opened Slices
  import opened Transactions
  import opened Coherence

  /** Incident `i` took one step of its workflow and nothing else changed. */
  ghost predicate Moved(db: Db, d: Db, i: Id) {
    && i in db.incidents && d.incidents.Keys == db.incidents.Keys
    && SliceOf(db, i).analyze.Some? && SliceOf(d, i).analyze.Some?
    && Advances(SliceOf(db, i), SliceOf(d, i))
    && OthersKept(db, d, i)
  }

  ghost predicate OthersKept(db: Db, d: Db, i: Id)
    requires d.incidents.Keys == db.incidents.Keys
  {
    forall k {:trigger SliceOf(d, k)} | k in db.incidents && k != i :: SliceOf(d, k) == SliceOf(db, k)
  }

  lemma Stored(env: Env, db: Db, d: Db, i: Id, j: Id, t: Slice)
    requires Coherent(env, db) && Rewriting(db, i, j, t) && SliceOk(t) && d == Store(db, i, j, t)
    ensures Coherent(env, d) && d.incidents.Keys == db.incidents.Keys && SliceOf(d, i) == t && OthersKept(db, d, i)
  {
    StoreCoherent(env, db, i, j, t);
    StoredRows(db, d, i, j, t);
  }

  lemma StoredRows(db: Db, d: Db, i: Id, j: Id, t: Slice)
    requires JobsLinked(db) && RunsLinked(db) && Rewriting(db, i, j, t) && d == Store(db, i, j, t)
    ensures d.incidents.Keys == db.incidents.Keys && SliceOf(d, i) == t && OthersKept(db, d, i)
  {
    StoreSlices(db, i, j, t);
  }

  lemma Lift(env: Env, db: Db, d: Db, i: Id, j: Id, t: Slice)
    requires Coherent(env, db) && Rewriting(db, i, j, t) && SliceOk(t)
    requires SliceOf(db, i).analyze.Some? && Advances(SliceOf(db, i), t)
    requires d == Store(db, i, j, t)
    ensures Coherent(env, d) && Moved(db, d, i)
  {
    Stored(env, db, d, i, j, t);
  }

  lemma CoherentJob(env: Env, db: Db, j: Id)
    requires Coherent(env, db) && j in db.jobs
    ensures HasJob(db, j) && SliceOk(SliceOf(db, db.jobs[j].incident))
  {
    LinkedJob(db, j);
  }

  lemma FirstRunFits(env: Env, db: Db, i: Id, now: Time, runId: Id)
    requires ServicesLinked(db) && i in db.incidents
    ensures FirstRun(env, db, i, now, runId).Some?
    ensures FirstFits(SliceOf(db, i), FirstRun(env, db, i, now, runId).value)
  {}

  // ---- claim_job ----

  /** Claiming never hits "missing service" or "no approved patch run" and advances the job's incident. */
  lemma ClaimMoves(env: Env, db: Db, now: Time, j: Id, token: Id, who: string, runId: Id)
    requires Coherent(env, db) && j in db.jobs && db.jobs[j].status == Pending
    ensures HasJob(db, j) && ClaimEffect(env, db, now, j, token, who, runId).Some?
    ensures var d := ClaimDb(env, db, now, j, token, who, runId);
            Coherent(env, d) && Moved(db, d, db.jobs[j].incident)
  {
    CoherentJob(env, db, j);
    var i, kind := db.jobs[j].incident, db.jobs[j].kind;
    var s, first := SliceOf(db, i), FirstRun(env, db, i, now, runId);
    FirstRunFits(env, db, i, now, runId);
    ClaimAdvances(s, kind, now, token, who, first);
    Lift(env, db, ClaimDb(env, db, now, j, token, who, runId), i, j, ClaimSlice(s, kind, now, token, who, first).value);
  }

  // ---- heartbeat ----

  lemma BeatKeepsAll(env: Env, db: Db, now: Time, claim: Claim)
    requires Coherent(env, db) && Beats(db, now, claim)
    ensures var d, i := BeatDb(db, now, claim), db.jobs[claim.job].incident;
            && Coherent(env, d) && d.incidents.Keys == db.incidents.Keys && OthersKept(db, d, i)
            && SliceOf(d, i) == BeatSlice(SliceOf(db, i), db.jobs[claim.job].kind, now)
  {
    CoherentJob(env, db, claim.job);
    var i, kind := db.jobs[claim.job].incident, db.jobs[claim.job].kind;
    BeatKeeps(SliceOf(db, i), kind, now);
    Stored(env, db, BeatDb(db, now, claim), i, claim.job, BeatSlice(SliceOf(db, i), kind, now));
  }

  // ---- recover_expired ----

  /** Recovering one expired job never hits "missing run" and advances its incident. */
  lemma RecoverOneMoves(env: Env, db: Db, now: Time, j: Id)
    requires Coherent(env, db) && j in db.jobs && db.jobs[j].status == Running
    ensures HasJob(db, j) && RecoverSlice(SliceOf(db, db.jobs[j].incident), db.jobs[j].kind, now).Some?
    ensures var d := RecoverOne(db, now, j);
            && Coherent(env, d) && Moved(db, d, db.jobs[j].incident)
  {
    CoherentJob(env, db, j);
    var i, kind := db.jobs[j].incident, db.jobs[j].kind;
    RecoverAdvances(SliceOf(db, i), kind, now);
    Lift(env, db, RecoverOne(db, now, j), i, j, RecoverSlice(SliceOf(db, i), kind, now).value);
  }

  ghost predicate OnlyJob(db: Db, d: Db, j: Id) {
    && d.jobs.Keys == db.jobs.Keys && j in d.jobs && d.jobs[j].status != Running
    && forall k | k in db.jobs && k != j :: d.jobs[k] == db.jobs[k]
  }

  lemma RecoverStops(s: Slice, kind: JobKind, now: Time)
    requires JobOf(s, kind).Some? && RecoverSlice(s, kind, now).Some?
    ensures JobOf(RecoverSlice(s, kind, now).value, kind).value.status != Running
  {}

  lemma RecoverOneFrame(db: Db, now: Time, j: Id)
    requires HasJob(db, j) && RecoverSlice(SliceOf(db, db.jobs[j].incident), db.jobs[j].kind, now).Some?
    ensures OnlyJob(db, RecoverOne(db, now, j), j)
  {
    RecoverStops(SliceOf(db, db.jobs[j].incident), db.jobs[j].kind, now);
  }

  /** The jobs of the batch are no longer RUNNING, every other job is as it was. */
  ghost predicate Swept(db: Db, d: Db, batch: seq<Id>) {
    && d.jobs.Keys == db.jobs.Keys
    && forall j | j in db.jobs :: if j in batch then d.jobs[j].status != Running else d.jobs[j] == db.jobs[j]
  }

  lemma SweptMore(db: Db, m: Db, d: Db, done: seq<Id>, j: Id)
    requires Swept(db, m, done) && OnlyJob(m, d, j)
    ensures Swept(db, d, done + [j])
  {}

  /** The sweep keeps the invariant at every iteration; what it has not reached yet is untouched. */
  lemma {:induction false} RecoverKeeps(env: Env, db: Db, now: Time, batch: seq<Id>)
    requires Coherent(env, db) && Distinct(batch)
    requires forall j | j in batch :: j in db.jobs && db.jobs[j].status == Running
    ensures Coherent(env, RecoverDb(db, now, batch)) && Swept(db, RecoverDb(db, now, batch), batch)
  {
    if batch != [] {
      var n := |batch| - 1;
      var done, last := batch[..n], batch[n];
      assert batch == done + [last] && last !in done;
      RecoverKeeps(env, db, now, done);
      var m := RecoverDb(db, now, done);
      assert m.jobs[last] == db.jobs[last];
      RecoverOneMoves(env, m, now, last);
      RecoverOneFrame(m, now, last);
      SweptMore(db, m, RecoverOne(m, now, last), done, last);
    }
  }

  /** A sweep leaves exactly the expired leases it skipped, and every other job as it was. */
  lemma SweepLeavesSkipped(env: Env, db: Db, now: Time, batch: seq<Id>)
    requires Coherent(env, db) && IsSweep(db, now, batch)
    ensures var d := RecoverDb(db, now, batch);
            && Coherent(env, d)
            && ExpiredJobs(d, now) == ExpiredJobs(db, now) - Elements(batch)
            && (forall j | j in db.jobs && j !in batch :: j in d.jobs && d.jobs[j] == db.jobs[j])
  {
    RecoverKeeps(env, db, now, batch);
  }

  /**
   * With at most 100 active jobs the LIMIT never cuts a sweep short: after it no RUNNING job
   * has an expired lease, and every job it did not take is as it was.
   */
  lemma SweepIsComplete(env: Env, db: Db, now: Time, batch: seq<Id>)
    requires Coherent(env, db) && IsBatch(db, now, batch)
    ensures var d := RecoverDb(db, now, batch);
            && Coherent(env, d)
            && ExpiredJobs(d, now) == {}
            && (forall j | j in db.jobs && !Expired(db.jobs[j], now) :: j in d.jobs && d.jobs[j] == db.jobs[j])
    ensures forall j :: j in batch <==> j in ExpiredJobs(db, now)
  {
    SweepLeavesSkipped(env, db, now, batch);
    BatchIsAll(db, now, batch);
  }

  lemma BatchIsAll(db: Db, now: Time, batch: seq<Id>)
    requires Bounded(db) && IsBatch(db, now, batch)
    ensures forall j | j in ExpiredJobs(db, now) :: j in batch
  {
    if |batch| == RECOVERY_BATCH {
      var taken := Elements(batch);
      DistinctSize(batch);
      assert ExpiredJobs(db, now) <= ActiveJobs(db);
      forall j | j in ExpiredJobs(db, now)
        ensures j in batch
      {
        if j !in taken {
          SubsetSize(taken + {j}, ActiveJobs(db));
        }
      }
    }
  }

  function Elements(s: seq<Id>): set<Id> {
    set j | j in s
  }

  lemma {:induction false} DistinctSize(s: seq<Id>)
    requires Distinct(s)
    ensures |Elements(s)| == |s|
  {
    if s != [] {
      var rest, last := s[..|s| - 1], s[|s| - 1];
      DistinctSize(rest);
      assert s == rest + [last] && last !in rest;
      assert Elements(s) == Elements(rest) + {last};
    }
  }

  // ---- mark_validating ----

  /**
   * Only a patch claim can mark. When the incident is PATCHING the mark advances it; this holds
   * for every claim a worker was given (see `Protocol`).
   */
  lemma MarkMoves(env: Env, db: Db, claim: Claim)
    requires Coherent(env, db) && Genuine(db, claim) && Marks(db, claim)
    requires db.incidents[claim.incident].state == Patching
    ensures var d := MarkDb(db, claim);
            Coherent(env, d) && Moved(db, d, claim.incident)
  {
    CoherentJob(env, db, claim.job);
    var s := SliceOf(db, claim.incident);
    MarkAdvances(s);
    Lift(env, db, MarkDb(db, claim), claim.incident, claim.job, MarkSlice(s).value);
  }

  // ---- finalize ----

  /** Finalizing never hits "run is missing" and advances the claim's incident. */
  lemma FinalizeMoves(env: Env, db: Db, now: Time, claim: Claim, outcome: Outcome, version: int)
    requires Coherent(env, db) && Genuine(db, claim) && Finalizes(db, now, claim, version)
    ensures FinalizeSlice(SliceOf(db, claim.incident), claim.kind, now, outcome).Some?
    ensures var d := FinalizeDb(db, now, claim, outcome, version);
            Coherent(env, d) && Moved(db, d, claim.incident)
  {
    CoherentJob(env, db, claim.job);
    var s := SliceOf(db, claim.incident);
    FinalizeAdvances(s, claim.kind, now, outcome);
    Lift(env, db, FinalizeDb(db, now, claim, outcome, version), claim.incident, claim.job, FinalizeSlice(s, claim.kind, now, outcome).value);
  }
}
