/**
 * The cross-table invariant and its preservation by every transaction.
 */
module Coherence {
  import opened Base
  import opened Schema
  import opened Slices
  import opened Transactions

  // ---- references and unique indexes ----

  ghost predicate JobsLinked(db: Db) {
    && (forall k | k in db.jobIndex :: db.jobIndex[k] in db.jobs && db.jobs[db.jobIndex[k]].key == k)
    && (forall j | j in db.jobs :: db.jobs[j].key in db.jobIndex && db.jobIndex[db.jobs[j].key] == j)
    && (forall j {:trigger JobNamed(db, db.jobs[j])} | j in db.jobs :: JobNamed(db, db.jobs[j]))
  }

  ghost predicate JobNamed(db: Db, job: Job) {
    && job.incident in db.incidents
    && match job.kind
       case Analyze => job.key == AnalyzeKey(job.incident)
       case Patch => job.incident in db.approvals && job.key == PatchKey(db.approvals[job.incident].id)
  }

  ghost predicate RunsLinked(db: Db) {
    && db.runs.Keys <= db.incidents.Keys
    && db.approvals.Keys <= db.incidents.Keys
    && db.patchRuns.Keys <= db.incidents.Keys
    && (forall i, k | i in db.approvals && k in db.approvals && db.approvals[i].id == db.approvals[k].id :: i == k)
    && (forall i, k | i in db.patchRuns && k in db.patchRuns && db.patchRuns[i].id == db.patchRuns[k].id :: i == k)
  }

  ghost predicate KeysLinked(db: Db) {
    && (forall k | k in db.keyIndex :: db.keyIndex[k] in db.approvals && db.approvals[db.keyIndex[k]].key == k)
    && (forall i | i in db.approvals :: db.approvals[i].key in db.keyIndex && db.keyIndex[db.approvals[i].key] == i)
  }

  ghost predicate ServicesLinked(db: Db) {
    && (forall k | k in db.serviceIndex :: db.serviceIndex[k] in db.services && db.services[db.serviceIndex[k]].key == k)
    && (forall v | v in db.services :: db.services[v].key in db.serviceIndex && db.serviceIndex[db.services[v].key] == v)
    && (forall i | i in db.incidents :: db.incidents[i].service in db.services)
  }

  ghost predicate Linked(db: Db) {
    JobsLinked(db) && RunsLinked(db) && KeysLinked(db) && ServicesLinked(db)
  }

  ghost predicate AllSlices(db: Db) {
    forall i {:trigger SliceOf(db, i)} | i in db.incidents :: SliceOk(SliceOf(db, i))
  }

  // ---- events, occurrences and grouping ----

  /** The occurrence rows of one incident. */
  function OccurrencesOf(db: Db, i: Id): set<Id> {
    set o | o in db.occurrences && db.occurrences[o].incident == i
  }

  /** Each event has exactly one occurrence, on an incident of its service and fingerprint. */
  ghost predicate EventsLinked(db: Db) {
    && (forall e, f | e in db.events && f in db.events && db.events[e].id == db.events[f].id :: e == f)
    && (forall o | o in db.occurrences :: exists e :: e in db.events && db.events[e].id == o)
    && (forall e {:trigger EventPlaced(db, e)} | e in db.events :: EventPlaced(db, e))
  }

  ghost predicate EventPlaced(db: Db, e: EventKey)
    requires e in db.events
  {
    var row := db.events[e].id;
    && row in db.occurrences && db.occurrences[row].incident in db.incidents
    && var inc := db.incidents[db.occurrences[row].incident];
       inc.service == e.service && inc.fingerprint == db.events[e].fingerprint
  }

  ghost predicate Counted(db: Db) {
    forall i {:trigger OccurrencesOf(db, i)} | i in db.incidents ::
      && db.incidents[i].count == |OccurrencesOf(db, i)|
      && db.incidents[i].firstEvent in OccurrencesOf(db, i)
  }

  /** At most one open incident per service, fingerprint and commit. */
  ghost predicate OneOpen(db: Db) {
    forall i, k, service, fingerprint, sha ::
      Groups(db, i, service, fingerprint, sha) && Groups(db, k, service, fingerprint, sha) ==> i == k
  }

  ghost predicate Grouped(db: Db) {
    EventsLinked(db) && Counted(db) && OneOpen(db)
  }

  // ---- repositories ----

  /** An incident's commit belongs to its snapshot path; while it is open, that is its service's repository. */
  ghost predicate Located(env: Env, db: Db) {
    && (forall v | v in db.services :: env.resolve(db.services[v].path).Some?)
    && (forall i {:trigger IncidentLocated(env, db, db.incidents[i])} | i in db.incidents :: IncidentLocated(env, db, db.incidents[i]))
  }

  ghost predicate IncidentLocated(env: Env, db: Db, inc: Incident) {
    && env.resolve(inc.path).Some?
    && env.isCommit(env.resolve(inc.path).value, inc.sha)
    && (Open(inc.state) && inc.service in db.services ==> env.resolve(db.services[inc.service].path) == env.resolve(inc.path))
  }

  ghost predicate Bounded(db: Db) {
    |ActiveJobs(db)| <= JOB_LIMIT
  }

  /** The invariant of every reachable database. */
  ghost predicate Coherent(env: Env, db: Db) {
    Linked(db) && AllSlices(db) && Grouped(db) && Located(env, db) && Bounded(db)
  }

  // ---- transactions that rewrite the rows of one incident ----

  ghost predicate Rewriting(db: Db, i: Id, j: Id, t: Slice) {
    && HasJob(db, j) && db.jobs[j].incident == i
    && Rewrites(SliceOf(db, i), t, db.jobs[j].kind)
  }

  lemma LinkedJob(db: Db, j: Id)
    requires JobsLinked(db) && j in db.jobs
    ensures HasJob(db, j)
  {
    assert JobNamed(db, db.jobs[j]);
  }

  /** No other incident reaches job `j`. */
  lemma JobIsOurs(db: Db, i: Id, j: Id, k: Id)
    requires JobsLinked(db) && RunsLinked(db) && j in db.jobs && db.jobs[j].incident == i
    requires k in db.incidents && k != i
    ensures AnalyzeKey(k) in db.jobIndex ==> db.jobIndex[AnalyzeKey(k)] != j
    ensures k in db.approvals && PatchKey(db.approvals[k].id) in db.jobIndex ==> db.jobIndex[PatchKey(db.approvals[k].id)] != j
  {
    assert JobNamed(db, db.jobs[j]);
  }

  lemma StoreSlices(db: Db, i: Id, j: Id, t: Slice)
    requires JobsLinked(db) && RunsLinked(db) && Rewriting(db, i, j, t)
    ensures SliceOf(Store(db, i, j, t), i) == t
    ensures forall k | k in db.incidents && k != i :: SliceOf(Store(db, i, j, t), k) == SliceOf(db, k)
  {
    var d := Store(db, i, j, t);
    forall k | k in db.incidents && k != i
      ensures SliceOf(d, k) == SliceOf(db, k)
    {
      JobIsOurs(db, i, j, k);
    }
    assert JobNamed(db, db.jobs[j]);
  }

  lemma StoreJobsLinked(db: Db, i: Id, j: Id, t: Slice)
    requires JobsLinked(db) && Rewriting(db, i, j, t)
    ensures JobsLinked(Store(db, i, j, t))
  {
    var d := Store(db, i, j, t);
    assert SameJob(db.jobs[j], d.jobs[j]);
    forall k | k in d.jobs
      ensures JobNamed(d, d.jobs[k])
    {
      assert JobNamed(db, db.jobs[k]);
    }
  }

  lemma StoreRunsLinked(db: Db, i: Id, j: Id, t: Slice)
    requires RunsLinked(db) && Rewriting(db, i, j, t)
    ensures RunsLinked(Store(db, i, j, t))
  {}

  lemma StoreLinked(db: Db, i: Id, j: Id, t: Slice)
    requires Linked(db) && Rewriting(db, i, j, t)
    ensures Linked(Store(db, i, j, t))
  {
    StoreJobsLinked(db, i, j, t);
    StoreRunsLinked(db, i, j, t);
  }

  lemma StoreAllSlices(db: Db, i: Id, j: Id, t: Slice)
    requires JobsLinked(db) && RunsLinked(db) && AllSlices(db) && Rewriting(db, i, j, t) && SliceOk(t)
    ensures AllSlices(Store(db, i, j, t))
  {
    StoreSlices(db, i, j, t);
    var d := Store(db, i, j, t);
    forall k | k in d.incidents
      ensures SliceOk(SliceOf(d, k))
    {
      if k != i {
        assert SliceOk(SliceOf(db, k));
      }
    }
  }

  lemma StoreEvents(db: Db, i: Id, j: Id, t: Slice)
    requires EventsLinked(db) && Rewriting(db, i, j, t)
    ensures EventsLinked(Store(db, i, j, t))
  {
    var d := Store(db, i, j, t);
    forall e | e in d.events
      ensures EventPlaced(d, e)
    {
      assert EventPlaced(db, e);
    }
  }

  lemma StoreCounted(db: Db, i: Id, j: Id, t: Slice)
    requires Counted(db) && Rewriting(db, i, j, t)
    ensures Counted(Store(db, i, j, t))
  {
    var d := Store(db, i, j, t);
    forall k | k in d.incidents
      ensures OccurrencesOf(d, k) == OccurrencesOf(db, k)
    {}
  }

  lemma StoreOneOpen(db: Db, i: Id, j: Id, t: Slice)
    requires OneOpen(db) && Rewriting(db, i, j, t)
    ensures OneOpen(Store(db, i, j, t))
  {
    var d := Store(db, i, j, t);
    forall a, b, service, fingerprint, sha | Groups(d, a, service, fingerprint, sha) && Groups(d, b, service, fingerprint, sha)
      ensures a == b
    {
      assert Groups(db, a, service, fingerprint, sha) && Groups(db, b, service, fingerprint, sha);
    }
  }

  lemma StoreBounded(db: Db, i: Id, j: Id, t: Slice)
    requires Rewriting(db, i, j, t)
    ensures ActiveJobs(Store(db, i, j, t)) <= ActiveJobs(db)
    ensures |ActiveJobs(Store(db, i, j, t))| <= |ActiveJobs(db)|
  {
    var d := Store(db, i, j, t);
    assert SameJob(db.jobs[j], d.jobs[j]);
    SubsetSize(ActiveJobs(d), ActiveJobs(db));
  }

  lemma SubsetSize(a: set<Id>, b: set<Id>)
    requires a <= b
    ensures |a| <= |b|
  {
    assert b == (b - a) + a;
  }

  lemma StoreLocated(env: Env, db: Db, i: Id, j: Id, t: Slice)
    requires Located(env, db) && Rewriting(db, i, j, t)
    ensures Located(env, Store(db, i, j, t))
  {
    var d := Store(db, i, j, t);
    forall k | k in d.incidents
      ensures IncidentLocated(env, d, d.incidents[k])
    {
      assert IncidentLocated(env, db, db.incidents[k]);
    }
  }

  lemma StoreCoherent(env: Env, db: Db, i: Id, j: Id, t: Slice)
    requires Coherent(env, db) && Rewriting(db, i, j, t) && SliceOk(t)
    ensures Coherent(env, Store(db, i, j, t))
  {
    StoreLinked(db, i, j, t);
    StoreAllSlices(db, i, j, t);
    StoreEvents(db, i, j, t);
    StoreCounted(db, i, j, t);
    StoreOneOpen(db, i, j, t);
    StoreBounded(db, i, j, t);
    StoreLocated(env, db, i, j, t);
  }
}
