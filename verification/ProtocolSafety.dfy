/**
 * Every step of the machine keeps its invariant, so every reachable state satisfies it.
 */
module ProtocolSafety {
  import opened Base
  import opened Schema
  import opened Slices
  import opened Transactions
  import opened Coherence
  import opened JobSteps
  import opened IntakeSteps
  import opened Evidence
  import opened Protocol

  // ---- what any change around incident `i` leaves to the workers ----

  /** Old incidents other than `i` and the identity of old jobs are as before. */
  ghost predicate Around(db: Db, d: Db, i: Id) {
    && db.incidents.Keys <= d.incidents.Keys
    && (forall k {:trigger SliceOf(d, k)} | k in db.incidents && k != i :: SliceOf(d, k) == SliceOf(db, k))
    && (forall j | j in db.jobs :: j in d.jobs && d.jobs[j].incident == db.jobs[j].incident && d.jobs[j].kind == db.jobs[j].kind)
  }

  ghost predicate Watching(db: Db, d: Db, i: Id, w: Worker) {
    i in db.incidents && i in d.incidents && JobOf(SliceOf(db, i), w.claim.kind).Some? && LooksOn(SliceOf(db, i), SliceOf(d, i), w)
  }

  /** Every worker but the actor survives the change. */
  lemma WorkersKept(env: Env, db: Db, d: Db, workers: map<Id, Worker>, i: Id, actor: Option<Id>)
    requires WorkersOk(env, db, workers) && Around(db, d, i)
    requires forall k | k in workers && Some(k) != actor && workers[k].claim.incident == i :: Watching(db, d, i, workers[k])
    ensures forall k {:trigger WorkerOk(env, d, k, workers[k])} | k in workers && Some(k) != actor :: WorkerOk(env, d, k, workers[k])
  {
    forall k | k in workers && Some(k) != actor
      ensures WorkerOk(env, d, k, workers[k])
    {
      var w := workers[k];
      assert WorkerOk(env, db, k, w);
      if w.claim.incident == i {
        assert Watching(db, d, i, w);
        LooksOnFits(SliceOf(db, i), SliceOf(d, i), w);
      } else {
        assert SliceOf(d, w.claim.incident) == SliceOf(db, w.claim.incident);
      }
    }
  }

  lemma TokensKept(db: Db, d: Db, workers: map<Id, Worker>)
    requires TokensOk(db, workers)
    requires forall j | j in d.jobs && d.jobs[j].token.Some? :: j in db.jobs && d.jobs[j].token == db.jobs[j].token
    ensures TokensOk(d, workers)
  {}

  lemma ProvenKept(env: Env, db: Db, d: Db, i: Id)
    requires ProvenOk(env, db) && d.incidents.Keys <= db.incidents.Keys + {i} && Around(db, d, i)
    requires i in d.incidents ==> Proven(env, SliceOf(d, i))
    ensures ProvenOk(env, d)
  {
    forall k | k in d.incidents
      ensures Proven(env, SliceOf(d, k))
    {
      if k != i {
        assert SliceOf(d, k) == SliceOf(db, k);
      }
    }
  }

  lemma StoreAround(db: Db, d: Db, i: Id, j: Id, t: Slice)
    requires JobsLinked(db) && RunsLinked(db) && Rewriting(db, i, j, t) && d == Store(db, i, j, t)
    ensures Around(db, d, i) && SliceOf(d, i) == t && d.incidents.Keys == db.incidents.Keys
  {
    StoreSlices(db, i, j, t);
  }

  /** The other workers of the incident look on. */
  ghost predicate Spectators(s: Slice, t: Slice, i: Id, workers: map<Id, Worker>, actor: Option<Id>) {
    forall k {:trigger workers[k]} | k in workers && Some(k) != actor && workers[k].claim.incident == i ::
      JobOf(s, workers[k].claim.kind).Some? && LooksOn(s, t, workers[k])
  }

  ghost predicate OthersOk(env: Env, d: Db, workers: map<Id, Worker>, actor: Option<Id>) {
    forall k {:trigger WorkerOk(env, d, k, workers[k])} | k in workers && Some(k) != actor :: WorkerOk(env, d, k, workers[k])
  }

  lemma StoreOthers(env: Env, db: Db, d: Db, i: Id, j: Id, t: Slice, workers: map<Id, Worker>, actor: Option<Id>)
    requires JobsLinked(db) && RunsLinked(db) && WorkersOk(env, db, workers) && ProvenOk(env, db)
    requires Rewriting(db, i, j, t) && d == Store(db, i, j, t)
    requires Spectators(SliceOf(db, i), t, i, workers, actor) && Proven(env, t)
    ensures OthersOk(env, d, workers, actor) && ProvenOk(env, d)
  {
    StoreAround(db, d, i, j, t);
    forall h | h in workers && Some(h) != actor && workers[h].claim.incident == i
      ensures Watching(db, d, i, workers[h])
    {
      assert JobOf(SliceOf(db, i), workers[h].claim.kind).Some?;
    }
    WorkersKept(env, db, d, workers, i, actor);
    ProvenKept(env, db, d, i);
  }

  lemma StoreTokens(db: Db, d: Db, i: Id, j: Id, t: Slice, workers: map<Id, Worker>)
    requires TokensOk(db, workers) && Rewriting(db, i, j, t) && d == Store(db, i, j, t)
    requires JobOf(t, db.jobs[j].kind).Some?
    requires JobOf(t, db.jobs[j].kind).value.token.Some? ==> JobOf(t, db.jobs[j].kind).value.token == db.jobs[j].token
    ensures TokensOk(d, workers)
  {
    TokensKept(db, d, workers);
  }

  // ---- claim_job ----

  lemma ClaimStore(env: Env, db: Db, now: Time, j: Id, k: Id, who: string, runId: Id) returns (t: Slice)
    requires Coherent(env, db) && j in db.jobs && db.jobs[j].status == Pending
    ensures HasJob(db, j) && Rewriting(db, db.jobs[j].incident, j, t)
    ensures ClaimSlice(SliceOf(db, db.jobs[j].incident), db.jobs[j].kind, now, k, who, FirstRun(env, db, db.jobs[j].incident, now, runId)) == Some(t)
    ensures ClaimDb(env, db, now, j, k, who, runId) == Store(db, db.jobs[j].incident, j, t)
    ensures SliceOk(SliceOf(db, db.jobs[j].incident)) && SliceOk(t)
  {
    CoherentJob(env, db, j);
    var i, kind := db.jobs[j].incident, db.jobs[j].kind;
    FirstRunFits(env, db, i, now, runId);
    ClaimAdvances(SliceOf(db, i), kind, now, k, who, FirstRun(env, db, i, now, runId));
    t := ClaimSlice(SliceOf(db, i), kind, now, k, who, FirstRun(env, db, i, now, runId)).value;
  }

  /** A fresh claim stands exactly at its incident's version. */
  lemma ClaimerFits(s: Slice, t: Slice, kind: JobKind, now: Time, k: Id, who: string, first: Option<AnalysisRun>, w: Worker)
    requires SliceOk(s) && SliceOk(t) && JobOf(s, kind).Some? && JobOf(s, kind).value.status == Pending
    requires ClaimSlice(s, kind, now, k, who, first) == Some(t)
    requires w.claim.kind == kind && w.claim.token == k && w.inputs.None? && w.phase == Unsent
    requires JobOf(t, kind).Some? && w.claim.attempt == JobOf(t, kind).value.attempt && w.claim.version == t.incident.version
    ensures Fits(t, w)
  {}

  lemma ClaimProven(env: Env, s: Slice, t: Slice, kind: JobKind, now: Time, k: Id, who: string, first: Option<AnalysisRun>)
    requires SliceOk(s) && SliceOk(t) && Proven(env, s) && JobOf(s, kind).Some? && JobOf(s, kind).value.status == Pending
    requires ClaimSlice(s, kind, now, k, who, first) == Some(t)
    ensures Proven(env, t)
  {}

  lemma ClaimSpectators(env: Env, db: Db, i: Id, t: Slice, kind: JobKind, now: Time, k: Id, who: string, first: Option<AnalysisRun>, workers: map<Id, Worker>)
    requires WorkersOk(env, db, workers) && k !in workers && i in db.incidents
    requires SliceOk(SliceOf(db, i)) && JobOf(SliceOf(db, i), kind).Some? && JobOf(SliceOf(db, i), kind).value.status == Pending
    requires ClaimSlice(SliceOf(db, i), kind, now, k, who, first) == Some(t)
    ensures Spectators(SliceOf(db, i), t, i, workers, None)
  {
    forall h | h in workers && workers[h].claim.incident == i
      ensures JobOf(SliceOf(db, i), workers[h].claim.kind).Some? && LooksOn(SliceOf(db, i), t, workers[h])
    {
      assert WorkerOk(env, db, h, workers[h]);
      ClaimLooksOn(SliceOf(db, i), kind, now, k, who, first, workers[h]);
    }
  }

  lemma ClaimOthers(env: Env, db: Db, now: Time, j: Id, k: Id, who: string, runId: Id, workers: map<Id, Worker>)
    requires Inv(env, db, workers) && k !in workers && j in db.jobs && db.jobs[j].status == Pending
    ensures var d := ClaimDb(env, db, now, j, k, who, runId);
            OthersOk(env, d, workers, None) && ProvenOk(env, d)
  {
    var t := ClaimStore(env, db, now, j, k, who, runId);
    var i, kind := db.jobs[j].incident, db.jobs[j].kind;
    var first := FirstRun(env, db, i, now, runId);
    ClaimSpectators(env, db, i, t, kind, now, k, who, first, workers);
    assert Proven(env, SliceOf(db, i));
    ClaimProven(env, SliceOf(db, i), t, kind, now, k, who, first);
    StoreOthers(env, db, ClaimDb(env, db, now, j, k, who, runId), i, j, t, workers, None);
  }

  lemma ClaimActor(env: Env, db: Db, now: Time, j: Id, k: Id, who: string, runId: Id)
    requires Coherent(env, db) && j in db.jobs && db.jobs[j].status == Pending
    ensures var d := ClaimDb(env, db, now, j, k, who, runId);
            && j in d.jobs && d.jobs[j].incident in d.incidents
            && WorkerOk(env, d, k, NewWorker(ClaimOf(d, j, k)))
  {
    var t := ClaimStore(env, db, now, j, k, who, runId);
    var d := ClaimDb(env, db, now, j, k, who, runId);
    ClaimActorAt(env, db, d, db.jobs[j].incident, j, t, now, k, who, FirstRun(env, db, db.jobs[j].incident, now, runId));
  }

  lemma ClaimActorAt(env: Env, db: Db, d: Db, i: Id, j: Id, t: Slice, now: Time, k: Id, who: string, first: Option<AnalysisRun>)
    requires JobsLinked(db) && RunsLinked(db) && Rewriting(db, i, j, t) && d == Store(db, i, j, t)
    requires SliceOk(SliceOf(db, i)) && SliceOk(t) && db.jobs[j].status == Pending
    requires ClaimSlice(SliceOf(db, i), db.jobs[j].kind, now, k, who, first) == Some(t)
    ensures j in d.jobs && d.jobs[j].incident in d.incidents
    ensures WorkerOk(env, d, k, NewWorker(ClaimOf(d, j, k)))
  {
    StoreAround(db, d, i, j, t);
    ClaimerFits(SliceOf(db, i), t, db.jobs[j].kind, now, k, who, first, NewWorker(ClaimOf(d, j, k)));
  }

  /** Only the claimed job changes; its attempt grows by one and it carries the new token. */
  ghost predicate JobTaken(db: Db, d: Db, j: Id, k: Id) {
    && j in db.jobs && d.jobs.Keys == db.jobs.Keys
    && d.jobs[j].token == Some(k) && d.jobs[j].attempt == db.jobs[j].attempt + 1
    && forall h | h in db.jobs && h != j :: d.jobs[h] == db.jobs[h]
  }

  lemma ClaimTakes(env: Env, db: Db, now: Time, j: Id, k: Id, who: string, runId: Id)
    requires HasJob(db, j) && ClaimEffect(env, db, now, j, k, who, runId).Some?
    ensures JobTaken(db, ClaimDb(env, db, now, j, k, who, runId), j, k)
  {}

  lemma AddWorker(env: Env, db: Db, d: Db, workers: map<Id, Worker>, j: Id, k: Id, v: Worker)
    requires JobsLinked(db) && WorkersOk(env, db, workers) && TokensOk(db, workers) && AttemptsOk(workers)
    requires OthersOk(env, d, workers, None) && k !in workers && WorkerOk(env, d, k, v) && v.claim.job == j
    requires JobTaken(db, d, j, k) && v.claim.attempt == d.jobs[j].attempt
    ensures WorkersOk(env, d, workers[k := v]) && TokensOk(d, workers[k := v]) && AttemptsOk(workers[k := v])
  {
    var more := workers[k := v];
    forall h | h in more
      ensures WorkerOk(env, d, h, more[h])
    {
      if h != k {
        assert WorkerOk(env, d, h, workers[h]);
      }
    }
    forall h | h in workers && workers[h].claim.job == j
      ensures workers[h].claim.attempt <= db.jobs[j].attempt
    {
      assert WorkerOk(env, db, h, workers[h]);
      LinkedJob(db, j);
    }
  }

  lemma TakeKeeps(env: Env, db: Db, now: Time, j: Id, k: Id, who: string, runId: Id, workers: map<Id, Worker>)
    requires Inv(env, db, workers) && k !in workers && j in db.jobs && db.jobs[j].status == Pending
    ensures var d := ClaimDb(env, db, now, j, k, who, runId);
            && j in d.jobs && d.jobs[j].incident in d.incidents
            && Inv(env, d, workers[k := NewWorker(ClaimOf(d, j, k))])
  {
    var d := ClaimDb(env, db, now, j, k, who, runId);
    ClaimMoves(env, db, now, j, k, who, runId);
    ClaimOthers(env, db, now, j, k, who, runId, workers);
    ClaimActor(env, db, now, j, k, who, runId);
    ClaimTakes(env, db, now, j, k, who, runId);
    AddWorker(env, db, d, workers, j, k, NewWorker(ClaimOf(d, j, k)));
  }

  // ---- changes by nobody's worker ----

  lemma RecoverOneKeeps(env: Env, db: Db, now: Time, j: Id, workers: map<Id, Worker>)
    requires Inv(env, db, workers) && j in db.jobs && db.jobs[j].status == Running
    ensures Inv(env, RecoverOne(db, now, j), workers)
  {
    RecoverOneMoves(env, db, now, j);
    RecoverOneOthers(env, db, now, j, workers);
  }

  lemma RecoverProven(env: Env, s: Slice, kind: JobKind, now: Time)
    requires Proven(env, s) && JobOf(s, kind).Some? && RecoverSlice(s, kind, now).Some?
    ensures Proven(env, RecoverSlice(s, kind, now).value)
    ensures JobOf(RecoverSlice(s, kind, now).value, kind).value.token.None?
  {}

  lemma RecoverSpectators(env: Env, db: Db, i: Id, t: Slice, kind: JobKind, now: Time, workers: map<Id, Worker>)
    requires WorkersOk(env, db, workers) && i in db.incidents
    requires SliceOk(SliceOf(db, i)) && JobOf(SliceOf(db, i), kind).Some? && JobOf(SliceOf(db, i), kind).value.status == Running
    requires RecoverSlice(SliceOf(db, i), kind, now) == Some(t)
    ensures Spectators(SliceOf(db, i), t, i, workers, None)
  {
    forall h | h in workers && workers[h].claim.incident == i
      ensures JobOf(SliceOf(db, i), workers[h].claim.kind).Some? && LooksOn(SliceOf(db, i), t, workers[h])
    {
      assert WorkerOk(env, db, h, workers[h]);
      RecoverLooksOn(SliceOf(db, i), kind, now, workers[h]);
    }
  }

  lemma RecoverStore(env: Env, db: Db, now: Time, j: Id) returns (t: Slice)
    requires Coherent(env, db) && j in db.jobs && db.jobs[j].status == Running
    ensures HasJob(db, j) && Rewriting(db, db.jobs[j].incident, j, t)
    ensures RecoverSlice(SliceOf(db, db.jobs[j].incident), db.jobs[j].kind, now) == Some(t)
    ensures RecoverOne(db, now, j) == Store(db, db.jobs[j].incident, j, t)
    ensures SliceOk(SliceOf(db, db.jobs[j].incident))
  {
    CoherentJob(env, db, j);
    RecoverAdvances(SliceOf(db, db.jobs[j].incident), db.jobs[j].kind, now);
    t := RecoverSlice(SliceOf(db, db.jobs[j].incident), db.jobs[j].kind, now).value;
  }

  lemma RecoverOneOthers(env: Env, db: Db, now: Time, j: Id, workers: map<Id, Worker>)
    requires Inv(env, db, workers) && j in db.jobs && db.jobs[j].status == Running
    ensures var d := RecoverOne(db, now, j);
            OthersOk(env, d, workers, None) && ProvenOk(env, d) && TokensOk(d, workers)
  {
    var t := RecoverStore(env, db, now, j);
    var i, kind, d := db.jobs[j].incident, db.jobs[j].kind, RecoverOne(db, now, j);
    RecoverSpectators(env, db, i, t, kind, now, workers);
    assert Proven(env, SliceOf(db, i));
    RecoverProven(env, SliceOf(db, i), kind, now);
    StoreOthers(env, db, d, i, j, t, workers, None);
    StoreTokens(db, d, i, j, t, workers);
  }

  lemma {:induction false} SweepKeeps(env: Env, db: Db, now: Time, batch: seq<Id>, workers: map<Id, Worker>)
    requires Inv(env, db, workers) && Distinct(batch)
    requires forall j | j in batch :: j in db.jobs && db.jobs[j].status == Running
    ensures Inv(env, RecoverDb(db, now, batch), workers)
  {
    if batch != [] {
      var done, last := batch[..|batch| - 1], batch[|batch| - 1];
      assert batch == done + [last] && last !in done;
      SweepKeeps(env, db, now, done, workers);
      RecoverKeeps(env, db, now, done);
      RecoverOneKeeps(env, RecoverDb(db, now, done), now, last, workers);
    }
  }

  lemma ApprovedKeeps(env: Env, db: Db, d: Db, now: Time, i: Id, key: Id, ids: ApproveIds, workers: map<Id, Worker>)
    requires Inv(env, db, workers) && Approving(db, i, key, ids) && d == ApprovedDb(db, now, i, key, ids)
    requires |ActiveJobs(db)| < JOB_LIMIT
    ensures Inv(env, d, workers)
  {
    ApprovedCoherent(env, db, d, now, i, key, ids);
    ApproveOthers(env, db, d, now, i, key, ids, workers);
    TokensKept(db, d, workers);
  }

  lemma ApproveKeeps(env: Env, db: Db, now: Time, i: Id, key: Id, ids: ApproveIds, workers: map<Id, Worker>)
    requires Inv(env, db, workers) && Ready(env, db, now, Approve(i, key, ids))
    ensures Inv(env, ApproveDb(db, now, i, key, ids), workers)
  {
    var reply := Decide(db, i, key, ids);
    if reply.Approved? && !reply.duplicate {
      ApprovedKeeps(env, db, ApproveDb(db, now, i, key, ids), now, i, key, ids, workers);
    }
  }

  /** Changes at one incident that its workers watch leave the workers and the proofs of the others. */
  lemma AroundOthers(env: Env, db: Db, d: Db, i: Id, workers: map<Id, Worker>)
    requires WorkersOk(env, db, workers) && ProvenOk(env, db) && Around(db, d, i) && d.incidents.Keys <= db.incidents.Keys + {i}
    requires i in db.incidents ==> i in d.incidents && Spectators(SliceOf(db, i), SliceOf(d, i), i, workers, None)
    requires i in d.incidents ==> Proven(env, SliceOf(d, i))
    ensures WorkersOk(env, d, workers) && ProvenOk(env, d)
  {
    forall h | h in workers && workers[h].claim.incident == i
      ensures Watching(db, d, i, workers[h])
    {
      assert WorkerOk(env, db, h, workers[h]);
    }
    WorkersKept(env, db, d, workers, i, None);
    ProvenKept(env, db, d, i);
  }

  lemma ApproveSpectators(env: Env, db: Db, i: Id, now: Time, key: Id, ids: ApproveIds, workers: map<Id, Worker>)
    requires WorkersOk(env, db, workers) && i in db.incidents && SliceOk(SliceOf(db, i)) && SliceOf(db, i).incident.state == AwaitingApproval
    ensures Spectators(SliceOf(db, i), ApproveSlice(SliceOf(db, i), i, now, key, ids), i, workers, None)
  {
    forall h | h in workers && workers[h].claim.incident == i
      ensures JobOf(SliceOf(db, i), workers[h].claim.kind).Some? && LooksOn(SliceOf(db, i), ApproveSlice(SliceOf(db, i), i, now, key, ids), workers[h])
    {
      assert WorkerOk(env, db, h, workers[h]);
      ApproveLooksOn(SliceOf(db, i), i, now, key, ids, workers[h]);
    }
  }

  lemma ApproveOthers(env: Env, db: Db, d: Db, now: Time, i: Id, key: Id, ids: ApproveIds, workers: map<Id, Worker>)
    requires JobsLinked(db) && AllSlices(db) && WorkersOk(env, db, workers) && ProvenOk(env, db)
    requires Approving(db, i, key, ids) && d == ApprovedDb(db, now, i, key, ids)
    ensures WorkersOk(env, d, workers) && ProvenOk(env, d)
  {
    ApprovedSlices(db, d, now, i, key, ids);
    ApproveSpectators(env, db, i, now, key, ids, workers);
    assert Proven(env, SliceOf(db, i));
    AroundOthers(env, db, d, i, workers);
  }

  lemma IngestKeeps(env: Env, db: Db, now: Time, call: Intake, ids: IntakeIds, workers: map<Id, Worker>)
    requires Inv(env, db, workers) && Ready(env, db, now, Ingest(call, ids))
    ensures Inv(env, IngestDb(db, now, call, ids), workers)
  {
    var reply := IngestReply(db, call, ids);
    if reply.Accepted? && !reply.duplicate {
      var i := OpenIncident(db, call.service, call.fingerprint, call.sha);
      if i.None? {
        OpenedKeeps(env, db, IngestDb(db, now, call, ids), now, call, ids, workers);
      } else {
        AppendedKeeps(env, db, IngestDb(db, now, call, ids), now, call, ids, i.value, workers);
      }
    }
  }

  lemma OpenedKeeps(env: Env, db: Db, d: Db, now: Time, call: Intake, ids: IntakeIds, workers: map<Id, Worker>)
    requires Inv(env, db, workers) && Opening(env, db, call, ids) && d == OpenedNew(db, now, call, ids)
    requires |ActiveJobs(db)| < JOB_LIMIT
    ensures Inv(env, d, workers)
  {
    OpenedCoherent(env, db, d, now, call, ids);
    OpenedOthers(env, db, d, now, call, ids, workers);
    TokensKept(db, d, workers);
  }

  lemma AppendedKeeps(env: Env, db: Db, d: Db, now: Time, call: Intake, ids: IntakeIds, i: Id, workers: map<Id, Worker>)
    requires Inv(env, db, workers) && Appending(db, call, ids, i) && d == Appended(db, now, call, ids, i)
    ensures Inv(env, d, workers)
  {
    AppendedCoherent(env, db, d, now, call, ids, i);
    AppendedOthers(env, db, d, now, call, ids, i, workers);
    TokensKept(db, d, workers);
  }

  lemma OpenedOthers(env: Env, db: Db, d: Db, now: Time, call: Intake, ids: IntakeIds, workers: map<Id, Worker>)
    requires Inv(env, db, workers) && Opening(env, db, call, ids) && d == OpenedNew(db, now, call, ids)
    ensures WorkersOk(env, d, workers) && ProvenOk(env, d)
  {
    OpenedSlices(env, db, d, now, call, ids);
    AroundOthers(env, db, d, ids.incident, workers);
  }

  lemma AppendedSpectators(env: Env, db: Db, i: Id, n: int, workers: map<Id, Worker>)
    requires WorkersOk(env, db, workers) && i in db.incidents
    ensures Spectators(SliceOf(db, i), SliceOf(db, i).(incident := db.incidents[i].(count := n)), i, workers, None)
  {
    forall h | h in workers && workers[h].claim.incident == i
      ensures JobOf(SliceOf(db, i), workers[h].claim.kind).Some?
    {
      assert WorkerOk(env, db, h, workers[h]);
    }
  }

  lemma AppendedOthers(env: Env, db: Db, d: Db, now: Time, call: Intake, ids: IntakeIds, i: Id, workers: map<Id, Worker>)
    requires AllSlices(db) && WorkersOk(env, db, workers) && ProvenOk(env, db)
    requires Appending(db, call, ids, i) && d == Appended(db, now, call, ids, i)
    ensures WorkersOk(env, d, workers) && ProvenOk(env, d)
  {
    AppendedSlices(db, d, now, call, ids, i);
    AppendedSpectators(env, db, i, d.incidents[i].count, workers);
    assert Proven(env, SliceOf(db, i));
    AroundOthers(env, db, d, i, workers);
  }

  lemma SyncKeeps(env: Env, db: Db, now: Time, entries: seq<Entry>, workers: map<Id, Worker>)
    requires Inv(env, db, workers) && Ready(env, db, now, Sync(entries))
    ensures Inv(env, SyncDb(env, db, entries), workers)
  {
    SyncCoherent(env, db, now, entries);
    SyncOthers(env, db, SyncDb(env, db, entries), workers);
  }

  lemma SyncOthers(env: Env, db: Db, d: Db, workers: map<Id, Worker>)
    requires WorkersOk(env, db, workers) && ProvenOk(env, db) && TokensOk(db, workers) && OnlyServices(db, d)
    ensures WorkersOk(env, d, workers) && ProvenOk(env, d) && TokensOk(d, workers)
  {
    forall k | k in db.incidents
      ensures SliceOf(d, k) == SliceOf(db, k)
    {}
    forall k | k in workers
      ensures WorkerOk(env, d, k, workers[k])
    {
      assert WorkerOk(env, db, k, workers[k]);
    }
    forall i | i in d.incidents
      ensures Proven(env, SliceOf(d, i))
    {
      assert Proven(env, SliceOf(db, i));
    }
  }

  // ---- transactions of a worker ----

  lemma BeatKeepsInv(env: Env, db: Db, now: Time, k: Id, workers: map<Id, Worker>)
    requires Inv(env, db, workers) && k in workers
    ensures Inv(env, BeatDb(db, now, workers[k].claim), workers)
  {
    var claim := workers[k].claim;
    if Beats(db, now, claim) {
      BeatKeepsAll(env, db, now, claim);
      BeatOthers(env, db, now, claim, workers);
    }
  }

  lemma BeatSpectators(env: Env, db: Db, i: Id, kind: JobKind, now: Time, workers: map<Id, Worker>)
    requires WorkersOk(env, db, workers) && i in db.incidents && JobOf(SliceOf(db, i), kind).Some?
    ensures Spectators(SliceOf(db, i), BeatSlice(SliceOf(db, i), kind, now), i, workers, None)
  {
    forall h | h in workers && workers[h].claim.incident == i
      ensures JobOf(SliceOf(db, i), workers[h].claim.kind).Some? && LooksOn(SliceOf(db, i), BeatSlice(SliceOf(db, i), kind, now), workers[h])
    {
      assert WorkerOk(env, db, h, workers[h]);
      BeatLooksOn(SliceOf(db, i), kind, now, workers[h]);
    }
  }

  lemma BeatOthers(env: Env, db: Db, now: Time, claim: Claim, workers: map<Id, Worker>)
    requires Inv(env, db, workers) && Beats(db, now, claim)
    ensures var d := BeatDb(db, now, claim);
            OthersOk(env, d, workers, None) && ProvenOk(env, d) && TokensOk(d, workers)
  {
    CoherentJob(env, db, claim.job);
    var i, kind, d := db.jobs[claim.job].incident, db.jobs[claim.job].kind, BeatDb(db, now, claim);
    var t := BeatSlice(SliceOf(db, i), kind, now);
    BeatSpectators(env, db, i, kind, now, workers);
    assert Proven(env, SliceOf(db, i));
    BeatKeeps(SliceOf(db, i), kind, now);
    StoreOthers(env, db, d, i, claim.job, t, workers, None);
    StoreTokens(db, d, i, claim.job, t, workers);
  }

  /** A mark that passes its checks finds its incident PATCHING: the claim has not marked before. */
  lemma MarkerStands(env: Env, db: Db, k: Id, w: Worker)
    requires Coherent(env, db) && WorkerOk(env, db, k, w) && w.phase == Sent && Marks(db, w.claim)
    ensures HasJob(db, w.claim.job) && Genuine(db, w.claim)
    ensures db.incidents[w.claim.incident].state == Patching && w.claim.kind == Patch
    ensures Holds(SliceOf(db, w.claim.incident), w)
  {
    CoherentJob(env, db, w.claim.job);
  }

  lemma MarkedFits(s: Slice, w: Worker)
    requires SliceOk(s) && Fits(s, w) && w.phase == Sent && w.claim.kind == Patch
    requires s.incident.state == Patching && s.incident.version == w.claim.version && MarkSlice(s).Some?
    ensures Fits(MarkSlice(s).value, w.(phase := Answered(Some(w.claim.version + 1))))
  {}

  lemma MarkSpectators(env: Env, db: Db, i: Id, k: Id, workers: map<Id, Worker>)
    requires WorkersOk(env, db, workers) && i in db.incidents && SliceOk(SliceOf(db, i))
    requires SliceOf(db, i).incident.state == Patching && SliceOf(db, i).patchJob.value.token == Some(k)
    requires MarkSlice(SliceOf(db, i)).Some?
    ensures Spectators(SliceOf(db, i), MarkSlice(SliceOf(db, i)).value, i, workers, Some(k))
  {
    forall h | h in workers && h != k && workers[h].claim.incident == i
      ensures JobOf(SliceOf(db, i), workers[h].claim.kind).Some? && LooksOn(SliceOf(db, i), MarkSlice(SliceOf(db, i)).value, workers[h])
    {
      assert WorkerOk(env, db, h, workers[h]);
      MarkLooksOn(SliceOf(db, i), k, workers[h]);
    }
  }

  lemma MarkStore(env: Env, db: Db, k: Id, w: Worker) returns (t: Slice)
    requires Coherent(env, db) && WorkerOk(env, db, k, w) && w.phase == Sent && Marks(db, w.claim)
    ensures var i := w.claim.incident;
            && i in db.incidents && Rewriting(db, i, w.claim.job, t) && w.claim.kind == Patch
            && db.jobs[w.claim.job].kind == Patch && SliceOk(SliceOf(db, i)) && SliceOf(db, i).incident.state == Patching
            && SliceOf(db, i).patchJob == Some(db.jobs[w.claim.job]) && db.jobs[w.claim.job].token == Some(k)
            && MarkSlice(SliceOf(db, i)) == Some(t) && MarkDb(db, w.claim) == Store(db, i, w.claim.job, t)
            && Fits(t, w.(phase := Answered(Some(w.claim.version + 1))))
  {
    MarkerStands(env, db, k, w);
    CoherentJob(env, db, w.claim.job);
    MarkAdvances(SliceOf(db, w.claim.incident));
    t := MarkSlice(SliceOf(db, w.claim.incident)).value;
    MarkedFits(SliceOf(db, w.claim.incident), w);
  }

  lemma MarkerPlaced(db: Db, d: Db, i: Id, claim: Claim, t: Slice)
    requires JobsLinked(db) && RunsLinked(db) && Rewriting(db, i, claim.job, t) && d == Store(db, i, claim.job, t)
    requires claim.incident == i && Placed(db, claim)
    ensures Placed(d, claim) && SliceOf(d, i) == t
  {
    StoreAround(db, d, i, claim.job, t);
  }

  lemma MarkOthers(env: Env, db: Db, d: Db, i: Id, k: Id, t: Slice, workers: map<Id, Worker>)
    requires JobsLinked(db) && RunsLinked(db) && WorkersOk(env, db, workers) && ProvenOk(env, db)
    requires k in workers && workers[k].phase == Sent && workers[k].claim.incident == i && i in db.incidents
    requires Rewriting(db, i, workers[k].claim.job, t) && d == Store(db, i, workers[k].claim.job, t)
    requires Spectators(SliceOf(db, i), t, i, workers, Some(k)) && Proven(env, t)
    requires Fits(t, workers[k].(phase := Answered(Some(workers[k].claim.version + 1))))
    ensures WorkersOk(env, d, workers[k := workers[k].(phase := Answered(Some(workers[k].claim.version + 1)))]) && ProvenOk(env, d)
  {
    assert WorkerOk(env, db, k, workers[k]);
    StoreOthers(env, db, d, i, workers[k].claim.job, t, workers, Some(k));
    MarkerPlaced(db, d, i, workers[k].claim, t);
    MarkerDone(env, d, k, workers);
  }

  lemma ProvenMark(env: Env, s: Slice)
    requires Proven(env, s) && MarkSlice(s).Some?
    ensures Proven(env, MarkSlice(s).value)
  {}

  lemma MarkerDone(env: Env, d: Db, k: Id, workers: map<Id, Worker>)
    requires k in workers && workers[k].phase == Sent && Placed(d, workers[k].claim)
    requires workers[k].claim.token == k && SelfOk(env, workers[k])
    requires Fits(SliceOf(d, workers[k].claim.incident), workers[k].(phase := Answered(Some(workers[k].claim.version + 1))))
    requires forall h {:trigger WorkerOk(env, d, h, workers[h])} | h in workers && h != k :: WorkerOk(env, d, h, workers[h])
    ensures WorkersOk(env, d, workers[k := workers[k].(phase := Answered(Some(workers[k].claim.version + 1)))])
  {
    var w := workers[k];
    var more := workers[k := w.(phase := Answered(Some(w.claim.version + 1)))];
    assert WorkerOk(env, d, k, more[k]);
    forall h | h in more
      ensures WorkerOk(env, d, h, more[h])
    {
      if h != k {
        assert WorkerOk(env, d, h, workers[h]);
      }
    }
  }

  /** Changing only what a worker knows about itself. */
  lemma SelfStep(env: Env, db: Db, k: Id, workers: map<Id, Worker>, v: Worker)
    requires Inv(env, db, workers) && k in workers && v.claim == workers[k].claim && SelfOk(env, v)
    requires v.claim.incident in db.incidents ==> Fits(SliceOf(db, v.claim.incident), workers[k]) ==> Fits(SliceOf(db, v.claim.incident), v)
    ensures Inv(env, db, workers[k := v])
  {
    var more := workers[k := v];
    assert WorkerOk(env, db, k, workers[k]);
    forall h | h in more
      ensures WorkerOk(env, db, h, more[h])
    {
      if h != k {
        assert WorkerOk(env, db, h, workers[h]);
      }
    }
  }

  lemma CommitMarkKeeps(env: Env, db: Db, d: Db, k: Id, workers: map<Id, Worker>, more: map<Id, Worker>)
    requires Inv(env, db, workers) && k in workers && workers[k].phase == Sent && Marks(db, workers[k].claim)
    requires d == MarkDb(db, workers[k].claim)
    requires more == workers[k := workers[k].(phase := Answered(Some(workers[k].claim.version + 1)))]
    ensures Inv(env, d, more)
  {
    var i := workers[k].claim.incident;
    assert WorkerOk(env, db, k, workers[k]);
    MarkCoherent(env, db, d, k, workers[k]);
    var t := MarkWatched(env, db, d, i, k, workers);
    MarkSeen(env, db, i, k, t, workers);
    MarkProven(env, db, i, t);
    MarkOthers(env, db, d, i, k, t, workers);
    StoreTokens(db, d, i, workers[k].claim.job, t, workers);
    MarkTables(env, d, k, workers);
  }

  lemma MarkCoherent(env: Env, db: Db, d: Db, k: Id, w: Worker)
    requires Coherent(env, db) && WorkerOk(env, db, k, w) && w.phase == Sent && Marks(db, w.claim) && d == MarkDb(db, w.claim)
    ensures Coherent(env, d)
  {
    MarkerStands(env, db, k, w);
    MarkMoves(env, db, w.claim);
  }

  lemma MarkProven(env: Env, db: Db, i: Id, t: Slice)
    requires ProvenOk(env, db) && i in db.incidents && MarkSlice(SliceOf(db, i)) == Some(t)
    ensures Proven(env, t)
  {
    assert Proven(env, SliceOf(db, i));
    ProvenMark(env, SliceOf(db, i));
  }

  /** The rows a mark writes suit the marker. */
  lemma MarkWatched(env: Env, db: Db, d: Db, i: Id, k: Id, workers: map<Id, Worker>) returns (t: Slice)
    requires Coherent(env, db) && WorkersOk(env, db, workers)
    requires k in workers && workers[k].phase == Sent && workers[k].claim.incident == i && Marks(db, workers[k].claim)
    requires d == MarkDb(db, workers[k].claim)
    ensures i in db.incidents && Rewriting(db, i, workers[k].claim.job, t) && d == Store(db, i, workers[k].claim.job, t)
    ensures MarkSlice(SliceOf(db, i)) == Some(t)
    ensures Fits(t, workers[k].(phase := Answered(Some(workers[k].claim.version + 1))))
    ensures JobOf(t, db.jobs[workers[k].claim.job].kind) == Some(db.jobs[workers[k].claim.job])
  {
    assert WorkerOk(env, db, k, workers[k]);
    t := MarkStore(env, db, k, workers[k]);
  }

  lemma MarkSeen(env: Env, db: Db, i: Id, k: Id, t: Slice, workers: map<Id, Worker>)
    requires Coherent(env, db) && WorkersOk(env, db, workers)
    requires k in workers && workers[k].phase == Sent && workers[k].claim.incident == i && Marks(db, workers[k].claim)
    requires MarkSlice(SliceOf(db, i)) == Some(t)
    ensures Spectators(SliceOf(db, i), t, i, workers, Some(k))
  {
    assert WorkerOk(env, db, k, workers[k]);
    MarkerStands(env, db, k, workers[k]);
    assert SliceOk(SliceOf(db, i));
    MarkSpectators(env, db, i, k, workers);
  }

  lemma MarkTables(env: Env, d: Db, k: Id, workers: map<Id, Worker>)
    requires k in workers && AttemptsOk(workers) && TokensOk(d, workers)
    ensures var more := workers[k := workers[k].(phase := Answered(Some(workers[k].claim.version + 1)))];
            AttemptsOk(more) && TokensOk(d, more)
  {}

  lemma RefusedMarkKeeps(env: Env, db: Db, k: Id, workers: map<Id, Worker>)
    requires Inv(env, db, workers) && k in workers && workers[k].phase == Sent
    ensures Inv(env, db, workers[k := workers[k].(phase := Answered(None))])
  {
    assert WorkerOk(env, db, k, workers[k]);
    SelfStep(env, db, k, workers, workers[k].(phase := Answered(None)));
  }

  /** The outcome a worker stores is supported under the policy frozen in the run. */
  lemma FinalizeProven(env: Env, s: Slice, now: Time, w: Worker)
    requires Proven(env, s) && Fits(s, w) && SelfOk(env, w) && w.outcome.Some?
    requires FinalizeSlice(s, w.claim.kind, now, w.outcome.value).Some?
    ensures Proven(env, FinalizeSlice(s, w.claim.kind, now, w.outcome.value).value)
    ensures JobOf(FinalizeSlice(s, w.claim.kind, now, w.outcome.value).value, w.claim.kind).value.token.None?
  {}

  lemma FinalSpectators(env: Env, db: Db, i: Id, t: Slice, kind: JobKind, now: Time, outcome: Outcome, workers: map<Id, Worker>)
    requires WorkersOk(env, db, workers) && i in db.incidents
    requires SliceOk(SliceOf(db, i)) && JobOf(SliceOf(db, i), kind).Some? && JobOf(SliceOf(db, i), kind).value.status == Running
    requires FinalizeSlice(SliceOf(db, i), kind, now, outcome) == Some(t)
    ensures Spectators(SliceOf(db, i), t, i, workers, None)
  {
    forall h | h in workers && workers[h].claim.incident == i
      ensures JobOf(SliceOf(db, i), workers[h].claim.kind).Some? && LooksOn(SliceOf(db, i), t, workers[h])
    {
      assert WorkerOk(env, db, h, workers[h]);
      FinalizeLooksOn(SliceOf(db, i), kind, now, outcome, workers[h]);
    }
  }

  lemma FinalStore(env: Env, db: Db, now: Time, claim: Claim, outcome: Outcome, version: int) returns (t: Slice)
    requires Coherent(env, db) && Placed(db, claim) && Finalizes(db, now, claim, version)
    ensures HasJob(db, claim.job) && Rewriting(db, claim.incident, claim.job, t)
    ensures FinalizeSlice(SliceOf(db, claim.incident), claim.kind, now, outcome) == Some(t)
    ensures FinalizeDb(db, now, claim, outcome, version) == Store(db, claim.incident, claim.job, t)
    ensures SliceOk(SliceOf(db, claim.incident)) && JobOf(SliceOf(db, claim.incident), claim.kind) == Some(db.jobs[claim.job])
  {
    CoherentJob(env, db, claim.job);
    FinalizeAdvances(SliceOf(db, claim.incident), claim.kind, now, outcome);
    t := FinalizeSlice(SliceOf(db, claim.incident), claim.kind, now, outcome).value;
  }

  lemma FinalOthers(env: Env, db: Db, now: Time, k: Id, workers: map<Id, Worker>)
    requires Inv(env, db, workers) && k in workers && workers[k].outcome.Some?
    requires Finalizes(db, now, workers[k].claim, workers[k].versionRef)
    ensures var d := FinalizeDb(db, now, workers[k].claim, workers[k].outcome.value, workers[k].versionRef);
            OthersOk(env, d, workers, None) && ProvenOk(env, d) && TokensOk(d, workers)
  {
    var w := workers[k];
    assert WorkerOk(env, db, k, w);
    var t := FinalStore(env, db, now, w.claim, w.outcome.value, w.versionRef);
    var i, d := w.claim.incident, FinalizeDb(db, now, w.claim, w.outcome.value, w.versionRef);
    FinalSpectators(env, db, i, t, w.claim.kind, now, w.outcome.value, workers);
    assert Proven(env, SliceOf(db, i));
    FinalizeProven(env, SliceOf(db, i), now, w);
    StoreOthers(env, db, d, i, w.claim.job, t, workers, None);
    StoreTokens(db, d, i, w.claim.job, t, workers);
  }

  lemma FinalizeKeeps(env: Env, db: Db, now: Time, k: Id, workers: map<Id, Worker>)
    requires Inv(env, db, workers) && k in workers && workers[k].outcome.Some?
    ensures Inv(env, FinalizeDb(db, now, workers[k].claim, workers[k].outcome.value, workers[k].versionRef), workers)
  {
    var w := workers[k];
    assert WorkerOk(env, db, k, w);
    if Finalizes(db, now, w.claim, w.versionRef) {
      FinalizeMoves(env, db, now, w.claim, w.outcome.value, w.versionRef);
      FinalOthers(env, db, now, k, workers);
    }
  }

  lemma CommitFinalKeeps(env: Env, db: Db, now: Time, k: Id, workers: map<Id, Worker>)
    requires Inv(env, db, workers) && k in workers && workers[k].outcome.Some?
    ensures Inv(env, FinalizeDb(db, now, workers[k].claim, workers[k].outcome.value, workers[k].versionRef), workers[k := workers[k].(done := true)])
  {
    FinalizeKeeps(env, db, now, k, workers);
    FinishKeeps(env, FinalizeDb(db, now, workers[k].claim, workers[k].outcome.value, workers[k].versionRef), k, workers);
  }

  lemma FinishKeeps(env: Env, db: Db, k: Id, workers: map<Id, Worker>)
    requires Inv(env, db, workers) && k in workers
    ensures Inv(env, db, workers[k := workers[k].(done := true)])
  {
    assert WorkerOk(env, db, k, workers[k]);
    SelfStep(env, db, k, workers, workers[k].(done := true));
  }

  // ---- every step, every run ----

  lemma ServerKeeps(env: Env, db: Db, now: Time, tx: Tx, workers: map<Id, Worker>)
    requires Inv(env, db, workers) && ServerTx(tx) && Ready(env, db, now, tx)
    ensures Inv(env, Run(env, db, now, tx), workers)
  {
    match tx
    case Sync(entries) => SyncKeeps(env, db, now, entries, workers);
    case Ingest(call, ids) => IngestKeeps(env, db, now, call, ids, workers);
    case Approve(i, key, ids) => ApproveKeeps(env, db, now, i, key, ids, workers);
    case Recover(batch) => SweepKeeps(env, db, now, batch, workers);
  }

  lemma ReadKeeps(env: Env, db: Db, k: Id, workers: map<Id, Worker>)
    requires Inv(env, db, workers) && k in workers && workers[k].outcome.None? && workers[k].inputs.None?
    requires workers[k].claim.incident in db.runs
    ensures Inv(env, db, workers[k := workers[k].(inputs := db.runs[workers[k].claim.incident].snapshot)])
  {
    assert WorkerOk(env, db, k, workers[k]);
    SelfStep(env, db, k, workers, workers[k].(inputs := db.runs[workers[k].claim.incident].snapshot));
  }

  lemma AskKeeps(env: Env, db: Db, k: Id, workers: map<Id, Worker>)
    requires Inv(env, db, workers) && k in workers && workers[k].outcome.None? && workers[k].phase == Unsent
    requires workers[k].claim.kind == Patch
    ensures Inv(env, db, workers[k := workers[k].(phase := Sent)])
  {
    assert WorkerOk(env, db, k, workers[k]);
    SelfStep(env, db, k, workers, workers[k].(phase := Sent));
  }

  lemma HearKeeps(env: Env, db: Db, k: Id, workers: map<Id, Worker>)
    requires Inv(env, db, workers) && k in workers && workers[k].outcome.None?
    requires workers[k].phase.Answered? && workers[k].phase.reply.Some?
    ensures Inv(env, db, workers[k := workers[k].(phase := Heard, versionRef := workers[k].phase.reply.value)])
  {
    assert WorkerOk(env, db, k, workers[k]);
    var v := Heeding(env, workers[k]);
    SelfStep(env, db, k, workers, v);
  }

  /** Hearing the answer changes where the worker stands, not what it stands on. */
  lemma Heeding(env: Env, w: Worker) returns (v: Worker)
    requires SelfOk(env, w) && w.outcome.None? && w.phase.Answered? && w.phase.reply.Some?
    ensures v == w.(phase := Heard, versionRef := w.phase.reply.value) && SelfOk(env, v)
    ensures forall s: Slice :: Fits(s, w) ==> Fits(s, v)
  {
    v := w.(phase := Heard, versionRef := w.phase.reply.value);
  }

  lemma ChooseKeeps(env: Env, db: Db, k: Id, workers: map<Id, Worker>, outcome: Outcome)
    requires Inv(env, db, workers) && k in workers && workers[k].outcome.None?
    requires outcome.error.None? ==> Supported(env, workers[k], outcome)
    ensures Inv(env, db, workers[k := workers[k].(outcome := Some(outcome))])
  {
    assert WorkerOk(env, db, k, workers[k]);
    SelfStep(env, db, k, workers, workers[k].(outcome := Some(outcome)));
  }

  lemma TakeStep(env: Env, s: Sys, now: Time, step: Step)
    requires Inv(env, s.db, s.workers) && Enabled(env, s, now, step) && step.Take?
    ensures Inv(env, After(env, s, now, step), Worked(env, s, now, step))
  {
    TakeKeeps(env, s.db, now, step.job, step.token, step.who, step.runId, s.workers);
  }

  lemma MarkStep(env: Env, s: Sys, now: Time, step: Step)
    requires Inv(env, s.db, s.workers) && Enabled(env, s, now, step) && step.CommitMark?
    requires Marks(s.db, s.workers[step.token].claim)
    ensures Inv(env, After(env, s, now, step), Worked(env, s, now, step))
  {
    var d, more := MarkStepIs(env, s, now, step);
    CommitMarkKeeps(env, s.db, d, step.token, s.workers, more);
  }

  lemma MarkStepIs(env: Env, s: Sys, now: Time, step: Step) returns (d: Db, more: map<Id, Worker>)
    requires Enabled(env, s, now, step) && step.CommitMark? && Marks(s.db, s.workers[step.token].claim)
    ensures d == After(env, s, now, step) && more == Worked(env, s, now, step)
    ensures d == MarkDb(s.db, s.workers[step.token].claim)
    ensures more == s.workers[step.token := s.workers[step.token].(phase := Answered(Some(s.workers[step.token].claim.version + 1)))]
  {
    d, more := After(env, s, now, step), Worked(env, s, now, step);
  }

  lemma RefusedMarkStep(env: Env, s: Sys, now: Time, step: Step)
    requires Inv(env, s.db, s.workers) && Enabled(env, s, now, step) && step.CommitMark?
    requires !Marks(s.db, s.workers[step.token].claim)
    ensures Inv(env, After(env, s, now, step), Worked(env, s, now, step))
  {
    RefusedMarkKeeps(env, s.db, step.token, s.workers);
  }

  lemma FinalStep(env: Env, s: Sys, now: Time, step: Step)
    requires Inv(env, s.db, s.workers) && Enabled(env, s, now, step) && step.CommitFinal?
    ensures Inv(env, After(env, s, now, step), Worked(env, s, now, step))
  {
    CommitFinalKeeps(env, s.db, now, step.token, s.workers);
  }

  lemma NextKeeps(env: Env, s: Sys, now: Time, step: Step)
    requires Inv(env, s.db, s.workers) && Enabled(env, s, now, step)
    ensures Inv(env, After(env, s, now, step), Worked(env, s, now, step))
  {
    match step
    case Server(tx) => ServerKeeps(env, s.db, now, tx, s.workers);
    case Take(_, _, _, _) => TakeStep(env, s, now, step);
    case Beat(k) => BeatKeepsInv(env, s.db, now, k, s.workers);
    case CommitMark(k) =>
      if Marks(s.db, s.workers[k].claim) {
        MarkStep(env, s, now, step);
      } else {
        RefusedMarkStep(env, s, now, step);
      }
    case CommitFinal(_) => FinalStep(env, s, now, step);
    case Read(k) => ReadKeeps(env, s.db, k, s.workers);
    case Ask(k) => AskKeeps(env, s.db, k, s.workers);
    case Hear(k) => HearKeeps(env, s.db, k, s.workers);
    case Choose(k, outcome) => ChooseKeeps(env, s.db, k, s.workers, outcome);
  }

  /** A step with the instant at which it runs. */
  datatype Event = Event(now: Time, step: Step)

  /** A run from `s`: every event is enabled where it happens. */
  ghost predicate Legal(env: Env, s: Sys, run: seq<Event>)
    decreases |run|
  {
    run == [] ||
    (Enabled(env, s, run[0].now, run[0].step) && Legal(env, Next(env, s, run[0].now, run[0].step), run[1..]))
  }

  ghost function End(env: Env, s: Sys, run: seq<Event>): Sys
    requires Legal(env, s, run)
    decreases |run|
  {
    if run == [] then s else End(env, Next(env, s, run[0].now, run[0].step), run[1..])
  }

  ghost predicate Good(env: Env, s: Sys) {
    Inv(env, s.db, s.workers)
  }

  lemma StartGood(env: Env)
    ensures Good(env, START)
  {}

  /** Whole-database coherence after any interleaving of intake, workers, sweeps, approvals and syncs. */
  lemma {:induction false} RunGood(env: Env, s: Sys, run: seq<Event>)
    requires Good(env, s) && Legal(env, s, run)
    ensures Good(env, End(env, s, run))
    decreases |run|
  {
    if run != [] {
      NextKeeps(env, s, run[0].now, run[0].step);
      RunGood(env, Next(env, s, run[0].now, run[0].step), run[1..]);
    }
  }
}
