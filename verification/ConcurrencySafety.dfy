/**
 * The locks keep what a transaction has read, so every interleaving of intake and approval with
 * the rest of the system is a run of the serial machine.
 */
module ConcurrencySafety {
  import opened Base
  import opened Schema
  import opened Slices
  import opened Transactions
  import opened Coherence
  import opened JobSteps
  import opened IntakeSteps
  import opened Protocol
  import opened ProtocolSafety
  import opened Workflow
  import opened Fencing
  import opened Concurrency

  // ---- frames ----

  ghost predicate RowKept(db: Db, d: Db, i: Id) {
    i in db.incidents ==>
      && i in d.incidents && d.incidents[i] == db.incidents[i]
      && Lookup(d.runs, i) == Lookup(db.runs, i) && Lookup(d.approvals, i) == Lookup(db.approvals, i)
  }

  ghost predicate ServiceKept(db: Db, d: Db, v: Id) {
    v in db.services ==> v in d.services && d.services[v] == db.services[v]
  }

  lemma IntakeFrame(env: Env, db: Db, d: Db, p: IntakeProc)
    requires IntakeOk(env, db, p)
    requires HoldsService(p, p.call.service) ==> ServiceKept(db, d, p.call.service)
    requires p.phase.Targeted? ==> RowKept(db, d, p.phase.target)
    requires p.phase.Reserved? ==> |ActiveJobs(d)| <= |ActiveJobs(db)|
    ensures IntakeOk(env, d, p)
  {}

  lemma ApproveFrame(db: Db, d: Db, q: ApproveProc)
    requires ApproveOk(db, q)
    requires ApproveLocks(q, q.incident) ==> RowKept(db, d, q.incident)
    requires q.phase.Slotted? ==> |ActiveJobs(d)| <= |ActiveJobs(db)|
    ensures ApproveOk(d, q)
  {
    assert q.incident in d.runs ==> Lookup(d.runs, q.incident) == Some(d.runs[q.incident]);
    assert q.incident in db.runs ==> Lookup(db.runs, q.incident) == Some(db.runs[q.incident]);
  }

  // ---- steps of the rest of the system ----

  lemma TxLeavesRow(env: Env, db: Db, now: Time, tx: Tx, i: Id)
    requires Coherent(env, db) && Ready(env, db, now, tx) && MarksInTurn(db, tx)
    requires !tx.Ingest? && !Hits(db, now, tx, i)
    ensures RowKept(db, Run(env, db, now, tx), i)
  {
    if i in db.incidents {
      TxFollows(env, db, now, tx, i);
      SlicesShow(db, Run(env, db, now, tx), i);
    }
  }

  lemma SlicesShow(db: Db, d: Db, i: Id)
    requires Follows(db, d, i, false) && d.incidents[i].count == db.incidents[i].count
    ensures RowKept(db, d, i)
  {}

  lemma TxLeavesSlots(env: Env, db: Db, now: Time, tx: Tx)
    requires Coherent(env, db) && Ready(env, db, now, tx) && !tx.Ingest? && !tx.Approve?
    ensures |ActiveJobs(Run(env, db, now, tx))| <= |ActiveJobs(db)|
  {
    TxJobs(env, db, now, tx);
    StepsLeaveSlots(db, Run(env, db, now, tx), now, tx);
  }

  lemma StepsLeaveSlots(db: Db, d: Db, now: Time, tx: Tx)
    requires JobsStep(db, d, now, tx) && !tx.Ingest? && !tx.Approve?
    ensures |ActiveJobs(d)| <= |ActiveJobs(db)|
  {
    forall j | j in ActiveJobs(d)
      ensures j in ActiveJobs(db)
    {
      assert JobStep(db, now, tx, j, db.jobs[j], d.jobs[j]);
    }
    SubsetSize(ActiveJobs(d), ActiveJobs(db));
  }

  /** No entry of the sync names service `v`. */
  ghost predicate Spares(db: Db, entries: seq<Entry>, v: Id) {
    forall e | e in entries && e.key in db.serviceIndex :: db.serviceIndex[e.key] != v
  }

  /** The index still leads to `v` only where it did. */
  ghost predicate IndexSpares(db: Db, m: Db, v: Id) {
    && (forall k | k in db.serviceIndex :: k in m.serviceIndex && m.serviceIndex[k] == db.serviceIndex[k])
    && (forall k | k in m.serviceIndex && m.serviceIndex[k] == v :: k in db.serviceIndex)
  }

  lemma {:induction false} SyncLeaves(env: Env, db: Db, entries: seq<Entry>, v: Id)
    requires ServicesOk(env, db) && EntryIdsNew(db, entries) && v in db.services && Spares(db, entries, v)
    requires SyncAll(env, db, entries).Some?
    ensures ServiceKept(db, SyncAll(env, db, entries).value, v) && IndexSpares(db, SyncAll(env, db, entries).value, v)
  {
    if entries != [] {
      var n := |entries| - 1;
      SyncLeaves(env, db, entries[..n], v);
      SyncAllOk(env, db, entries[..n]);
      SyncOneLeaves(env, db, SyncAll(env, db, entries[..n]).value, entries[n], v);
    }
  }

  lemma RegisteredLeaves(db: Db, m: Db, e: Entry, v: Id)
    requires v in db.services && ServiceKept(db, m, v) && IndexSpares(db, m, v) && e.id != v && e.key !in m.serviceIndex
    ensures ServiceKept(db, Registered(m, e), v) && IndexSpares(db, Registered(m, e), v)
  {}

  lemma UpdatedLeaves(db: Db, m: Db, u: Id, e: Entry, v: Id)
    requires ServiceKept(db, m, v) && IndexSpares(db, m, v) && u != v && u in m.services
    ensures ServiceKept(db, Updated(m, u, e), v) && IndexSpares(db, Updated(m, u, e), v)
  {}

  lemma SyncOneLeaves(env: Env, db: Db, m: Db, e: Entry, v: Id)
    requires v in db.services && ServiceKept(db, m, v) && IndexSpares(db, m, v) && e.id != v
    requires e.key in db.serviceIndex ==> db.serviceIndex[e.key] != v
    requires ServicesLinked(m) && SyncOne(env, m, e).Some?
    ensures ServiceKept(db, SyncOne(env, m, e).value, v) && IndexSpares(db, SyncOne(env, m, e).value, v)
  {
    if e.key in m.serviceIndex {
      UpdatedLeaves(db, m, m.serviceIndex[e.key], e, v);
    } else {
      RegisteredLeaves(db, m, e, v);
    }
  }

  /** Transactions other than syncs leave the services. */
  lemma TxLeavesService(env: Env, db: Db, now: Time, tx: Tx, v: Id)
    requires Coherent(env, db) && Ready(env, db, now, tx) && !tx.Ingest? && !tx.Approve?
    requires tx.Sync? ==> Spares(db, tx.entries, v)
    ensures ServiceKept(db, Run(env, db, now, tx), v)
  {
    match tx
    case Sync(entries) =>
      if v in db.services && SyncAll(env, db, entries).Some? {
        SyncLeaves(env, db, entries, v);
      }
    case Recover(batch) => SweepServices(db, now, batch);
    case ClaimJob(j, token, who, runId) => ClaimServices(env, db, now, j, token, who, runId);
    case Finalize(claim, outcome, version) => FinalizeServices(db, now, claim, outcome, version);
    case Heartbeat(claim) => assert BeatDb(db, now, claim).services == db.services;
    case Mark(claim) => assert MarkDb(db, claim).services == db.services;
    case _ =>
  }

  lemma ClaimServices(env: Env, db: Db, now: Time, j: Id, token: Id, who: string, runId: Id)
    ensures ClaimDb(env, db, now, j, token, who, runId).services == db.services
  {}

  lemma FinalizeServices(db: Db, now: Time, claim: Claim, outcome: Outcome, version: int)
    ensures FinalizeDb(db, now, claim, outcome, version).services == db.services
  {}

  lemma {:induction false} SweepServices(db: Db, now: Time, batch: seq<Id>)
    ensures RecoverDb(db, now, batch).services == db.services
  {
    if batch != [] {
      SweepServices(db, now, batch[..|batch| - 1]);
    }
  }

  lemma OtherLocked(env: Env, w: World, now: Time, step: Step)
    requires Good(env, w.sys) && Locked(env, w) && Can(env, w, now, Other(step))
    ensures Locked(env, Moves(env, w, now, Other(step)))
  {
    var db, d := w.sys.db, Next(env, w.sys, now, step).db;
    if TxOf(w.sys, step).Some? {
      var tx := TxOf(w.sys, step).value;
      StepTxReady(env, w.sys, now, step);
      TxLeavesSlots(env, db, now, tx);
      forall p | p in w.intakes
        ensures IntakeOk(env, d, w.intakes[p])
      {
        OtherIntake(env, w, now, step, p);
      }
      forall q | q in w.approvals
        ensures ApproveOk(d, w.approvals[q])
      {
        OtherApprove(env, w, now, step, q);
      }
    }
  }

  lemma OtherIntake(env: Env, w: World, now: Time, step: Step, p: Id)
    requires Good(env, w.sys) && Locked(env, w) && Can(env, w, now, Other(step)) && p in w.intakes && TxOf(w.sys, step).Some?
    ensures IntakeOk(env, Next(env, w.sys, now, step).db, w.intakes[p])
  {
    var tx, proc := TxOf(w.sys, step).value, w.intakes[p];
    StepTxReady(env, w.sys, now, step);
    TxLeavesSlots(env, w.sys.db, now, tx);
    if HoldsService(proc, proc.call.service) {
      assert ServiceHeldBySome(w, proc.call.service);
      TxLeavesService(env, w.sys.db, now, tx, proc.call.service);
    }
    if proc.phase.Targeted? {
      assert IntakeLocks(proc, proc.phase.target);
      assert RowLocked(w, proc.phase.target);
      TxLeavesRow(env, w.sys.db, now, tx, proc.phase.target);
    }
    IntakeFrame(env, w.sys.db, Next(env, w.sys, now, step).db, proc);
  }

  lemma OtherApprove(env: Env, w: World, now: Time, step: Step, q: Id)
    requires Good(env, w.sys) && Locked(env, w) && Can(env, w, now, Other(step)) && q in w.approvals && TxOf(w.sys, step).Some?
    ensures ApproveOk(Next(env, w.sys, now, step).db, w.approvals[q])
  {
    var tx, proc := TxOf(w.sys, step).value, w.approvals[q];
    StepTxReady(env, w.sys, now, step);
    TxLeavesSlots(env, w.sys.db, now, tx);
    if ApproveLocks(proc, proc.incident) {
      assert RowLocked(w, proc.incident);
      TxLeavesRow(env, w.sys.db, now, tx, proc.incident);
    }
    ApproveFrame(w.sys.db, Next(env, w.sys, now, step).db, proc);
  }

  // ---- reads ----

  lemma ReadIntakeOk(env: Env, w: World, now: Time, p: Id, sha: Option<string>)
    requires Locked(env, w) && Can(env, w, now, ReadIntake(p, sha))
    ensures IntakeOk(env, w.sys.db, IntakeRead(w.sys.db, w.intakes[p], sha))
  {}

  lemma ReadIntakeLocked(env: Env, w: World, now: Time, p: Id, sha: Option<string>)
    requires Locked(env, w) && Can(env, w, now, ReadIntake(p, sha))
    ensures Locked(env, Moves(env, w, now, ReadIntake(p, sha)))
  {
    ReadIntakeOk(env, w, now, p, sha);
    ReadIntakeExclusive(w, p, IntakeRead(w.sys.db, w.intakes[p], sha));
  }

  /** A lock taken was free. */
  lemma ReadIntakeExclusive(w: World, p: Id, next: IntakeProc)
    requires Exclusive(w) && p in w.intakes
    requires next.phase.Targeted? ==> !RowLocked(w, next.phase.target)
    requires next.phase.Reserved? ==> !SlotHeld(w)
    ensures Exclusive(w.(intakes := w.intakes[p := next]))
  {}

  lemma ReadApproveOk(w: World, q: Id)
    requires q in w.approvals && ApproveOk(w.sys.db, w.approvals[q]) && CanReadApprove(w, w.approvals[q])
    ensures ApproveOk(w.sys.db, ApproveRead(w.sys.db, w.approvals[q]))
  {}

  lemma ReadApproveLocked(env: Env, w: World, now: Time, q: Id)
    requires Locked(env, w) && Can(env, w, now, ReadApprove(q))
    ensures Locked(env, Moves(env, w, now, ReadApprove(q)))
  {
    var next := ApproveRead(w.sys.db, w.approvals[q]);
    ReadApproveOk(w, q);
    ReadApproveExclusive(w, q, next);
  }

  lemma ReadApproveExclusive(w: World, q: Id, next: ApproveProc)
    requires Exclusive(w) && q in w.approvals && next.incident == w.approvals[q].incident
    requires ApproveLocks(next, next.incident) ==> ApproveLocks(w.approvals[q], next.incident) || !RowLocked(w, next.incident)
    requires next.phase.Slotted? ==> !SlotHeld(w)
    ensures Exclusive(w.(approvals := w.approvals[q := next]))
  {}

  // ---- commits ----

  lemma CommitIntakeLocked(env: Env, w: World, now: Time, p: Id, ids: IntakeIds)
    requires Good(env, w.sys) && Locked(env, w) && Can(env, w, now, CommitIntake(p, ids))
    ensures Locked(env, Moves(env, w, now, CommitIntake(p, ids)))
  {
    var proc := w.intakes[p];
    if IntakeCollides(w.sys.db, proc) {
      RefusedIntakeLocked(env, w, now, p, ids);
    } else {
      CommittedIntakeLocked(env, w, now, p, ids);
    }
  }

  lemma RefusedIntakeLocked(env: Env, w: World, now: Time, p: Id, ids: IntakeIds)
    requires Locked(env, w) && Can(env, w, now, CommitIntake(p, ids)) && IntakeCollides(w.sys.db, w.intakes[p])
    ensures Locked(env, Moves(env, w, now, CommitIntake(p, ids)))
  {
    ReadIntakeExclusive(w, p, IntakeRetry(w.intakes[p]));
  }

  lemma CommittedIntakeLocked(env: Env, w: World, now: Time, p: Id, ids: IntakeIds)
    requires Locked(env, w) && Can(env, w, now, CommitIntake(p, ids)) && !IntakeCollides(w.sys.db, w.intakes[p])
    ensures Locked(env, Moves(env, w, now, CommitIntake(p, ids)))
  {
    var proc := w.intakes[p];
    ReadIntakeExclusive(w, p, IntakeCommitted(proc, ids));
    OthersBesideIntake(env, w, IntakeWrites(w.sys.db, now, proc, ids), now, p, ids);
  }

  lemma OthersBesideIntake(env: Env, w: World, d: Db, now: Time, p: Id, ids: IntakeIds)
    requires Locked(env, w) && Can(env, w, now, CommitIntake(p, ids)) && !IntakeCollides(w.sys.db, w.intakes[p])
    requires d == IntakeWrites(w.sys.db, now, w.intakes[p], ids)
    ensures forall a {:trigger w.intakes[a]} | a in w.intakes && a != p :: IntakeOk(env, d, w.intakes[a])
    ensures forall q {:trigger w.approvals[q]} | q in w.approvals :: ApproveOk(d, w.approvals[q])
  {
    forall a | a in w.intakes && a != p
      ensures IntakeOk(env, d, w.intakes[a])
    {
      IntakeBesideIntake(env, w, now, p, a, ids);
    }
    forall q | q in w.approvals
      ensures ApproveOk(d, w.approvals[q])
    {
      ApproveBesideIntake(env, w, now, p, q, ids);
    }
  }

  lemma IntakeWritesFrame(env: Env, db: Db, now: Time, p: IntakeProc, ids: IntakeIds, i: Id)
    requires IntakeOk(env, db, p) && (p.phase.Targeted? || p.phase.Reserved?) && IntakeIdsNew(db, ids)
    requires !IntakeLocks(p, i)
    ensures RowKept(db, IntakeWrites(db, now, p, ids), i)
    ensures forall v :: ServiceKept(db, IntakeWrites(db, now, p, ids), v)
    ensures p.phase.Targeted? ==> ActiveJobs(IntakeWrites(db, now, p, ids)) == ActiveJobs(db)
  {}

  lemma IntakeBesideIntake(env: Env, w: World, now: Time, p: Id, a: Id, ids: IntakeIds)
    requires Locked(env, w) && Can(env, w, now, CommitIntake(p, ids)) && a in w.intakes && a != p
    ensures IntakeOk(env, IntakeWrites(w.sys.db, now, w.intakes[p], ids), w.intakes[a])
  {
    var one, other := w.intakes[p], w.intakes[a];
    var i := if other.phase.Targeted? then other.phase.target else ids.incident;
    IntakeWritesFrame(env, w.sys.db, now, one, ids, i);
    IntakeFrame(env, w.sys.db, IntakeWrites(w.sys.db, now, one, ids), other);
  }

  lemma ApproveBesideIntake(env: Env, w: World, now: Time, p: Id, q: Id, ids: IntakeIds)
    requires Locked(env, w) && Can(env, w, now, CommitIntake(p, ids)) && q in w.approvals
    ensures ApproveOk(IntakeWrites(w.sys.db, now, w.intakes[p], ids), w.approvals[q])
  {
    var one, other := w.intakes[p], w.approvals[q];
    if ApproveLocks(other, other.incident) {
      IntakeWritesFrame(env, w.sys.db, now, one, ids, other.incident);
    }
    ApproveFrame(w.sys.db, IntakeWrites(w.sys.db, now, one, ids), other);
  }

  lemma CommitApproveLocked(env: Env, w: World, now: Time, q: Id, ids: ApproveIds)
    requires Good(env, w.sys) && Locked(env, w) && Can(env, w, now, CommitApprove(q, ids))
    ensures Locked(env, Moves(env, w, now, CommitApprove(q, ids)))
  {
    var proc := w.approvals[q];
    if proc.key in w.sys.db.keyIndex {
      RefusedApproveLocked(env, w, now, q, ids);
    } else {
      CommittedApproveLocked(env, w, now, q, ids);
    }
  }

  lemma ApprovedFrame(db: Db, now: Time, i: Id, key: Id, ids: ApproveIds, k: Id)
    requires i in db.incidents && i in db.runs && k != i
    ensures RowKept(db, ApprovedDb(db, now, i, key, ids), k)
    ensures forall v :: ServiceKept(db, ApprovedDb(db, now, i, key, ids), v)
  {}

  lemma IntakeBesideApprove(env: Env, w: World, now: Time, q: Id, a: Id, ids: ApproveIds)
    requires Locked(env, w) && Can(env, w, now, CommitApprove(q, ids)) && a in w.intakes
    ensures w.approvals[q].incident in w.sys.db.incidents && w.approvals[q].incident in w.sys.db.runs
    ensures IntakeOk(env, ApprovedDb(w.sys.db, now, w.approvals[q].incident, w.approvals[q].key, ids), w.intakes[a])
  {
    var proc, other := w.approvals[q], w.intakes[a];
    assert !IntakeLocks(other, proc.incident);
    var k := if other.phase.Targeted? then other.phase.target else proc.incident + 1;
    ApprovedFrame(w.sys.db, now, proc.incident, proc.key, ids, k);
    IntakeFrame(env, w.sys.db, ApprovedDb(w.sys.db, now, proc.incident, proc.key, ids), other);
  }

  lemma ApproveBesideApprove(env: Env, w: World, now: Time, q: Id, b: Id, ids: ApproveIds)
    requires Locked(env, w) && Can(env, w, now, CommitApprove(q, ids)) && b in w.approvals && b != q
    ensures w.approvals[q].incident in w.sys.db.incidents && w.approvals[q].incident in w.sys.db.runs
    ensures ApproveOk(ApprovedDb(w.sys.db, now, w.approvals[q].incident, w.approvals[q].key, ids), w.approvals[b])
  {
    var proc, other := w.approvals[q], w.approvals[b];
    if ApproveLocks(other, other.incident) {
      ApprovedFrame(w.sys.db, now, proc.incident, proc.key, ids, other.incident);
    }
    ApproveFrame(w.sys.db, ApprovedDb(w.sys.db, now, proc.incident, proc.key, ids), other);
  }

  lemma RefusedApproveLocked(env: Env, w: World, now: Time, q: Id, ids: ApproveIds)
    requires Locked(env, w) && Can(env, w, now, CommitApprove(q, ids)) && w.approvals[q].key in w.sys.db.keyIndex
    ensures Locked(env, Moves(env, w, now, CommitApprove(q, ids)))
  {
    ReadApproveExclusive(w, q, ApproveRetry(w.approvals[q]));
  }

  lemma CommittedApproveLocked(env: Env, w: World, now: Time, q: Id, ids: ApproveIds)
    requires Locked(env, w) && Can(env, w, now, CommitApprove(q, ids)) && w.approvals[q].key !in w.sys.db.keyIndex
    ensures Locked(env, Moves(env, w, now, CommitApprove(q, ids)))
  {
    var proc := w.approvals[q];
    assert proc.incident in w.sys.db.incidents && proc.incident in w.sys.db.runs;
    var d := ApprovedDb(w.sys.db, now, proc.incident, proc.key, ids);
    ReadApproveExclusive(w, q, proc.(phase := Closed(Granted(ids.approval, ids.patch))));
    OthersBesideApprove(env, w, d, now, q, ids);
  }

  lemma OthersBesideApprove(env: Env, w: World, d: Db, now: Time, q: Id, ids: ApproveIds)
    requires Locked(env, w) && Can(env, w, now, CommitApprove(q, ids))
    requires w.approvals[q].incident in w.sys.db.incidents && w.approvals[q].incident in w.sys.db.runs
    requires d == ApprovedDb(w.sys.db, now, w.approvals[q].incident, w.approvals[q].key, ids)
    ensures forall a {:trigger w.intakes[a]} | a in w.intakes :: IntakeOk(env, d, w.intakes[a])
    ensures forall b {:trigger w.approvals[b]} | b in w.approvals && b != q :: ApproveOk(d, w.approvals[b])
  {
    forall a | a in w.intakes
      ensures IntakeOk(env, d, w.intakes[a])
    {
      IntakeBesideApprove(env, w, now, q, a, ids);
    }
    forall b | b in w.approvals && b != q
      ensures ApproveOk(d, w.approvals[b])
    {
      ApproveBesideApprove(env, w, now, q, b, ids);
    }
  }

  // ---- runs ----

  lemma MoveLocked(env: Env, w: World, now: Time, m: Move)
    requires Good(env, w.sys) && Locked(env, w) && Can(env, w, now, m)
    ensures Locked(env, Moves(env, w, now, m))
  {
    match m
    case Other(step) => OtherLocked(env, w, now, step);
    case ReadIntake(p, sha) => ReadIntakeLocked(env, w, now, p, sha);
    case CommitIntake(p, ids) => CommitIntakeLocked(env, w, now, p, ids);
    case ReadApprove(q) => ReadApproveLocked(env, w, now, q);
    case CommitApprove(q, ids) => CommitApproveLocked(env, w, now, q, ids);
  }

  lemma MoveGood(env: Env, w: World, now: Time, m: Move)
    requires Good(env, w.sys) && Locked(env, w) && Can(env, w, now, m)
    ensures Good(env, Moves(env, w, now, m).sys)
  {
    MoveIsSerial(env, w, now, m);
    if SerialStep(w, m).Some? {
      NextKeeps(env, w.sys, now, SerialStep(w, m).value);
    }
  }

  datatype Act = Act(now: Time, move: Move)

  ghost predicate Possible(env: Env, w: World, acts: seq<Act>)
    decreases |acts|
  {
    acts == [] ||
    (Can(env, w, acts[0].now, acts[0].move) && Possible(env, Moves(env, w, acts[0].now, acts[0].move), acts[1..]))
  }

  ghost function Final(env: Env, w: World, acts: seq<Act>): World
    requires Possible(env, w, acts)
    decreases |acts|
  {
    if acts == [] then w else Final(env, Moves(env, w, acts[0].now, acts[0].move), acts[1..])
  }

  /** The serial run of an interleaving: its commits in commit order. */
  ghost function Serialized(env: Env, w: World, acts: seq<Act>): seq<Event>
    requires Possible(env, w, acts)
    decreases |acts|
  {
    if acts == [] then []
    else
      var rest := Serialized(env, Moves(env, w, acts[0].now, acts[0].move), acts[1..]);
      var step := SerialStep(w, acts[0].move);
      if step.Some? then [Event(acts[0].now, step.value)] + rest else rest
  }

  /**
   * Any interleaving of concurrent intakes and approvals with workers, sweeps and syncs leaves the
   * system exactly where its commits, run one after the other as atomic transactions, leave it.
   */
  lemma {:induction false} InterleavingsSerialize(env: Env, w: World, acts: seq<Act>)
    requires Good(env, w.sys) && Locked(env, w) && Possible(env, w, acts)
    ensures Legal(env, w.sys, Serialized(env, w, acts))
    ensures End(env, w.sys, Serialized(env, w, acts)) == Final(env, w, acts).sys
    ensures Good(env, Final(env, w, acts).sys) && Locked(env, Final(env, w, acts))
    decreases |acts|
  {
    if acts != [] {
      var now, m := acts[0].now, acts[0].move;
      MoveIsSerial(env, w, now, m);
      MoveGood(env, w, now, m);
      MoveLocked(env, w, now, m);
      InterleavingsSerialize(env, Moves(env, w, now, m), acts[1..]);
      if SerialStep(w, m).Some? {
        assert Serialized(env, w, acts)[1..] == Serialized(env, Moves(env, w, now, m), acts[1..]);
      }
    }
  }

  /** Calls that have not begun hold nothing, so a world of new calls is where every run can start. */
  lemma NewCallsLocked(env: Env, w: World)
    requires forall p | p in w.intakes :: w.intakes[p].phase == Arrived
    requires forall q | q in w.approvals :: w.approvals[q].phase == Asked
    ensures Locked(env, w)
  {}

  // ---- one call ----

  predicate HasStored(p: IntakeProc) {
    p.phase.Over? && p.phase.end.Stored?
  }

  predicate HasGranted(q: ApproveProc) {
    q.phase.Closed? && q.phase.end.Granted?
  }

  /** The move commits rows for intake `p`. */
  ghost predicate StoresFor(w: World, m: Move, p: Id) {
    m.CommitIntake? && m.p == p && SerialStep(w, m).Some?
  }

  ghost predicate GrantsFor(w: World, m: Move, q: Id) {
    m.CommitApprove? && m.q == q && SerialStep(w, m).Some?
  }

  ghost function StoreCount(env: Env, w: World, acts: seq<Act>, p: Id): nat
    requires Possible(env, w, acts)
    decreases |acts|
  {
    if acts == [] then 0
    else (if StoresFor(w, acts[0].move, p) then 1 else 0) + StoreCount(env, Moves(env, w, acts[0].now, acts[0].move), acts[1..], p)
  }

  ghost function GrantCount(env: Env, w: World, acts: seq<Act>, q: Id): nat
    requires Possible(env, w, acts)
    decreases |acts|
  {
    if acts == [] then 0
    else (if GrantsFor(w, acts[0].move, q) then 1 else 0) + GrantCount(env, Moves(env, w, acts[0].now, acts[0].move), acts[1..], q)
  }

  /** At most three tries, and fewer before the call is over. */
  predicate TriesOk(p: IntakeProc) {
    p.tries <= TRIES && (!p.phase.Over? ==> p.tries < TRIES)
  }

  lemma IntakeMove(env: Env, w: World, now: Time, m: Move, p: Id)
    requires Can(env, w, now, m) && p in w.intakes && TriesOk(w.intakes[p])
    ensures p in Moves(env, w, now, m).intakes && TriesOk(Moves(env, w, now, m).intakes[p])
    ensures StoresFor(w, m, p) ==> !HasStored(w.intakes[p])
    ensures HasStored(Moves(env, w, now, m).intakes[p]) <==> HasStored(w.intakes[p]) || StoresFor(w, m, p)
  {}

  /** A call of `ingest` commits once if it ends as stored, and otherwise leaves no row; it never tries more than three times. */
  lemma {:induction false} IntakeAllOrNothing(env: Env, w: World, acts: seq<Act>, p: Id)
    requires Possible(env, w, acts) && p in w.intakes && TriesOk(w.intakes[p])
    ensures p in Final(env, w, acts).intakes && TriesOk(Final(env, w, acts).intakes[p])
    ensures StoreCount(env, w, acts, p) == if HasStored(Final(env, w, acts).intakes[p]) && !HasStored(w.intakes[p]) then 1 else 0
    ensures HasStored(w.intakes[p]) ==> HasStored(Final(env, w, acts).intakes[p])
    decreases |acts|
  {
    if acts != [] {
      IntakeMove(env, w, acts[0].now, acts[0].move, p);
      IntakeAllOrNothing(env, Moves(env, w, acts[0].now, acts[0].move), acts[1..], p);
    }
  }

  lemma ApproveMove(env: Env, w: World, now: Time, m: Move, q: Id)
    requires Locked(env, w) && Can(env, w, now, m) && q in w.approvals
    ensures q in Moves(env, w, now, m).approvals
    ensures GrantsFor(w, m, q) ==> !HasGranted(w.approvals[q])
    ensures HasGranted(Moves(env, w, now, m).approvals[q]) <==> HasGranted(w.approvals[q]) || GrantsFor(w, m, q)
  {}

  /** A call of `approve` commits once if it grants a new approval, and otherwise changes nothing. */
  lemma {:induction false} ApproveAllOrNothing(env: Env, w: World, acts: seq<Act>, q: Id)
    requires Good(env, w.sys) && Locked(env, w) && Possible(env, w, acts) && q in w.approvals
    ensures q in Final(env, w, acts).approvals
    ensures GrantCount(env, w, acts, q) == if HasGranted(Final(env, w, acts).approvals[q]) && !HasGranted(w.approvals[q]) then 1 else 0
    ensures HasGranted(w.approvals[q]) ==> HasGranted(Final(env, w, acts).approvals[q])
    decreases |acts|
  {
    if acts != [] {
      ApproveMove(env, w, acts[0].now, acts[0].move, q);
      MoveGood(env, w, acts[0].now, acts[0].move);
      MoveLocked(env, w, acts[0].now, acts[0].move);
      ApproveAllOrNothing(env, Moves(env, w, acts[0].now, acts[0].move), acts[1..], q);
    }
  }
}
