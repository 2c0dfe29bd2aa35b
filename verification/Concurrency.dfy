/**
 * Intake and approval as they really run: several reads, then a commit that a unique index may
 * refuse, with retries, interleaved with each other and with every step of `Protocol`.
 *
 * A read holds the row lock its query takes (`FOR UPDATE`, `FOR SHARE`, the advisory lock of the
 * job limit) until its transaction ends; a step that needs a held lock has to wait. Everything
 * else may move between two reads.
 */
module Concurrency {
  import opened Base
  import opened Schema
  import opened Slices
  import opened Transactions
  import opened Coherence
  import opened JobSteps
  import opened IntakeSteps
  import opened Protocol
  import opened ProtocolSafety
  import opened Workflow
  import opened Fencing

  const TRIES: nat := 3

  datatype IntakeEnd = Answer(reply: IntakeReply) | Stored(incident: Id, state: IncidentState) | BadCommit | Unsettled

  /** Where a call of `ingest` stands. */
  datatype IntakePhase =
    | Arrived
    | Found
    | Resolved
    | ServiceHeld
    | NewHere
    | NoneOpen
    | Targeted(target: Id, count: int, state: IncidentState)
    | Reserved
    | Over(end: IntakeEnd)

  /** `service` is filled by the first read, `sha` by git, `tries` by the retry loop. */
  datatype IntakeProc = IntakeProc(key: string, call: Intake, tries: nat, phase: IntakePhase)

  datatype ApproveEnd = Reply(reply: ApproveReply) | Granted(approval: Id, patch: Id) | IntegrityEscapes

  /** Where a call of `approve` stands. */
  datatype ApprovePhase = Asked | RowHeld | KeyFree | Approvable | Slotted | Refused | Closed(end: ApproveEnd)

  datatype ApproveProc = ApproveProc(incident: Id, key: Id, second: bool, phase: ApprovePhase)

  datatype World = World(sys: Sys, intakes: map<Id, IntakeProc>, approvals: map<Id, ApproveProc>)

  datatype Move =
    | Other(step: Step)
    | ReadIntake(p: Id, sha: Option<string>)
    | CommitIntake(p: Id, intakeIds: IntakeIds)
    | ReadApprove(q: Id)
    | CommitApprove(q: Id, approveIds: ApproveIds)

  // ---- locks ----

  predicate HoldsService(p: IntakeProc, v: Id) {
    p.call.service == v && (p.phase.ServiceHeld? || p.phase.NewHere? || p.phase.NoneOpen? || p.phase.Targeted? || p.phase.Reserved?)
  }

  predicate IntakeLocks(p: IntakeProc, i: Id) {
    p.phase.Targeted? && p.phase.target == i
  }

  predicate ApproveLocks(q: ApproveProc, i: Id) {
    q.incident == i && (q.phase.RowHeld? || q.phase.KeyFree? || q.phase.Approvable? || q.phase.Slotted?)
  }

  ghost predicate RowLocked(w: World, i: Id) {
    (exists p :: p in w.intakes && IntakeLocks(w.intakes[p], i)) || (exists q :: q in w.approvals && ApproveLocks(w.approvals[q], i))
  }

  ghost predicate SlotHeld(w: World) {
    (exists p :: p in w.intakes && w.intakes[p].phase.Reserved?) || (exists q :: q in w.approvals && w.approvals[q].phase.Slotted?)
  }

  ghost predicate ServiceHeldBySome(w: World, v: Id) {
    exists p :: p in w.intakes && HoldsService(w.intakes[p], v)
  }

  // ---- one read of intake ----

  function IntakeOver(p: IntakeProc, reply: IntakeReply): IntakeProc {
    p.(phase := Over(Answer(reply)))
  }

  /** The reads of `ingest` and `_ingest_resolved`, one query each, in the order of the code. */
  ghost function IntakeRead(db: Db, p: IntakeProc, sha: Option<string>): IntakeProc {
    match p.phase
    case Arrived =>
      if p.key !in db.serviceIndex || db.serviceIndex[p.key] !in db.services || !db.services[db.serviceIndex[p.key]].active then
        IntakeOver(p, UnknownService)
      else
        var v := db.serviceIndex[p.key];
        var call := p.call.(service := v, path := db.services[v].path);
        if Duplicate(db, call).Some? then IntakeOver(p.(call := call), Duplicate(db, call).value)
        else p.(call := call, phase := Found)
    case Found =>
      if sha.None? then p.(phase := Over(BadCommit)) else p.(call := p.call.(sha := sha.value), phase := Resolved)
    case Resolved =>
      if p.call.service !in db.services || !db.services[p.call.service].active then IntakeOver(p, UnknownService)
      else p.(phase := ServiceHeld)
    case ServiceHeld =>
      if Duplicate(db, p.call).Some? then IntakeOver(p, Duplicate(db, p.call).value)
      else if p.call.service in db.services && db.services[p.call.service].path != p.call.path then IntakeOver(p, RepositoryChanged)
      else p.(phase := NewHere)
    case NewHere =>
      var i := OpenIncident(db, p.call.service, p.call.fingerprint, p.call.sha);
      if i.None? then p.(phase := NoneOpen)
      else p.(phase := Targeted(i.value, db.incidents[i.value].count, db.incidents[i.value].state))
    case NoneOpen =>
      if |ActiveJobs(db)| >= JOB_LIMIT then IntakeOver(p, Full) else p.(phase := Reserved)
    case _ => p
  }

  ghost predicate CanReadIntake(env: Env, w: World, p: IntakeProc, sha: Option<string>) {
    match p.phase
    case Arrived => true
    case Found => sha.Some? ==> env.resolve(p.call.path).Some? && env.isCommit(env.resolve(p.call.path).value, sha.value)
    case Resolved => true
    case ServiceHeld => true
    case NewHere =>
      var i := OpenIncident(w.sys.db, p.call.service, p.call.fingerprint, p.call.sha);
      i.Some? ==> !RowLocked(w, i.value)
    case NoneOpen => !SlotHeld(w)
    case _ => false
  }

  // ---- the commit of intake ----

  /** A unique index refuses one of the inserts. */
  ghost predicate IntakeCollides(db: Db, p: IntakeProc) {
    || EventKey(p.call.service, p.call.event) in db.events
    || (p.phase.Reserved? && OpenIncident(db, p.call.service, p.call.fingerprint, p.call.sha).Some?)
  }

  /** What the transaction writes: rows it prepared from its own reads. */
  function IntakeWrites(db: Db, now: Time, p: IntakeProc, ids: IntakeIds): Db {
    if p.phase.Targeted? then
      var i := p.phase.target;
      if i !in db.incidents then db
      else Recorded(db, now, p.call, ids, i).(incidents := db.incidents[i := db.incidents[i].(count := p.phase.count + 1)])
    else OpenedNew(db, now, p.call, ids)
  }

  function IntakeCommitted(p: IntakeProc, ids: IntakeIds): IntakeProc {
    p.(phase := Over(if p.phase.Targeted? then Stored(p.phase.target, p.phase.state) else Stored(ids.incident, Received)))
  }

  function IntakeRetry(p: IntakeProc): IntakeProc {
    if p.tries + 1 < TRIES then p.(tries := p.tries + 1, phase := Resolved) else p.(tries := p.tries + 1, phase := Over(Unsettled))
  }

  // ---- approval ----

  function ApproveOver(q: ApproveProc, reply: ApproveReply): ApproveProc {
    q.(phase := Closed(Reply(reply)))
  }

  /** The reads of `_approve_once`, and the look after a refused insert, in the order of the code. */
  function ApproveRead(db: Db, q: ApproveProc): ApproveProc {
    var i := q.incident;
    match q.phase
    case Asked => if i !in db.incidents then ApproveOver(q, NotFound) else q.(phase := RowHeld)
    case RowHeld =>
      if q.key !in db.keyIndex then q.(phase := KeyFree)
      else if db.keyIndex[q.key] != i then ApproveOver(q, KeyElsewhere)
      else if i !in db.approvals || i !in db.patchRuns || db.patchRuns[i].approval != db.approvals[i].id then ApproveOver(q, NoPatchRun)
      else ApproveOver(q, Approved(db.approvals[i].id, db.patchRuns[i].id, true))
    case KeyFree =>
      if i !in db.incidents || db.incidents[i].state != AwaitingApproval then ApproveOver(q, NotAwaiting)
      else if !ApprovableRun(db, i) then ApproveOver(q, ShaMismatch)
      else if i in db.approvals then ApproveOver(q, AlreadyApproved)
      else q.(phase := Approvable)
    case Approvable => if |ActiveJobs(db)| >= JOB_LIMIT then ApproveOver(q, QueueFull) else q.(phase := Slotted)
    case Refused =>
      if q.key in db.keyIndex && db.keyIndex[q.key] != i then ApproveOver(q, KeyElsewhere) else q.(second := true, phase := Asked)
    case _ => q
  }

  ghost predicate CanReadApprove(w: World, q: ApproveProc) {
    match q.phase
    case Asked => !RowLocked(w, q.incident)
    case RowHeld => true
    case KeyFree => true
    case Approvable => !SlotHeld(w)
    case Refused => true
    case _ => false
  }

  function ApproveRetry(q: ApproveProc): ApproveProc {
    if q.second then q.(phase := Closed(IntegrityEscapes)) else q.(phase := Refused)
  }

  // ---- the machine ----

  /** A step of the rest of the system that does not write under a held lock. */
  ghost predicate Unlocked(w: World, now: Time, step: Step) {
    var tx := TxOf(w.sys, step);
    tx.Some? ==>
      && !tx.value.Ingest? && !tx.value.Approve?
      && (forall i :: RowLocked(w, i) ==> !Hits(w.sys.db, now, tx.value, i))
      && (tx.value.Sync? ==> forall e, v :: e in tx.value.entries && e.key in w.sys.db.serviceIndex && w.sys.db.serviceIndex[e.key] == v ==> !ServiceHeldBySome(w, v))
  }

  ghost predicate Can(env: Env, w: World, now: Time, m: Move) {
    && w.sys.clock <= now
    && match m
       case Other(step) => Enabled(env, w.sys, now, step) && Unlocked(w, now, step)
       case ReadIntake(p, sha) => p in w.intakes && CanReadIntake(env, w, w.intakes[p], sha)
       case CommitIntake(p, ids) => p in w.intakes && (w.intakes[p].phase.Targeted? || w.intakes[p].phase.Reserved?) && IntakeIdsNew(w.sys.db, ids)
       case ReadApprove(q) => q in w.approvals && CanReadApprove(w, w.approvals[q])
       case CommitApprove(q, ids) => q in w.approvals && w.approvals[q].phase.Slotted? && ApproveIdsNew(w.sys.db, ids)
  }

  /** The serial step a move stands for, None for a move that commits nothing. */
  ghost function SerialStep(w: World, m: Move): Option<Step> {
    match m
    case Other(step) => Some(step)
    case CommitIntake(p, ids) =>
      if p in w.intakes && !IntakeCollides(w.sys.db, w.intakes[p]) then Some(Server(Ingest(w.intakes[p].call, ids))) else None
    case CommitApprove(q, ids) =>
      if q in w.approvals && w.approvals[q].key !in w.sys.db.keyIndex then
        Some(Server(Approve(w.approvals[q].incident, w.approvals[q].key, ids)))
      else None
    case _ => None
  }

  ghost function Moves(env: Env, w: World, now: Time, m: Move): World
    requires Can(env, w, now, m)
  {
    match m
    case Other(step) => w.(sys := Next(env, w.sys, now, step))
    case ReadIntake(p, sha) => w.(intakes := w.intakes[p := IntakeRead(w.sys.db, w.intakes[p], sha)])
    case CommitIntake(p, ids) =>
      var proc := w.intakes[p];
      if IntakeCollides(w.sys.db, proc) then w.(intakes := w.intakes[p := IntakeRetry(proc)])
      else w.(sys := w.sys.(clock := now, db := IntakeWrites(w.sys.db, now, proc, ids)), intakes := w.intakes[p := IntakeCommitted(proc, ids)])
    case ReadApprove(q) => w.(approvals := w.approvals[q := ApproveRead(w.sys.db, w.approvals[q])])
    case CommitApprove(q, ids) =>
      var proc := w.approvals[q];
      if proc.key in w.sys.db.keyIndex || proc.incident !in w.sys.db.incidents || proc.incident !in w.sys.db.runs then w.(approvals := w.approvals[q := ApproveRetry(proc)])
      else
        w.(sys := w.sys.(clock := now, db := ApprovedDb(w.sys.db, now, proc.incident, proc.key, ids)),
           approvals := w.approvals[q := proc.(phase := Closed(Granted(ids.approval, ids.patch)))])
  }

  // ---- what the locks preserve ----

  ghost predicate IntakeOk(env: Env, db: Db, p: IntakeProc) {
    && (!p.phase.Arrived? && !p.phase.Found? && !p.phase.Over? ==>
          env.resolve(p.call.path).Some? && env.isCommit(env.resolve(p.call.path).value, p.call.sha))
    && (HoldsService(p, p.call.service) ==> p.call.service in db.services && db.services[p.call.service].active)
    && (p.phase.NewHere? || p.phase.NoneOpen? || p.phase.Targeted? || p.phase.Reserved? ==>
          p.call.service in db.services && db.services[p.call.service].path == p.call.path)
    && (p.phase.Targeted? ==> Groups(db, p.phase.target, p.call.service, p.call.fingerprint, p.call.sha)
                              && db.incidents[p.phase.target].count == p.phase.count
                              && db.incidents[p.phase.target].state == p.phase.state)
    && (p.phase.Reserved? ==> |ActiveJobs(db)| < JOB_LIMIT)
  }

  ghost predicate ApproveOk(db: Db, q: ApproveProc) {
    && (ApproveLocks(q, q.incident) ==> q.incident in db.incidents)
    && (q.phase.Approvable? || q.phase.Slotted? ==>
          q.incident in db.incidents && db.incidents[q.incident].state == AwaitingApproval
          && ApprovableRun(db, q.incident) && q.incident !in db.approvals)
    && (q.phase.Slotted? ==> |ActiveJobs(db)| < JOB_LIMIT)
  }

  /** No two transactions hold the same exclusive lock. */
  ghost predicate Exclusive(w: World) {
    && (forall a, b, i | a in w.intakes && b in w.intakes && IntakeLocks(w.intakes[a], i) && IntakeLocks(w.intakes[b], i) :: a == b)
    && (forall a, b, i | a in w.approvals && b in w.approvals && ApproveLocks(w.approvals[a], i) && ApproveLocks(w.approvals[b], i) :: a == b)
    && (forall a, b, i | a in w.intakes && b in w.approvals :: !(IntakeLocks(w.intakes[a], i) && ApproveLocks(w.approvals[b], i)))
    && (forall a, b | a in w.intakes && b in w.intakes && w.intakes[a].phase.Reserved? && w.intakes[b].phase.Reserved? :: a == b)
    && (forall a, b | a in w.approvals && b in w.approvals && w.approvals[a].phase.Slotted? && w.approvals[b].phase.Slotted? :: a == b)
    && (forall a, b | a in w.intakes && b in w.approvals :: !(w.intakes[a].phase.Reserved? && w.approvals[b].phase.Slotted?))
  }

  ghost predicate Locked(env: Env, w: World) {
    && (forall p {:trigger w.intakes[p]} | p in w.intakes :: IntakeOk(env, w.sys.db, w.intakes[p]))
    && (forall q {:trigger w.approvals[q]} | q in w.approvals :: ApproveOk(w.sys.db, w.approvals[q]))
    && Exclusive(w)
  }

  // ---- the commits are atomic transactions ----

  /** A commit that no index refuses writes exactly what one atomic ingest would, and answers the same. */
  lemma IntakeIsAtomic(env: Env, db: Db, now: Time, p: IntakeProc, ids: IntakeIds)
    requires Coherent(env, db) && IntakeOk(env, db, p) && (p.phase.Targeted? || p.phase.Reserved?)
    requires IntakeIdsNew(db, ids) && !IntakeCollides(db, p)
    ensures IntakeWrites(db, now, p, ids) == IngestDb(db, now, p.call, ids)
    ensures var reply, end := IngestReply(db, p.call, ids), IntakeCommitted(p, ids).phase.end;
            reply.Accepted? && !reply.duplicate && end == Stored(reply.incident, reply.state)
    ensures Ready(env, db, now, Ingest(p.call, ids))
  {
    if p.phase.Targeted? {
      AppendIsAtomic(env, db, now, p, ids);
    } else {
      OpeningIsAtomic(env, db, now, p, ids);
    }
  }

  lemma AppendIsAtomic(env: Env, db: Db, now: Time, p: IntakeProc, ids: IntakeIds)
    requires OneOpen(db) && IntakeOk(env, db, p) && p.phase.Targeted? && !IntakeCollides(db, p)
    ensures IntakeWrites(db, now, p, ids) == IngestDb(db, now, p.call, ids)
    ensures IngestReply(db, p.call, ids) == Accepted(p.phase.target, p.phase.state, false)
  {
    OpenIncidentIs(db, p.phase.target, p.call.service, p.call.fingerprint, p.call.sha);
  }

  lemma OpeningIsAtomic(env: Env, db: Db, now: Time, p: IntakeProc, ids: IntakeIds)
    requires IntakeOk(env, db, p) && p.phase.Reserved? && !IntakeCollides(db, p)
    ensures IntakeWrites(db, now, p, ids) == IngestDb(db, now, p.call, ids)
    ensures IngestReply(db, p.call, ids) == Accepted(ids.incident, Received, false)
  {}

  /** A commit that no index refuses writes exactly what one atomic approval would. */
  lemma ApprovalIsAtomic(db: Db, now: Time, q: ApproveProc, ids: ApproveIds)
    requires ApproveOk(db, q) && q.phase.Slotted? && q.key !in db.keyIndex
    ensures ApproveDb(db, now, q.incident, q.key, ids) == ApprovedDb(db, now, q.incident, q.key, ids)
    ensures Decide(db, q.incident, q.key, ids) == Approved(ids.approval, ids.patch, false)
  {}

  lemma IntakeMoveIsSerial(env: Env, w: World, now: Time, p: Id, ids: IntakeIds)
    requires Good(env, w.sys) && Locked(env, w) && Can(env, w, now, CommitIntake(p, ids)) && !IntakeCollides(w.sys.db, w.intakes[p])
    ensures Enabled(env, w.sys, now, Server(Ingest(w.intakes[p].call, ids)))
    ensures Moves(env, w, now, CommitIntake(p, ids)).sys == Next(env, w.sys, now, Server(Ingest(w.intakes[p].call, ids)))
  {
    IntakeIsAtomic(env, w.sys.db, now, w.intakes[p], ids);
  }

  lemma ApproveMoveIsSerial(env: Env, w: World, now: Time, q: Id, ids: ApproveIds)
    requires Locked(env, w) && Can(env, w, now, CommitApprove(q, ids)) && w.approvals[q].key !in w.sys.db.keyIndex
    ensures Enabled(env, w.sys, now, Server(Approve(w.approvals[q].incident, w.approvals[q].key, ids)))
    ensures Moves(env, w, now, CommitApprove(q, ids)).sys == Next(env, w.sys, now, Server(Approve(w.approvals[q].incident, w.approvals[q].key, ids)))
  {
    ApprovalIsAtomic(w.sys.db, now, w.approvals[q], ids);
  }

  /** Every move is one step of the serial system or leaves the database alone. */
  lemma MoveIsSerial(env: Env, w: World, now: Time, m: Move)
    requires Good(env, w.sys) && Locked(env, w) && Can(env, w, now, m)
    ensures var step := SerialStep(w, m);
            if step.Some? then Enabled(env, w.sys, now, step.value) && Moves(env, w, now, m).sys == Next(env, w.sys, now, step.value)
            else Moves(env, w, now, m).sys == w.sys
  {
    match m
    case CommitIntake(p, ids) =>
      if !IntakeCollides(w.sys.db, w.intakes[p]) {
        IntakeMoveIsSerial(env, w, now, p, ids);
      }
    case CommitApprove(q, ids) =>
      if w.approvals[q].key !in w.sys.db.keyIndex {
        ApproveMoveIsSerial(env, w, now, q, ids);
      }
    case _ =>
  }
}
