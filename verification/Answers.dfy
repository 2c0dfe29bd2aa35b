/**
 * What the answers of intake and approval say about the tables: each refusal reports a fact that
 * holds when it is decided, and each success names rows that are there at the end of every run.
 */
module Answers {
  import opened Base
  import opened Schema
  import opened Slices
  import opened Transactions
  import opened Coherence
  import opened IntakeSteps
  import opened Protocol
  import opened ProtocolSafety
  import opened Workflow
  import opened Concurrency
  import opened ConcurrencySafety
  import O = Once

  /** At least 100 jobs are waiting or running. */
  predicate NoCapacity(db: Db) {
    |set j | j in db.jobs && (db.jobs[j].status == Pending || db.jobs[j].status == Running)| >= 100
  }

  lemma CapacityExactly(db: Db)
    ensures NoCapacity(db) <==> |ActiveJobs(db)| >= JOB_LIMIT
  {
    assert ActiveJobs(db) == set j | j in db.jobs && (db.jobs[j].status == Pending || db.jobs[j].status == Running);
  }

  // ---- approve ----

  /** The key, the approval and the patch run of the incident are the named ones. */
  predicate ApprovedAs(db: Db, i: Id, key: Id, approval: Id, patch: Id) {
    && key in db.keyIndex && db.keyIndex[key] == i
    && i in db.approvals && db.approvals[i].id == approval && db.approvals[i].key == key
    && i in db.patchRuns && db.patchRuns[i].id == patch && db.patchRuns[i].approval == approval
  }

  /** What an answer that grants nothing new tells the caller. */
  predicate TellsApprove(db: Db, i: Id, key: Id, reply: ApproveReply) {
    match reply
    case Approved(approval, patch, duplicate) => duplicate && ApprovedAs(db, i, key, approval, patch)
    case NotFound => i !in db.incidents
    case KeyElsewhere => key in db.keyIndex && db.keyIndex[key] != i && db.keyIndex[key] in db.approvals && db.approvals[db.keyIndex[key]].key == key
    case NotAwaiting => i in db.incidents && db.incidents[i].state != AwaitingApproval
    case QueueFull => NoCapacity(db)
    case _ => false
  }

  /** The rows of an approved incident are complete, and one that awaits approval can be approved. */
  lemma ApprovedRows(env: Env, db: Db, i: Id)
    requires Coherent(env, db) && i in db.incidents
    ensures i in db.approvals ==> i in db.patchRuns && db.patchRuns[i].approval == db.approvals[i].id
    ensures db.incidents[i].state == AwaitingApproval ==> ApprovableRun(db, i) && i !in db.approvals
  {
    assert SliceOk(SliceOf(db, i));
  }

  /** One atomic approval: it grants exactly an awaiting incident under a new key with capacity, and else says why not. */
  lemma DecidesExactly(env: Env, db: Db, i: Id, key: Id, ids: ApproveIds)
    requires Coherent(env, db)
    ensures Decide(db, i, key, ids) == Approved(ids.approval, ids.patch, false) || TellsApprove(db, i, key, Decide(db, i, key, ids))
    ensures i in db.incidents && db.incidents[i].state == AwaitingApproval && key !in db.keyIndex && !NoCapacity(db)
            <==> Decide(db, i, key, ids) == Approved(ids.approval, ids.patch, false)
  {
    CapacityExactly(db);
    if i in db.incidents {
      ApprovedRows(env, db, i);
    }
    assert key in db.keyIndex ==> db.keyIndex[key] in db.approvals && db.approvals[db.keyIndex[key]].key == key;
  }

  /** A read that ends the call answers with a fact of the tables it reads. */
  lemma ApproveReadTells(env: Env, db: Db, q: ApproveProc)
    requires Coherent(env, db) && ApproveOk(db, q) && !q.phase.Closed? && ApproveRead(db, q).phase.Closed?
    ensures ApproveRead(db, q).phase.end.Reply? && TellsApprove(db, q.incident, q.key, ApproveRead(db, q).phase.end.reply)
    ensures ApproveRead(db, q).incident == q.incident && ApproveRead(db, q).key == q.key
  {
    if q.phase.KeyFree? {
      StateReadTells(env, db, q);
    } else if q.phase.Approvable? {
      CapacityReadTells(db, q);
    } else {
      KeyReadTells(env, db, q);
    }
    ReadKeepsCall(db, q);
  }

  /** Which facts of the tables end the call, read by read. */
  lemma ApproveReadEnds(env: Env, db: Db, q: ApproveProc)
    requires Coherent(env, db) && ApproveOk(db, q) && !q.phase.Closed?
    ensures ApproveRead(db, q).phase.Closed? <==>
            match q.phase
            case Asked => q.incident !in db.incidents
            case RowHeld => q.key in db.keyIndex
            case KeyFree => db.incidents[q.incident].state != AwaitingApproval
            case Approvable => NoCapacity(db)
            case Refused => q.key in db.keyIndex && db.keyIndex[q.key] != q.incident
            case _ => false
  {
    if q.phase.KeyFree? {
      ApprovedRows(env, db, q.incident);
    }
    CapacityExactly(db);
  }

  lemma ReadKeepsCall(db: Db, q: ApproveProc)
    ensures ApproveRead(db, q).incident == q.incident && ApproveRead(db, q).key == q.key
  {}

  lemma CapacityReadTells(db: Db, q: ApproveProc)
    requires q.phase.Approvable? && ApproveRead(db, q).phase.Closed?
    ensures ApproveRead(db, q).phase.end.Reply? && TellsApprove(db, q.incident, q.key, ApproveRead(db, q).phase.end.reply)
  {
    CapacityExactly(db);
  }

  lemma StateReadTells(env: Env, db: Db, q: ApproveProc)
    requires Coherent(env, db) && ApproveOk(db, q) && q.phase.KeyFree? && ApproveRead(db, q).phase.Closed?
    ensures ApproveRead(db, q).phase.end.Reply? && TellsApprove(db, q.incident, q.key, ApproveRead(db, q).phase.end.reply)
  {
    ApprovedRows(env, db, q.incident);
  }

  lemma KeyReadTells(env: Env, db: Db, q: ApproveProc)
    requires Coherent(env, db) && !q.phase.KeyFree? && !q.phase.Approvable? && !q.phase.Closed? && ApproveRead(db, q).phase.Closed?
    ensures ApproveRead(db, q).phase.end.Reply? && TellsApprove(db, q.incident, q.key, ApproveRead(db, q).phase.end.reply)
  {
    if !q.phase.Asked? {
      KeyRow(env, db, q.key);
    }
  }

  /** A used key leads to a complete approval. */
  lemma KeyRow(env: Env, db: Db, key: Id)
    requires Coherent(env, db) && key in db.keyIndex
    ensures db.keyIndex[key] in db.approvals && db.approvals[db.keyIndex[key]].key == key
    ensures db.keyIndex[key] in db.patchRuns && db.patchRuns[db.keyIndex[key]].approval == db.approvals[db.keyIndex[key]].id
  {
    ApprovedRows(env, db, db.keyIndex[key]);
  }

  /** A call that answered with an approval and a patch run answered with those on record. */
  ghost predicate Names(db: Db, q: ApproveProc) {
    && (q.phase.Closed? && q.phase.end.Reply? && q.phase.end.reply.Approved? ==>
          ApprovedAs(db, q.incident, q.key, q.phase.end.reply.approval, q.phase.end.reply.patch))
    && (q.phase.Closed? && q.phase.end.Granted? ==> ApprovedAs(db, q.incident, q.key, q.phase.end.approval, q.phase.end.patch))
  }

  /** Keys, approvals and the identity of patch runs stay. */
  ghost predicate KeepsApprovals(db: Db, d: Db) {
    && (forall key | key in db.keyIndex :: key in d.keyIndex && d.keyIndex[key] == db.keyIndex[key])
    && (forall i | i in db.approvals :: i in d.approvals && d.approvals[i] == db.approvals[i])
    && (forall i | i in db.patchRuns :: i in d.patchRuns && d.patchRuns[i].id == db.patchRuns[i].id && d.patchRuns[i].approval == db.patchRuns[i].approval)
  }

  lemma StepKeepsApprovals(env: Env, s: Sys, now: Time, step: Step)
    requires Good(env, s) && Enabled(env, s, now, step)
    ensures KeepsApprovals(s.db, Next(env, s, now, step).db)
  {
    var d := Next(env, s, now, step).db;
    forall i | i in s.db.patchRuns
      ensures i in d.patchRuns && d.patchRuns[i].id == s.db.patchRuns[i].id && d.patchRuns[i].approval == s.db.patchRuns[i].approval
    {
      StepFollows(env, s, now, step, i);
      PatchFollows(s.db, d, i);
    }
    if TxOf(s, step).Some? {
      StepTxReady(env, s, now, step);
      O.TxInserts(env, s.db, now, TxOf(s, step).value);
    }
  }

  lemma PatchFollows(db: Db, d: Db, i: Id)
    requires i in db.patchRuns && (Follows(db, d, i, true) || Follows(db, d, i, false))
    ensures i in d.patchRuns && d.patchRuns[i].id == db.patchRuns[i].id && d.patchRuns[i].approval == db.patchRuns[i].approval
  {
    assert SliceOf(db, i).patch == Some(db.patchRuns[i]);
  }

  lemma MoveKeepsApprovals(env: Env, w: World, now: Time, m: Move)
    requires Good(env, w.sys) && Locked(env, w) && Can(env, w, now, m)
    ensures KeepsApprovals(w.sys.db, Moves(env, w, now, m).sys.db)
  {
    MoveIsSerial(env, w, now, m);
    if SerialStep(w, m).Some? {
      StepKeepsApprovals(env, w.sys, now, SerialStep(w, m).value);
    }
  }

  lemma NamesKept(db: Db, d: Db, q: ApproveProc)
    requires Names(db, q) && KeepsApprovals(db, d)
    ensures Names(d, q)
  {}

  lemma ReadNames(env: Env, db: Db, q: ApproveProc)
    requires Coherent(env, db) && ApproveOk(db, q) && Names(db, q)
    ensures Names(db, ApproveRead(db, q))
  {
    if !q.phase.Closed? && ApproveRead(db, q).phase.Closed? {
      ApproveReadTells(env, db, q);
    }
  }

  lemma CommitNames(env: Env, w: World, now: Time, q: Id, ids: ApproveIds)
    requires Can(env, w, now, CommitApprove(q, ids))
    ensures q in Moves(env, w, now, CommitApprove(q, ids)).approvals
    ensures Names(Moves(env, w, now, CommitApprove(q, ids)).sys.db, Moves(env, w, now, CommitApprove(q, ids)).approvals[q])
  {}

  lemma OtherNames(env: Env, w: World, now: Time, m: Move, q: Id)
    requires Can(env, w, now, m) && q in w.approvals && !(m.ReadApprove? && m.q == q) && !(m.CommitApprove? && m.q == q)
    ensures q in Moves(env, w, now, m).approvals && Moves(env, w, now, m).approvals[q] == w.approvals[q]
  {}

  lemma MoveNames(env: Env, w: World, now: Time, m: Move, q: Id)
    requires Good(env, w.sys) && Locked(env, w) && Can(env, w, now, m) && q in w.approvals && Names(w.sys.db, w.approvals[q])
    ensures q in Moves(env, w, now, m).approvals && Names(Moves(env, w, now, m).sys.db, Moves(env, w, now, m).approvals[q])
  {
    if m.CommitApprove? && m.q == q {
      CommitNames(env, w, now, q, m.approveIds);
    } else if m.ReadApprove? && m.q == q {
      ReadNames(env, w.sys.db, w.approvals[q]);
    } else {
      OtherNames(env, w, now, m, q);
      MoveKeepsApprovals(env, w, now, m);
      NamesKept(w.sys.db, Moves(env, w, now, m).sys.db, w.approvals[q]);
    }
  }

  /** Over every interleaving, what a call of `approve` answered is what the tables hold under its key at the end. */
  lemma {:induction false} ApprovalsAreOnRecord(env: Env, w: World, acts: seq<Act>, q: Id)
    requires Good(env, w.sys) && Locked(env, w) && Possible(env, w, acts) && q in w.approvals && Names(w.sys.db, w.approvals[q])
    ensures q in Final(env, w, acts).approvals && Names(Final(env, w, acts).sys.db, Final(env, w, acts).approvals[q])
    decreases |acts|
  {
    if acts != [] {
      var now, m := acts[0].now, acts[0].move;
      MoveNames(env, w, now, m, q);
      MoveLocked(env, w, now, m);
      MoveGood(env, w, now, m);
      ApprovalsAreOnRecord(env, Moves(env, w, now, m), acts[1..], q);
    }
  }

  // ---- ingest ----

  /** The event is on record with this payload, and its occurrence is on the incident. */
  predicate ReceivedAs(db: Db, call: Intake, i: Id) {
    var key := EventKey(call.service, call.event);
    && key in db.events && db.events[key].checksum == call.checksum
    && db.events[key].id in db.occurrences && db.occurrences[db.events[key].id].incident == i && i in db.incidents
  }

  /** What an answer that stores nothing tells the sender. */
  predicate TellsIntake(db: Db, call: Intake, reply: IntakeReply) {
    match reply
    case Accepted(i, st, duplicate) => duplicate && ReceivedAs(db, call, i) && db.incidents[i].state == st
    case ChecksumConflict => EventKey(call.service, call.event) in db.events && db.events[EventKey(call.service, call.event)].checksum != call.checksum
    case RepositoryChanged => call.service in db.services && db.services[call.service].path != call.path
    case Full => NoCapacity(db)
    case UnknownService => call.service !in db.services || !db.services[call.service].active
    case NoIncident => false
  }

  /** An open incident groups the call. */
  predicate GroupOpen(db: Db, call: Intake) {
    exists i :: i in db.incidents && db.incidents[i].state !in {AnalysisFailed, PatchReady, PatchFailed}
                && db.incidents[i].service == call.service && db.incidents[i].fingerprint == call.fingerprint && db.incidents[i].sha == call.sha
  }

  lemma GroupExactly(db: Db, call: Intake)
    ensures GroupOpen(db, call) <==> OpenIncident(db, call.service, call.fingerprint, call.sha).Some?
  {
    forall i | i in db.incidents
      ensures Open(db.incidents[i].state) <==> db.incidents[i].state !in {AnalysisFailed, PatchReady, PatchFailed}
    {
      O.OpenExactly(db.incidents[i].state);
    }
    if i :| i in db.incidents && db.incidents[i].state !in {AnalysisFailed, PatchReady, PatchFailed}
            && db.incidents[i].service == call.service && db.incidents[i].fingerprint == call.fingerprint && db.incidents[i].sha == call.sha {
      assert Groups(db, i, call.service, call.fingerprint, call.sha);
    }
  }

  lemma DuplicateTells(env: Env, db: Db, call: Intake)
    requires Coherent(env, db) && Duplicate(db, call).Some?
    ensures TellsIntake(db, call, Duplicate(db, call).value)
  {
    assert EventPlaced(db, EventKey(call.service, call.event));
  }

  /** One atomic intake: when it stores a new report, on which incident, and else why not. */
  lemma IngestsExactly(env: Env, db: Db, call: Intake, ids: IntakeIds)
    requires Coherent(env, db)
    ensures var reply := IngestReply(db, call, ids);
            (reply.Accepted? && !reply.duplicate) || TellsIntake(db, call, reply)
    ensures var reply := IngestReply(db, call, ids);
            (reply.Accepted? && !reply.duplicate) <==>
              && call.service in db.services && db.services[call.service].active && db.services[call.service].path == call.path
              && EventKey(call.service, call.event) !in db.events && (GroupOpen(db, call) || !NoCapacity(db))
  {
    CapacityExactly(db);
    GroupExactly(db, call);
    if Duplicate(db, call).Some? {
      DuplicateTells(env, db, call);
    }
  }

  /** The service the first read looks for, by its key. */
  predicate NoSuchService(db: Db, key: string) {
    key !in db.serviceIndex || db.serviceIndex[key] !in db.services || !db.services[db.serviceIndex[key]].active
  }

  /** A read that ends the call answers with a fact of the tables it reads. */
  lemma IntakeReadTells(env: Env, db: Db, p: IntakeProc, sha: Option<string>)
    requires Coherent(env, db) && IntakeOk(env, db, p) && !p.phase.Over? && IntakeRead(db, p, sha).phase.Over?
    ensures var n := IntakeRead(db, p, sha);
            match n.phase.end
            case Answer(reply) => if p.phase.Arrived? && reply == UnknownService then NoSuchService(db, p.key) else TellsIntake(db, n.call, reply)
            case BadCommit => p.phase.Found? && sha.None?
            case _ => false
  {
    CapacityExactly(db);
    var n := IntakeRead(db, p, sha);
    if Duplicate(db, n.call).Some? {
      DuplicateTells(env, db, n.call);
    }
  }

  /** Which facts of the tables end the call, read by read, and which incident a read aims it at. */
  lemma IntakeReadEnds(db: Db, p: IntakeProc, sha: Option<string>)
    requires !p.phase.Over?
    ensures IntakeRead(db, p, sha).phase.Over? <==>
            match p.phase
            case Arrived => NoSuchService(db, p.key) || EventKey(db.serviceIndex[p.key], p.call.event) in db.events
            case Found => sha.None?
            case Resolved => p.call.service !in db.services || !db.services[p.call.service].active
            case ServiceHeld => EventKey(p.call.service, p.call.event) in db.events || (p.call.service in db.services && db.services[p.call.service].path != p.call.path)
            case NoneOpen => NoCapacity(db)
            case _ => false
    ensures p.phase.NewHere? ==> (IntakeRead(db, p, sha).phase.Targeted? <==> GroupOpen(db, p.call))
  {
    CapacityExactly(db);
    GroupExactly(db, p.call);
  }

  /** A call that answered with an incident answered with the one that has its event. */
  ghost predicate Receipt(db: Db, p: IntakeProc) {
    && (p.phase.Over? && p.phase.end.Answer? && p.phase.end.reply.Accepted? ==> ReceivedAs(db, p.call, p.phase.end.reply.incident))
    && (p.phase.Over? && p.phase.end.Stored? ==> ReceivedAs(db, p.call, p.phase.end.incident))
  }

  /** Events, occurrences and incidents stay. */
  ghost predicate KeepsEvents(db: Db, d: Db) {
    && (forall e | e in db.events :: e in d.events && d.events[e] == db.events[e])
    && (forall o | o in db.occurrences :: o in d.occurrences && d.occurrences[o] == db.occurrences[o])
    && (forall i | i in db.incidents :: i in d.incidents)
  }

  lemma StepKeepsEvents(env: Env, s: Sys, now: Time, step: Step)
    requires Good(env, s) && Enabled(env, s, now, step)
    ensures KeepsEvents(s.db, Next(env, s, now, step).db)
  {
    forall i | i in s.db.incidents
      ensures i in Next(env, s, now, step).db.incidents
    {
      StepFollows(env, s, now, step, i);
    }
    if TxOf(s, step).Some? {
      StepTxReady(env, s, now, step);
      O.TxInserts(env, s.db, now, TxOf(s, step).value);
    }
  }

  lemma MoveKeepsEvents(env: Env, w: World, now: Time, m: Move)
    requires Good(env, w.sys) && Locked(env, w) && Can(env, w, now, m)
    ensures KeepsEvents(w.sys.db, Moves(env, w, now, m).sys.db)
  {
    MoveIsSerial(env, w, now, m);
    if SerialStep(w, m).Some? {
      StepKeepsEvents(env, w.sys, now, SerialStep(w, m).value);
    }
  }

  lemma ReceiptKept(db: Db, d: Db, p: IntakeProc)
    requires Receipt(db, p) && KeepsEvents(db, d)
    ensures Receipt(d, p)
  {}

  lemma ReadReceipt(env: Env, db: Db, p: IntakeProc, sha: Option<string>)
    requires Coherent(env, db) && IntakeOk(env, db, p) && Receipt(db, p)
    ensures Receipt(db, IntakeRead(db, p, sha))
  {
    if !p.phase.Over? && IntakeRead(db, p, sha).phase.Over? {
      IntakeReadTells(env, db, p, sha);
    }
  }

  lemma WriteReceipt(db: Db, now: Time, p: IntakeProc, ids: IntakeIds)
    requires (p.phase.Targeted? && p.phase.target in db.incidents) || p.phase.Reserved?
    ensures Receipt(IntakeWrites(db, now, p, ids), IntakeCommitted(p, ids))
  {}

  lemma CommitReceipt(env: Env, w: World, now: Time, p: Id, ids: IntakeIds)
    requires Locked(env, w) && Can(env, w, now, CommitIntake(p, ids))
    ensures p in Moves(env, w, now, CommitIntake(p, ids)).intakes
    ensures Receipt(Moves(env, w, now, CommitIntake(p, ids)).sys.db, Moves(env, w, now, CommitIntake(p, ids)).intakes[p])
  {
    assert IntakeOk(env, w.sys.db, w.intakes[p]);
    WriteReceipt(w.sys.db, now, w.intakes[p], ids);
  }

  lemma OtherReceipt(env: Env, w: World, now: Time, m: Move, p: Id)
    requires Can(env, w, now, m) && p in w.intakes && !(m.ReadIntake? && m.p == p) && !(m.CommitIntake? && m.p == p)
    ensures p in Moves(env, w, now, m).intakes && Moves(env, w, now, m).intakes[p] == w.intakes[p]
  {}

  lemma MoveReceipt(env: Env, w: World, now: Time, m: Move, p: Id)
    requires Good(env, w.sys) && Locked(env, w) && Can(env, w, now, m) && p in w.intakes && Receipt(w.sys.db, w.intakes[p])
    ensures p in Moves(env, w, now, m).intakes && Receipt(Moves(env, w, now, m).sys.db, Moves(env, w, now, m).intakes[p])
  {
    if m.CommitIntake? && m.p == p {
      CommitReceipt(env, w, now, p, m.intakeIds);
    } else if m.ReadIntake? && m.p == p {
      ReadReceipt(env, w.sys.db, w.intakes[p], m.sha);
    } else {
      OtherReceipt(env, w, now, m, p);
      MoveKeepsEvents(env, w, now, m);
      ReceiptKept(w.sys.db, Moves(env, w, now, m).sys.db, w.intakes[p]);
    }
  }

  /** Over every interleaving, the incident a call of `ingest` answered with is the one that has its event at the end. */
  lemma {:induction false} ReceiptsAreOnRecord(env: Env, w: World, acts: seq<Act>, p: Id)
    requires Good(env, w.sys) && Locked(env, w) && Possible(env, w, acts) && p in w.intakes && Receipt(w.sys.db, w.intakes[p])
    ensures p in Final(env, w, acts).intakes && Receipt(Final(env, w, acts).sys.db, Final(env, w, acts).intakes[p])
    decreases |acts|
  {
    if acts != [] {
      var now, m := acts[0].now, acts[0].move;
      MoveReceipt(env, w, now, m, p);
      MoveLocked(env, w, now, m);
      MoveGood(env, w, now, m);
      ReceiptsAreOnRecord(env, Moves(env, w, now, m), acts[1..], p);
    }
  }
}
