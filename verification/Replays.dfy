/**
 * Idempotency under concurrency: what a repeated approval and a repeated report are answered over
 * every interleaving, whatever commits between their reads.
 */
module Replays {
  import opened Base
  import opened Schema
  import opened Slices
  import opened Transactions
  import opened Coherence
  import opened IntakeSteps
  import opened Protocol
  import opened ProtocolSafety
  import opened Workflow
  import opened Concurrency
  import opened ConcurrencySafety
  import opened Answers

  // ---- approve with a key that is taken ----

  /**
   * The call has not yet looked at its key, which is taken, or it ended: with the approval and the
   * patch run of the key if they are its incident's, and with a refusal if the key is another's.
   */
  ghost predicate KeyTaken(db: Db, q: ApproveProc) {
    && q.key in db.keyIndex
    && (q.phase.Asked? || q.phase.RowHeld? || q.phase.Refused? || (q.phase.Closed? && TakenAnswer(db, q)))
  }

  ghost predicate TakenAnswer(db: Db, q: ApproveProc)
    requires q.phase.Closed? && q.key in db.keyIndex
  {
    q.phase.end.Reply? &&
    if db.keyIndex[q.key] == q.incident then
      q.phase.end.reply.Approved? && q.phase.end.reply.duplicate
      && ApprovedAs(db, q.incident, q.key, q.phase.end.reply.approval, q.phase.end.reply.patch)
    else q.phase.end.reply == NotFound || q.phase.end.reply == KeyElsewhere
  }

  lemma TakenRead(env: Env, db: Db, q: ApproveProc)
    requires Coherent(env, db) && KeyTaken(db, q)
    ensures KeyTaken(db, ApproveRead(db, q))
  {
    KeyRow(env, db, q.key);
  }

  lemma TakenKept(db: Db, d: Db, q: ApproveProc)
    requires KeyTaken(db, q) && KeepsApprovals(db, d)
    ensures KeyTaken(d, q)
  {}

  lemma TakenMove(env: Env, w: World, now: Time, m: Move, q: Id)
    requires Good(env, w.sys) && Locked(env, w) && Can(env, w, now, m) && q in w.approvals && KeyTaken(w.sys.db, w.approvals[q])
    ensures q in Moves(env, w, now, m).approvals && KeyTaken(Moves(env, w, now, m).sys.db, Moves(env, w, now, m).approvals[q])
  {
    if m.ReadApprove? && m.q == q {
      TakenRead(env, w.sys.db, w.approvals[q]);
    } else {
      OtherNames(env, w, now, m, q);
      MoveKeepsApprovals(env, w, now, m);
      TakenKept(w.sys.db, Moves(env, w, now, m).sys.db, w.approvals[q]);
    }
  }

  /** Over every interleaving, a call of `approve` whose key is taken when it starts can only end as the key says. */
  lemma {:induction false} TakenKeyAnswers(env: Env, w: World, acts: seq<Act>, q: Id)
    requires Good(env, w.sys) && Locked(env, w) && Possible(env, w, acts) && q in w.approvals && KeyTaken(w.sys.db, w.approvals[q])
    ensures q in Final(env, w, acts).approvals && KeyTaken(Final(env, w, acts).sys.db, Final(env, w, acts).approvals[q])
    decreases |acts|
  {
    if acts != [] {
      var now, m := acts[0].now, acts[0].move;
      TakenMove(env, w, now, m, q);
      MoveLocked(env, w, now, m);
      MoveGood(env, w, now, m);
      TakenKeyAnswers(env, Moves(env, w, now, m), acts[1..], q);
    }
  }

  // ---- ingest of an event that is stored ----

  /**
   * The call has not yet looked for its event, which is stored, or it ended: with the incident of the
   * event, as a repetition, or with the conflict if the checksum is another. A call that has passed
   * its first look (`late`) may also end because git does not know its commit.
   */
  ghost predicate EventStored(db: Db, p: IntakeProc, late: bool) {
    match p.phase
    case Arrived => !late && !NoSuchService(db, p.key) && EventKey(db.serviceIndex[p.key], p.call.event) in db.events
    case Found => late && StoredHere(db, p)
    case Resolved => late && StoredHere(db, p)
    case ServiceHeld => late && StoredHere(db, p)
    case Over(end) => StoredHere(db, p) && ((late && end.BadCommit?) || StoredAnswer(db, p, end))
    case _ => false
  }

  predicate StoredHere(db: Db, p: IntakeProc) {
    p.call.service in db.services && db.services[p.call.service].active && EventKey(p.call.service, p.call.event) in db.events
  }

  predicate StoredAnswer(db: Db, p: IntakeProc, end: IntakeEnd)
    requires StoredHere(db, p)
  {
    end.Answer? &&
    if db.events[EventKey(p.call.service, p.call.event)].checksum == p.call.checksum then
      end.reply.Accepted? && end.reply.duplicate && ReceivedAs(db, p.call, end.reply.incident)
    else end.reply == ChecksumConflict
  }

  lemma StoredRead(env: Env, db: Db, p: IntakeProc, sha: Option<string>, late: bool)
    requires Coherent(env, db) && EventStored(db, p, late)
    ensures EventStored(db, IntakeRead(db, p, sha), late)
  {
    var call := if p.phase.Arrived? then p.call.(service := db.serviceIndex[p.key], path := db.services[db.serviceIndex[p.key]].path) else p.call;
    DuplicateFound(env, db, call);
  }

  lemma DuplicateFound(env: Env, db: Db, call: Intake)
    requires Coherent(env, db) && EventKey(call.service, call.event) in db.events
    ensures var stored := Duplicate(db, call);
            if db.events[EventKey(call.service, call.event)].checksum == call.checksum then
              stored.Some? && stored.value.Accepted? && stored.value.duplicate && ReceivedAs(db, call, stored.value.incident)
            else stored == Some(ChecksumConflict)
  {
    assert EventPlaced(db, EventKey(call.service, call.event));
  }

  // ---- registered services stay registered ----

  /** Keys keep their service, and active services stay active. */
  ghost predicate KeepsServices(db: Db, d: Db) {
    && (forall key | key in db.serviceIndex :: key in d.serviceIndex && d.serviceIndex[key] == db.serviceIndex[key])
    && (forall v | v in db.services :: v in d.services && (db.services[v].active ==> d.services[v].active))
  }

  lemma SyncOneServices(env: Env, m: Db, d: Db, e: Entry)
    requires ServicesLinked(m) && SyncOne(env, m, e) == Some(d)
    ensures KeepsServices(m, d)
  {
    if e.key in m.serviceIndex {
      assert d == Updated(m, m.serviceIndex[e.key], e);
    } else {
      assert d == Registered(m, e);
    }
  }

  lemma {:induction false} SyncServices(env: Env, db: Db, entries: seq<Entry>)
    requires ServicesOk(env, db) && EntryIdsNew(db, entries) && SyncAll(env, db, entries).Some?
    ensures KeepsServices(db, SyncAll(env, db, entries).value)
  {
    if entries != [] {
      var rest := entries[..|entries| - 1];
      SyncServices(env, db, rest);
      SyncAllOk(env, db, rest);
      SyncOneServices(env, SyncAll(env, db, rest).value, SyncAll(env, db, entries).value, entries[|entries| - 1]);
    }
  }

  ghost predicate SameServices(db: Db, d: Db) {
    d.services == db.services && d.serviceIndex == db.serviceIndex
  }

  lemma ClaimSame(env: Env, db: Db, now: Time, j: Id, token: Id, who: string, runId: Id)
    ensures SameServices(db, ClaimDb(env, db, now, j, token, who, runId))
  {}

  lemma FinalizeSame(db: Db, now: Time, claim: Claim, outcome: Outcome, version: int)
    ensures SameServices(db, FinalizeDb(db, now, claim, outcome, version))
  {}

  lemma {:induction false} SweepSame(db: Db, now: Time, batch: seq<Id>)
    ensures SameServices(db, RecoverDb(db, now, batch))
  {
    if batch != [] {
      SweepSame(db, now, batch[..|batch| - 1]);
    }
  }

  lemma IngestSame(db: Db, now: Time, call: Intake, ids: IntakeIds)
    ensures SameServices(db, IngestDb(db, now, call, ids))
  {
    var d, i := IngestDb(db, now, call, ids), OpenIncident(db, call.service, call.fingerprint, call.sha);
    assert d == db || d == OpenedNew(db, now, call, ids) || (i.Some? && d == Appended(db, now, call, ids, i.value));
    OpenedSame(db, now, call, ids);
    if i.Some? {
      AppendedSame(db, now, call, ids, i.value);
    }
  }

  lemma OpenedSame(db: Db, now: Time, call: Intake, ids: IntakeIds)
    ensures SameServices(db, OpenedNew(db, now, call, ids))
  {}

  lemma AppendedSame(db: Db, now: Time, call: Intake, ids: IntakeIds, i: Id)
    requires i in db.incidents
    ensures SameServices(db, Appended(db, now, call, ids, i))
  {}

  lemma ApproveSame(db: Db, now: Time, i: Id, key: Id, ids: ApproveIds)
    ensures SameServices(db, ApproveDb(db, now, i, key, ids))
  {}

  lemma TxServices(env: Env, db: Db, now: Time, tx: Tx)
    requires Coherent(env, db) && Ready(env, db, now, tx)
    ensures KeepsServices(db, Run(env, db, now, tx))
  {
    match tx
    case Sync(entries) =>
      if SyncAll(env, db, entries).Some? {
        SyncServices(env, db, entries);
      }
    case Recover(batch) => SweepSame(db, now, batch);
    case ClaimJob(j, token, who, runId) => ClaimSame(env, db, now, j, token, who, runId);
    case Finalize(claim, outcome, version) => FinalizeSame(db, now, claim, outcome, version);
    case Ingest(call, ids) => IngestSame(db, now, call, ids);
    case Approve(i, key, ids) => ApproveSame(db, now, i, key, ids);
    case Heartbeat(claim) => assert SameServices(db, BeatDb(db, now, claim));
    case Mark(claim) => assert SameServices(db, MarkDb(db, claim));
  }

  lemma MoveKeepsServices(env: Env, w: World, now: Time, m: Move)
    requires Good(env, w.sys) && Locked(env, w) && Can(env, w, now, m)
    ensures KeepsServices(w.sys.db, Moves(env, w, now, m).sys.db)
  {
    MoveIsSerial(env, w, now, m);
    if SerialStep(w, m).Some? && TxOf(w.sys, SerialStep(w, m).value).Some? {
      StepTxReady(env, w.sys, now, SerialStep(w, m).value);
      TxServices(env, w.sys.db, now, TxOf(w.sys, SerialStep(w, m).value).value);
    }
  }

  lemma StoredKept(db: Db, d: Db, p: IntakeProc, late: bool)
    requires ServicesLinked(db) && EventStored(db, p, late) && KeepsEvents(db, d) && KeepsServices(db, d)
    ensures EventStored(d, p, late)
  {}

  lemma StoredMove(env: Env, w: World, now: Time, m: Move, p: Id, late: bool)
    requires Good(env, w.sys) && Locked(env, w) && Can(env, w, now, m) && p in w.intakes && EventStored(w.sys.db, w.intakes[p], late)
    ensures p in Moves(env, w, now, m).intakes && EventStored(Moves(env, w, now, m).sys.db, Moves(env, w, now, m).intakes[p], late)
  {
    if m.ReadIntake? && m.p == p {
      StoredRead(env, w.sys.db, w.intakes[p], m.sha, late);
    } else {
      OtherReceipt(env, w, now, m, p);
      MoveKeepsEvents(env, w, now, m);
      MoveKeepsServices(env, w, now, m);
      StoredKept(w.sys.db, Moves(env, w, now, m).sys.db, w.intakes[p], late);
    }
  }

  /**
   * Over every interleaving, a report whose event is stored before the call looks for it can only be
   * answered as a repetition, or with the conflict; nothing else of the system can get in between.
   */
  lemma {:induction false} StoredEventAnswers(env: Env, w: World, acts: seq<Act>, p: Id, late: bool)
    requires Good(env, w.sys) && Locked(env, w) && Possible(env, w, acts) && p in w.intakes && EventStored(w.sys.db, w.intakes[p], late)
    ensures p in Final(env, w, acts).intakes && EventStored(Final(env, w, acts).sys.db, Final(env, w, acts).intakes[p], late)
    decreases |acts|
  {
    if acts != [] {
      var now, m := acts[0].now, acts[0].move;
      StoredMove(env, w, now, m, p, late);
      MoveLocked(env, w, now, m);
      MoveGood(env, w, now, m);
      StoredEventAnswers(env, Moves(env, w, now, m), acts[1..], p, late);
    }
  }
}
