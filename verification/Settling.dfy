/**
 * How calls settle after a unique index refused their insert. An approval finds the key it lost to
 * on its second attempt, so no integrity error escapes. An intake that lost to the same event is
 * answered on its next try; it gives up only when the incidents it lost to close again in between.
 */
module Settling {
  import opened Base
  import opened Schema
  import opened Slices
  import opened Transactions
  import opened Coherence
  import opened Protocol
  import opened ProtocolSafety
  import opened Workflow
  import opened Concurrency
  import opened ConcurrencySafety
  import O = Once

  /** A call that lost an insert knows a used key, and one that tries again is only ever about to read it. */
  ghost predicate Settles(db: Db, q: ApproveProc) {
    && (q.phase.Refused? || q.second ==> q.key in db.keyIndex)
    && (q.second ==> q.phase.Asked? || q.phase.RowHeld? || q.phase.Closed?)
    && q.phase != Closed(IntegrityEscapes)
  }

  /** Used keys stay used. */
  lemma KeysStay(env: Env, w: World, now: Time, m: Move, key: Id)
    requires Good(env, w.sys) && Locked(env, w) && Can(env, w, now, m) && key in w.sys.db.keyIndex
    ensures key in Moves(env, w, now, m).sys.db.keyIndex
  {
    MoveIsSerial(env, w, now, m);
    var step := SerialStep(w, m);
    if step.Some? && TxOf(w.sys, step.value).Some? {
      StepTxReady(env, w.sys, now, step.value);
      O.TxInserts(env, w.sys.db, now, TxOf(w.sys, step.value).value);
    }
  }

  lemma ReadSettles(db: Db, q: ApproveProc)
    requires Settles(db, q)
    ensures Settles(db, ApproveRead(db, q))
  {}

  lemma CommitSettles(env: Env, w: World, now: Time, q: Id, ids: ApproveIds)
    requires Locked(env, w) && Can(env, w, now, CommitApprove(q, ids)) && Settles(w.sys.db, w.approvals[q])
    ensures Settles(Moves(env, w, now, CommitApprove(q, ids)).sys.db, Moves(env, w, now, CommitApprove(q, ids)).approvals[q])
  {
    assert ApproveOk(w.sys.db, w.approvals[q]);
  }

  lemma Untouched(env: Env, w: World, now: Time, m: Move, q: Id)
    requires Can(env, w, now, m) && q in w.approvals && !(m.ReadApprove? && m.q == q) && !(m.CommitApprove? && m.q == q)
    ensures q in Moves(env, w, now, m).approvals && Moves(env, w, now, m).approvals[q] == w.approvals[q]
  {}

  lemma MoveSettles(env: Env, w: World, now: Time, m: Move, q: Id)
    requires Good(env, w.sys) && Locked(env, w) && Can(env, w, now, m) && q in w.approvals && Settles(w.sys.db, w.approvals[q])
    ensures q in Moves(env, w, now, m).approvals && Settles(Moves(env, w, now, m).sys.db, Moves(env, w, now, m).approvals[q])
  {
    if m.CommitApprove? && m.q == q {
      CommitSettles(env, w, now, q, m.approveIds);
    } else if m.ReadApprove? && m.q == q {
      ReadSettles(w.sys.db, w.approvals[q]);
    } else {
      Untouched(env, w, now, m, q);
      if w.approvals[q].key in w.sys.db.keyIndex {
        KeysStay(env, w, now, m, w.approvals[q].key);
      }
    }
  }

  /** Over every interleaving a call of `approve` ends in an answer or a grant, never in a database error. */
  lemma {:induction false} NoErrorEscapes(env: Env, w: World, acts: seq<Act>, q: Id)
    requires Good(env, w.sys) && Locked(env, w) && Possible(env, w, acts) && q in w.approvals
    requires Settles(w.sys.db, w.approvals[q])
    ensures q in Final(env, w, acts).approvals && Settles(Final(env, w, acts).sys.db, Final(env, w, acts).approvals[q])
    ensures Final(env, w, acts).approvals[q].phase != Closed(IntegrityEscapes)
    decreases |acts|
  {
    if acts != [] {
      var now, m := acts[0].now, acts[0].move;
      MoveSettles(env, w, now, m, q);
      MoveLocked(env, w, now, m);
      MoveGood(env, w, now, m);
      NoErrorEscapes(env, Moves(env, w, now, m), acts[1..], q);
    }
  }

  // ---- intake ----

  /** What a refused commit of intake lost to: the same event, or an incident opened for its group meanwhile. */
  datatype Loss = LostEvent | LostGroup(incident: Id)

  ghost function LossOf(db: Db, p: IntakeProc): Loss {
    if EventKey(p.call.service, p.call.event) in db.events then LostEvent
    else
      var i := OpenIncident(db, p.call.service, p.call.fingerprint, p.call.sha);
      if i.Some? then LostGroup(i.value) else LostEvent
  }

  ghost predicate Loses(w: World, m: Move, p: Id) {
    m.CommitIntake? && m.p == p && p in w.intakes && IntakeCollides(w.sys.db, w.intakes[p])
  }

  /** The refused commits of a call, in order. */
  ghost function Losses(env: Env, w: World, acts: seq<Act>, p: Id): seq<Loss>
    requires Possible(env, w, acts)
    decreases |acts|
  {
    if acts == [] then []
    else
      LossAt(w, acts[0].move, p) + Losses(env, Moves(env, w, acts[0].now, acts[0].move), acts[1..], p)
  }

  /** Incidents keep their group, closed ones stay closed, and events stay on record. */
  ghost predicate Grows(db: Db, d: Db) {
    && (forall i {:trigger d.incidents[i]} {:trigger db.incidents[i]} | i in db.incidents :: i in d.incidents && SameGroup(db.incidents[i], d.incidents[i])
          && (Ended(db.incidents[i].state) ==> Ended(d.incidents[i].state)))
    && (forall e | e in db.events :: e in d.events)
  }

  predicate SameGroup(a: Incident, b: Incident) {
    b.service == a.service && b.fingerprint == a.fingerprint && b.sha == a.sha
  }

  lemma StepGrows(env: Env, s: Sys, now: Time, step: Step)
    requires Good(env, s) && Enabled(env, s, now, step)
    ensures Grows(s.db, Next(env, s, now, step).db)
  {
    var d := Next(env, s, now, step).db;
    forall i | i in s.db.incidents
      ensures i in d.incidents && SameGroup(s.db.incidents[i], d.incidents[i])
      ensures Ended(s.db.incidents[i].state) ==> Ended(d.incidents[i].state)
    {
      StepFollows(env, s, now, step, i);
      if Ended(s.db.incidents[i].state) {
        StepLeavesEnded(env, s, now, step, i);
      }
    }
    if TxOf(s, step).Some? {
      StepTxReady(env, s, now, step);
      O.TxInserts(env, s.db, now, TxOf(s, step).value);
    }
  }

  lemma MoveGrows(env: Env, w: World, now: Time, m: Move)
    requires Good(env, w.sys) && Locked(env, w) && Can(env, w, now, m)
    ensures Grows(w.sys.db, Moves(env, w, now, m).sys.db)
  {
    MoveIsSerial(env, w, now, m);
    if SerialStep(w, m).Some? {
      StepGrows(env, w.sys, now, SerialStep(w, m).value);
    }
  }

  predicate InGroup(db: Db, i: Id, call: Intake) {
    i in db.incidents && db.incidents[i].service == call.service && db.incidents[i].fingerprint == call.fingerprint && db.incidents[i].sha == call.sha
  }

  ghost predicate HasClosed(db: Db, i: Id) {
    i in db.incidents && Ended(db.incidents[i].state)
  }

  /** The losses of a call so far and where it stands. */
  ghost predicate Tracks(db: Db, p: IntakeProc, log: seq<Loss>) {
    && |log| == p.tries <= TRIES
    && (p.phase.Arrived? || p.phase.Found? ==> log == [])
    && (p.tries == TRIES <==> p.phase == Over(Unsettled))
    && (forall n | 0 <= n < |log| && log[n].LostGroup? :: InGroup(db, log[n].incident, p.call))
    && (forall n | 0 <= n < |log| - 1 :: log[n].LostGroup?)
    && (forall n | 0 < n < |log| && log[n].LostGroup? :: log[n - 1] != log[n] && HasClosed(db, log[n - 1].incident))
    && (log != [] && log[|log| - 1].LostEvent? ==>
          EventKey(p.call.service, p.call.event) in db.events && (p.phase.Resolved? || p.phase.ServiceHeld? || p.phase.Over?))
    && (log != [] && log[|log| - 1].LostGroup? && (p.phase.NoneOpen? || p.phase.Reserved?) ==> HasClosed(db, log[|log| - 1].incident))
  }

  lemma TracksGrows(db: Db, d: Db, p: IntakeProc, log: seq<Loss>)
    requires Tracks(db, p, log) && Grows(db, d)
    ensures Tracks(d, p, log)
  {}

  lemma OpenOrEnded(st: IncidentState)
    ensures Open(st) || Ended(st)
  {
    assert st.Received? || st.Analyzing? || st.AwaitingApproval? || st.Patching? || st.Validating? || st.AnalysisFailed? || st.PatchReady? || st.PatchFailed?;
  }

  lemma ReadTracks(db: Db, p: IntakeProc, sha: Option<string>, log: seq<Loss>)
    requires Tracks(db, p, log)
    ensures Tracks(db, IntakeRead(db, p, sha), log)
  {
    if p.phase.NewHere? && log != [] && log[|log| - 1].LostGroup? {
      var i := log[|log| - 1].incident;
      assert InGroup(db, i, p.call);
      OpenOrEnded(db.incidents[i].state);
      assert Open(db.incidents[i].state) ==> Groups(db, i, p.call.service, p.call.fingerprint, p.call.sha);
    }
  }

  lemma LossTracks(db: Db, p: IntakeProc, log: seq<Loss>)
    requires Tracks(db, p, log) && IntakeCollides(db, p) && (p.phase.Targeted? || p.phase.Reserved?)
    ensures Tracks(db, IntakeRetry(p), log + [LossOf(db, p)])
  {
    var i := OpenIncident(db, p.call.service, p.call.fingerprint, p.call.sha);
    assert i.Some? ==> Groups(db, i.value, p.call.service, p.call.fingerprint, p.call.sha);
  }

  lemma CommitTracks(db: Db, p: IntakeProc, ids: IntakeIds, log: seq<Loss>)
    requires Tracks(db, p, log) && (p.phase.Targeted? || p.phase.Reserved?)
    ensures Tracks(db, IntakeCommitted(p, ids), log)
  {}

  /** The call after a move that commits or reads for it. */
  lemma OwnTracks(db: Db, p: IntakeProc, m: Move, log: seq<Loss>)
    requires Tracks(db, p, log)
    ensures m.ReadIntake? ==> Tracks(db, IntakeRead(db, p, m.sha), log)
    ensures m.CommitIntake? && (p.phase.Targeted? || p.phase.Reserved?) ==>
              if IntakeCollides(db, p) then Tracks(db, IntakeRetry(p), log + [LossOf(db, p)]) else Tracks(db, IntakeCommitted(p, m.intakeIds), log)
  {
    if m.ReadIntake? {
      ReadTracks(db, p, m.sha, log);
    } else if m.CommitIntake? && (p.phase.Targeted? || p.phase.Reserved?) {
      if IntakeCollides(db, p) {
        LossTracks(db, p, log);
      } else {
        CommitTracks(db, p, m.intakeIds, log);
      }
    }
  }

  /** What the move makes of the call. */
  ghost function Moved(w: World, m: Move, p: Id): IntakeProc
    requires p in w.intakes
  {
    var proc := w.intakes[p];
    if m.ReadIntake? && m.p == p then IntakeRead(w.sys.db, proc, m.sha)
    else if m.CommitIntake? && m.p == p then if IntakeCollides(w.sys.db, proc) then IntakeRetry(proc) else IntakeCommitted(proc, m.intakeIds)
    else proc
  }

  lemma MovedIs(env: Env, w: World, now: Time, m: Move, p: Id)
    requires Can(env, w, now, m) && p in w.intakes
    ensures p in Moves(env, w, now, m).intakes && Moves(env, w, now, m).intakes[p] == Moved(w, m, p)
    ensures m.CommitIntake? && m.p == p ==> w.intakes[p].phase.Targeted? || w.intakes[p].phase.Reserved?
  {}

  ghost function LossAt(w: World, m: Move, p: Id): seq<Loss> {
    if Loses(w, m, p) then [LossOf(w.sys.db, w.intakes[p])] else []
  }

  lemma MovedTracks(w: World, m: Move, p: Id, log: seq<Loss>)
    requires p in w.intakes && Tracks(w.sys.db, w.intakes[p], log)
    requires m.CommitIntake? && m.p == p ==> w.intakes[p].phase.Targeted? || w.intakes[p].phase.Reserved?
    ensures Tracks(w.sys.db, Moved(w, m, p), log + LossAt(w, m, p))
  {
    OwnTracks(w.sys.db, w.intakes[p], m, log);
    assert log + [] == log;
  }

  lemma MoveTracks(env: Env, w: World, now: Time, m: Move, p: Id, log: seq<Loss>)
    requires Good(env, w.sys) && Locked(env, w) && Can(env, w, now, m) && p in w.intakes && Tracks(w.sys.db, w.intakes[p], log)
    ensures p in Moves(env, w, now, m).intakes
    ensures Tracks(Moves(env, w, now, m).sys.db, Moves(env, w, now, m).intakes[p], log + LossAt(w, m, p))
  {
    MoveGrows(env, w, now, m);
    MovedIs(env, w, now, m, p);
    MovedTracks(w, m, p, log);
    TracksGrows(w.sys.db, Moves(env, w, now, m).sys.db, Moved(w, m, p), log + LossAt(w, m, p));
  }

  lemma {:induction false} RunTracks(env: Env, w: World, acts: seq<Act>, p: Id, log: seq<Loss>)
    requires Good(env, w.sys) && Locked(env, w) && Possible(env, w, acts) && p in w.intakes && Tracks(w.sys.db, w.intakes[p], log)
    ensures p in Final(env, w, acts).intakes
    ensures Tracks(Final(env, w, acts).sys.db, Final(env, w, acts).intakes[p], log + Losses(env, w, acts, p))
    decreases |acts|
  {
    if acts == [] {
      assert log + [] == log;
    } else {
      var now, m := acts[0].now, acts[0].move;
      MoveTracks(env, w, now, m, p, log);
      MoveLocked(env, w, now, m);
      MoveGood(env, w, now, m);
      RunTracks(env, Moves(env, w, now, m), acts[1..], p, log + LossAt(w, m, p));
      Joins(log, LossAt(w, m, p), Losses(env, Moves(env, w, now, m), acts[1..], p));
    }
  }

  lemma Joins(a: seq<Loss>, b: seq<Loss>, c: seq<Loss>)
    ensures a + b + c == a + (b + c)
  {}

  /**
   * The 503 of intake: a call ends unsettled exactly when three commits were refused. Then the first
   * two lost to two different incidents of its group, and the first of these has closed since; a
   * commit that lost to the same event is never followed by another refusal.
   */
  lemma UnsettledExactly(env: Env, w: World, acts: seq<Act>, p: Id)
    requires Good(env, w.sys) && Locked(env, w) && Possible(env, w, acts) && p in w.intakes
    requires w.intakes[p].phase == Arrived && w.intakes[p].tries == 0
    ensures p in Final(env, w, acts).intakes
    ensures var log, n := Losses(env, w, acts, p), Final(env, w, acts);
            && (n.intakes[p].phase == Over(Unsettled) <==> |log| == 3)
            && (forall k | 0 <= k < |log| - 1 :: log[k].LostGroup?)
            && (|log| == 3 ==>
                  && log[0] != log[1] && HasClosed(n.sys.db, log[0].incident)
                  && InGroup(n.sys.db, log[0].incident, n.intakes[p].call) && InGroup(n.sys.db, log[1].incident, n.intakes[p].call))
  {
    RunTracks(env, w, acts, p, []);
    assert [] + Losses(env, w, acts, p) == Losses(env, w, acts, p);
  }
}
