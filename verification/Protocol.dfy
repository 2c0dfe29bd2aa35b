/**
 * The database together with its workers.
 *
 * A worker holds a claim and the local `version_ref`. It may stall anywhere, be cancelled while
 * `mark_validating` runs in a thread (the commit still happens, the answer is lost), and its
 * transactions may arrive at any later time. Every interleaving with intake, approval, syncs,
 * sweeps and other workers is a run of this machine.
 */
module Protocol {
  import opened Base
  import opened Schema
  import opened Slices
  import opened Transactions
  import opened Coherence
  import opened JobSteps
  import opened IntakeSteps
  import opened Evidence

  /** How far the worker's one call of `mark_validating` has come. */
  datatype MarkPhase = Unsent | Sent | Answered(reply: Option<int>) | Heard

  datatype Worker = Worker(
    claim: Claim, inputs: Option<Snapshot>, phase: MarkPhase, versionRef: int,
    outcome: Option<Outcome>, done: bool)

  datatype Sys = Sys(clock: Time, db: Db, workers: map<Id, Worker>)

  const START := Sys(0, EMPTY, map[])

  datatype Step =
    | Server(tx: Tx)
    | Take(job: Id, token: Id, who: string, runId: Id)
    | Beat(token: Id)
    | Read(token: Id)
    | Ask(token: Id)
    | CommitMark(token: Id)
    | Hear(token: Id)
    | Choose(token: Id, outcome: Outcome)
    | CommitFinal(token: Id)

  /** A success may be reported only on the evidence `execute` gathers; a patch also needs the answer of its mark. */
  ghost predicate Supported(env: Env, w: Worker, outcome: Outcome) {
    && w.inputs.Some?
    && match w.claim.kind
       case Analyze => AnalysisSupported(env, w.inputs.value.policy, outcome.result)
       case Patch => w.phase == Heard && PatchSupported(env, w.inputs.value.policy, outcome.changedFiles, outcome.diff, outcome.validation)
  }

  ghost predicate ServerTx(tx: Tx) {
    tx.Sync? || tx.Ingest? || tx.Approve? || tx.Recover?
  }

  /** The worker has not yet decided its outcome. */
  predicate Busy(s: Sys, k: Id) {
    k in s.workers && s.workers[k].outcome.None?
  }

  ghost predicate Enabled(env: Env, s: Sys, now: Time, step: Step) {
    && s.clock <= now
    && match step
       case Server(tx) => ServerTx(tx) && Ready(env, s.db, now, tx)
       case Take(j, k, who, runId) => k !in s.workers && Ready(env, s.db, now, ClaimJob(j, k, who, runId))
       case Beat(k) => k in s.workers
       case Read(k) => Busy(s, k) && s.workers[k].inputs.None? && s.workers[k].claim.incident in s.db.runs
       case Ask(k) => Busy(s, k) && s.workers[k].phase == Unsent && s.workers[k].inputs.Some? && s.workers[k].claim.kind == Patch
       case CommitMark(k) => k in s.workers && s.workers[k].phase == Sent
       case Hear(k) => Busy(s, k) && s.workers[k].phase.Answered? && s.workers[k].phase.reply.Some?
       case Choose(k, outcome) => Busy(s, k) && (outcome.error.None? ==> Supported(env, s.workers[k], outcome))
       case CommitFinal(k) => k in s.workers && s.workers[k].outcome.Some? && !s.workers[k].done
  }

  /** The database transaction a step commits, if it commits one. */
  function TxOf(s: Sys, step: Step): Option<Tx> {
    match step
    case Server(tx) => Some(tx)
    case Take(j, k, who, runId) => Some(ClaimJob(j, k, who, runId))
    case Beat(k) => if k in s.workers then Some(Heartbeat(s.workers[k].claim)) else None
    case CommitMark(k) => if k in s.workers then Some(Mark(s.workers[k].claim)) else None
    case CommitFinal(k) =>
      if k in s.workers && s.workers[k].outcome.Some? then
        Some(Finalize(s.workers[k].claim, s.workers[k].outcome.value, s.workers[k].versionRef))
      else None
    case _ => None
  }

  ghost function After(env: Env, s: Sys, now: Time, step: Step): Db {
    var tx := TxOf(s, step);
    if tx.Some? then Run(env, s.db, now, tx.value) else s.db
  }

  function NewWorker(claim: Claim): Worker {
    Worker(claim, None, Unsent, claim.version, None, false)
  }

  /** The value `mark_validating` returns, None for its 409. */
  function MarkReply(db: Db, claim: Claim): Option<int> {
    if Marks(db, claim) then Some(claim.version + 1) else None
  }

  /** What the step does to the worker that takes it. */
  ghost function Worked(env: Env, s: Sys, now: Time, step: Step): map<Id, Worker>
    requires Enabled(env, s, now, step)
  {
    match step
    case Server(_) => s.workers
    case Beat(_) => s.workers
    case Take(j, k, who, runId) =>
      var d := After(env, s, now, step);
      if j in d.jobs && d.jobs[j].incident in d.incidents then s.workers[k := NewWorker(ClaimOf(d, j, k))] else s.workers
    case Read(k) => s.workers[k := s.workers[k].(inputs := s.db.runs[s.workers[k].claim.incident].snapshot)]
    case Ask(k) => s.workers[k := s.workers[k].(phase := Sent)]
    case CommitMark(k) => s.workers[k := s.workers[k].(phase := Answered(MarkReply(s.db, s.workers[k].claim)))]
    case Hear(k) => s.workers[k := s.workers[k].(phase := Heard, versionRef := s.workers[k].phase.reply.value)]
    case Choose(k, outcome) => s.workers[k := s.workers[k].(outcome := Some(outcome))]
    case CommitFinal(k) => s.workers[k := s.workers[k].(done := true)]
  }

  ghost function Next(env: Env, s: Sys, now: Time, step: Step): Sys
    requires Enabled(env, s, now, step)
  {
    Sys(now, After(env, s, now, step), Worked(env, s, now, step))
  }

  // ---- the invariant that ties workers to rows ----

  predicate Committed(w: Worker) {
    w.phase == Heard || (w.phase.Answered? && w.phase.reply.Some?)
  }

  /** The row still carries this worker's token. */
  predicate Holds(s: Slice, w: Worker) {
    JobOf(s, w.claim.kind).Some? && JobOf(s, w.claim.kind).value.token == Some(w.claim.token)
  }

  /** A worker with a live token knows the incident's version, or is one behind after its own mark. */
  ghost predicate Position(inc: Incident, w: Worker) {
    if Committed(w) then inc.state == Validating && inc.version == w.claim.version + 1
    else inc.state == (if w.claim.kind == Analyze then Analyzing else Patching) && inc.version == w.claim.version
  }

  ghost predicate Fits(s: Slice, w: Worker) {
    && JobOf(s, w.claim.kind).Some?
    && 1 <= w.claim.attempt <= JobOf(s, w.claim.kind).value.attempt
    && w.claim.version <= s.incident.version
    && (w.inputs.Some? ==> s.run.Some? && s.run.value.snapshot == w.inputs)
    && (Holds(s, w) ==> JobOf(s, w.claim.kind).value.attempt == w.claim.attempt && Position(s.incident, w))
  }

  /** What a worker knows about itself. */
  ghost predicate SelfOk(env: Env, w: Worker) {
    && (w.phase != Unsent ==> w.claim.kind == Patch)
    && (w.phase.Answered? && w.phase.reply.Some? ==> w.phase.reply == Some(w.claim.version + 1))
    && w.versionRef == (if w.phase == Heard then w.claim.version + 1 else w.claim.version)
    && (w.outcome.Some? && w.outcome.value.error.None? ==> Supported(env, w, w.outcome.value))
  }

  ghost predicate Placed(db: Db, claim: Claim) {
    && claim.job in db.jobs && claim.incident in db.incidents
    && db.jobs[claim.job].incident == claim.incident && db.jobs[claim.job].kind == claim.kind
  }

  ghost predicate WorkerOk(env: Env, db: Db, k: Id, w: Worker) {
    w.claim.token == k && Placed(db, w.claim) && SelfOk(env, w) && Fits(SliceOf(db, w.claim.incident), w)
  }

  ghost predicate WorkersOk(env: Env, db: Db, workers: map<Id, Worker>) {
    forall k {:trigger WorkerOk(env, db, k, workers[k])} | k in workers :: WorkerOk(env, db, k, workers[k])
  }

  /** A token on a job row was issued for that job. */
  ghost predicate TokensOk(db: Db, workers: map<Id, Worker>) {
    forall j | j in db.jobs && db.jobs[j].token.Some? ::
      db.jobs[j].token.value in workers && workers[db.jobs[j].token.value].claim.job == j
  }

  /** No two claims of a job share an attempt. */
  ghost predicate AttemptsOk(workers: map<Id, Worker>) {
    forall a, b | a in workers && b in workers && workers[a].claim.job == workers[b].claim.job
                  && workers[a].claim.attempt == workers[b].claim.attempt :: a == b
  }

  /** A stored success rests on its evidence, judged by the frozen policy. */
  ghost predicate Proven(env: Env, s: Slice) {
    && (s.run.Some? && s.run.value.status == RunSucceeded ==>
          s.run.value.snapshot.Some? && AnalysisSupported(env, s.run.value.snapshot.value.policy, s.run.value.result))
    && (s.patch.Some? && s.patch.value.status == PatchDone ==>
          && s.run.Some? && s.run.value.snapshot.Some?
          && PatchSupported(env, s.run.value.snapshot.value.policy, s.patch.value.changedFiles, s.patch.value.diff, s.patch.value.validation))
  }

  ghost predicate ProvenOk(env: Env, db: Db) {
    forall i {:trigger SliceOf(db, i)} | i in db.incidents :: Proven(env, SliceOf(db, i))
  }

  ghost predicate Inv(env: Env, db: Db, workers: map<Id, Worker>) {
    Coherent(env, db) && WorkersOk(env, db, workers) && TokensOk(db, workers) && AttemptsOk(workers) && ProvenOk(env, db)
  }

  // ---- workers that look on while an incident changes ----

  /** The change leaves what a worker other than the acting one relies on. */
  ghost predicate LooksOn(s: Slice, t: Slice, w: Worker)
    requires JobOf(s, w.claim.kind).Some?
  {
    && JobOf(t, w.claim.kind).Some?
    && JobOf(s, w.claim.kind).value.attempt <= JobOf(t, w.claim.kind).value.attempt
    && s.incident.version <= t.incident.version
    && (s.run.Some? ==> t.run.Some? && t.run.value.snapshot == s.run.value.snapshot)
    && (Holds(t, w) ==>
          && Holds(s, w)
          && JobOf(t, w.claim.kind).value.attempt == JobOf(s, w.claim.kind).value.attempt
          && t.incident.state == s.incident.state && t.incident.version == s.incident.version)
  }

  lemma LooksOnFits(s: Slice, t: Slice, w: Worker)
    requires Fits(s, w) && LooksOn(s, t, w)
    ensures Fits(t, w)
  {}

  lemma ClaimLooksOn(s: Slice, kind: JobKind, now: Time, token: Id, who: string, first: Option<AnalysisRun>, w: Worker)
    requires SliceOk(s) && Fits(s, w) && w.claim.token != token
    requires JobOf(s, kind).Some? && JobOf(s, kind).value.status == Pending
    requires ClaimSlice(s, kind, now, token, who, first).Some?
    ensures LooksOn(s, ClaimSlice(s, kind, now, token, who, first).value, w)
  {}

  lemma BeatLooksOn(s: Slice, kind: JobKind, now: Time, w: Worker)
    requires Fits(s, w) && JobOf(s, kind).Some?
    ensures LooksOn(s, BeatSlice(s, kind, now), w)
  {}

  lemma RecoverLooksOn(s: Slice, kind: JobKind, now: Time, w: Worker)
    requires SliceOk(s) && Fits(s, w) && JobOf(s, kind).Some? && JobOf(s, kind).value.status == Running
    requires RecoverSlice(s, kind, now).Some?
    ensures LooksOn(s, RecoverSlice(s, kind, now).value, w)
  {}

  lemma MarkLooksOn(s: Slice, token: Id, w: Worker)
    requires SliceOk(s) && Fits(s, w) && w.claim.token != token
    requires s.incident.state == Patching && s.patchJob.value.token == Some(token)
    requires MarkSlice(s).Some?
    ensures LooksOn(s, MarkSlice(s).value, w)
  {}

  lemma FinalizeLooksOn(s: Slice, kind: JobKind, now: Time, outcome: Outcome, w: Worker)
    requires SliceOk(s) && Fits(s, w) && JobOf(s, kind).Some? && JobOf(s, kind).value.status == Running
    requires FinalizeSlice(s, kind, now, outcome).Some?
    ensures LooksOn(s, FinalizeSlice(s, kind, now, outcome).value, w)
  {}

  lemma ApproveLooksOn(s: Slice, i: Id, now: Time, key: Id, ids: ApproveIds, w: Worker)
    requires SliceOk(s) && Fits(s, w) && s.incident.state == AwaitingApproval
    ensures LooksOn(s, ApproveSlice(s, i, now, key, ids), w)
  {}
}
