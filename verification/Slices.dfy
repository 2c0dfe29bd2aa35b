/**
 * The rows that belong to one incident, seen together, and what each transaction of
 * `aeh/job_repository.py` and `aeh/service.py` does to them.
 *
 * Every property that is about one incident is proved here on a slice; `Transactions` and
 * `Coherence` carry it to the tables.
 */
module Slices {
  import opened Base
  import opened Schema

  datatype Slice = Slice(
    incident: Incident, analyze: Option<Job>, run: Option<AnalysisRun>,
    approval: Option<Approval>, patch: Option<PatchRun>, patchJob: Option<Job>)

  function JobOf(s: Slice, kind: JobKind): Option<Job> {
    if kind == Analyze then s.analyze else s.patchJob
  }

  function WithJob(s: Slice, kind: JobKind, job: Job): Slice {
    if kind == Analyze then s.(analyze := Some(job)) else s.(patchJob := Some(job))
  }

  function Enter(inc: Incident, st: IncidentState): Incident {
    inc.(state := st, version := inc.version + 1)
  }

  /** The job's columns of a claim. */
  function Taken(job: Job, now: Time, token: Id, who: string): Job {
    job.(status := Running, token := Some(token), lockedBy := Some(who), lockedAt := Some(now), attempt := job.attempt + 1)
  }

  function Started(patch: PatchRun, now: Time): PatchRun {
    patch.(status := PatchRunning, startedAt := if patch.startedAt.None? then Some(now) else patch.startedAt)
  }

  function Released(job: Job): Job {
    job.(token := None, lockedBy := None, lockedAt := None)
  }

  function Backoff(job: Job): int {
    if job.attempt == 1 then FIRST_BACKOFF else LATER_BACKOFF
  }

  function Requeued(job: Job, now: Time): Job {
    job.(status := Pending, availableAt := now + Backoff(job))
  }

  /** `claim_job` on the claimed job's rows; None is the RuntimeError that rolls back. */
  function ClaimSlice(s: Slice, kind: JobKind, now: Time, token: Id, who: string, first: Option<AnalysisRun>): Option<Slice>
    requires JobOf(s, kind).Some?
  {
    var job := JobOf(s, kind).value;
    var claimed := Taken(job, now, token, who);
    match kind
    case Analyze =>
      if s.run.None? && first.None? then None
      else
        Some(s.(analyze := Some(claimed),
                run := if s.run.None? then first else s.run,
                incident := if s.incident.state == Received then Enter(s.incident, Analyzing) else s.incident))
    case Patch =>
      if s.patch.None? || s.incident.state !in {Patching, Validating} then None
      else
        Some(s.(patchJob := Some(claimed),
                patch := Some(Started(s.patch.value, now)),
                incident := if s.incident.state == Validating then Enter(s.incident, Patching) else s.incident))
  }

  /** `heartbeat` that found its row. */
  function BeatSlice(s: Slice, kind: JobKind, now: Time): Slice
    requires JobOf(s, kind).Some?
  {
    WithJob(s, kind, JobOf(s, kind).value.(lockedAt := Some(now)))
  }

  /** `mark_validating` past its checks; None is the missing patch run. */
  function MarkSlice(s: Slice): Option<Slice> {
    if s.patch.None? then None
    else Some(s.(incident := Enter(s.incident, Validating), patch := Some(s.patch.value.(status := PatchValidating))))
  }

  function CloseRun(run: AnalysisRun, now: Time, outcome: Outcome): AnalysisRun {
    run.(status := if outcome.error.Some? then RunFailed else RunSucceeded,
         result := outcome.result, thread := outcome.thread, error := outcome.error, finishedAt := Some(now))
  }

  function ClosePatch(patch: PatchRun, now: Time, outcome: Outcome): PatchRun {
    patch.(status := if outcome.error.Some? then PatchBroken else PatchDone,
           changedFiles := outcome.changedFiles, diff := outcome.diff, validation := outcome.validation,
           error := outcome.error, finishedAt := Some(now))
  }

  /** `finalize` past its checks; None is the RuntimeError that rolls back. */
  function FinalizeSlice(s: Slice, kind: JobKind, now: Time, outcome: Outcome): Option<Slice>
    requires JobOf(s, kind).Some?
  {
    var job := JobOf(s, kind).value.(lastError := outcome.error);
    if outcome.error.Some? && outcome.transient && job.attempt < job.maxAttempts then
      Some(WithJob(s, kind, Released(Requeued(job, now))))
    else
      var closed := Released(job.(status := if outcome.error.Some? then Failed else Succeeded));
      match kind
      case Analyze =>
        if s.run.None? then None
        else
          Some(s.(analyze := Some(closed), run := Some(CloseRun(s.run.value, now, outcome)),
                  incident := Enter(s.incident, if outcome.error.Some? then AnalysisFailed else AwaitingApproval)))
      case Patch =>
        if s.patch.None? then None
        else
          Some(s.(patchJob := Some(closed), patch := Some(ClosePatch(s.patch.value, now, outcome)),
                  incident := Enter(s.incident, if outcome.error.Some? then PatchFailed else PatchReady)))
  }

  function FailedRun(run: AnalysisRun, now: Time, error: Option<Failure>): AnalysisRun {
    run.(status := RunFailed, error := error, finishedAt := Some(now))
  }

  function FailedPatch(patch: PatchRun, now: Time, error: Option<Failure>): PatchRun {
    patch.(status := PatchBroken, error := error, finishedAt := Some(now))
  }

  const LEASE_LOST := Failure("AEH-CODEX-502-001", "Worker lease expired")

  /** One pass of the loop of `recover_expired`; None is the RuntimeError that rolls back. */
  function RecoverSlice(s: Slice, kind: JobKind, now: Time): Option<Slice>
    requires JobOf(s, kind).Some?
  {
    var job := Released(JobOf(s, kind).value).(lastError := Some(LEASE_LOST));
    if job.attempt < job.maxAttempts then
      Some(WithJob(s, kind, Requeued(job, now)))
    else
      match kind
      case Analyze =>
        if s.run.None? then None
        else
          Some(s.(analyze := Some(job.(status := Failed)),
                  run := Some(FailedRun(s.run.value, now, Some(LEASE_LOST))),
                  incident := Enter(s.incident, AnalysisFailed)))
      case Patch =>
        if s.patch.None? then None
        else
          Some(s.(patchJob := Some(job.(status := Failed)),
                  patch := Some(FailedPatch(s.patch.value, now, Some(LEASE_LOST))),
                  incident := Enter(s.incident, PatchFailed)))
  }

  datatype ApproveIds = ApproveIds(approval: Id, patch: Id, job: Id)

  function NewApproval(s: Slice, key: Id, ids: ApproveIds): Approval
    requires s.run.Some?
  {
    Approval(ids.approval, s.run.value.id, key, s.incident.sha)
  }

  function NewPatch(s: Slice, ids: ApproveIds): PatchRun {
    PatchRun(ids.patch, ids.approval, PatchPending, s.incident.sha, [], None, [], None, None, None)
  }

  function NewPatchJob(i: Id, now: Time, ids: ApproveIds): Job {
    Job(Patch, PatchKey(ids.approval), i, Some(ids.patch), Pending, 0, MAX_ATTEMPTS, now, now, None, None, None, None)
  }

  /** `_approve_once` past its checks: approval, patch run and PATCH job appear together. */
  function ApproveSlice(s: Slice, i: Id, now: Time, key: Id, ids: ApproveIds): Slice
    requires s.run.Some?
  {
    s.(approval := Some(NewApproval(s, key, ids)), patch := Some(NewPatch(s, ids)),
       patchJob := Some(NewPatchJob(i, now, ids)), incident := Enter(s.incident, Patching))
  }

  // ---- what every slice of a reachable database satisfies ----

  ghost predicate JobShape(job: Job) {
    && job.maxAttempts == MAX_ATTEMPTS
    && 0 <= job.attempt <= MAX_ATTEMPTS
    && (job.status == Pending ==> job.attempt < MAX_ATTEMPTS)
    && (job.status != Pending ==> 1 <= job.attempt)
    && (job.status == Running <==> job.token.Some?)
    && (job.status == Running <==> job.lockedAt.Some?)
  }

  ghost predicate RunFits(s: Slice) {
    s.run.Some? ==>
      && s.run.value.sha == s.incident.sha
      && s.run.value.inputEvent == s.incident.firstEvent
      && s.run.value.startedAt.Some?
      && s.run.value.snapshot.Some?
      && s.run.value.snapshot.value.repositoryPath == s.incident.path
  }

  ghost predicate NoPatch(s: Slice) {
    s.approval.None? && s.patch.None? && s.patchJob.None?
  }

  ghost predicate AnalysisOver(s: Slice, job: JobStatus, run: RunStatus)
    requires s.analyze.Some?
  {
    s.analyze.value.status == job && s.run.Some? && s.run.value.status == run
  }

  /** An approved incident has one approval, one patch run and one PATCH job, bound to the same commit. */
  ghost predicate PatchFits(s: Slice)
    requires s.analyze.Some?
  {
    && AnalysisOver(s, Succeeded, RunSucceeded)
    && s.approval.Some? && s.patch.Some? && s.patchJob.Some?
    && s.approval.value.run == s.run.value.id
    && s.approval.value.sha == s.incident.sha
    && s.patch.value.approval == s.approval.value.id
    && s.patch.value.sha == s.incident.sha
    && JobShape(s.patchJob.value)
    && s.patchJob.value.patchRun == Some(s.patch.value.id)
    && (s.patch.value.startedAt.Some? <==> s.patchJob.value.attempt >= 1)
  }

  /** What the incident's state says about its other rows and its version. */
  ghost predicate StateFits(s: Slice)
    requires s.analyze.Some?
  {
    var v := s.incident.version;
    match s.incident.state
    case Received => NoPatch(s) && s.run.None? && s.analyze.value.status == Pending && s.analyze.value.attempt == 0 && v == 1
    case Analyzing => NoPatch(s) && s.run.Some? && s.run.value.status == RunRunning && Active(s.analyze.value) && s.analyze.value.attempt >= 1 && v == 2
    case AwaitingApproval => NoPatch(s) && AnalysisOver(s, Succeeded, RunSucceeded) && v == 3
    case AnalysisFailed => NoPatch(s) && AnalysisOver(s, Failed, RunFailed) && v == 3
    case Patching =>
      && PatchFits(s) && Active(s.patchJob.value)
      && s.patch.value.status == (if s.patchJob.value.attempt == 0 then PatchPending else PatchRunning)
      && 4 <= v <= (if s.patchJob.value.attempt == 0 then 4 else 2 + 2 * s.patchJob.value.attempt)
    case Validating =>
      && PatchFits(s) && Active(s.patchJob.value) && s.patchJob.value.attempt >= 1
      && s.patch.value.status == PatchValidating
      && 5 <= v <= 3 + 2 * s.patchJob.value.attempt
    case PatchReady => PatchFits(s) && s.patchJob.value.status == Succeeded && s.patch.value.status == PatchDone && 5 <= v <= 10
    case PatchFailed => PatchFits(s) && s.patchJob.value.status == Failed && s.patch.value.status == PatchBroken && 5 <= v <= 10
  }

  ghost predicate SliceOk(s: Slice) {
    && s.analyze.Some?
    && JobShape(s.analyze.value)
    && RunFits(s)
    && StateFits(s)
  }

  lemma JobShaped(s: Slice, kind: JobKind)
    requires SliceOk(s) && JobOf(s, kind).Some?
    ensures JobShape(JobOf(s, kind).value)
  {}

  // ---- the workflow automaton ----

  /**
   * What the tables alone allow: the documented diagram, the retry edge from VALIDATING back to
   * PATCHING, and PATCHING to PATCH_READY, because `finalize` does not look at the state. `Automaton`
   * shows that no worker takes the last one.
   */
  predicate Edge(a: IncidentState, b: IncidentState) {
    match a
    case Received => b == Analyzing
    case Analyzing => b == AwaitingApproval || b == AnalysisFailed
    case AwaitingApproval => b == Patching
    case Patching => b == Validating || b == PatchFailed || b == PatchReady
    case Validating => b == PatchReady || b == PatchFailed || b == Patching
    case _ => false
  }

  /** How many more claims, marks, finalizations, recoveries and approvals an incident can see. */
  function Budget(s: Slice): int
    requires s.analyze.Some?
  {
    var a := s.analyze.value;
    match s.incident.state
    case Received => 16
    case Analyzing => 16 - 2 * a.attempt + (if a.status == Running then 1 else 0)
    case AwaitingApproval => 10
    case Patching => if s.patchJob.None? then 0 else
      9 - 3 * s.patchJob.value.attempt + (if s.patchJob.value.status == Running then 2 else 0)
    case Validating => if s.patchJob.None? then 0 else
      9 - 3 * s.patchJob.value.attempt + (if s.patchJob.value.status == Running then 1 else 0)
    case _ => 0
  }

  /** The columns no later transaction may touch; a finished run keeps everything it stored. */
  ghost predicate Frozen(s: Slice, t: Slice) {
    && t.incident.service == s.incident.service
    && t.incident.fingerprint == s.incident.fingerprint
    && t.incident.path == s.incident.path
    && t.incident.sha == s.incident.sha
    && t.incident.firstEvent == s.incident.firstEvent
    && t.incident.createdAt == s.incident.createdAt
    && (s.run.Some? ==> t.run.Some? && SameRun(s.run.value, t.run.value))
    && (s.approval.Some? ==> t.approval == s.approval)
    && (s.patch.Some? ==> t.patch.Some? && SamePatch(s.patch.value, t.patch.value))
    && (s.run.Some? && s.run.value.status != RunRunning ==> t.run == s.run)
    && (s.patch.Some? && s.patch.value.status in {PatchDone, PatchBroken} ==> t.patch == s.patch)
  }

  ghost predicate SameRun(r: AnalysisRun, q: AnalysisRun) {
    q.id == r.id && q.sha == r.sha && q.inputEvent == r.inputEvent && q.snapshot == r.snapshot && q.startedAt == r.startedAt
  }

  ghost predicate SamePatch(p: PatchRun, q: PatchRun) {
    q.id == p.id && q.approval == p.approval && q.sha == p.sha && (p.startedAt.Some? ==> q.startedAt == p.startedAt)
  }

  // ---- what a transaction on the rows of one incident achieves ----

  ghost predicate SameIncident(a: Incident, b: Incident) {
    && b.service == a.service && b.fingerprint == a.fingerprint && b.sha == a.sha && b.path == a.path
    && b.firstEvent == a.firstEvent && b.count == a.count
    && (Open(b.state) ==> Open(a.state))
  }

  ghost predicate SameJob(a: Job, b: Job) {
    b.kind == a.kind && b.key == a.key && b.incident == a.incident && (Active(b) ==> Active(a))
  }

  /** A rewrite of one incident's rows that keeps what the other tables rely on. */
  ghost predicate Rewrites(s: Slice, t: Slice, kind: JobKind) {
    && SameIncident(s.incident, t.incident)
    && t.approval == s.approval
    && (kind == Analyze ==> t.patchJob == s.patchJob && s.analyze.Some? && t.analyze.Some? && SameJob(s.analyze.value, t.analyze.value))
    && (kind == Patch ==> t.analyze == s.analyze && s.patchJob.Some? && t.patchJob.Some? && SameJob(s.patchJob.value, t.patchJob.value))
    && (s.run.Some? ==> t.run.Some?)
    && (s.patch.Some? ==> t.patch.Some? && t.patch.value.id == s.patch.value.id)
    && (s.patch.None? ==> t.patch.None?)
  }

  /**
   * One effective transaction on an incident: the state
   * stays or takes one edge, the version counts exactly the state changes, the budget falls,
   * frozen columns stay.
   */
  ghost predicate Advances(s: Slice, t: Slice)
    requires s.analyze.Some? && t.analyze.Some?
  {
    && (t.incident.state == s.incident.state || Edge(s.incident.state, t.incident.state))
    && t.incident.version == s.incident.version + (if t.incident.state == s.incident.state then 0 else 1)
    && t.incident.count == s.incident.count
    && 0 <= Budget(t) < Budget(s)
    && Frozen(s, t)
  }

  ghost predicate FirstFits(s: Slice, first: AnalysisRun) {
    && first.status == RunRunning
    && RunFits(s.(run := Some(first)))
  }

  lemma ClaimAdvances(s: Slice, kind: JobKind, now: Time, token: Id, who: string, first: Option<AnalysisRun>)
    requires SliceOk(s) && JobOf(s, kind).Some? && JobOf(s, kind).value.status == Pending
    requires first.Some? && FirstFits(s, first.value)
    ensures ClaimSlice(s, kind, now, token, who, first).Some?
    ensures var t := ClaimSlice(s, kind, now, token, who, first).value;
            SliceOk(t) && Advances(s, t) && Rewrites(s, t, kind)
  {}

  lemma BeatKeeps(s: Slice, kind: JobKind, now: Time)
    requires SliceOk(s) && JobOf(s, kind).Some? && JobOf(s, kind).value.status == Running
    ensures var t := BeatSlice(s, kind, now);
            && SliceOk(t) && Frozen(s, t) && Rewrites(s, t, kind)
            && t.incident == s.incident && Budget(t) == Budget(s)
  {}

  lemma MarkAdvances(s: Slice)
    requires SliceOk(s) && s.incident.state == Patching && s.patchJob.value.status == Running
    ensures MarkSlice(s).Some?
    ensures var t := MarkSlice(s).value;
            SliceOk(t) && Advances(s, t) && Rewrites(s, t, Patch)
  {}

  lemma FinalizeAdvances(s: Slice, kind: JobKind, now: Time, outcome: Outcome)
    requires SliceOk(s) && JobOf(s, kind).Some? && JobOf(s, kind).value.status == Running
    ensures FinalizeSlice(s, kind, now, outcome).Some?
    ensures var t := FinalizeSlice(s, kind, now, outcome).value;
            SliceOk(t) && Advances(s, t) && Rewrites(s, t, kind)
  {}

  lemma RecoverAdvances(s: Slice, kind: JobKind, now: Time)
    requires SliceOk(s) && JobOf(s, kind).Some? && JobOf(s, kind).value.status == Running
    ensures RecoverSlice(s, kind, now).Some?
    ensures var t := RecoverSlice(s, kind, now).value;
            SliceOk(t) && Advances(s, t) && Rewrites(s, t, kind)
  {}

  lemma ApproveAdvances(s: Slice, i: Id, now: Time, key: Id, ids: ApproveIds)
    requires SliceOk(s) && s.incident.state == AwaitingApproval
    ensures var t := ApproveSlice(s, i, now, key, ids);
            SliceOk(t) && Advances(s, t)
  {}
}
