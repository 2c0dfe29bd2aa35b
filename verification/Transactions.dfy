/**
 * Every write transaction as a function on the whole database.
 *
 * A RuntimeError or a refused check leaves the tables as they were: the transaction rolled
 * back. `now` is the instant at which the transaction ran.
 */
module Transactions {
  import opened Base
  import opened Schema
  import opened Slices

  function JobAt(db: Db, key: JobKey): Option<Job> {
    if key in db.jobIndex then Lookup(db.jobs, db.jobIndex[key]) else None
  }

  function SliceOf(db: Db, i: Id): Slice
    requires i in db.incidents
  {
    var approval := Lookup(db.approvals, i);
    Slice(db.incidents[i], JobAt(db, AnalyzeKey(i)), Lookup(db.runs, i), approval, Lookup(db.patchRuns, i),
          if approval.Some? then JobAt(db, PatchKey(approval.value.id)) else None)
  }

  /** Writes back the rows of incident `i` that a job's transaction may change. */
  function Store(db: Db, i: Id, j: Id, s: Slice): Db
    requires j in db.jobs && JobOf(s, db.jobs[j].kind).Some?
  {
    db.(incidents := db.incidents[i := s.incident],
        runs := Put(db.runs, i, s.run),
        patchRuns := Put(db.patchRuns, i, s.patch),
        jobs := db.jobs[j := JobOf(s, db.jobs[j].kind).value])
  }

  function StoreOpt(db: Db, i: Id, j: Id, s: Option<Slice>): Db
    requires j in db.jobs && (s.Some? ==> JobOf(s.value, db.jobs[j].kind).Some?)
  {
    if s.Some? then Store(db, i, j, s.value) else db
  }

  /** The job `j` exists and is reachable from its incident, as every job of a coherent database is. */
  predicate HasJob(db: Db, j: Id) {
    && j in db.jobs
    && db.jobs[j].incident in db.incidents
    && JobOf(SliceOf(db, db.jobs[j].incident), db.jobs[j].kind) == Some(db.jobs[j])
  }

  // ---- claim_job ----

  predicate Claimable(job: Job, now: Time) {
    job.status == Pending && job.availableAt <= now
  }

  /** `ORDER BY available_at, created_at, id` on two rows. */
  predicate Earlier(x: Job, a: Id, y: Job, b: Id) {
    || x.availableAt < y.availableAt
    || (x.availableAt == y.availableAt && x.createdAt < y.createdAt)
    || (x.availableAt == y.availableAt && x.createdAt == y.createdAt && a < b)
  }

  predicate Before(db: Db, a: Id, b: Id)
    requires a in db.jobs && b in db.jobs
  {
    Earlier(db.jobs[a], a, db.jobs[b], b)
  }

  ghost predicate IsNext(db: Db, now: Time, j: Id) {
    && j in db.jobs && Claimable(db.jobs[j], now)
    && forall k | k in db.jobs && Claimable(db.jobs[k], now) :: k == j || Before(db, j, k)
  }

  /** The analysis run a first claim writes: the service's current policy, frozen. */
  function FirstRun(env: Env, db: Db, i: Id, now: Time, runId: Id): Option<AnalysisRun>
    requires i in db.incidents
  {
    var inc := db.incidents[i];
    if inc.service !in db.services then None
    else
      var snapshot := Snapshot(db.services[inc.service].policy, inc.path, env.model);
      Some(AnalysisRun(runId, RunRunning, inc.sha, inc.firstEvent, Some(snapshot), None, None, None, Some(now), None))
  }

  function ClaimEffect(env: Env, db: Db, now: Time, j: Id, token: Id, who: string, runId: Id): Option<Slice>
    requires HasJob(db, j)
  {
    var job := db.jobs[j];
    ClaimSlice(SliceOf(db, job.incident), job.kind, now, token, who, FirstRun(env, db, job.incident, now, runId))
  }

  function ClaimDb(env: Env, db: Db, now: Time, j: Id, token: Id, who: string, runId: Id): Db {
    if HasJob(db, j) then StoreOpt(db, db.jobs[j].incident, j, ClaimEffect(env, db, now, j, token, who, runId)) else db
  }

  /** The `Claim` handed to the worker, read from the database the claim left behind. */
  function ClaimOf(db: Db, j: Id, token: Id): Claim
    requires j in db.jobs && db.jobs[j].incident in db.incidents
  {
    var job := db.jobs[j];
    Claim(j, token, job.incident, job.kind, db.incidents[job.incident].version, job.attempt)
  }

  // ---- heartbeat ----

  predicate Beats(db: Db, now: Time, claim: Claim) {
    && HasJob(db, claim.job)
    && db.jobs[claim.job].token == Some(claim.token)
    && db.jobs[claim.job].status == Running
    && db.jobs[claim.job].lockedAt.Some?
    && db.jobs[claim.job].lockedAt.value > now - LEASE
  }

  function BeatDb(db: Db, now: Time, claim: Claim): Db {
    if Beats(db, now, claim) then
      var job := db.jobs[claim.job];
      Store(db, job.incident, claim.job, BeatSlice(SliceOf(db, job.incident), job.kind, now))
    else db
  }

  // ---- recover_expired ----

  function RecoverOne(db: Db, now: Time, j: Id): Db {
    if HasJob(db, j) then
      var job := db.jobs[j];
      StoreOpt(db, job.incident, j, RecoverSlice(SliceOf(db, job.incident), job.kind, now))
    else db
  }

  function RecoverDb(db: Db, now: Time, batch: seq<Id>): Db {
    if batch == [] then db
    else
      var before := RecoverDb(db, now, batch[..|batch| - 1]);
      RecoverOne(before, now, batch[|batch| - 1])
  }

  function ExpiredJobs(db: Db, now: Time): set<Id> {
    set j | j in db.jobs && Expired(db.jobs[j], now)
  }

  ghost predicate Distinct(s: seq<Id>) {
    forall a, b | 0 <= a < b < |s| :: s[a] != s[b]
  }

  /** A result of the query with `LIMIT 100` and `SKIP LOCKED`: some expired jobs, whichever rows are locked. */
  ghost predicate IsSweep(db: Db, now: Time, batch: seq<Id>) {
    && Distinct(batch)
    && (forall j | j in batch :: j in ExpiredJobs(db, now))
    && |batch| <= RECOVERY_BATCH
  }

  /** When no row is locked the query leaves out expired jobs only at its limit. */
  ghost predicate IsBatch(db: Db, now: Time, batch: seq<Id>) {
    && IsSweep(db, now, batch)
    && (|batch| == RECOVERY_BATCH || forall j | j in ExpiredJobs(db, now) :: j in batch)
  }

  // ---- mark_validating ----

  predicate Marks(db: Db, claim: Claim) {
    && HasJob(db, claim.job) && claim.incident in db.incidents
    && db.jobs[claim.job].token == Some(claim.token)
    && db.jobs[claim.job].status == Running
    && db.incidents[claim.incident].version == claim.version
    && claim.incident in db.patchRuns
  }

  /** A claim built by `claim_job`: its incident and type are its job's. */
  predicate Genuine(db: Db, claim: Claim) {
    claim.job in db.jobs ==> db.jobs[claim.job].incident == claim.incident && db.jobs[claim.job].kind == claim.kind
  }

  function MarkDb(db: Db, claim: Claim): Db {
    if Marks(db, claim) && Genuine(db, claim) then
      StoreOpt(db, claim.incident, claim.job, MarkSlice(SliceOf(db, claim.incident)))
    else db
  }

  // ---- finalize ----

  predicate Finalizes(db: Db, now: Time, claim: Claim, version: int) {
    && Beats(db, now, claim)
    && claim.incident in db.incidents
    && db.incidents[claim.incident].version == version
  }

  function FinalizeDb(db: Db, now: Time, claim: Claim, outcome: Outcome, version: int): Db {
    if Finalizes(db, now, claim, version) && Genuine(db, claim) then
      StoreOpt(db, claim.incident, claim.job, FinalizeSlice(SliceOf(db, claim.incident), claim.kind, now, outcome))
    else db
  }

  // ---- approve ----

  datatype ApproveReply =
    | Approved(approval: Id, patch: Id, duplicate: bool)
    | NotFound | KeyElsewhere | NoPatchRun | NotAwaiting | ShaMismatch | AlreadyApproved | QueueFull

  /** Exactly one successful analysis, with a snapshot, of the incident's commit. */
  predicate ApprovableRun(db: Db, i: Id)
    requires i in db.incidents
  {
    && i in db.runs && db.runs[i].status == RunSucceeded
    && db.runs[i].snapshot.Some? && db.runs[i].sha == db.incidents[i].sha
  }

  function Decide(db: Db, i: Id, key: Id, ids: ApproveIds): ApproveReply {
    if i !in db.incidents then NotFound
    else if key in db.keyIndex then
      if db.keyIndex[key] != i then KeyElsewhere
      else if i !in db.approvals || i !in db.patchRuns || db.patchRuns[i].approval != db.approvals[i].id then NoPatchRun
      else Approved(db.approvals[i].id, db.patchRuns[i].id, true)
    else if db.incidents[i].state != AwaitingApproval then NotAwaiting
    else if !ApprovableRun(db, i) then ShaMismatch
    else if i in db.approvals then AlreadyApproved
    else if |ActiveJobs(db)| >= JOB_LIMIT then QueueFull
    else Approved(ids.approval, ids.patch, false)
  }

  /** The tables after the inserts of `_approve_once`. */
  function ApprovedDb(db: Db, now: Time, i: Id, key: Id, ids: ApproveIds): Db
    requires i in db.incidents && i in db.runs
  {
    var s := ApproveSlice(SliceOf(db, i), i, now, key, ids);
    db.(incidents := db.incidents[i := s.incident],
        approvals := db.approvals[i := NewApproval(SliceOf(db, i), key, ids)],
        keyIndex := db.keyIndex[key := i],
        patchRuns := db.patchRuns[i := NewPatch(SliceOf(db, i), ids)],
        jobs := db.jobs[ids.job := NewPatchJob(i, now, ids)],
        jobIndex := db.jobIndex[PatchKey(ids.approval) := ids.job])
  }

  function ApproveDb(db: Db, now: Time, i: Id, key: Id, ids: ApproveIds): Db {
    var reply := Decide(db, i, key, ids);
    if reply.Approved? && !reply.duplicate then ApprovedDb(db, now, i, key, ids) else db
  }

  // ---- ingest ----

  /** One call of `_ingest_resolved`: the service and path read before, the resolved commit, the event. */
  datatype Intake = Intake(
    service: Id, path: string, event: Id, checksum: string, fingerprint: string, payload: string,
    sha: string, occurredAt: Time)

  datatype IntakeIds = IntakeIds(event: Id, incident: Id, job: Id, occurrence: Id)

  datatype IntakeReply =
    | Accepted(incident: Id, state: IncidentState, duplicate: bool)
    | UnknownService | ChecksumConflict | NoIncident | RepositoryChanged | Full

  predicate Groups(db: Db, i: Id, service: Id, fingerprint: string, sha: string) {
    && i in db.incidents && Open(db.incidents[i].state)
    && db.incidents[i].service == service && db.incidents[i].fingerprint == fingerprint && db.incidents[i].sha == sha
  }

  ghost function OpenIncident(db: Db, service: Id, fingerprint: string, sha: string): Option<Id> {
    if exists i :: Groups(db, i, service, fingerprint, sha) then
      var i :| Groups(db, i, service, fingerprint, sha); Some(i)
    else None
  }

  /** `_duplicate`: None when the event is new. */
  function Duplicate(db: Db, call: Intake): Option<IntakeReply> {
    var key := EventKey(call.service, call.event);
    if key !in db.events then None
    else if db.events[key].checksum != call.checksum then Some(ChecksumConflict)
    else
      var row := db.events[key].id;
      if row !in db.occurrences || db.occurrences[row].incident !in db.incidents then Some(NoIncident)
      else
        var i := db.occurrences[row].incident;
        Some(Accepted(i, db.incidents[i].state, true))
  }

  ghost function IngestReply(db: Db, call: Intake, ids: IntakeIds): IntakeReply {
    if call.service !in db.services || !db.services[call.service].active then UnknownService
    else if Duplicate(db, call).Some? then Duplicate(db, call).value
    else if db.services[call.service].path != call.path then RepositoryChanged
    else
      var i := OpenIncident(db, call.service, call.fingerprint, call.sha);
      if i.None? && |ActiveJobs(db)| >= JOB_LIMIT then Full
      else if i.None? then Accepted(ids.incident, Received, false)
      else Accepted(i.value, db.incidents[i.value].state, false)
  }

  function NewEvent(call: Intake, now: Time, ids: IntakeIds): ErrorEvent {
    ErrorEvent(ids.event, call.checksum, call.fingerprint, call.payload, now)
  }

  function NewIncident(call: Intake, now: Time, ids: IntakeIds): Incident {
    Incident(call.service, call.fingerprint, Received, 1, call.path, call.sha, ids.event, 1, now)
  }

  function NewAnalyzeJob(now: Time, ids: IntakeIds): Job {
    Job(Analyze, AnalyzeKey(ids.incident), ids.incident, None, Pending, 0, MAX_ATTEMPTS, now, now, None, None, None, None)
  }

  /** The event and its occurrence on incident `i`. */
  function Recorded(db: Db, now: Time, call: Intake, ids: IntakeIds, i: Id): Db {
    db.(events := db.events[EventKey(call.service, call.event) := NewEvent(call, now, ids)],
        occurrences := db.occurrences[ids.event := Occurrence(ids.occurrence, i, call.occurredAt)])
  }

  function OpenedNew(db: Db, now: Time, call: Intake, ids: IntakeIds): Db {
    Recorded(db, now, call, ids, ids.incident).(
      incidents := db.incidents[ids.incident := NewIncident(call, now, ids)],
      jobs := db.jobs[ids.job := NewAnalyzeJob(now, ids)],
      jobIndex := db.jobIndex[AnalyzeKey(ids.incident) := ids.job])
  }

  function Appended(db: Db, now: Time, call: Intake, ids: IntakeIds, i: Id): Db
    requires i in db.incidents
  {
    Recorded(db, now, call, ids, i).(
      incidents := db.incidents[i := db.incidents[i].(count := db.incidents[i].count + 1)])
  }

  ghost function IngestDb(db: Db, now: Time, call: Intake, ids: IntakeIds): Db {
    var reply := IngestReply(db, call, ids);
    if !reply.Accepted? || reply.duplicate then db
    else
      var i := OpenIncident(db, call.service, call.fingerprint, call.sha);
      if i.None? then OpenedNew(db, now, call, ids) else Appended(db, now, call, ids, i.value)
  }

  // ---- sync_services ----

  datatype Entry = Entry(key: string, path: string, branch: string, policy: Policy, id: Id)

  ghost predicate HasOpen(db: Db, service: Id) {
    exists i :: i in db.incidents && db.incidents[i].service == service && Open(db.incidents[i].state)
  }

  function Registered(db: Db, e: Entry): Db {
    db.(services := db.services[e.id := Service(e.key, e.path, e.branch, e.policy, true)],
        serviceIndex := db.serviceIndex[e.key := e.id])
  }

  function Updated(db: Db, v: Id, e: Entry): Db
    requires v in db.services
  {
    db.(services := db.services[v := db.services[v].(path := e.path, branch := e.branch, policy := e.policy, active := true)])
  }

  /** One pass of the loop of `sync_services`; None is the ValueError. */
  ghost function SyncOne(env: Env, db: Db, e: Entry): Option<Db> {
    if env.resolve(e.path).None? then None
    else if e.key !in db.serviceIndex || db.serviceIndex[e.key] !in db.services then Some(Registered(db, e))
    else
      var v := db.serviceIndex[e.key];
      var path := db.services[v].path;
      if env.resolve(path).None? then None
      else if env.resolve(path) != env.resolve(e.path) && HasOpen(db, v) then None
      else Some(Updated(db, v, e))
  }

  ghost function SyncAll(env: Env, db: Db, entries: seq<Entry>): Option<Db> {
    if entries == [] then Some(db)
    else
      var before := SyncAll(env, db, entries[..|entries| - 1]);
      if before.None? then None else SyncOne(env, before.value, entries[|entries| - 1])
  }

  /** One failing service rolls back all of them. */
  ghost function SyncDb(env: Env, db: Db, entries: seq<Entry>): Db {
    var r := SyncAll(env, db, entries);
    if r.Some? then r.value else db
  }

  // ---- all of them ----

  datatype Tx =
    | Sync(entries: seq<Entry>)
    | Ingest(call: Intake, intakeIds: IntakeIds)
    | Approve(incident: Id, key: Id, approveIds: ApproveIds)
    | ClaimJob(job: Id, token: Id, who: string, runId: Id)
    | Heartbeat(claim: Claim)
    | Recover(batch: seq<Id>)
    | Mark(claim: Claim)
    | Finalize(claim: Claim, outcome: Outcome, version: int)

  ghost function Run(env: Env, db: Db, now: Time, tx: Tx): Db {
    match tx
    case Sync(entries) => SyncDb(env, db, entries)
    case Ingest(call, ids) => IngestDb(db, now, call, ids)
    case Approve(i, key, ids) => ApproveDb(db, now, i, key, ids)
    case ClaimJob(j, token, who, runId) => ClaimDb(env, db, now, j, token, who, runId)
    case Heartbeat(claim) => BeatDb(db, now, claim)
    case Recover(batch) => RecoverDb(db, now, batch)
    case Mark(claim) => MarkDb(db, claim)
    case Finalize(claim, outcome, version) => FinalizeDb(db, now, claim, outcome, version)
  }

  /** New row ids are UUIDs nobody used before. */
  ghost predicate IntakeIdsNew(db: Db, ids: IntakeIds) {
    && ids.incident !in db.incidents && ids.job !in db.jobs && ids.event !in db.occurrences
  }

  ghost predicate ApproveIdsNew(db: Db, ids: ApproveIds) {
    && ids.job !in db.jobs
    && (forall i | i in db.approvals :: db.approvals[i].id != ids.approval)
    && (forall i | i in db.patchRuns :: db.patchRuns[i].id != ids.patch)
  }

  ghost predicate EntryIdsNew(db: Db, entries: seq<Entry>) {
    && (forall a | 0 <= a < |entries| :: entries[a].id !in db.services)
    && (forall a, b | 0 <= a < b < |entries| :: entries[a].id != entries[b].id)
  }

  /** What the environment guarantees of a transaction: ids are new, queries answer by the tables, claims are genuine. */
  ghost predicate Ready(env: Env, db: Db, now: Time, tx: Tx) {
    match tx
    case Sync(entries) => EntryIdsNew(db, entries)
    case Ingest(call, ids) =>
      && IntakeIdsNew(db, ids)
      && env.resolve(call.path).Some? && env.isCommit(env.resolve(call.path).value, call.sha)
    case Approve(i, key, ids) => ApproveIdsNew(db, ids)
    case ClaimJob(j, token, who, runId) => IsNext(db, now, j)
    case Heartbeat(claim) => Genuine(db, claim)
    case Recover(batch) => IsSweep(db, now, batch)
    case Mark(claim) => Genuine(db, claim)
    case Finalize(claim, outcome, version) => Genuine(db, claim)
  }
}
