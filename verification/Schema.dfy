/**
 * The tables of `aeh/db.py` as values.
 *
 * A table is a map from the column its queries use to the row. A UNIQUE column is a map key
 * (runs, approvals and patch runs by incident, events by service and event id, occurrences by
 * event row) or an explicit index map beside the table (`serviceIndex`, `jobIndex`, `keyIndex`).
 */
module Schema {
  import opened Base

  datatype IncidentState =
    | Received | Analyzing | AwaitingApproval | AnalysisFailed
    | Patching | Validating | PatchReady | PatchFailed

  datatype JobKind = Analyze | Patch
  datatype JobStatus = Pending | Running | Succeeded | Failed
  datatype RunStatus = RunRunning | RunSucceeded | RunFailed
  datatype PatchStatus = PatchPending | PatchRunning | PatchValidating | PatchDone | PatchBroken

  datatype Failure = Failure(code: string, detail: string)

  datatype Command = Command(id: string, argv: seq<string>, timeout: int)
  datatype Policy = Policy(
    allowedPaths: seq<string>, deniedPaths: seq<string>,
    maxChangedFiles: int, maxDiffLines: int, commands: seq<Command>)
  /** The frozen policy: the service's policy, the incident's repository and the model. */
  datatype Snapshot = Snapshot(policy: Policy, repositoryPath: string, model: string)

  datatype CommandStatus = Passed | CommandFailed | TimedOut
  datatype CommandResult = CommandResult(id: string, status: CommandStatus, exitCode: Option<int>, output: string)

  datatype Confidence = Low | Medium | High
  /** The part of `AnalysisResult` its `useful` check reads, and the rest as one opaque text. */
  datatype Analysis = Analysis(confidence: Confidence, evidence: seq<string>, changedPaths: seq<string>, rest: string)

  datatype Service = Service(key: string, path: string, branch: string, policy: Policy, active: bool)

  datatype EventKey = EventKey(service: Id, event: Id)
  datatype ErrorEvent = ErrorEvent(id: Id, checksum: string, fingerprint: string, payload: string, receivedAt: Time)
  datatype Occurrence = Occurrence(id: Id, incident: Id, occurredAt: Time)

  datatype Incident = Incident(
    service: Id, fingerprint: string, state: IncidentState, version: int,
    path: string, sha: string, firstEvent: Id, count: int, createdAt: Time)

  datatype AnalysisRun = AnalysisRun(
    id: Id, status: RunStatus, sha: string, inputEvent: Id, snapshot: Option<Snapshot>,
    thread: Option<string>, result: Option<Analysis>, error: Option<Failure>,
    startedAt: Option<Time>, finishedAt: Option<Time>)

  datatype Approval = Approval(id: Id, run: Id, key: Id, sha: string)

  datatype PatchRun = PatchRun(
    id: Id, approval: Id, status: PatchStatus, sha: string,
    changedFiles: seq<string>, diff: Option<string>, validation: seq<CommandResult>,
    error: Option<Failure>, startedAt: Option<Time>, finishedAt: Option<Time>)

  /** `deduplication_key`: ANALYZE:<incident> or PATCH:<approval>. */
  datatype JobKey = AnalyzeKey(incident: Id) | PatchKey(approval: Id)

  datatype Job = Job(
    kind: JobKind, key: JobKey, incident: Id, patchRun: Option<Id>,
    status: JobStatus, attempt: int, maxAttempts: int, availableAt: Time, createdAt: Time,
    lockedBy: Option<string>, lockedAt: Option<Time>, token: Option<Id>, lastError: Option<Failure>)

  datatype Db = Db(
    services: map<Id, Service>, serviceIndex: map<string, Id>,
    events: map<EventKey, ErrorEvent>, occurrences: map<Id, Occurrence>,
    incidents: map<Id, Incident>,
    jobs: map<Id, Job>, jobIndex: map<JobKey, Id>,
    runs: map<Id, AnalysisRun>,
    approvals: map<Id, Approval>, keyIndex: map<Id, Id>,
    patchRuns: map<Id, PatchRun>)

  const EMPTY: Db := Db(map[], map[], map[], map[], map[], map[], map[], map[], map[], map[], map[])

  /** What `Claim` of `aeh/job_repository.py` carries to the worker. */
  datatype Claim = Claim(job: Id, token: Id, incident: Id, kind: JobKind, version: int, attempt: int)

  datatype Outcome = Outcome(
    result: Option<Analysis>, thread: Option<string>, changedFiles: seq<string>, diff: Option<string>,
    validation: seq<CommandResult>, error: Option<Failure>, transient: bool)

  /** One record of `git diff --numstat -z`. */
  datatype Stat = Blank | Malformed | Binary | Lines(added: nat, deleted: nat)

  /**
   * What a diff text says of the change it describes: the changed names, the line counts, its size
   * in bytes, whether `git diff --check` is silent, which names are new, the staged mode lines of a
   * name, and which names are links.
   */
  datatype Changes = Changes(
    names: seq<string>, stats: seq<Stat>, bytes: nat, clean: bool,
    added: string -> bool, modes: string -> seq<string>, link: string -> bool)

  /** What the model takes from outside the database: path resolution, commits, globbing, reading diffs, the model name. */
  datatype Env = Env(
    resolve: string -> Option<string>,
    isCommit: (string, string) -> bool,
    glob: (string, string) -> bool,
    read: string -> Changes,
    model: string)

  predicate Open(st: IncidentState) {
    st in {Received, Analyzing, AwaitingApproval, Patching, Validating}
  }

  predicate Active(job: Job) {
    job.status in {Pending, Running}
  }

  function ActiveJobs(db: Db): set<Id> {
    set j | j in db.jobs && Active(db.jobs[j])
  }

  /** `Job.locked_at <= now() - lease`: the lease of a RUNNING job has run out. */
  predicate Expired(job: Job, now: Time) {
    job.status == Running && job.lockedAt.Some? && job.lockedAt.value <= now - LEASE
  }
}
