/**
 * The mapped classes of `aeh/db.py` whose objects a session updates in place.
 *
 * A transaction loads a row into an object, assigns its fields, and flushes the object when it
 * commits; a rollback drops the object.
 */
module Entities {
  import opened Base
  import opened Schema

  class JobEntity {
    const kind: JobKind
    const key: JobKey
    const incident: Id
    const patchRun: Option<Id>
    const maxAttempts: int
    const createdAt: Time
    var status: JobStatus
    var attempt: int
    var availableAt: Time
    var lockedBy: Option<string>
    var lockedAt: Option<Time>
    var token: Option<Id>
    var lastError: Option<Failure>

    constructor (row: Job)
      ensures View() == row
    {
      kind, key, incident, patchRun, maxAttempts, createdAt := row.kind, row.key, row.incident, row.patchRun, row.maxAttempts, row.createdAt;
      status, attempt, availableAt := row.status, row.attempt, row.availableAt;
      lockedBy, lockedAt, token, lastError := row.lockedBy, row.lockedAt, row.token, row.lastError;
    }

    function View(): Job
      reads this
    {
      Job(kind, key, incident, patchRun, status, attempt, maxAttempts, availableAt, createdAt, lockedBy, lockedAt, token, lastError)
    }
  }

  class IncidentEntity {
    const service: Id
    const fingerprint: string
    const path: string
    const sha: string
    const firstEvent: Id
    const createdAt: Time
    var state: IncidentState
    var version: int
    var count: int

    constructor (row: Incident)
      ensures View() == row
    {
      service, fingerprint, path, sha, firstEvent, createdAt := row.service, row.fingerprint, row.path, row.sha, row.firstEvent, row.createdAt;
      state, version, count := row.state, row.version, row.count;
    }

    function View(): Incident
      reads this
    {
      Incident(service, fingerprint, state, version, path, sha, firstEvent, count, createdAt)
    }
  }

  class RunEntity {
    const id: Id
    const sha: string
    const inputEvent: Id
    const snapshot: Option<Snapshot>
    const startedAt: Option<Time>
    var status: RunStatus
    var thread: Option<string>
    var result: Option<Analysis>
    var error: Option<Failure>
    var finishedAt: Option<Time>

    constructor (row: AnalysisRun)
      ensures View() == row
    {
      id, sha, inputEvent, snapshot, startedAt := row.id, row.sha, row.inputEvent, row.snapshot, row.startedAt;
      status, thread, result, error, finishedAt := row.status, row.thread, row.result, row.error, row.finishedAt;
    }

    function View(): AnalysisRun
      reads this
    {
      AnalysisRun(id, status, sha, inputEvent, snapshot, thread, result, error, startedAt, finishedAt)
    }
  }

  class PatchEntity {
    const id: Id
    const approval: Id
    const sha: string
    var status: PatchStatus
    var changedFiles: seq<string>
    var diff: Option<string>
    var validation: seq<CommandResult>
    var error: Option<Failure>
    var startedAt: Option<Time>
    var finishedAt: Option<Time>

    constructor (row: PatchRun)
      ensures View() == row
    {
      id, approval, sha := row.id, row.approval, row.sha;
      status, changedFiles, diff, validation := row.status, row.changedFiles, row.diff, row.validation;
      error, startedAt, finishedAt := row.error, row.startedAt, row.finishedAt;
    }

    function View(): PatchRun
      reads this
    {
      PatchRun(id, approval, status, sha, changedFiles, diff, validation, error, startedAt, finishedAt)
    }
  }

  class ServiceEntity {
    const key: string
    var path: string
    var branch: string
    var policy: Policy
    var active: bool

    constructor (row: Service)
      ensures View() == row
    {
      key, path, branch, policy, active := row.key, row.path, row.branch, row.policy, row.active;
    }

    function View(): Service
      reads this
    {
      Service(key, path, branch, policy, active)
    }
  }
}
