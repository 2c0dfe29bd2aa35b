/**
 * The write transactions as the code runs them: entities are loaded, assigned in place and
 * flushed to the tables. Each method is proved equal to its transaction in `Transactions`.
 */
module Database {
  import opened Base
  import opened Schema
  import opened Slices
  import opened Transactions
  import opened Coherence
  import opened JobSteps
  import opened IntakeSteps
  import opened ProtocolSafety
  import opened Workflow
  import opened Entities
  import O = Once

  class Store {
    var services: map<Id, Service>
    var serviceIndex: map<string, Id>
    var events: map<EventKey, ErrorEvent>
    var occurrences: map<Id, Occurrence>
    var incidents: map<Id, Incident>
    var jobs: map<Id, Job>
    var jobIndex: map<JobKey, Id>
    var runs: map<Id, AnalysisRun>
    var approvals: map<Id, Approval>
    var keyIndex: map<Id, Id>
    var patchRuns: map<Id, PatchRun>

    ghost function Tables(): Db
      reads this
    {
      Db(services, serviceIndex, events, occurrences, incidents, jobs, jobIndex, runs, approvals, keyIndex, patchRuns)
    }

    ghost predicate Valid(env: Env)
      reads this
    {
      Coherent(env, Tables())
    }

    constructor (env: Env)
      ensures Tables() == EMPTY && Valid(env)
    {
      services, serviceIndex, events, occurrences, incidents := map[], map[], map[], map[], map[];
      jobs, jobIndex, runs, approvals, keyIndex, patchRuns := map[], map[], map[], map[], map[], map[];
    }

    // ---- aeh/job_repository.py ----

    /** `ORDER BY available_at, created_at, id LIMIT 1` over the claimable jobs. */
    method SelectNext(now: Time) returns (next: Option<Id>)
      ensures next.None? ==> forall j | j in jobs :: !Claimable(jobs[j], now)
      ensures next.Some? ==> IsNext(Tables(), now, next.value)
    {
      next := None;
      var rest := jobs.Keys;
      while rest != {}
        invariant rest <= jobs.Keys
        invariant next.None? ==> forall j | j in jobs && j !in rest :: !Claimable(jobs[j], now)
        invariant next.Some? ==> next.value in jobs && Claimable(jobs[next.value], now)
        invariant next.Some? ==> forall j | j in jobs && j !in rest && Claimable(jobs[j], now) :: j == next.value || Before(Tables(), next.value, j)
        decreases |rest|
      {
        var j :| j in rest;
        rest := rest - {j};
        if Claimable(jobs[j], now) && (next.None? || Earlier(jobs[j], j, jobs[next.value], next.value)) {
          next := Some(j);
        }
      }
    }

    method ClaimJob(env: Env, now: Time, token: Id, who: string, runId: Id) returns (claim: Option<Claim>)
      requires Valid(env)
      modifies this
      ensures Valid(env)
      ensures claim.None? ==> Tables() == old(Tables()) && forall j | j in jobs :: !(jobs[j].status == Pending && jobs[j].availableAt <= now)
      ensures claim.Some? ==>
        && IsNext(old(Tables()), now, claim.value.job)
        && Tables() == ClaimDb(env, old(Tables()), now, claim.value.job, token, who, runId)
        && claim.value.job in jobs && jobs[claim.value.job].incident in incidents
        && claim.value == ClaimOf(Tables(), claim.value.job, token)
    {
      var next := SelectNext(now);
      if next.None? {
        return None;
      }
      ClaimMoves(env, Tables(), now, next.value, token, who, runId);
      var taken := Take(env, now, next.value, token, who, runId);
      claim := Some(taken);
    }

    /** The part of `claim_job` after the query. The RuntimeError branches are excluded by the requires. */
    method Take(env: Env, now: Time, j: Id, token: Id, who: string, runId: Id) returns (claim: Claim)
      requires HasJob(Tables(), j) && ClaimEffect(env, Tables(), now, j, token, who, runId).Some?
      modifies this
      ensures Tables() == Transactions.Store(old(Tables()), old(jobs)[j].incident, j, ClaimEffect(env, old(Tables()), now, j, token, who, runId).value)
      ensures j in jobs && jobs[j].incident in incidents && claim == ClaimOf(Tables(), j, token)
    {
      var i := jobs[j].incident;
      ClaimIs(env, Tables(), now, j, token, who, runId);
      var incident := new IncidentEntity(incidents[i]);
      if jobs[j].kind == Analyze {
        OpenAnalysis(env, now, i, incident, runId);
      } else {
        OpenPatch(now, i, incident);
      }
      TakeJob(now, j, token, who);
      incidents := incidents[i := incident.View()];
      claim := Claim(j, token, i, jobs[j].kind, incident.version, jobs[j].attempt);
    }

    /** The job's own columns of a claim. */
    method TakeJob(now: Time, j: Id, token: Id, who: string)
      requires j in jobs
      modifies this`jobs
      ensures jobs == old(jobs)[j := Taken(old(jobs)[j], now, token, who)]
    {
      var job := new JobEntity(jobs[j]);
      job.status, job.token, job.lockedBy, job.lockedAt := Running, Some(token), Some(who), Some(now);
      job.attempt := job.attempt + 1;
      jobs := jobs[j := job.View()];
    }

    /** First claim of an analysis: freeze the policy in a run; every claim of a RECEIVED incident starts it. */
    method OpenAnalysis(env: Env, now: Time, i: Id, incident: IncidentEntity, runId: Id)
      requires i in incidents && incident.View() == incidents[i]
      requires i in runs || FirstRun(env, Tables(), i, now, runId).Some?
      modifies this`runs, incident
      ensures runs == if i in old(runs) then old(runs) else Put(old(runs), i, FirstRun(env, old(Tables()), i, now, runId))
      ensures incident.View() == if incidents[i].state == Received then Enter(incidents[i], Analyzing) else incidents[i]
    {
      if i !in runs {
        var snapshot := Snapshot(services[incident.service].policy, incident.path, env.model);
        runs := runs[i := AnalysisRun(runId, RunRunning, incident.sha, incident.firstEvent, Some(snapshot), None, None, None, Some(now), None)];
      }
      if incident.state == Received {
        incident.state := Analyzing;
        incident.version := incident.version + 1;
      }
    }

    /** A claim of a patch: it runs (again), and a retry takes the incident back from VALIDATING. */
    method OpenPatch(now: Time, i: Id, incident: IncidentEntity)
      requires i in incidents && incident.View() == incidents[i] && i in patchRuns
      modifies this`patchRuns, incident
      ensures patchRuns == old(patchRuns)[i := Started(old(patchRuns)[i], now)]
      ensures incident.View() == if incidents[i].state == Validating then Enter(incidents[i], Patching) else incidents[i]
    {
      var patch := new PatchEntity(patchRuns[i]);
      patch.status := PatchRunning;
      if patch.startedAt.None? {
        patch.startedAt := Some(now);
      }
      if incident.state == Validating {
        incident.state := Patching;
        incident.version := incident.version + 1;
      }
      patchRuns := patchRuns[i := patch.View()];
    }

    method Heartbeat(env: Env, now: Time, claim: Claim) returns (owned: bool)
      requires Valid(env)
      modifies this`jobs
      ensures Valid(env) && owned == Beats(old(Tables()), now, claim)
      ensures owned <==>
              && claim.job in old(jobs) && old(jobs)[claim.job].token == Some(claim.token) && old(jobs)[claim.job].status == Running
              && old(jobs)[claim.job].lockedAt.Some? && old(jobs)[claim.job].lockedAt.value > now - 120 * SECOND
      ensures Tables() == BeatDb(old(Tables()), now, claim)
    {
      owned := claim.job in jobs && jobs[claim.job].token == Some(claim.token) && jobs[claim.job].status == Running
               && jobs[claim.job].lockedAt.Some? && jobs[claim.job].lockedAt.value > now - LEASE;
      if claim.job in jobs {
        CoherentJob(env, Tables(), claim.job);
      }
      if owned {
        BeatKeepsAll(env, Tables(), now, claim);
        Touch(now, claim);
      }
    }

    /** The UPDATE of `heartbeat` on the row it matched. */
    method Touch(now: Time, claim: Claim)
      requires Beats(Tables(), now, claim)
      modifies this`jobs
      ensures Tables() == BeatDb(old(Tables()), now, claim)
    {
      var job := new JobEntity(jobs[claim.job]);
      job.lockedAt := Some(now);
      assert incidents == incidents[job.incident := incidents[job.incident]];
      PutLookup(runs, job.incident);
      PutLookup(patchRuns, job.incident);
      jobs := jobs[claim.job := job.View()];
    }

    /** The query of `recover_expired`: expired jobs in no particular order, at most 100. */
    method SelectExpired(now: Time) returns (batch: seq<Id>)
      ensures IsBatch(Tables(), now, batch)
    {
      batch := [];
      var rest := set j | j in jobs && Expired(jobs[j], now);
      while rest != {} && |batch| < RECOVERY_BATCH
        invariant rest <= ExpiredJobs(Tables(), now)
        invariant Distinct(batch) && |batch| <= RECOVERY_BATCH
        invariant forall j :: j in ExpiredJobs(Tables(), now) <==> j in batch || j in rest
        invariant forall j | j in batch :: j !in rest
        decreases |rest|
      {
        var j :| j in rest;
        rest := rest - {j};
        batch := batch + [j];
      }
    }

    /** Sweeps every expired lease; at each iteration the tables are coherent and the sweep so far is exact. */
    method RecoverExpired(env: Env, now: Time) returns (recovered: nat, batch: seq<Id>)
      requires Valid(env)
      modifies this
      ensures Valid(env)
      ensures recovered == |batch| == |ExpiredJobs(old(Tables()), now)|
      ensures IsBatch(old(Tables()), now, batch) && Tables() == RecoverDb(old(Tables()), now, batch)
      ensures ExpiredJobs(Tables(), now) == {}
      ensures recovered == |set j | j in old(jobs) && old(jobs)[j].status == Running && old(jobs)[j].lockedAt.Some? && old(jobs)[j].lockedAt.value + 120 * SECOND <= now|
    {
      batch := SelectExpired(now);
      recovered := 0;
      ghost var before := Tables();
      while recovered < |batch|
        invariant recovered <= |batch|
        invariant Tables() == RecoverDb(before, now, batch[..recovered])
      {
        var j := batch[recovered];
        SweepReaches(env, before, now, batch, recovered);
        Recover(now, j);
        assert batch[..recovered + 1] == batch[..recovered] + [j];
        recovered := recovered + 1;
      }
      assert batch[..recovered] == batch;
      WholeSweep(env, before, now, batch);
    }

    /** The body of the sweep's loop. The RuntimeError branches are excluded by the requires. */
    method Recover(now: Time, j: Id)
      requires HasJob(Tables(), j) && RecoverSlice(SliceOf(Tables(), jobs[j].incident), jobs[j].kind, now).Some?
      modifies this
      ensures Tables() == RecoverOne(old(Tables()), now, j)
    {
      var i := jobs[j].incident;
      RecoverIs(Tables(), now, j);
      if jobs[j].attempt < jobs[j].maxAttempts {
        Requeue(now, j, Some(Failure("AEH-CODEX-502-001", "Worker lease expired")));
      } else {
        var incident := new IncidentEntity(incidents[i]);
        FailIncident(now, i, jobs[j].kind, Some(Failure("AEH-CODEX-502-001", "Worker lease expired")), incident);
        CloseJob(j, Failed, Some(Failure("AEH-CODEX-502-001", "Worker lease expired")));
        incidents := incidents[i := incident.View()];
      }
    }

    /** Out of attempts: the run and the incident fail with the job. */
    method FailIncident(now: Time, i: Id, kind: JobKind, error: Option<Failure>, incident: IncidentEntity)
      requires if kind == Analyze then i in runs else i in patchRuns
      modifies this`runs, this`patchRuns, incident
      ensures runs == if kind == Analyze then old(runs)[i := FailedRun(old(runs)[i], now, error)] else old(runs)
      ensures patchRuns == if kind == Patch then old(patchRuns)[i := FailedPatch(old(patchRuns)[i], now, error)] else old(patchRuns)
      ensures incident.View() == Enter(old(incident.View()), if kind == Analyze then AnalysisFailed else PatchFailed)
    {
      if kind == Analyze {
        FailRun(now, i, error);
        incident.state := AnalysisFailed;
      } else {
        FailPatch(now, i, error);
        incident.state := PatchFailed;
      }
      incident.version := incident.version + 1;
    }

    method FailRun(now: Time, i: Id, error: Option<Failure>)
      requires i in runs
      modifies this`runs
      ensures runs == old(runs)[i := FailedRun(old(runs)[i], now, error)]
    {
      var run := new RunEntity(runs[i]);
      run.status, run.error, run.finishedAt := RunFailed, error, Some(now);
      runs := runs[i := run.View()];
    }

    method FailPatch(now: Time, i: Id, error: Option<Failure>)
      requires i in patchRuns
      modifies this`patchRuns
      ensures patchRuns == old(patchRuns)[i := FailedPatch(old(patchRuns)[i], now, error)]
    {
      var patch := new PatchEntity(patchRuns[i]);
      patch.status, patch.error, patch.finishedAt := PatchBroken, error, Some(now);
      patchRuns := patchRuns[i := patch.View()];
    }

    /** Returns the new version, None for the 409. */
    method MarkValidating(env: Env, claim: Claim) returns (version: Option<int>)
      requires Valid(env) && Genuine(Tables(), claim)
      modifies this
      ensures Tables() == MarkDb(old(Tables()), claim)
      ensures MarksInTurn(old(Tables()), Mark(claim)) ==> Valid(env)
      ensures version == if Marks(old(Tables()), claim) then Some(claim.version + 1) else None
    {
      if claim.job in jobs {
        LinkedJob(Tables(), claim.job);
      }
      if Marks(Tables(), claim) && incidents[claim.incident].state == Patching {
        MarkMoves(env, Tables(), claim);
      }
      version := EnterValidating(claim);
    }

    /** The 409 after the first assignments drops the entity, which rolls it back. */
    method EnterValidating(claim: Claim) returns (version: Option<int>)
      requires Genuine(Tables(), claim) && (claim.job in jobs ==> HasJob(Tables(), claim.job))
      modifies this
      ensures Tables() == MarkDb(old(Tables()), claim)
      ensures version == if Marks(old(Tables()), claim) then Some(claim.version + 1) else None
    {
      if claim.job !in jobs || claim.incident !in incidents {
        return None;
      }
      if jobs[claim.job].token != Some(claim.token) || jobs[claim.job].status != Running || incidents[claim.incident].version != claim.version {
        return None;
      }
      var incident := new IncidentEntity(incidents[claim.incident]);
      incident.state := Validating;
      incident.version := incident.version + 1;
      if claim.incident !in patchRuns {
        return None;
      }
      var patch := new PatchEntity(patchRuns[claim.incident]);
      patch.status := PatchValidating;
      MarkStoreIs(Tables(), claim);
      incidents := incidents[claim.incident := incident.View()];
      patchRuns := patchRuns[claim.incident := patch.View()];
      version := Some(incident.version);
    }

    /** `version` defaults to the claim's. */
    method Finalize(env: Env, now: Time, claim: Claim, outcome: Outcome, version: Option<int>) returns (saved: bool)
      requires Valid(env) && Genuine(Tables(), claim)
      modifies this
      ensures Valid(env)
      ensures var expected := if version.Some? then version.value else claim.version;
              && saved == Finalizes(old(Tables()), now, claim, expected)
              && Tables() == FinalizeDb(old(Tables()), now, claim, outcome, expected)
    {
      var expected := if version.Some? then version.value else claim.version;
      if claim.job in jobs {
        LinkedJob(Tables(), claim.job);
      }
      if Finalizes(Tables(), now, claim, expected) {
        FinalizeMoves(env, Tables(), now, claim, outcome, expected);
      }
      saved := TryFinalize(now, claim, outcome, expected);
    }

    /** The checks of `finalize` in their order, then its assignments. */
    method TryFinalize(now: Time, claim: Claim, outcome: Outcome, expected: int) returns (saved: bool)
      requires Genuine(Tables(), claim) && (claim.job in jobs ==> HasJob(Tables(), claim.job))
      requires Finalizes(Tables(), now, claim, expected) ==> FinalizeSlice(SliceOf(Tables(), claim.incident), claim.kind, now, outcome).Some?
      modifies this
      ensures saved == Finalizes(old(Tables()), now, claim, expected)
      ensures Tables() == FinalizeDb(old(Tables()), now, claim, outcome, expected)
    {
      if claim.job !in jobs || jobs[claim.job].status != Running || jobs[claim.job].token != Some(claim.token)
         || jobs[claim.job].lockedAt.None? || jobs[claim.job].lockedAt.value <= now - LEASE {
        return false;
      }
      if claim.incident !in incidents || incidents[claim.incident].version != expected {
        return false;
      }
      Conclude(now, claim, outcome);
      saved := true;
    }

    /** The assignments of `finalize` after its checks. The RuntimeError branches are excluded by the requires. */
    method Conclude(now: Time, claim: Claim, outcome: Outcome)
      requires HasJob(Tables(), claim.job) && Genuine(Tables(), claim)
      requires FinalizeSlice(SliceOf(Tables(), claim.incident), claim.kind, now, outcome).Some?
      modifies this
      ensures Tables() == Transactions.Store(old(Tables()), claim.incident, claim.job,
                            FinalizeSlice(SliceOf(old(Tables()), claim.incident), claim.kind, now, outcome).value)
    {
      if outcome.error.Some? && outcome.transient && jobs[claim.job].attempt < jobs[claim.job].maxAttempts {
        RetryIs(Tables(), now, claim, outcome);
        Requeue(now, claim.job, outcome.error);
      } else {
        EndIs(Tables(), now, claim, outcome);
        var incident := new IncidentEntity(incidents[claim.incident]);
        EndIncident(now, claim.incident, claim.kind, outcome, incident);
        CloseJob(claim.job, if outcome.error.Some? then Failed else Succeeded, outcome.error);
        incidents := incidents[claim.incident := incident.View()];
      }
    }

    /** A job with attempts left goes back to the queue after its backoff, without an owner. */
    method Requeue(now: Time, j: Id, error: Option<Failure>)
      requires j in jobs
      modifies this`jobs
      ensures jobs == old(jobs)[j := Released(Requeued(old(jobs)[j].(lastError := error), now))]
    {
      var job := new JobEntity(jobs[j]);
      job.status := Pending;
      job.availableAt := now + if job.attempt == 1 then FIRST_BACKOFF else LATER_BACKOFF;
      job.lastError := error;
      job.token, job.lockedBy, job.lockedAt := None, None, None;
      jobs := jobs[j := job.View()];
    }

    /** The last attempt is over: the job ends, without an owner. */
    method CloseJob(j: Id, status: JobStatus, error: Option<Failure>)
      requires j in jobs
      modifies this`jobs
      ensures jobs == old(jobs)[j := Released(old(jobs)[j].(status := status, lastError := error))]
    {
      var job := new JobEntity(jobs[j]);
      job.status, job.lastError := status, error;
      job.token, job.lockedBy, job.lockedAt := None, None, None;
      jobs := jobs[j := job.View()];
    }

    /** The run and the incident end with the job. */
    method EndIncident(now: Time, i: Id, kind: JobKind, outcome: Outcome, incident: IncidentEntity)
      requires if kind == Analyze then i in runs else i in patchRuns
      modifies this`runs, this`patchRuns, incident
      ensures runs == if kind == Analyze then old(runs)[i := CloseRun(old(runs)[i], now, outcome)] else old(runs)
      ensures patchRuns == if kind == Patch then old(patchRuns)[i := ClosePatch(old(patchRuns)[i], now, outcome)] else old(patchRuns)
      ensures incident.View() == Enter(old(incident.View()),
                if kind == Analyze then (if outcome.error.Some? then AnalysisFailed else AwaitingApproval)
                else (if outcome.error.Some? then PatchFailed else PatchReady))
    {
      if kind == Analyze {
        EndRun(now, i, outcome);
        incident.state := if outcome.error.Some? then AnalysisFailed else AwaitingApproval;
      } else {
        EndPatch(now, i, outcome);
        incident.state := if outcome.error.Some? then PatchFailed else PatchReady;
      }
      incident.version := incident.version + 1;
    }

    method EndRun(now: Time, i: Id, outcome: Outcome)
      requires i in runs
      modifies this`runs
      ensures runs == old(runs)[i := CloseRun(old(runs)[i], now, outcome)]
    {
      var run := new RunEntity(runs[i]);
      run.status := if outcome.error.Some? then RunFailed else RunSucceeded;
      run.result, run.thread := outcome.result, outcome.thread;
      run.error, run.finishedAt := outcome.error, Some(now);
      runs := runs[i := run.View()];
    }

    method EndPatch(now: Time, i: Id, outcome: Outcome)
      requires i in patchRuns
      modifies this`patchRuns
      ensures patchRuns == old(patchRuns)[i := ClosePatch(old(patchRuns)[i], now, outcome)]
    {
      var patch := new PatchEntity(patchRuns[i]);
      patch.status := if outcome.error.Some? then PatchBroken else PatchDone;
      patch.changedFiles, patch.diff, patch.validation := outcome.changedFiles, outcome.diff, outcome.validation;
      patch.error, patch.finishedAt := outcome.error, Some(now);
      patchRuns := patchRuns[i := patch.View()];
    }

    // ---- aeh/service.py ----

    /** `_approve_once`. */
    method ApproveOnce(env: Env, now: Time, i: Id, key: Id, ids: ApproveIds) returns (reply: ApproveReply)
      requires Valid(env) && ApproveIdsNew(Tables(), ids)
      modifies this
      ensures Valid(env) && reply == Decide(old(Tables()), i, key, ids)
      ensures Tables() == ApproveDb(old(Tables()), now, i, key, ids)
    {
      ApproveCoherent(env, Tables(), now, i, key, ids);
      reply := TryApprove(now, i, key, ids);
    }

    /** The checks of `_approve_once` in their order, then the inserts. */
    method TryApprove(now: Time, i: Id, key: Id, ids: ApproveIds) returns (reply: ApproveReply)
      modifies this
      ensures reply == Decide(old(Tables()), i, key, ids)
      ensures Tables() == ApproveDb(old(Tables()), now, i, key, ids)
    {
      if i !in incidents {
        return NotFound;
      }
      if key in keyIndex {
        if keyIndex[key] != i {
          return KeyElsewhere;
        }
        if i !in approvals || i !in patchRuns || patchRuns[i].approval != approvals[i].id {
          return NoPatchRun;
        }
        return Approved(approvals[i].id, patchRuns[i].id, true);
      }
      if incidents[i].state != AwaitingApproval {
        return NotAwaiting;
      }
      if !(i in runs && runs[i].status == RunSucceeded && runs[i].snapshot.Some? && runs[i].sha == incidents[i].sha) {
        return ShaMismatch;
      }
      if i in approvals {
        return AlreadyApproved;
      }
      if ActiveJobCount() >= JOB_LIMIT {
        return QueueFull;
      }
      Grant(now, i, key, ids);
      reply := Approved(ids.approval, ids.patch, false);
    }

    /** `active_job_count`. */
    function ActiveJobCount(): (n: nat)
      reads this
      ensures n == |ActiveJobs(Tables())|
    {
      var active := set j | j in jobs && Active(jobs[j]);
      assert active == ActiveJobs(Tables());
      |active|
    }

    /** The inserts of `_approve_once`. */
    method Grant(now: Time, i: Id, key: Id, ids: ApproveIds)
      requires i in incidents && i in runs
      modifies this
      ensures Tables() == ApprovedDb(old(Tables()), now, i, key, ids)
    {
      var incident := new IncidentEntity(incidents[i]);
      var approval := Approval(ids.approval, runs[i].id, key, incident.sha);
      approvals, keyIndex := approvals[i := approval], keyIndex[key := i];
      patchRuns := patchRuns[i := PatchRun(ids.patch, approval.id, PatchPending, approval.sha, [], None, [], None, None, None)];
      Enqueue(ids.job, Job(Patch, PatchKey(approval.id), i, Some(ids.patch), Pending, 0, MAX_ATTEMPTS, now, now, None, None, None, None));
      incident.state := Patching;
      incident.version := incident.version + 1;
      incidents := incidents[i := incident.View()];
    }

    /** A new job under its deduplication key. */
    method Enqueue(j: Id, job: Job)
      modifies this`jobs, this`jobIndex
      ensures jobs == old(jobs)[j := job] && jobIndex == old(jobIndex)[job.key := j]
    {
      jobs, jobIndex := jobs[j := job], jobIndex[job.key := j];
    }

    /** `_ingest_resolved`, as one serial transaction. */
    method IngestResolved(env: Env, now: Time, call: Intake, ids: IntakeIds) returns (reply: IntakeReply)
      requires Valid(env) && Ready(env, Tables(), now, Ingest(call, ids))
      modifies this
      ensures Valid(env) && reply == IngestReply(old(Tables()), call, ids)
      ensures Tables() == IngestDb(old(Tables()), now, call, ids)
    {
      IngestCoherent(env, Tables(), now, call, ids);
      reply := TryIngest(now, call, ids);
    }

    /** The checks of `_ingest_resolved` in their order, then the inserts. */
    method TryIngest(now: Time, call: Intake, ids: IntakeIds) returns (reply: IntakeReply)
      requires OneOpen(Tables())
      modifies this
      ensures reply == IngestReply(old(Tables()), call, ids)
      ensures Tables() == IngestDb(old(Tables()), now, call, ids)
    {
      if call.service !in services || !services[call.service].active {
        return UnknownService;
      }
      var key := EventKey(call.service, call.event);
      if key in events {
        if events[key].checksum != call.checksum {
          return ChecksumConflict;
        }
        var row := events[key].id;
        if row !in occurrences || occurrences[row].incident !in incidents {
          return NoIncident;
        }
        return Accepted(occurrences[row].incident, incidents[occurrences[row].incident].state, true);
      }
      if services[call.service].path != call.path {
        return RepositoryChanged;
      }
      var target := FindOpen(call.service, call.fingerprint, call.sha);
      if target.None? && ActiveJobCount() >= JOB_LIMIT {
        return Full;
      }
      reply := Record(now, call, ids, target);
    }

    /** `open_incident`. */
    method FindOpen(service: Id, fingerprint: string, sha: string) returns (found: Option<Id>)
      requires OneOpen(Tables())
      ensures found == OpenIncident(Tables(), service, fingerprint, sha)
    {
      var matching := set i | i in incidents && Open(incidents[i].state) && incidents[i].service == service
                                && incidents[i].fingerprint == fingerprint && incidents[i].sha == sha;
      if i :| i in matching {
        OpenIncidentIs(Tables(), i, service, fingerprint, sha);
        found := Some(i);
      } else {
        assert forall i :: Groups(Tables(), i, service, fingerprint, sha) ==> i in matching;
        found := None;
      }
    }

    /** The inserts of `_ingest_resolved`, or the count of the incident it joins. */
    method Record(now: Time, call: Intake, ids: IntakeIds, target: Option<Id>) returns (reply: IntakeReply)
      requires target.Some? ==> target.value in incidents
      modifies this
      ensures Tables() == if target.Some? then Appended(old(Tables()), now, call, ids, target.value) else OpenedNew(old(Tables()), now, call, ids)
      ensures reply == if target.Some? then Accepted(target.value, old(incidents)[target.value].state, false) else Accepted(ids.incident, Received, false)
    {
      events := events[EventKey(call.service, call.event) := ErrorEvent(ids.event, call.checksum, call.fingerprint, call.payload, now)];
      var i := if target.Some? then target.value else ids.incident;
      if target.None? {
        incidents := incidents[i := Incident(call.service, call.fingerprint, Received, 1, call.path, call.sha, ids.event, 1, now)];
        Enqueue(ids.job, Job(Analyze, AnalyzeKey(i), i, None, Pending, 0, MAX_ATTEMPTS, now, now, None, None, None, None));
      } else {
        var incident := new IncidentEntity(incidents[i]);
        incident.count := incident.count + 1;
        incidents := incidents[i := incident.View()];
      }
      occurrences := occurrences[ids.event := Occurrence(ids.occurrence, i, call.occurredAt)];
      reply := Accepted(i, incidents[i].state, false);
    }

    /** Returns false for the ValueError, after rolling back every service. */
    method SyncServices(env: Env, now: Time, entries: seq<Entry>) returns (ok: bool)
      requires Valid(env) && EntryIdsNew(Tables(), entries)
      modifies this
      ensures Valid(env) && ok == SyncAll(env, old(Tables()), entries).Some?
      ensures O.DistinctKeys(entries) ==> (ok <==> forall n | 0 <= n < |entries| :: O.CanSync(env, old(Tables()), entries[n]))
      ensures Tables() == SyncDb(env, old(Tables()), entries)
    {
      SyncCoherent(env, Tables(), now, entries);
      if O.DistinctKeys(entries) {
        O.SyncSucceedsExactly(env, Tables(), entries);
      }
      ok := TrySync(env, entries);
    }

    /** The loop of `sync_services`; a failing service restores the tables the transaction found. */
    method TrySync(env: Env, entries: seq<Entry>) returns (ok: bool)
      modifies this`services, this`serviceIndex
      ensures ok == SyncAll(env, old(Tables()), entries).Some?
      ensures Tables() == SyncDb(env, old(Tables()), entries)
    {
      var savedServices, savedIndex := services, serviceIndex;
      ghost var before := Tables();
      var n := 0;
      while n < |entries|
        invariant n <= |entries|
        invariant SyncAll(env, before, entries[..n]) == Some(Tables())
      {
        SyncGoesOn(env, before, entries, n);
        var step := SyncService(env, entries[n]);
        if !step {
          services, serviceIndex := savedServices, savedIndex;
          return false;
        }
        n := n + 1;
      }
      assert entries[..n] == entries;
      ok := true;
    }

    /** The body of the sync's loop; false is the ValueError of an unresolvable or moved repository. */
    method SyncService(env: Env, e: Entry) returns (ok: bool)
      modifies this`services, this`serviceIndex
      ensures ok == SyncOne(env, old(Tables()), e).Some?
      ensures ok ==> Some(Tables()) == SyncOne(env, old(Tables()), e)
    {
      if env.resolve(e.path).None? {
        return false;
      }
      if e.key !in serviceIndex || serviceIndex[e.key] !in services {
        services := services[e.id := Service(e.key, e.path, e.branch, e.policy, true)];
        serviceIndex := serviceIndex[e.key := e.id];
        return true;
      }
      var v := serviceIndex[e.key];
      var row := new ServiceEntity(services[v]);
      if env.resolve(row.path).None? {
        return false;
      }
      if env.resolve(row.path) != env.resolve(e.path) && exists i :: i in incidents && incidents[i].service == v && Open(incidents[i].state) {
        return false;
      }
      row.path, row.branch, row.policy, row.active := e.path, e.branch, e.policy, true;
      services := services[v := row.View()];
      ok := true;
    }
  }

  /** The prefix of a batch that a sweep has done leaves the next job as it found it. */
  lemma SweepReaches(env: Env, db: Db, now: Time, batch: seq<Id>, n: nat)
    requires Coherent(env, db) && IsBatch(db, now, batch) && n < |batch|
    ensures var m := RecoverDb(db, now, batch[..n]);
            && HasJob(m, batch[n]) && RecoverSlice(SliceOf(m, m.jobs[batch[n]].incident), m.jobs[batch[n]].kind, now).Some?
  {
    assert batch[n] in batch;
    assert forall j | j in batch[..n] :: j in batch;
    RecoverKeeps(env, db, now, batch[..n]);
    assert batch[n] !in batch[..n];
    RecoverOneMoves(env, RecoverDb(db, now, batch[..n]), now, batch[n]);
  }

  lemma StaleJobs(db: Db, now: Time)
    ensures ExpiredJobs(db, now) == set j | j in db.jobs && db.jobs[j].status == Running && db.jobs[j].lockedAt.Some? && db.jobs[j].lockedAt.value + 120 * SECOND <= now
  {}

  /** What a whole sweep reaches and how many rows it counts. */
  lemma WholeSweep(env: Env, db: Db, now: Time, batch: seq<Id>)
    requires Coherent(env, db) && IsBatch(db, now, batch)
    ensures Coherent(env, RecoverDb(db, now, batch)) && ExpiredJobs(RecoverDb(db, now, batch), now) == {}
    ensures |batch| == |ExpiredJobs(db, now)|
    ensures |batch| == |set j | j in db.jobs && db.jobs[j].status == Running && db.jobs[j].lockedAt.Some? && db.jobs[j].lockedAt.value + 120 * SECOND <= now|
  {
    SweepIsComplete(env, db, now, batch);
    BatchSize(env, db, now, batch);
    StaleJobs(db, now);
  }

  lemma BatchSize(env: Env, db: Db, now: Time, batch: seq<Id>)
    requires Coherent(env, db) && IsBatch(db, now, batch)
    ensures |batch| == |ExpiredJobs(db, now)|
  {
    BatchIsAll(db, now, batch);
    assert Elements(batch) == ExpiredJobs(db, now);
    DistinctSize(batch);
  }

  lemma MarkStoreIs(db: Db, claim: Claim)
    requires Genuine(db, claim) && Marks(db, claim)
    ensures var i := claim.incident;
            MarkDb(db, claim) == db.(incidents := db.incidents[i := Enter(db.incidents[i], Validating)],
                                     patchRuns := db.patchRuns[i := db.patchRuns[i].(status := PatchValidating)])
  {
    var i := claim.incident;
    PutLookup(db.runs, i);
    assert db.jobs == db.jobs[claim.job := db.jobs[claim.job]];
  }

  /** What a claim writes, table by table. */
  lemma ClaimIs(env: Env, db: Db, now: Time, j: Id, token: Id, who: string, runId: Id)
    requires HasJob(db, j) && ClaimEffect(env, db, now, j, token, who, runId).Some?
    ensures var i, k := db.jobs[j].incident, db.jobs[j].kind;
            && (k == Analyze ==> i in db.runs || FirstRun(env, db, i, now, runId).Some?)
            && (k == Patch ==> i in db.patchRuns)
            && Transactions.Store(db, i, j, ClaimEffect(env, db, now, j, token, who, runId).value)
               == db.(jobs := db.jobs[j := Taken(db.jobs[j], now, token, who)],
                      incidents := db.incidents[i :=
                        if k == Analyze && db.incidents[i].state == Received then Enter(db.incidents[i], Analyzing)
                        else if k == Patch && db.incidents[i].state == Validating then Enter(db.incidents[i], Patching)
                        else db.incidents[i]],
                      runs := if k == Patch || i in db.runs then db.runs else Put(db.runs, i, FirstRun(env, db, i, now, runId)),
                      patchRuns := if k == Analyze then db.patchRuns else db.patchRuns[i := Started(db.patchRuns[i], now)])
  {
    PutLookup(db.runs, db.jobs[j].incident);
    PutLookup(db.patchRuns, db.jobs[j].incident);
  }

  /** `finalize` that requeues touches the job alone. */
  lemma RetryIs(db: Db, now: Time, claim: Claim, outcome: Outcome)
    requires HasJob(db, claim.job) && Genuine(db, claim)
    requires outcome.error.Some? && outcome.transient && db.jobs[claim.job].attempt < db.jobs[claim.job].maxAttempts
    ensures FinalizeSlice(SliceOf(db, claim.incident), claim.kind, now, outcome).Some?
    ensures var job := db.jobs[claim.job].(lastError := outcome.error);
            Transactions.Store(db, claim.incident, claim.job, FinalizeSlice(SliceOf(db, claim.incident), claim.kind, now, outcome).value)
            == db.(jobs := db.jobs[claim.job := Released(Requeued(job, now))])
  {
    StoreJobOnly(db, claim.job, Released(Requeued(db.jobs[claim.job].(lastError := outcome.error), now)));
  }

  lemma StoreJobOnly(db: Db, j: Id, job: Job)
    requires HasJob(db, j)
    ensures var i := db.jobs[j].incident;
            Transactions.Store(db, i, j, WithJob(SliceOf(db, i), db.jobs[j].kind, job)) == db.(jobs := db.jobs[j := job])
  {
    var i := db.jobs[j].incident;
    PutLookup(db.runs, i);
    PutLookup(db.patchRuns, i);
    assert db.incidents[i := db.incidents[i]] == db.incidents;
  }

  /** `finalize` that ends the job ends its run and its incident too. */
  lemma EndIs(db: Db, now: Time, claim: Claim, outcome: Outcome)
    requires HasJob(db, claim.job) && Genuine(db, claim)
    requires FinalizeSlice(SliceOf(db, claim.incident), claim.kind, now, outcome).Some?
    requires !(outcome.error.Some? && outcome.transient && db.jobs[claim.job].attempt < db.jobs[claim.job].maxAttempts)
    ensures if claim.kind == Analyze then claim.incident in db.runs else claim.incident in db.patchRuns
    ensures var i := claim.incident;
            var failed := outcome.error.Some?;
            var end := if claim.kind == Analyze then (if failed then AnalysisFailed else AwaitingApproval) else (if failed then PatchFailed else PatchReady);
            Transactions.Store(db, i, claim.job, FinalizeSlice(SliceOf(db, i), claim.kind, now, outcome).value)
            == db.(incidents := db.incidents[i := Enter(db.incidents[i], end)],
                   runs := if claim.kind == Analyze then db.runs[i := CloseRun(db.runs[i], now, outcome)] else db.runs,
                   patchRuns := if claim.kind == Patch then db.patchRuns[i := ClosePatch(db.patchRuns[i], now, outcome)] else db.patchRuns,
                   jobs := db.jobs[claim.job := Released(db.jobs[claim.job].(status := if failed then Failed else Succeeded, lastError := outcome.error))])
  {
    PutLookup(db.runs, claim.incident);
    PutLookup(db.patchRuns, claim.incident);
  }

  /** One pass of the sweep requeues the job alone, or fails the job with its run and its incident. */
  lemma RecoverIs(db: Db, now: Time, j: Id)
    requires HasJob(db, j) && RecoverSlice(SliceOf(db, db.jobs[j].incident), db.jobs[j].kind, now).Some?
    ensures var job := db.jobs[j].(lastError := Some(LEASE_LOST));
            job.attempt < job.maxAttempts ==>
              RecoverOne(db, now, j) == db.(jobs := db.jobs[j := Released(Requeued(job, now))])
    ensures var i, k := db.jobs[j].incident, db.jobs[j].kind;
            db.jobs[j].attempt >= db.jobs[j].maxAttempts ==>
              (if k == Analyze then i in db.runs else i in db.patchRuns) && RecoverOne(db, now, j) == Broken(db, now, j)
  {
    var i := db.jobs[j].incident;
    if db.jobs[j].attempt < db.jobs[j].maxAttempts {
      StoreJobOnly(db, j, Released(Requeued(db.jobs[j].(lastError := Some(LEASE_LOST)), now)));
    } else {
      PutLookup(db.runs, i);
      PutLookup(db.patchRuns, i);
    }
  }

  function Broken(db: Db, now: Time, j: Id): Db
    requires j in db.jobs && db.jobs[j].incident in db.incidents
    requires if db.jobs[j].kind == Analyze then db.jobs[j].incident in db.runs else db.jobs[j].incident in db.patchRuns
  {
    var i, k := db.jobs[j].incident, db.jobs[j].kind;
    db.(incidents := db.incidents[i := Enter(db.incidents[i], if k == Analyze then AnalysisFailed else PatchFailed)],
        runs := if k == Analyze then db.runs[i := FailedRun(db.runs[i], now, Some(LEASE_LOST))] else db.runs,
        patchRuns := if k == Patch then db.patchRuns[i := FailedPatch(db.patchRuns[i], now, Some(LEASE_LOST))] else db.patchRuns,
        jobs := db.jobs[j := Released(db.jobs[j].(status := Failed, lastError := Some(LEASE_LOST)))])
  }

  /** One more entry of a sync: it goes on from the tables so far, or fails as a whole. */
  lemma SyncGoesOn(env: Env, db: Db, entries: seq<Entry>, n: nat)
    requires n < |entries| && SyncAll(env, db, entries[..n]).Some?
    ensures SyncAll(env, db, entries[..n + 1]) == SyncOne(env, SyncAll(env, db, entries[..n]).value, entries[n])
    ensures SyncAll(env, db, entries[..n + 1]).None? ==> SyncAll(env, db, entries).None?
  {
    assert entries[..n + 1][..n] == entries[..n];
    if SyncAll(env, db, entries[..n + 1]).None? {
      SyncStops(env, db, entries, n + 1);
    }
  }

  /** A sync that stops at one entry fails as a whole. */
  lemma {:induction false} SyncStops(env: Env, db: Db, entries: seq<Entry>, n: nat)
    requires n <= |entries| && SyncAll(env, db, entries[..n]).None?
    ensures SyncAll(env, db, entries).None?
    decreases |entries| - n
  {
    if n < |entries| {
      assert entries[..n + 1][..n] == entries[..n];
      SyncStops(env, db, entries, n + 1);
    } else {
      assert entries[..n] == entries;
    }
  }

  /** Writing a row back unchanged changes nothing. */
  lemma PutLookup<V>(m: map<Id, V>, i: Id)
    ensures Put(m, i, Lookup(m, i)) == m
  {}
}
