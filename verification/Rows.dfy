/**
 * What the transactions write and when they act, column by column.
 *
 * The statements name no function of `Slices` or `Transactions` but the transaction they are about:
 * times, limits, codes and states are spelled out.
 */
module Rows {
  import opened Base
  import opened Schema
  import opened Slices
  import opened Transactions
  import opened Coherence
  import opened JobSteps
  import opened IntakeSteps
  import opened Evidence
  import opened Protocol
  import opened ProtocolSafety
  import opened Workflow
  import opened Fencing
  import D = Database

  // ---- claim_job ----

  /** The job a claim takes: PENDING, due, and before every other such job by time, creation and id. */
  lemma NextExactly(db: Db, now: Time, j: Id)
    ensures IsNext(db, now, j) <==>
            && j in db.jobs && db.jobs[j].status == Pending && db.jobs[j].availableAt <= now
            && forall k | k in db.jobs && db.jobs[k].status == Pending && db.jobs[k].availableAt <= now && k != j ::
                 || db.jobs[j].availableAt < db.jobs[k].availableAt
                 || (db.jobs[j].availableAt == db.jobs[k].availableAt
                     && (db.jobs[j].createdAt < db.jobs[k].createdAt || (db.jobs[j].createdAt == db.jobs[k].createdAt && j < k)))
  {}

  /** The columns of a claimed job and, for a first analysis, of the run that freezes the service's policy. */
  lemma ClaimWrites(env: Env, db: Db, d: Db, now: Time, j: Id, token: Id, who: string, runId: Id)
    requires HasJob(db, j) && ClaimEffect(env, db, now, j, token, who, runId).Some? && d == ClaimDb(env, db, now, j, token, who, runId)
    ensures var job := db.jobs[j];
            d.jobs == db.jobs[j := Job(job.kind, job.key, job.incident, job.patchRun, Running, job.attempt + 1, job.maxAttempts,
                                       job.availableAt, job.createdAt, Some(who), Some(now), Some(token), job.lastError)]
    ensures var i, kind := db.jobs[j].incident, db.jobs[j].kind;
            var inc := db.incidents[i];
            d.incidents == db.incidents[i :=
              if kind == Analyze && inc.state == Received then inc.(state := Analyzing, version := inc.version + 1)
              else if kind == Patch && inc.state == Validating then inc.(state := Patching, version := inc.version + 1)
              else inc]
    ensures d == db.(jobs := d.jobs, incidents := d.incidents, runs := d.runs, patchRuns := d.patchRuns)
  {
    D.ClaimIs(env, db, now, j, token, who, runId);
  }

  lemma FirstRunWrites(env: Env, db: Db, d: Db, now: Time, j: Id, token: Id, who: string, runId: Id)
    requires HasJob(db, j) && ClaimEffect(env, db, now, j, token, who, runId).Some? && d == ClaimDb(env, db, now, j, token, who, runId)
    requires db.jobs[j].kind == Analyze && db.jobs[j].incident !in db.runs
    ensures var inc := db.incidents[db.jobs[j].incident];
            && inc.service in db.services
            && d.runs == db.runs[db.jobs[j].incident :=
                 AnalysisRun(runId, RunRunning, inc.sha, inc.firstEvent, Some(Snapshot(db.services[inc.service].policy, inc.path, env.model)),
                             None, None, None, Some(now), None)]
  {
    D.ClaimIs(env, db, now, j, token, who, runId);
  }

  /** The run of a retried analysis stays as it is; a claimed patch runs, from its first claim on. */
  lemma LaterRunWrites(env: Env, db: Db, d: Db, now: Time, j: Id, token: Id, who: string, runId: Id)
    requires HasJob(db, j) && ClaimEffect(env, db, now, j, token, who, runId).Some? && d == ClaimDb(env, db, now, j, token, who, runId)
    ensures db.jobs[j].kind == Patch || db.jobs[j].incident in db.runs ==> d.runs == db.runs
    ensures db.jobs[j].kind == Analyze ==> d.patchRuns == db.patchRuns
    ensures var i := db.jobs[j].incident;
            db.jobs[j].kind == Patch ==>
              && i in db.patchRuns
              && d.patchRuns == db.patchRuns[i := db.patchRuns[i].(status := PatchRunning,
                   startedAt := if db.patchRuns[i].startedAt.None? then Some(now) else db.patchRuns[i].startedAt)]
  {
    D.ClaimIs(env, db, now, j, token, who, runId);
  }

  /**
   * The first claim of an analysis freezes the policy its service has at that instant, with the
   * incident's repository and the model, and nothing before or after changes it.
   */
  lemma FirstClaimFreezes(env: Env, s: Sys, now: Time, j: Id, k: Id, who: string, runId: Id, n: Sys, run: seq<Event>)
    requires Good(env, s) && Enabled(env, s, now, Take(j, k, who, runId)) && n == Next(env, s, now, Take(j, k, who, runId)) && Legal(env, n, run)
    requires s.db.jobs[j].kind == Analyze && s.db.jobs[j].incident !in s.db.runs
    ensures s.db.jobs[j].incident in s.db.incidents && s.db.incidents[s.db.jobs[j].incident].service in s.db.services
    ensures s.db.jobs[j].incident in n.db.runs && n.db.runs[s.db.jobs[j].incident].status == RunRunning
    ensures s.db.jobs[j].incident in End(env, n, run).db.runs
    ensures var i, d := s.db.jobs[j].incident, End(env, n, run).db;
            && d.runs[i].snapshot == Some(Snapshot(s.db.services[s.db.incidents[i].service].policy, s.db.incidents[i].path, env.model))
            && d.runs[i].startedAt == Some(now) && d.runs[i].id == runId
            && d.runs[i].sha == s.db.incidents[i].sha && d.runs[i].inputEvent == s.db.incidents[i].firstEvent
  {
    CoherentJob(env, s.db, j);
    ClaimMoves(env, s.db, now, j, k, who, runId);
    FirstRunWrites(env, s.db, n.db, now, j, k, who, runId);
    NextKeeps(env, s, now, Take(j, k, who, runId));
    RunFreezes(env, n, run, s.db.jobs[j].incident);
  }

  /** So what a ready patch was validated by are the commands its service had at the first claim. */
  lemma ReadyByFirstPolicy(env: Env, s: Sys, now: Time, j: Id, k: Id, who: string, runId: Id, n: Sys, run: seq<Event>, i: Id, end: Sys)
    requires Good(env, s) && Enabled(env, s, now, Take(j, k, who, runId)) && n == Next(env, s, now, Take(j, k, who, runId)) && Legal(env, n, run)
    requires s.db.jobs[j].kind == Analyze && s.db.jobs[j].incident == i && i !in s.db.runs
    requires end == End(env, n, run) && i in end.db.incidents && end.db.incidents[i].state == PatchReady
    ensures i in s.db.incidents && s.db.incidents[i].service in s.db.services && i in end.db.patchRuns
    ensures AllPassed(s.db.services[s.db.incidents[i].service].policy.commands, end.db.patchRuns[i].validation)
    ensures forall name, p | name in end.db.patchRuns[i].changedFiles && p in s.db.services[s.db.incidents[i].service].policy.deniedPaths :: !env.glob(name, p)
  {
    FirstClaimFreezes(env, s, now, j, k, who, runId, n, run);
    NextKeeps(env, s, now, Take(j, k, who, runId));
    RunGood(env, n, run);
    PatchReadyMeans(env, end, i);
  }

  // ---- heartbeat and recover_expired ----

  /** A claim beats while its row carries the token, runs, and was renewed less than 120 s ago. */
  lemma BeatsExactly(env: Env, db: Db, now: Time, claim: Claim)
    requires Coherent(env, db)
    ensures Beats(db, now, claim) <==>
            && claim.job in db.jobs && db.jobs[claim.job].token == Some(claim.token) && db.jobs[claim.job].status == Running
            && db.jobs[claim.job].lockedAt.Some? && now < db.jobs[claim.job].lockedAt.value + 120_000_000
  {
    if claim.job in db.jobs {
      LinkedJob(db, claim.job);
    }
  }

  /** What a sweep takes: running jobs that were last renewed 120 s ago or more. */
  lemma SweepTakesStale(db: Db, now: Time, batch: seq<Id>, j: Id)
    requires IsSweep(db, now, batch) && j in batch
    ensures j in db.jobs && db.jobs[j].status == Running && db.jobs[j].lockedAt.Some? && db.jobs[j].lockedAt.value + 120_000_000 <= now
  {}

  /** A sweep never touches the job of a claim that can still beat. */
  lemma SweepSparesLive(env: Env, db: Db, now: Time, claim: Claim, batch: seq<Id>)
    requires Coherent(env, db) && IsSweep(db, now, batch) && Beats(db, now, claim)
    ensures claim.job in db.jobs && claim.job in RecoverDb(db, now, batch).jobs
    ensures RecoverDb(db, now, batch).jobs[claim.job] == db.jobs[claim.job]
  {
    BeatsExactly(env, db, now, claim);
    if claim.job in batch {
      SweepTakesStale(db, now, batch, claim.job);
    }
    SweepLeavesSkipped(env, db, now, batch);
  }

  /** After a sweep that skips nothing, every job still running was renewed less than 120 s ago. */
  lemma SweepLeavesLive(env: Env, db: Db, now: Time, batch: seq<Id>, j: Id)
    requires Coherent(env, db) && IsBatch(db, now, batch)
    requires j in RecoverDb(db, now, batch).jobs && RecoverDb(db, now, batch).jobs[j].status == Running
    ensures RecoverDb(db, now, batch).jobs[j].lockedAt.Some? && now - 120_000_000 < RecoverDb(db, now, batch).jobs[j].lockedAt.value
  {
    SweepIsComplete(env, db, now, batch);
    CoherentJob(env, RecoverDb(db, now, batch), j);
    JobShaped(SliceOf(RecoverDb(db, now, batch), RecoverDb(db, now, batch).jobs[j].incident), RecoverDb(db, now, batch).jobs[j].kind);
    assert j !in ExpiredJobs(RecoverDb(db, now, batch), now);
  }

  const LOST := Failure("AEH-CODEX-502-001", "Worker lease expired")

  /** A sweep treats each of its jobs as if it were the only one. */
  lemma {:induction false} SweepIsEach(env: Env, db: Db, now: Time, batch: seq<Id>, j: Id)
    requires Coherent(env, db) && IsSweep(db, now, batch) && j in batch
    ensures TreatedAlone(db, RecoverDb(db, now, batch), now, j)
  {
    var done, last := batch[..|batch| - 1], batch[|batch| - 1];
    assert batch == done + [last] && last !in done;
    assert last in batch && last in ExpiredJobs(db, now) && forall k | k in done :: k in batch;
    if j == last {
      SweepsLast(env, db, RecoverDb(db, now, done), now, done, j);
    } else {
      SweepIsEach(env, db, now, done, j);
      SweepsOn(env, db, RecoverDb(db, now, done), now, done, last, j);
    }
  }

  ghost predicate TreatedAlone(db: Db, d: Db, now: Time, j: Id) {
    && j in db.jobs && j in d.jobs && j in RecoverOne(db, now, j).jobs
    && d.jobs[j] == RecoverOne(db, now, j).jobs[j]
    && SameRows(d, RecoverOne(db, now, j), db.jobs[j].incident)
  }

  /** The job whose turn it is finds its incident as the sweep found it. */
  lemma SweepsLast(env: Env, db: Db, m: Db, now: Time, done: seq<Id>, j: Id)
    requires Coherent(env, db) && IsSweep(db, now, done) && m == RecoverDb(db, now, done)
    requires j in db.jobs && db.jobs[j].status == Running && j !in done
    ensures TreatedAlone(db, RecoverOne(m, now, j), now, j)
  {
    RecoverKeeps(env, db, now, done);
    CoherentJob(env, db, j);
    LastOfIncident(env, db, done, j);
    RecoverFollows(env, db, now, done, db.jobs[j].incident);
    CoherentJob(env, m, j);
    SameOne(env, db, m, now, j);
  }

  /** The next job leaves the rows of the jobs before it. */
  lemma SweepsOn(env: Env, db: Db, m: Db, now: Time, done: seq<Id>, last: Id, j: Id)
    requires Coherent(env, db) && IsSweep(db, now, done) && m == RecoverDb(db, now, done)
    requires last in db.jobs && db.jobs[last].status == Running && last !in done && j in done && TreatedAlone(db, m, now, j)
    ensures TreatedAlone(db, RecoverOne(m, now, last), now, j)
  {
    RecoverKeeps(env, db, now, done);
    RecoverOneMoves(env, m, now, last);
    RecoverOneFrame(m, now, last);
    if db.jobs[last].incident == db.jobs[j].incident {
      OneActiveJob(env, db, j, last);
    }
    LinkedJob(m, j);
    StaysAlone(db, m, RecoverOne(m, now, last), now, last, j);
  }

  lemma StaysAlone(db: Db, m: Db, d: Db, now: Time, last: Id, j: Id)
    requires TreatedAlone(db, m, now, j) && OnlyJob(m, d, last) && j != last && last in m.jobs
    requires db.jobs[j].incident in m.incidents && m.jobs[last].incident != db.jobs[j].incident
    requires d.incidents.Keys == m.incidents.Keys && OthersKept(m, d, m.jobs[last].incident)
    ensures TreatedAlone(db, d, now, j)
  {
    KeptRows(m, d, m.jobs[last].incident, db.jobs[j].incident);
  }

  /** The incident's own row, its run and its patch run. */
  ghost predicate SameRows(a: Db, b: Db, i: Id) {
    Lookup(a.incidents, i) == Lookup(b.incidents, i) && Lookup(a.runs, i) == Lookup(b.runs, i) && Lookup(a.patchRuns, i) == Lookup(b.patchRuns, i)
  }

  lemma KeptRows(m: Db, d: Db, k: Id, i: Id)
    requires d.incidents.Keys == m.incidents.Keys && OthersKept(m, d, k) && i != k && i in m.incidents
    ensures SameRows(m, d, i)
  {
    assert SliceOf(d, i) == SliceOf(m, i);
  }

  /** The rows of one recovery are those of the incident's slice alone. */
  lemma RowsOfSlice(db: Db, now: Time, j: Id, t: Slice)
    requires HasJob(db, j) && RecoverSlice(SliceOf(db, db.jobs[j].incident), db.jobs[j].kind, now) == Some(t)
    ensures var d, i := RecoverOne(db, now, j), db.jobs[j].incident;
            && j in d.jobs && Some(d.jobs[j]) == JobOf(t, db.jobs[j].kind)
            && Lookup(d.incidents, i) == Some(t.incident) && Lookup(d.runs, i) == t.run && Lookup(d.patchRuns, i) == t.patch
  {
    RowsOfStore(db, RecoverOne(db, now, j), db.jobs[j].incident, j, t);
  }

  lemma RowsOfStore(db: Db, d: Db, i: Id, j: Id, t: Slice)
    requires j in db.jobs && JobOf(t, db.jobs[j].kind).Some? && d == Store(db, i, j, t)
    requires (t.run.None? ==> i !in db.runs) && (t.patch.None? ==> i !in db.patchRuns)
    ensures j in d.jobs && Some(d.jobs[j]) == JobOf(t, db.jobs[j].kind)
    ensures Lookup(d.incidents, i) == Some(t.incident) && Lookup(d.runs, i) == t.run && Lookup(d.patchRuns, i) == t.patch
  {}

  lemma SameOne(env: Env, db: Db, m: Db, now: Time, j: Id)
    requires Coherent(env, db) && HasJob(db, j) && HasJob(m, j) && m.jobs[j] == db.jobs[j] && db.jobs[j].status == Running
    requires SliceOf(m, db.jobs[j].incident) == SliceOf(db, db.jobs[j].incident)
    ensures j in RecoverOne(m, now, j).jobs && j in RecoverOne(db, now, j).jobs
    ensures RecoverOne(m, now, j).jobs[j] == RecoverOne(db, now, j).jobs[j]
    ensures SameRows(RecoverOne(m, now, j), RecoverOne(db, now, j), db.jobs[j].incident)
  {
    var t := RecoverStore(env, db, now, j);
    RowsOfSlice(db, now, j, t);
    RowsOfSlice(m, now, j, t);
  }

  /** The columns a sweep writes for one job: a requeue with its backoff, or the end of job, run and incident. */
  lemma RecoverWrites(db: Db, d: Db, now: Time, j: Id)
    requires HasJob(db, j) && RecoverSlice(SliceOf(db, db.jobs[j].incident), db.jobs[j].kind, now).Some? && d == RecoverOne(db, now, j)
    ensures var job := db.jobs[j];
            d.jobs == db.jobs[j := Job(job.kind, job.key, job.incident, job.patchRun,
                                       if job.attempt < job.maxAttempts then Pending else Failed, job.attempt, job.maxAttempts,
                                       if job.attempt < job.maxAttempts then now + (if job.attempt == 1 then 10_000_000 else 60_000_000) else job.availableAt,
                                       job.createdAt, None, None, None, Some(LOST))]
    ensures d == db.(jobs := d.jobs, incidents := d.incidents, runs := d.runs, patchRuns := d.patchRuns)
    ensures db.jobs[j].attempt < db.jobs[j].maxAttempts ==> d == db.(jobs := d.jobs)
    ensures db.jobs[j].attempt >= db.jobs[j].maxAttempts ==> RecoverEnds(db, d, now, db.jobs[j].incident, db.jobs[j].kind)
  {
    D.RecoverIs(db, now, j);
    if db.jobs[j].attempt >= db.jobs[j].maxAttempts {
      BrokenIs(db, now, j);
    }
  }

  lemma BrokenIs(db: Db, now: Time, j: Id)
    requires j in db.jobs && db.jobs[j].incident in db.incidents
    requires if db.jobs[j].kind == Analyze then db.jobs[j].incident in db.runs else db.jobs[j].incident in db.patchRuns
    ensures RecoverEnds(db, D.Broken(db, now, j), now, db.jobs[j].incident, db.jobs[j].kind)
    ensures var job := db.jobs[j];
            D.Broken(db, now, j).jobs == db.jobs[j := Job(job.kind, job.key, job.incident, job.patchRun, Failed, job.attempt, job.maxAttempts,
                                                          job.availableAt, job.createdAt, None, None, None, Some(LOST))]
  {}

  ghost predicate RecoverEnds(db: Db, d: Db, now: Time, i: Id, kind: JobKind) {
    && i in db.incidents
    && (kind == Analyze ==>
          && i in db.runs && d.patchRuns == db.patchRuns
          && d.runs == db.runs[i := db.runs[i].(status := RunFailed, error := Some(LOST), finishedAt := Some(now))]
          && d.incidents == db.incidents[i := db.incidents[i].(state := AnalysisFailed, version := db.incidents[i].version + 1)])
    && (kind == Patch ==>
          && i in db.patchRuns && d.runs == db.runs
          && d.patchRuns == db.patchRuns[i := db.patchRuns[i].(status := PatchBroken, error := Some(LOST), finishedAt := Some(now))]
          && d.incidents == db.incidents[i := db.incidents[i].(state := PatchFailed, version := db.incidents[i].version + 1)])
  }

  // ---- finalize ----

  /** A finalization is accepted from a claim that beats and knows the version. */
  lemma FinalizesExactly(env: Env, db: Db, now: Time, claim: Claim, version: int)
    requires Coherent(env, db)
    ensures Finalizes(db, now, claim, version) <==>
            && claim.job in db.jobs && db.jobs[claim.job].token == Some(claim.token) && db.jobs[claim.job].status == Running
            && db.jobs[claim.job].lockedAt.Some? && now < db.jobs[claim.job].lockedAt.value + 120_000_000
            && claim.incident in db.incidents && db.incidents[claim.incident].version == version
  {
    BeatsExactly(env, db, now, claim);
  }

  /** The job's columns after an accepted finalization, requeued or ended. */
  lemma FinalizeWritesJob(env: Env, db: Db, d: Db, now: Time, claim: Claim, outcome: Outcome, version: int)
    requires Coherent(env, db) && Genuine(db, claim) && Finalizes(db, now, claim, version) && d == FinalizeDb(db, now, claim, outcome, version)
    ensures var job := db.jobs[claim.job];
            var again := outcome.error.Some? && outcome.transient && job.attempt < job.maxAttempts;
            d.jobs == db.jobs[claim.job := Job(job.kind, job.key, job.incident, job.patchRun,
                                               if again then Pending else if outcome.error.Some? then Failed else Succeeded, job.attempt, job.maxAttempts,
                                               if again then now + (if job.attempt == 1 then 10_000_000 else 60_000_000) else job.availableAt,
                                               job.createdAt, None, None, None, outcome.error)]
    ensures outcome.error.Some? && outcome.transient && db.jobs[claim.job].attempt < db.jobs[claim.job].maxAttempts ==> d == db.(jobs := d.jobs)
  {
    CoherentJob(env, db, claim.job);
    FinalizeMoves(env, db, now, claim, outcome, version);
    if outcome.error.Some? && outcome.transient && db.jobs[claim.job].attempt < db.jobs[claim.job].maxAttempts {
      D.RetryIs(db, now, claim, outcome);
    } else {
      D.EndIs(db, now, claim, outcome);
    }
  }

  /** The other rows of an outcome that ends its job: the run or the patch run, and the incident; no other column changes. */
  lemma FinalizeWritesRows(env: Env, db: Db, d: Db, now: Time, claim: Claim, outcome: Outcome, version: int)
    requires Coherent(env, db) && Genuine(db, claim) && Finalizes(db, now, claim, version) && d == FinalizeDb(db, now, claim, outcome, version)
    requires outcome.error.None? || !outcome.transient || db.jobs[claim.job].attempt >= db.jobs[claim.job].maxAttempts
    ensures claim.incident in db.incidents && (if claim.kind == Analyze then claim.incident in db.runs else claim.incident in db.patchRuns)
    ensures var i, failed := claim.incident, outcome.error.Some?;
            var end := if claim.kind == Analyze then (if failed then AnalysisFailed else AwaitingApproval) else (if failed then PatchFailed else PatchReady);
            && d == db.(jobs := d.jobs, incidents := d.incidents, runs := d.runs, patchRuns := d.patchRuns)
            && d.incidents == db.incidents[i := db.incidents[i].(state := end, version := db.incidents[i].version + 1)]
            && d.runs == (if claim.kind == Patch then db.runs else db.runs[i := db.runs[i].(
                 status := if failed then RunFailed else RunSucceeded, result := outcome.result, thread := outcome.thread,
                 error := outcome.error, finishedAt := Some(now))])
            && d.patchRuns == (if claim.kind == Analyze then db.patchRuns else db.patchRuns[i := db.patchRuns[i].(
                 status := if failed then PatchBroken else PatchDone, changedFiles := outcome.changedFiles, diff := outcome.diff,
                 validation := outcome.validation, error := outcome.error, finishedAt := Some(now))])
  {
    CoherentJob(env, db, claim.job);
    FinalizeMoves(env, db, now, claim, outcome, version);
    EndWrites(db, d, now, claim, outcome);
  }

  lemma EndWrites(db: Db, d: Db, now: Time, claim: Claim, outcome: Outcome)
    requires HasJob(db, claim.job) && Genuine(db, claim) && FinalizeSlice(SliceOf(db, claim.incident), claim.kind, now, outcome).Some?
    requires d == Transactions.Store(db, claim.incident, claim.job, FinalizeSlice(SliceOf(db, claim.incident), claim.kind, now, outcome).value)
    requires outcome.error.None? || !outcome.transient || db.jobs[claim.job].attempt >= db.jobs[claim.job].maxAttempts
    ensures claim.incident in db.incidents && (if claim.kind == Analyze then claim.incident in db.runs else claim.incident in db.patchRuns)
    ensures var i, failed := claim.incident, outcome.error.Some?;
            var end := if claim.kind == Analyze then (if failed then AnalysisFailed else AwaitingApproval) else (if failed then PatchFailed else PatchReady);
            && d == db.(jobs := d.jobs, incidents := d.incidents, runs := d.runs, patchRuns := d.patchRuns)
            && d.incidents == db.incidents[i := db.incidents[i].(state := end, version := db.incidents[i].version + 1)]
            && d.runs == (if claim.kind == Patch then db.runs else db.runs[i := db.runs[i].(
                 status := if failed then RunFailed else RunSucceeded, result := outcome.result, thread := outcome.thread,
                 error := outcome.error, finishedAt := Some(now))])
            && d.patchRuns == (if claim.kind == Analyze then db.patchRuns else db.patchRuns[i := db.patchRuns[i].(
                 status := if failed then PatchBroken else PatchDone, changedFiles := outcome.changedFiles, diff := outcome.diff,
                 validation := outcome.validation, error := outcome.error, finishedAt := Some(now))])
  {
    D.EndIs(db, now, claim, outcome);
  }

  // ---- mark_validating ----

  /** A mark is granted to the token on a running row that knows the version; the lease is not asked. */
  lemma MarksWhen(env: Env, db: Db, claim: Claim)
    requires Coherent(env, db)
    ensures Marks(db, claim) <==>
            && claim.job in db.jobs && db.jobs[claim.job].token == Some(claim.token) && db.jobs[claim.job].status == Running
            && claim.incident in db.incidents && db.incidents[claim.incident].version == claim.version && claim.incident in db.patchRuns
  {
    if claim.job in db.jobs {
      LinkedJob(db, claim.job);
    }
  }

  /** A mark writes two columns of the incident and one of the patch run. */
  lemma MarkWrites(db: Db, claim: Claim)
    requires Genuine(db, claim) && Marks(db, claim)
    ensures var i := claim.incident;
            MarkDb(db, claim) == db.(incidents := db.incidents[i := db.incidents[i].(state := Validating, version := db.incidents[i].version + 1)],
                                     patchRuns := db.patchRuns[i := db.patchRuns[i].(status := PatchValidating)])
  {
    D.MarkStoreIs(db, claim);
  }

  // ---- ingest and approve ----

  /** The rows of a first report: event, occurrence, incident and its ANALYZE job. */
  lemma OpenWrites(db: Db, now: Time, call: Intake, ids: IntakeIds)
    ensures OpenedNew(db, now, call, ids) == db.(
              events := db.events[EventKey(call.service, call.event) := ErrorEvent(ids.event, call.checksum, call.fingerprint, call.payload, now)],
              occurrences := db.occurrences[ids.event := Occurrence(ids.occurrence, ids.incident, call.occurredAt)],
              incidents := db.incidents[ids.incident := Incident(call.service, call.fingerprint, Received, 1, call.path, call.sha, ids.event, 1, now)],
              jobs := db.jobs[ids.job := Job(Analyze, AnalyzeKey(ids.incident), ids.incident, None, Pending, 0, 3, now, now, None, None, None, None)],
              jobIndex := db.jobIndex[AnalyzeKey(ids.incident) := ids.job])
  {}

  /** The rows of an approval: approval and its key, patch run, PATCH job, and the incident's state. */
  lemma ApproveWrites(db: Db, now: Time, i: Id, key: Id, ids: ApproveIds)
    requires i in db.incidents && i in db.runs
    ensures ApprovedDb(db, now, i, key, ids) == db.(
              incidents := db.incidents[i := db.incidents[i].(state := Patching, version := db.incidents[i].version + 1)],
              approvals := db.approvals[i := Approval(ids.approval, db.runs[i].id, key, db.incidents[i].sha)],
              keyIndex := db.keyIndex[key := i],
              patchRuns := db.patchRuns[i := PatchRun(ids.patch, ids.approval, PatchPending, db.incidents[i].sha, [], None, [], None, None, None)],
              jobs := db.jobs[ids.job := Job(Patch, PatchKey(ids.approval), i, Some(ids.patch), Pending, 0, 3, now, now, None, None, None, None)],
              jobIndex := db.jobIndex[PatchKey(ids.approval) := ids.job])
  {}

  /** The rows of a further report: event, occurrence, and one more in the incident's count. */
  lemma AppendWrites(db: Db, now: Time, call: Intake, ids: IntakeIds, i: Id)
    requires i in db.incidents
    ensures Appended(db, now, call, ids, i) == db.(
              events := db.events[EventKey(call.service, call.event) := ErrorEvent(ids.event, call.checksum, call.fingerprint, call.payload, now)],
              occurrences := db.occurrences[ids.event := Occurrence(ids.occurrence, i, call.occurredAt)],
              incidents := db.incidents[i := db.incidents[i].(count := db.incidents[i].count + 1)])
  {}
}
