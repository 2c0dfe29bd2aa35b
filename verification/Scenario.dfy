/**
 * One run from the empty database: an incident is reported, analysed and approved, its patch is
 * claimed, the worker stalls past its lease, its mark commits late, the sweeper requeues the job
 * and the next claim takes the incident back from VALIDATING to PATCHING.
 */
module Scenario {
  import opened Base
  import opened Schema
  import opened Slices
  import opened Transactions
  import opened Evidence
  import opened Protocol
  import opened ProtocolSafety

  const ENV := Env(_ => Some("/repo"), (_, _) => true, (_, _) => true, _ => Changes([], [], 0, true, _ => false, _ => [], _ => false), "model")
  const RULES := Policy(["src/*"], ["src/auth/*"], 10, 400, [Command("test", ["pytest"], 60)])
  const FROZEN := Snapshot(RULES, "repo", "model")
  const FINDING := Analysis(High, ["evidence"], ["src/app.py"], "")

  const REPORT := Intake(1, "repo", 9, "checksum", "fingerprint", "payload", "sha", 0)
  const ANALYSED := Outcome(Some(FINDING), None, [], None, [], None, false)

  const SERVICE := Service("svc", "repo", "main", RULES, true)
  const EVENT := ErrorEvent(2, "checksum", "fingerprint", "payload", 0)
  const INCIDENT := Incident(1, "fingerprint", Received, 1, "repo", "sha", 2, 1, 0)
  const ANALYZE := Job(Analyze, AnalyzeKey(4), 4, None, Pending, 0, 3, 0, 0, None, None, None, None)
  const RUN := AnalysisRun(11, RunRunning, "sha", 2, Some(FROZEN), None, None, None, Some(0), None)
  const PATCH := PatchRun(10, 8, PatchPending, "sha", [], None, [], None, None, None)
  const PATCHJOB := Job(Patch, PatchKey(8), 4, Some(10), Pending, 0, 3, 0, 0, None, None, None, None)

  /** The tables with the rows of the one incident, before and after its approval. */
  function Analysing(inc: Incident, analyze: Job, run: Option<AnalysisRun>): Db {
    Db(map[1 := SERVICE], map["svc" := 1], map[EventKey(1, 9) := EVENT], map[2 := Occurrence(3, 4, 0)],
       map[4 := inc], map[5 := analyze], map[AnalyzeKey(4) := 5], Put(map[], 4, run), map[], map[], map[])
  }

  const DONE := ANALYZE.(status := Succeeded, attempt := 1)
  const ANALYSED_RUN := RUN.(status := RunSucceeded, result := Some(FINDING), finishedAt := Some(0))

  function WithPatch(inc: Incident, patch: PatchRun, job: Job): Db {
    Db(map[1 := SERVICE], map["svc" := 1], map[EventKey(1, 9) := EVENT], map[2 := Occurrence(3, 4, 0)],
       map[4 := inc], map[5 := DONE, 6 := job], map[AnalyzeKey(4) := 5, PatchKey(8) := 6], map[4 := ANALYSED_RUN],
       map[4 := Approval(8, 11, 12, "sha")], map[12 := 4], map[4 := patch])
  }

  function At(st: IncidentState, version: int): Incident {
    INCIDENT.(state := st, version := version)
  }

  const ANALYST := Worker(Claim(5, 20, 4, Analyze, 2, 1), Some(FROZEN), Unsent, 2, Some(ANALYSED), true)
  const PATCHER := Worker(Claim(6, 7, 4, Patch, 4, 1), Some(FROZEN), Sent, 4, None, false)
  const CLAIMED := PATCHJOB.(status := Running, attempt := 1, lockedBy := Some("worker"), lockedAt := Some(0), token := Some(7))

  const REGISTER := Server(Sync([Entry("svc", "repo", "main", RULES, 1)]))
  const RECEIVE := Server(Ingest(REPORT, IntakeIds(2, 4, 5, 3)))
  const GRANT := Server(Approve(4, 12, ApproveIds(8, 10, 6)))
  const RECOVERED := CLAIMED.(status := Pending, token := None, lockedBy := None, lockedAt := None,
                              availableAt := LEASE + FIRST_BACKOFF, lastError := Some(LEASE_LOST))
  const MARKED := PATCH.(status := PatchValidating, startedAt := Some(0))
  const RECLAIMED := RECOVERED.(status := Running, attempt := 2, lockedBy := Some("worker"),
                                lockedAt := Some(LEASE + FIRST_BACKOFF), token := Some(13))

  const S1 := Sys(0, EMPTY.(services := map[1 := SERVICE], serviceIndex := map["svc" := 1]), map[])
  const S2 := Sys(0, Analysing(At(Received, 1), ANALYZE, None), map[])
  const ANALYST0 := Worker(Claim(5, 20, 4, Analyze, 2, 1), None, Unsent, 2, None, false)
  const TAKEN := ANALYZE.(status := Running, attempt := 1, lockedBy := Some("worker"), lockedAt := Some(0), token := Some(20))
  const S3 := Sys(0, Analysing(At(Analyzing, 2), TAKEN, Some(RUN)), map[20 := ANALYST0])
  const S4 := S3.(workers := map[20 := ANALYST0.(inputs := Some(FROZEN))])
  const S5 := S3.(workers := map[20 := ANALYST.(done := false)])
  const S6 := Sys(0, Analysing(At(AwaitingApproval, 3), DONE, Some(ANALYSED_RUN)), map[20 := ANALYST])
  const S7 := Sys(0, WithPatch(At(Patching, 4), PATCH, PATCHJOB), map[20 := ANALYST])
  const PATCHER0 := PATCHER.(inputs := None, phase := Unsent)
  const S8 := Sys(0, WithPatch(At(Patching, 4), PATCH.(status := PatchRunning, startedAt := Some(0)), CLAIMED), map[20 := ANALYST, 7 := PATCHER0])
  const S9 := S8.(workers := map[20 := ANALYST, 7 := PATCHER0.(inputs := Some(FROZEN))])
  const S10 := S8.(workers := map[20 := ANALYST, 7 := PATCHER])
  const S11 := Sys(LEASE, WithPatch(At(Validating, 5), MARKED, CLAIMED), map[20 := ANALYST, 7 := PATCHER.(phase := Answered(Some(5)))])
  const S12 := S11.(db := WithPatch(At(Validating, 5), MARKED, RECOVERED))
  const S13 := Sys(LEASE + FIRST_BACKOFF, WithPatch(At(Patching, 6), MARKED.(status := PatchRunning), RECLAIMED),
                   S12.workers[13 := NewWorker(Claim(6, 13, 4, Patch, 6, 2))])

  /** The step is possible in `s` and leads to `n`. */
  ghost predicate Leads(s: Sys, now: Time, step: Step, n: Sys) {
    Enabled(ENV, s, now, step) && Next(ENV, s, now, step) == n
  }

  /** The rows of the incident, and what writing them back does to the tables. */
  function Rows(inc: Incident, patch: PatchRun, job: Job): Slice {
    Slice(inc, Some(DONE), Some(ANALYSED_RUN), Some(Approval(8, 11, 12, "sha")), Some(patch), Some(job))
  }

  lemma RowsAre(inc: Incident, patch: PatchRun, job: Job)
    requires job.incident == 4 && job.kind == Patch
    ensures SliceOf(WithPatch(inc, patch, job), 4) == Rows(inc, patch, job) && HasJob(WithPatch(inc, patch, job), 6)
  {}

  lemma RowsBack(inc: Incident, patch: PatchRun, job: Job, inc2: Incident, patch2: PatchRun, job2: Job)
    requires job.kind == Patch
    ensures Store(WithPatch(inc, patch, job), 4, 6, Rows(inc2, patch2, job2)) == WithPatch(inc2, patch2, job2)
  {
    var e, d := WithPatch(inc, patch, job), WithPatch(inc2, patch2, job2);
    assert e.incidents[4 := inc2] == d.incidents;
    assert e.runs[4 := ANALYSED_RUN] == d.runs;
    assert e.patchRuns[4 := patch2] == d.patchRuns;
    assert e.jobs[6 := job2] == d.jobs;
  }

  /** The same before the approval. */
  lemma FirstRows(inc: Incident, job: Job, run: Option<AnalysisRun>)
    requires job.incident == 4 && job.kind == Analyze
    ensures SliceOf(Analysing(inc, job, run), 4) == Slice(inc, Some(job), run, None, None, None) && HasJob(Analysing(inc, job, run), 5)
  {}

  lemma FirstRowsBack(inc: Incident, job: Job, run: Option<AnalysisRun>, inc2: Incident, job2: Job, run2: AnalysisRun)
    requires job.kind == Analyze
    ensures Store(Analysing(inc, job, run), 4, 5, Slice(inc2, Some(job2), Some(run2), None, None, None)) == Analysing(inc2, job2, Some(run2))
  {
    var d, e := Analysing(inc2, job2, Some(run2)), Analysing(inc, job, run);
    assert e.incidents[4 := inc2] == d.incidents;
    assert e.jobs[5 := job2] == d.jobs;
    assert e.runs[4 := run2] == d.runs;
  }

  lemma Registers()
    ensures Leads(START, 0, REGISTER, S1)
  {
    var e := Entry("svc", "repo", "main", RULES, 1);
    assert [e][..|[e]| - 1] == [] && [e][|[e]| - 1] == e;
    assert SyncAll(ENV, EMPTY, []) == Some(EMPTY);
    assert SyncOne(ENV, EMPTY, e) == Some(Registered(EMPTY, e));
    assert Registered(EMPTY, e) == S1.db;
  }

  lemma Reports()
    ensures Leads(S1, 0, RECEIVE, S2)
  {}

  lemma AnalysisTaken()
    ensures Leads(S2, 0, Take(5, 20, "worker", 11), S3)
  {
    FirstRows(At(Received, 1), ANALYZE, None);
    FirstRowsBack(At(Received, 1), ANALYZE, None, At(Analyzing, 2), TAKEN, RUN);
  }

  lemma AnalysisRead()
    ensures Leads(S3, 0, Read(20), S4)
  {}

  lemma AnalysisChosen()
    ensures Leads(S4, 0, Choose(20, ANALYSED), S5)
  {
    assert ENV.glob(FINDING.changedPaths[0], RULES.allowedPaths[0]);
    assert Useful(ENV.glob, FINDING, RULES.allowedPaths);
    assert S4.workers[20 := ANALYST.(done := false)] == S5.workers;
  }

  lemma AnalysisStored()
    ensures Leads(S5, 0, CommitFinal(20), S6)
  {
    FirstRows(At(Analyzing, 2), TAKEN, Some(RUN));
    FirstRowsBack(At(Analyzing, 2), TAKEN, Some(RUN), At(AwaitingApproval, 3), DONE, ANALYSED_RUN);
  }

  lemma Grants()
    ensures Leads(S6, 0, GRANT, S7)
  {
    GrantDecided();
    GrantWritten();
  }

  lemma GrantDecided()
    ensures Decide(S6.db, 4, 12, ApproveIds(8, 10, 6)) == Approved(8, 10, false)
  {
    assert ActiveJobs(S6.db) == {};
  }

  lemma GrantWritten()
    ensures ApprovedDb(S6.db, 0, 4, 12, ApproveIds(8, 10, 6)) == S7.db
  {
    FirstRows(At(AwaitingApproval, 3), DONE, Some(ANALYSED_RUN));
  }

  lemma PatchClaimed()
    ensures IsNext(S7.db, 0, 6) && ClaimDb(ENV, S7.db, 0, 6, 7, "worker", 99) == S8.db
  {
    RowsAre(At(Patching, 4), PATCH, PATCHJOB);
    RowsBack(At(Patching, 4), PATCH, PATCHJOB, At(Patching, 4), Started(PATCH, 0), CLAIMED);
  }

  lemma PatchTaken()
    ensures Leads(S7, 0, Take(6, 7, "worker", 99), S8)
  {
    PatchClaimed();
    PatchTakable();
    assert S7.workers[7 := PATCHER0] == S8.workers;
  }

  lemma PatchTakable()
    ensures Enabled(ENV, S7, 0, Take(6, 7, "worker", 99))
  {
    PatchClaimed();
  }

  lemma PatchRead()
    ensures Leads(S8, 0, Read(7), S9)
  {}

  lemma PatchAsked()
    ensures Leads(S9, 0, Ask(7), S10)
  {}

  /** The lease has run out, the row still carries the token: the mark commits. */
  lemma MarksLate()
    ensures Expired(S10.db.jobs[6], LEASE) && !Beats(S10.db, LEASE, PATCHER.claim)
    ensures Leads(S10, LEASE, CommitMark(7), S11)
  {
    var patch := Started(PATCH, 0);
    RowsAre(At(Patching, 4), patch, CLAIMED);
    RowsBack(At(Patching, 4), patch, CLAIMED, At(Validating, 5), MARKED, CLAIMED);
    assert S10.workers[7 := PATCHER.(phase := Answered(Some(5)))] == S11.workers;
  }

  lemma Sweeps()
    ensures Leads(S11, LEASE, Server(Recover([6])), S12)
  {
    RowsAre(At(Validating, 5), MARKED, CLAIMED);
    RowsBack(At(Validating, 5), MARKED, CLAIMED, At(Validating, 5), MARKED, RECOVERED);
    assert [6][..|[6]| - 1] == [] && [6][|[6]| - 1] == 6;
    assert RecoverDb(S11.db, LEASE, []) == S11.db;
  }

  lemma PatchReclaimed()
    ensures IsNext(S12.db, LEASE + FIRST_BACKOFF, 6) && ClaimDb(ENV, S12.db, LEASE + FIRST_BACKOFF, 6, 13, "worker", 99) == S13.db
    ensures S13.workers == S12.workers[13 := NewWorker(ClaimOf(S13.db, 6, 13))]
  {
    var again := Started(MARKED, LEASE + FIRST_BACKOFF);
    RowsAre(At(Validating, 5), MARKED, RECOVERED);
    RowsBack(At(Validating, 5), MARKED, RECOVERED, At(Patching, 6), again, RECLAIMED);
  }

  /** The retry takes the incident back. */
  lemma TakenAgain()
    ensures Leads(S12, LEASE + FIRST_BACKOFF, Take(6, 13, "worker", 99), S13)
  {
    PatchReclaimed();
  }

  // ---- the run ----

  ghost predicate Tells(s: Sys, run: seq<Event>, n: Sys) {
    Legal(ENV, s, run) && End(ENV, s, run) == n
  }

  lemma Tell(s: Sys, now: Time, step: Step, m: Sys, run: seq<Event>, n: Sys)
    requires Leads(s, now, step, m) && Tells(m, run, n)
    ensures Tells(s, [Event(now, step)] + run, n)
  {
    assert ([Event(now, step)] + run)[1..] == run;
  }

  const STALLED := [
    Event(0, REGISTER), Event(0, RECEIVE),
    Event(0, Take(5, 20, "worker", 11)), Event(0, Read(20)), Event(0, Choose(20, ANALYSED)), Event(0, CommitFinal(20)),
    Event(0, GRANT),
    Event(0, Take(6, 7, "worker", 99)), Event(0, Read(7)), Event(0, Ask(7))]

  const RETRIED := [Event(LEASE, Server(Recover([6]))), Event(LEASE + FIRST_BACKOFF, Take(6, 13, "worker", 99))]

  lemma PatchStalls()
    ensures Tells(S6, STALLED[6..], S10)
  {
    PatchAsked();
    Tell(S9, 0, Ask(7), S10, [], S10);
    PatchRead();
    Tell(S8, 0, Read(7), S9, STALLED[9..], S10);
    PatchTaken();
    Tell(S7, 0, Take(6, 7, "worker", 99), S8, STALLED[8..], S10);
    Grants();
    Tell(S6, 0, GRANT, S7, STALLED[7..], S10);
  }

  lemma AnalysisRuns()
    ensures Tells(S2, STALLED[2..], S10)
  {
    PatchStalls();
    AnalysisStored();
    Tell(S5, 0, CommitFinal(20), S6, STALLED[6..], S10);
    AnalysisChosen();
    Tell(S4, 0, Choose(20, ANALYSED), S5, STALLED[5..], S10);
    AnalysisRead();
    Tell(S3, 0, Read(20), S4, STALLED[4..], S10);
    AnalysisTaken();
    Tell(S2, 0, Take(5, 20, "worker", 11), S3, STALLED[3..], S10);
  }

  lemma Stalls()
    ensures Tells(START, STALLED, S10)
  {
    AnalysisRuns();
    Reports();
    Tell(S1, 0, RECEIVE, S2, STALLED[2..], S10);
    Registers();
    Tell(START, 0, REGISTER, S1, STALLED[1..], S10);
  }

  /** From the empty database to a mark that commits although the lease it was sent under has run out. */
  lemma LateMarkHappens()
    ensures Tells(START, STALLED, S10)
    ensures Expired(S10.db.jobs[6], LEASE) && S10.db.incidents[4].state == Patching
    ensures Enabled(ENV, S10, LEASE, CommitMark(7))
    ensures Next(ENV, S10, LEASE, CommitMark(7)).db.incidents[4].state == Validating
  {
    Stalls();
    MarksLate();
  }

  /** The same run goes on to take the undocumented edge: VALIDATING at its start, PATCHING at its end. */
  lemma RetryEdgeHappens()
    ensures Leads(S10, LEASE, CommitMark(7), S11) && S11.db.incidents[4].state == Validating
    ensures Tells(S11, RETRIED, S13) && S13.db.incidents[4].state == Patching
  {
    MarksLate();
    Sweeps();
    TakenAgain();
    Tell(S12, LEASE + FIRST_BACKOFF, Take(6, 13, "worker", 99), S13, [], S13);
    Tell(S11, LEASE, Server(Recover([6])), S12, RETRIED[1..], S13);
  }
}
