/**
 * `execute` and `run_one` of `aeh/worker.py`: the order of the checks behind an outcome, and what
 * each way of ending becomes. The gateway, git and the processes answer as the parameters say, and
 * a time limit or a cancellation may strike at any await.
 */
module Worker {
  import opened Base
  import opened Schema
  import opened Evidence
  import P = Protocol
  import V = Validation
  import D = DiffGate

  /** How a run of `execute` ends: with an outcome or with one of the exceptions `run_one` tells apart. */
  datatype Ending = Returned(outcome: Outcome) | TimeLimit | Raised(error: Failure) | Cancelled | Crashed

  /** The awaits at which an execution can be struck, and by what exception. */
  datatype Stage = AtGateway | AtGate | AtMark | AtValidation
  datatype Strike = Strike(stage: Stage, ending: Exception)
  type Exception = e: Ending | !e.Returned? witness Crashed

  /** What the outside answers to an attempt to patch; a mark of None is its 409, with the detail it carries. */
  datatype PatchWorld = PatchWorld(
    strike: Option<Strike>, thread: Option<string>, tree: Worktree, mark: Option<int>, refusal: string,
    sandbox: bool, run: nat -> V.Process, render: V.Bytes -> string)

  /** The same for an analysis: an exception before the lifetime is looked at, and one after it. */
  datatype AnalysisWorld = AnalysisWorld(
    early: Option<Exception>, elapsed: Time, strike: Option<Exception>, result: Analysis, thread: Option<string>, clean: bool, bytes: nat)

  const ANALYSIS_LIFE: int := 86400 * SECOND
  const MAX_ANALYSIS_BYTES := 128 * 1024
  const POLICY := "AEH-POLICY-422-001"
  const TRANSIENT := {"AEH-CODEX-502-001", "AEH-GIT-503-001"}

  /** The one-element list through which `execute` tells `run_one` the version it marked. */
  class VersionRef {
    var version: int

    constructor (version: int)
      ensures this.version == version
    {
      this.version := version;
    }
  }

  predicate Struck(world: PatchWorld, stage: Stage) {
    world.strike.Some? && world.strike.value.stage == stage
  }

  function Success(result: Option<Analysis>, thread: Option<string>, changed: seq<string>, diff: Option<string>, validation: seq<CommandResult>): Outcome {
    Outcome(result, thread, changed, diff, validation, None, false)
  }

  predicate Succeeded(ending: Ending) {
    ending.Returned? && ending.outcome.error.None?
  }

  /** The execution reaches the answer of its mark: nothing strikes before, the gate accepts, the mark is granted. */
  predicate Hears(env: Env, policy: Policy, world: PatchWorld) {
    && !Struck(world, AtGateway) && !Struck(world, AtGate) && !Struck(world, AtMark)
    && GateOk(env.glob, world.tree, policy)
    && world.mark.Some?
  }

  /** The exception is raised: the execution reaches the await it strikes. */
  predicate Hit(env: Env, policy: Policy, world: PatchWorld) {
    world.strike.Some? &&
    match world.strike.value.stage
    case AtGateway => true
    case AtGate => true
    case AtMark => GateOk(env.glob, world.tree, policy)
    case AtValidation => GateOk(env.glob, world.tree, policy) && world.mark.Some?
  }

  /** The first command is one to run, and there is nothing to run it in. */
  predicate NoPlaceToRun(policy: Policy, world: PatchWorld) {
    && !world.sandbox && policy.commands != [] && policy.commands[0].argv != []
    && policy.commands[0].argv[0] !in {"sh", "bash", "zsh", "curl", "wget", "git"}
  }

  /**
   * What a returned outcome carries: the thread, the names and the diff of the worktree, the entries of
   * the commands run, the last of which is the only one that may not have passed, and nothing transient.
   */
  predicate Reports(policy: Policy, world: PatchWorld, outcome: Outcome) {
    && outcome.result.None? && outcome.thread == world.thread && !outcome.transient
    && outcome.changedFiles == world.tree.names && outcome.diff == Some(world.tree.diff)
    && V.EntriesOf(policy.commands, world.run, world.render, outcome.validation)
    && (outcome.error.None? ==> |outcome.validation| == |policy.commands|)
    && (outcome.error.Some? ==>
          && outcome.error.value.code == "AEH-VALIDATION-422-001" && outcome.validation != []
          && (forall k :: 0 <= k < |outcome.validation| ==> (outcome.validation[k].status != Passed <==> k == |outcome.validation| - 1)))
  }

  /**
   * The patch half of `execute`: gateway, diff gate, mark, validation, in that order. The worktree's
   * answers are about one change, so they agree with its diff text.
   */
  method ExecutePatch(env: Env, policy: Policy, world: PatchWorld, ref: VersionRef) returns (ending: Ending)
    requires Shows(env.read(world.tree.diff), world.tree)
    modifies ref
    ensures ref.version == if Hears(env, policy, world) then world.mark.value else old(ref.version)
    ensures Succeeded(ending) <==>
            && Hears(env, policy, world) && !Struck(world, AtValidation)
            && (policy.commands == [] || world.sandbox) && V.AllSucceed(policy.commands, world.run)
    ensures Succeeded(ending) ==>
              PatchSupported(env, policy, ending.outcome.changedFiles, ending.outcome.diff, ending.outcome.validation)
    ensures ending.Returned? ==> Hears(env, policy, world) && !Struck(world, AtValidation) && Reports(policy, world, ending.outcome)
    ensures ending.Returned? && ending.outcome.error.Some? ==> !V.AllSucceed(policy.commands, world.run)
    ensures Hit(env, policy, world) ==> ending == world.strike.value.ending
    ensures !Hit(env, policy, world) && !GateOk(env.glob, world.tree, policy) ==>
              ending.Raised? && ending.error.code == if D.OnlyWhitespace(env.glob, world.tree, policy) then "AEH-GIT-422-001" else "AEH-POLICY-422-001"
    ensures !Hit(env, policy, world) && GateOk(env.glob, world.tree, policy) && world.mark.None? ==>
              ending == Raised(Failure("AEH-POLICY-422-001", world.refusal))
    ensures Hears(env, policy, world) && !Struck(world, AtValidation) && !ending.Returned? ==>
              ending.Raised? && ending.error.code == if NoPlaceToRun(policy, world) then "AEH-CODEX-502-001" else "AEH-POLICY-422-001"
    ensures NoPlaceToRun(policy, world) ==> !ending.Returned?
  {
    D.GateReadsDiff(env, world.tree, policy);
    if Struck(world, AtGateway) {
      return world.strike.value.ending;
    }
    if Struck(world, AtGate) {
      return world.strike.value.ending;
    }
    var verdict := D.CheckDiff(env.glob, world.tree, policy);
    if verdict.Denied? {
      return Raised(D.ErrorOf(verdict.why));
    }
    if Struck(world, AtMark) {
      return world.strike.value.ending;
    }
    if world.mark.None? {
      return Raised(Failure(POLICY, world.refusal));
    }
    ref.version := world.mark.value;
    if Struck(world, AtValidation) {
      return world.strike.value.ending;
    }
    ending := Validate(env, policy, world, verdict);
  }

  /** The last stage: every registered command, and what its end becomes. */
  method Validate(env: Env, policy: Policy, world: PatchWorld, verdict: D.Verdict) returns (ending: Ending)
    requires verdict == D.Accepted(world.tree.names, world.tree.diff)
    ensures ending.Returned? || ending.Raised?
    ensures Succeeded(ending) <==> (policy.commands == [] || world.sandbox) && V.AllSucceed(policy.commands, world.run)
    ensures Succeeded(ending) ==> AllPassed(policy.commands, ending.outcome.validation)
    ensures ending.Returned? ==> Reports(policy, world, ending.outcome) && !NoPlaceToRun(policy, world)
    ensures ending.Returned? && ending.outcome.error.Some? ==> !V.AllSucceed(policy.commands, world.run)
    ensures ending.Raised? ==> ending.error.code == if NoPlaceToRun(policy, world) then "AEH-CODEX-502-001" else "AEH-POLICY-422-001"
  {
    var results, end := V.RunValidation(policy.commands, world.sandbox, world.run, world.render);
    match end {
      case Finished =>
        V.FinishedMeans(policy.commands, world.run, world.render, results);
        ending := Returned(Success(None, world.thread, verdict.names, Some(verdict.diff), results));
      case Broken =>
        V.BrokenMeans(policy.commands, world.run, world.render, results);
        var failure := Failure("AEH-VALIDATION-422-001", "Registered validation command failed");
        ending := Returned(Outcome(None, world.thread, verdict.names, Some(verdict.diff), results, Some(failure), false));
      case Unregistered =>
        assert !V.Registered(policy.commands[|results|]);
        ending := Raised(Failure(POLICY, "Unregistered validation command"));
      case NoSandbox =>
        ending := Raised(Failure("AEH-CODEX-502-001", "Network-isolated validation is unavailable"));
    }
  }

  /** The exception, if any, that ends an analysis before the gateway's answer is looked at. */
  function AnalysisStrike(world: AnalysisWorld): Option<Ending> {
    if world.early.Some? then Some(world.early.value)
    else if world.elapsed < 86400 * SECOND && world.strike.Some? then Some(world.strike.value)
    else None
  }

  /** The analysis half of `execute`: the remaining lifetime, the gateway, and the checks on its answer. */
  method ExecuteAnalysis(env: Env, policy: Policy, world: AnalysisWorld) returns (ending: Ending)
    ensures AnalysisStrike(world).Some? ==> ending == AnalysisStrike(world).value
    ensures Succeeded(ending) <==>
            && AnalysisStrike(world).None? && world.elapsed < 86400 * SECOND && world.clean
            && Useful(env.glob, world.result, policy.allowedPaths) && world.bytes <= 131072
    ensures ending.Returned? ==> ending.outcome == Outcome(Some(world.result), world.thread, [], None, [], None, false)
    ensures AnalysisStrike(world).None? && !ending.Returned? ==>
              ending.Raised? && ending.error.code ==
                if world.elapsed >= 86400 * SECOND then "AEH-JOB-504-001"
                else if world.clean && !Useful(env.glob, world.result, policy.allowedPaths) then "AEH-CODEX-502-002"
                else "AEH-POLICY-422-001"
  {
    if world.early.Some? {
      return world.early.value;
    }
    if ANALYSIS_LIFE - world.elapsed <= 0 {
      return Raised(Failure("AEH-JOB-504-001", "Analysis lifetime exceeded 24 hours"));
    }
    if world.strike.Some? {
      return world.strike.value;
    }
    if !world.clean {
      return Raised(Failure(POLICY, "Analysis changed the repository"));
    }
    if !Useful(env.glob, world.result, policy.allowedPaths) {
      return Raised(Failure("AEH-CODEX-502-002", "Analysis has insufficient evidence or unsafe proposed paths"));
    }
    if world.bytes > MAX_ANALYSIS_BYTES {
      return Raised(Failure(POLICY, "Analysis result exceeds storage limit"));
    }
    ending := Returned(Success(Some(world.result), world.thread, [], None, []));
  }

  function Failed(failure: Failure, transient: bool): Outcome {
    Outcome(None, None, [], None, [], Some(failure), transient)
  }

  /** The exception handlers of `run_one`. */
  function OutcomeOf(kind: JobKind, ending: Ending): (outcome: Outcome)
    ensures outcome.error.None? <==> Succeeded(ending)
    ensures ending.Returned? ==> outcome == ending.outcome
    ensures ending.Raised? ==> outcome.error == Some(ending.error)
    ensures ending.TimeLimit? ==> outcome.error.value.code == if kind == Analyze then "AEH-JOB-504-001" else "AEH-POLICY-422-001"
    ensures ending.Cancelled? ==> outcome.error.value.code == "AEH-CODEX-502-001"
    ensures ending.Crashed? ==> outcome.error.value.code == "AEH-INTERNAL-500-001"
    ensures !ending.Returned? ==> (outcome.transient <==> Retryable(ending))
    ensures !ending.Returned? ==> outcome.changedFiles == [] && outcome.validation == [] && outcome.diff.None? && outcome.result.None? && outcome.thread.None?
  {
    match ending
    case Returned(outcome) => outcome
    case TimeLimit => Failed(Failure(if kind == Analyze then "AEH-JOB-504-001" else POLICY, "Execution time limit exceeded"), false)
    case Raised(error) => Failed(error, error.code in TRANSIENT)
    case Cancelled => Failed(Failure("AEH-CODEX-502-001", "Worker lost its lease"), true)
    case Crashed => Failed(Failure("AEH-INTERNAL-500-001", "Internal execution error"), false)
  }

  /** A cancellation, or one of the two codes of an unavailable gateway or repository. */
  predicate Retryable(ending: Ending) {
    ending.Cancelled? || (ending.Raised? && (ending.error.code == "AEH-CODEX-502-001" || ending.error.code == "AEH-GIT-503-001"))
  }

  /** The worker of the protocol at the moment `run_one` hands its outcome to `finalize`. */
  ghost function Chosen(claim: Claim, inputs: Snapshot, version: int): P.Worker {
    P.Worker(claim, Some(inputs), if claim.kind == Patch && version != claim.version then P.Heard else P.Unsent, version, None, false)
  }

  /**
   * `run_one` on a patch: whatever strikes, the outcome is one the protocol lets a worker choose,
   * and the version it finalizes with moved, by one, exactly when it heard its mark's answer.
   */
  method RunPatch(env: Env, claim: Claim, inputs: Snapshot, world: PatchWorld) returns (outcome: Outcome, version: int)
    requires claim.kind == Patch && (world.mark.Some? ==> world.mark.value == claim.version + 1)
    requires Shows(env.read(world.tree.diff), world.tree)
    ensures version == if Hears(env, inputs.policy, world) then claim.version + 1 else claim.version
    ensures outcome.transient <==>
            if Hit(env, inputs.policy, world) then Retryable(world.strike.value.ending)
            else GateOk(env.glob, world.tree, inputs.policy) && world.mark.Some? && NoPlaceToRun(inputs.policy, world)
    ensures outcome.validation != [] ==> Hears(env, inputs.policy, world) && Reports(inputs.policy, world, outcome)
    ensures outcome.error.None? ==> P.Supported(env, Chosen(claim, inputs, version), outcome)
  {
    var ref := new VersionRef(claim.version);
    var ending := ExecutePatch(env, inputs.policy, world, ref);
    outcome, version := OutcomeOf(claim.kind, ending), ref.version;
  }

  method RunAnalysis(env: Env, claim: Claim, inputs: Snapshot, world: AnalysisWorld) returns (outcome: Outcome)
    requires claim.kind == Analyze
    ensures outcome.transient <==> AnalysisStrike(world).Some? && Retryable(AnalysisStrike(world).value)
    ensures outcome.error.None? ==> P.Supported(env, Chosen(claim, inputs, claim.version), outcome)
  {
    var ending := ExecuteAnalysis(env, inputs.policy, world);
    outcome := OutcomeOf(claim.kind, ending);
  }
}
