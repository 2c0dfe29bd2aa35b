/**
 * What a successful outcome is worth: the declarative meaning of the checks a worker runs before
 * it reports success. `Validation` and `DiffGate` prove that the loops of `aeh/validation.py` and
 * `aeh/gitops.py` establish these predicates.
 */
module Evidence {
  import opened Base
  import opened Schema

  type Glob = (string, string) -> bool

  predicate Matches(glob: Glob, path: string, patterns: seq<string>) {
    exists k :: 0 <= k < |patterns| && glob(path, patterns[k])
  }

  // ---- an analysis worth approving: `AnalysisResult.useful` ----

  predicate Useful(glob: Glob, result: Analysis, allowed: seq<string>) {
    && result.confidence != Low
    && result.evidence != []
    && result.changedPaths != []
    && forall k :: 0 <= k < |result.changedPaths| ==> Matches(glob, result.changedPaths[k], allowed)
  }

  // ---- a diff within the policy ----

  /** What git and the file system answer about the worktree. */
  datatype Worktree = Worktree(
    ignored: string, untracked: seq<string>, regular: string -> bool,
    names: seq<string>, special: string -> bool, modes: string -> seq<string>,
    numstat: seq<Stat>, clean: bool, diff: string, diffBytes: nat)

  const MAX_FILES := 10
  const MAX_LINES := 400
  const MAX_DIFF_BYTES := 512 * 1024

  predicate StartsWith(s: string, prefix: string) {
    prefix <= s
  }

  predicate EndsWith(s: string, suffix: string) {
    |suffix| <= |s| && s[|s| - |suffix|..] == suffix
  }

  predicate Contains(s: string, part: string) {
    exists k :: 0 <= k <= |s| && part <= s[k..]
  }

  /** The components of a path between slashes. */
  function Components(s: string): seq<string> {
    if s == "" then [""]
    else
      var rest := Components(s[1..]);
      if s[0] == '/' then [""] + rest else if rest == [] then [[s[0]]] else [[s[0]] + rest[0]] + rest[1..]
  }

  /** `PurePosixPath.parts` of a relative path: the components that are neither empty nor a dot. */
  function Parts(s: string): seq<string> {
    Named(Components(s))
  }

  function Named(parts: seq<string>): seq<string> {
    if parts == [] then []
    else if parts[0] == "" || parts[0] == "." then Named(parts[1..])
    else [parts[0]] + Named(parts[1..])
  }

  predicate RelativePath(name: string) {
    !StartsWith(name, "/") && ".." !in Parts(name) && name != "" && '\n' !in name
  }

  predicate Protected(name: string) {
    || StartsWith(name, ".git/") || StartsWith(name, ".github/") || StartsWith(name, "infra/") || StartsWith(name, ".env")
    || Contains(name, "/.env")
    || EndsWith(name, ".pem") || EndsWith(name, ".key")
  }

  predicate LinkMode(line: string) {
    StartsWith(line, "120000") || StartsWith(line, "160000")
  }

  predicate NameOk(glob: Glob, w: Worktree, policy: Policy, name: string) {
    && RelativePath(name)
    && Matches(glob, name, policy.allowedPaths)
    && !Matches(glob, name, policy.deniedPaths)
    && !Protected(name)
    && (StartsWith(name, "tests/") ==> name in w.untracked)
    && !w.special(name)
    && forall k :: 0 <= k < |w.modes(name)| ==> !LinkMode(w.modes(name)[k])
  }

  function LineCount(stats: seq<Stat>): nat {
    if stats == [] then 0
    else
      var last := stats[|stats| - 1];
      LineCount(stats[..|stats| - 1]) + if last.Lines? then last.added + last.deleted else 0
  }

  /** The change is inside the frozen policy and the global limits. */
  predicate GateOk(glob: Glob, w: Worktree, policy: Policy) {
    && w.ignored == ""
    && (forall k :: 0 <= k < |w.untracked| ==> w.regular(w.untracked[k]))
    && 1 <= |w.names| <= Min(policy.maxChangedFiles, MAX_FILES)
    && (forall k :: 0 <= k < |w.names| ==> NameOk(glob, w, policy, w.names[k]))
    && (forall k :: 0 <= k < |w.numstat| ==> !w.numstat[k].Malformed? && !w.numstat[k].Binary?)
    && LineCount(w.numstat) <= Min(policy.maxDiffLines, MAX_LINES)
    && w.clean
    && w.diffBytes <= MAX_DIFF_BYTES
  }

  // ---- the same change, read off its diff ----

  /** The worktree's answers are those of its own diff text: a link is special, and a new name was untracked. */
  ghost predicate Shows(c: Changes, w: Worktree) {
    && w.names == c.names && w.numstat == c.stats && w.diffBytes == c.bytes && w.clean == c.clean
    && forall k {:trigger w.names[k]} | 0 <= k < |w.names| ::
         && (w.names[k] in w.untracked <==> c.added(w.names[k]))
         && w.modes(w.names[k]) == c.modes(w.names[k])
         && (c.link(w.names[k]) ==> w.special(w.names[k]))
  }

  predicate ChangeNameOk(glob: Glob, c: Changes, policy: Policy, name: string) {
    && RelativePath(name)
    && Matches(glob, name, policy.allowedPaths)
    && !Matches(glob, name, policy.deniedPaths)
    && !Protected(name)
    && (StartsWith(name, "tests/") ==> c.added(name))
    && !c.link(name)
    && forall k :: 0 <= k < |c.modes(name)| ==> !LinkMode(c.modes(name)[k])
  }

  predicate Numeric(stats: seq<Stat>) {
    forall k :: 0 <= k < |stats| ==> !stats[k].Malformed? && !stats[k].Binary?
  }

  /** The change a diff text describes is inside the frozen policy and the global limits. */
  predicate ChangeOk(glob: Glob, c: Changes, policy: Policy) {
    && 1 <= |c.names| <= Min(policy.maxChangedFiles, MAX_FILES)
    && (forall k :: 0 <= k < |c.names| ==> ChangeNameOk(glob, c, policy, c.names[k]))
    && Numeric(c.stats)
    && LineCount(c.stats) <= Min(policy.maxDiffLines, MAX_LINES)
    && c.clean
    && c.bytes <= MAX_DIFF_BYTES
  }

  /** What a diff cannot tell: no ignored files, and only regular files besides. */
  predicate OnlyRegular(w: Worktree) {
    && w.ignored == ""
    && (forall k :: 0 <= k < |w.untracked| ==> w.regular(w.untracked[k]))
    && forall k :: 0 <= k < |w.names| ==> !w.special(w.names[k])
  }

  // ---- validation ----

  /** One PASSED entry per registered command, in order. */
  predicate AllPassed(commands: seq<Command>, results: seq<CommandResult>) {
    && |results| == |commands|
    && forall k :: 0 <= k < |commands| ==>
         results[k].id == commands[k].id && results[k].status == Passed && results[k].exitCode == Some(0)
  }

  // ---- what an outcome must rest on ----

  predicate AnalysisSupported(env: Env, policy: Policy, result: Option<Analysis>) {
    result.Some? && Useful(env.glob, result.value, policy.allowedPaths)
  }

  predicate PatchSupported(env: Env, policy: Policy, changed: seq<string>, diff: Option<string>, results: seq<CommandResult>) {
    && AllPassed(policy.commands, results)
    && diff.Some? && changed == env.read(diff.value).names
    && ChangeOk(env.glob, env.read(diff.value), policy)
  }
}
