/**
 * `check_diff` of `aeh/gitops.py`: the loops with early raises that decide whether a patch stays
 * within the frozen policy. What git and the file system answer is the `Worktree`.
 */
module DiffGate {
  import opened Base
  import opened Schema
  import opened Evidence

  datatype Denial =
    | IgnoredFiles | NonRegular | FileCount | BadPath | NotAllowed | DeniedPath | ProtectedPath | ExistingTest
    | SpecialFile | LinkOrSubmodule | NotNumeric | LineLimit | Whitespace | SizeLimit
  datatype Verdict = Accepted(names: seq<string>, diff: string) | Denied(why: Denial)

  /** The error each denial raises; `git diff --check` fails like any other git call. */
  function ErrorOf(why: Denial): Failure {
    match why
    case Whitespace => Failure("AEH-GIT-422-001", "Commit or Git operation is invalid")
    case IgnoredFiles => Failure("AEH-POLICY-422-001", "Ignored files were created")
    case NonRegular => Failure("AEH-POLICY-422-001", "Non-regular changed file")
    case FileCount => Failure("AEH-POLICY-422-001", "Changed file count is invalid")
    case BadPath => Failure("AEH-POLICY-422-001", "Invalid changed path")
    case NotAllowed => Failure("AEH-POLICY-422-001", "Changed path is not allowed")
    case DeniedPath => Failure("AEH-POLICY-422-001", "Changed path is denied")
    case ProtectedPath => Failure("AEH-POLICY-422-001", "Protected path was changed")
    case ExistingTest => Failure("AEH-POLICY-422-001", "Existing tests cannot be modified or deleted")
    case SpecialFile => Failure("AEH-POLICY-422-001", "Changed file is a symlink or special file")
    case LinkOrSubmodule => Failure("AEH-POLICY-422-001", "Symlink or submodule change is denied")
    case NotNumeric => Failure("AEH-POLICY-422-001", "Binary change is denied")
    case LineLimit => Failure("AEH-POLICY-422-001", "Diff line limit exceeded")
    case SizeLimit => Failure("AEH-POLICY-422-001", "Diff size limit exceeded")
  }

  /** Whitespace errors are all that is wrong before the size of the diff is looked at. */
  predicate OnlyWhitespace(glob: Glob, w: Worktree, policy: Policy) {
    !w.clean && GateOk(glob, w.(clean := true, diffBytes := 0), policy)
  }

  /** Some changed name breaks the rule that a denial of names reports. */
  predicate BreaksName(glob: Glob, w: Worktree, policy: Policy, name: string, why: Denial) {
    match why
    case BadPath => !RelativePath(name)
    case NotAllowed => !Matches(glob, name, policy.allowedPaths)
    case DeniedPath => Matches(glob, name, policy.deniedPaths)
    case ProtectedPath => Protected(name)
    case ExistingTest => StartsWith(name, "tests/") && name !in w.untracked
    case SpecialFile => w.special(name)
    case LinkOrSubmodule => exists k :: 0 <= k < |w.modes(name)| && LinkMode(w.modes(name)[k])
    case _ => false
  }

  /** What is wrong with the worktree when it is denied for a reason. */
  predicate Breaks(glob: Glob, w: Worktree, policy: Policy, why: Denial) {
    match why
    case IgnoredFiles => w.ignored != ""
    case NonRegular => exists k :: 0 <= k < |w.untracked| && !w.regular(w.untracked[k])
    case FileCount => w.names == [] || |w.names| > Min(policy.maxChangedFiles, MAX_FILES)
    case NotNumeric => exists k :: 0 <= k < |w.numstat| && (w.numstat[k].Malformed? || w.numstat[k].Binary?)
    case LineLimit => LineCount(w.numstat) > Min(policy.maxDiffLines, MAX_LINES)
    case Whitespace => !w.clean
    case SizeLimit => w.diffBytes > MAX_DIFF_BYTES
    case _ => exists k :: 0 <= k < |w.names| && BreaksName(glob, w, policy, w.names[k], why)
  }

  /** It accepts exactly the changes inside the policy and the limits, and a denial names something that is wrong. */
  method CheckDiff(glob: Glob, w: Worktree, policy: Policy) returns (verdict: Verdict)
    ensures verdict.Accepted? <==> GateOk(glob, w, policy)
    ensures verdict.Accepted? ==> verdict == Accepted(w.names, w.diff)
    ensures verdict.Denied? ==> Breaks(glob, w, policy, verdict.why)
    ensures verdict == Denied(Whitespace) <==> OnlyWhitespace(glob, w, policy)
  {
    if w.ignored != "" {
      return Denied(IgnoredFiles);
    }
    for n := 0 to |w.untracked|
      invariant forall k :: 0 <= k < n ==> w.regular(w.untracked[k])
    {
      if !w.regular(w.untracked[n]) {
        return Denied(NonRegular);
      }
    }
    if w.names == [] || |w.names| > Min(policy.maxChangedFiles, MAX_FILES) {
      return Denied(FileCount);
    }
    for n := 0 to |w.names|
      invariant forall k :: 0 <= k < n ==> NameOk(glob, w, policy, w.names[k])
    {
      NameOkAlone(glob, w, policy, w.names[n]);
      var why := CheckName(glob, w, policy, w.names[n]);
      if why.Some? {
        return Denied(why.value);
      }
    }
    forall k | 0 <= k < |w.names| {
      NameOkAlone(glob, w, policy, w.names[k]);
    }
    verdict := CheckSize(w, policy);
  }

  /** The rules for a name do not look at whitespace or size. */
  lemma NameOkAlone(glob: Glob, w: Worktree, policy: Policy, name: string)
    ensures NameOk(glob, w.(clean := true, diffBytes := 0), policy, name) == NameOk(glob, w, policy, name)
  {}

  /** The body of the loop over the changed names; the first rule it breaks. */
  method CheckName(glob: Glob, w: Worktree, policy: Policy, name: string) returns (why: Option<Denial>)
    ensures why.None? <==> NameOk(glob, w, policy, name)
    ensures why.Some? ==> why.value != Whitespace && BreaksName(glob, w, policy, name, why.value)
  {
    if StartsWith(name, "/") || ".." in Parts(name) || name == "" || '\n' in name {
      return Some(BadPath);
    }
    if !Matches(glob, name, policy.allowedPaths) {
      return Some(NotAllowed);
    }
    if Matches(glob, name, policy.deniedPaths) {
      return Some(DeniedPath);
    }
    if Protected(name) {
      return Some(ProtectedPath);
    }
    if StartsWith(name, "tests/") && name !in w.untracked {
      return Some(ExistingTest);
    }
    if w.special(name) {
      return Some(SpecialFile);
    }
    var modes := w.modes(name);
    for n := 0 to |modes|
      invariant forall k :: 0 <= k < n ==> !LinkMode(modes[k])
    {
      if LinkMode(modes[n]) {
        return Some(LinkOrSubmodule);
      }
    }
    why := None;
  }

  /** The sum over the numstat records and the remaining limits. */
  method CheckSize(w: Worktree, policy: Policy) returns (verdict: Verdict)
    ensures verdict.Accepted? <==>
            && (forall k :: 0 <= k < |w.numstat| ==> !w.numstat[k].Malformed? && !w.numstat[k].Binary?)
            && LineCount(w.numstat) <= Min(policy.maxDiffLines, MAX_LINES)
            && w.clean && w.diffBytes <= MAX_DIFF_BYTES
    ensures verdict.Accepted? ==> verdict == Accepted(w.names, w.diff)
    ensures verdict.Denied? ==> verdict.why in {NotNumeric, LineLimit, Whitespace, SizeLimit}
    ensures verdict == Denied(NotNumeric) ==> exists k :: 0 <= k < |w.numstat| && (w.numstat[k].Malformed? || w.numstat[k].Binary?)
    ensures verdict == Denied(LineLimit) ==> LineCount(w.numstat) > Min(policy.maxDiffLines, MAX_LINES)
    ensures verdict == Denied(Whitespace) <==>
            && (forall k :: 0 <= k < |w.numstat| ==> !w.numstat[k].Malformed? && !w.numstat[k].Binary?)
            && LineCount(w.numstat) <= Min(policy.maxDiffLines, MAX_LINES) && !w.clean
    ensures verdict == Denied(SizeLimit) ==> w.diffBytes > MAX_DIFF_BYTES
  {
    var lines := 0;
    for n := 0 to |w.numstat|
      invariant forall k :: 0 <= k < n ==> !w.numstat[k].Malformed? && !w.numstat[k].Binary?
      invariant lines == LineCount(w.numstat[..n])
    {
      var entry := w.numstat[n];
      assert w.numstat[..n + 1][..n] == w.numstat[..n];
      if entry.Malformed? || entry.Binary? {
        return Denied(NotNumeric);
      }
      if entry.Lines? {
        lines := lines + entry.added + entry.deleted;
      }
    }
    assert w.numstat[..|w.numstat|] == w.numstat;
    if lines > Min(policy.maxDiffLines, MAX_LINES) {
      return Denied(LineLimit);
    }
    if !w.clean {
      return Denied(Whitespace);
    }
    if w.diffBytes > MAX_DIFF_BYTES {
      return Denied(SizeLimit);
    }
    verdict := Accepted(w.names, w.diff);
  }

  /** The line count adds added and deleted lines over all records, and no record counts otherwise. */
  lemma {:induction false} LineCountExactly(a: seq<Stat>, b: seq<Stat>, added: nat, deleted: nat)
    ensures LineCount(a + b) == LineCount(a) + LineCount(b)
    ensures LineCount([Lines(added, deleted)]) == added + deleted
    ensures LineCount([]) == LineCount([Blank]) == 0
  {
    assert [Lines(added, deleted)][..0] == [] && [Blank][..0] == [];
    if b == [] {
      assert a + b == a;
    } else {
      LineCountExactly(a, b[..|b| - 1], added, deleted);
      assert (a + b)[..|a + b| - 1] == a + b[..|b| - 1];
    }
  }

  /** The protected paths: four prefixes, one infix, two suffixes. */
  lemma ProtectedExactly(name: string)
    ensures Protected(name) <==>
            || (exists t: string :: name == ".git/" + t || name == ".github/" + t || name == "infra/" + t || name == ".env" + t)
            || (exists h: string, t: string :: name == h + "/.env" + t)
            || (exists h: string :: name == h + ".pem" || name == h + ".key")
  {
    PrefixExactly(name, ".git/");
    PrefixExactly(name, ".github/");
    PrefixExactly(name, "infra/");
    PrefixExactly(name, ".env");
    InfixExactly(name, "/.env");
    SuffixExactly(name, ".pem");
    SuffixExactly(name, ".key");
  }

  lemma PrefixExactly(s: string, prefix: string)
    ensures StartsWith(s, prefix) <==> exists t: string :: s == prefix + t
  {
    if StartsWith(s, prefix) {
      assert s == prefix + s[|prefix|..];
    }
  }

  lemma SuffixExactly(s: string, suffix: string)
    ensures EndsWith(s, suffix) <==> exists h: string :: s == h + suffix
  {
    if EndsWith(s, suffix) {
      assert s == s[..|s| - |suffix|] + suffix;
    }
  }

  lemma InfixExactly(s: string, part: string)
    ensures Contains(s, part) <==> exists h: string, t: string :: s == h + part + t
  {
    if k :| 0 <= k <= |s| && part <= s[k..] {
      assert s == s[..k] + part + s[k + |part|..];
    }
    if h: string, t: string :| s == h + part + t {
      assert part <= s[|h|..];
    }
  }

  function Join(parts: seq<string>): string
    requires parts != []
  {
    if |parts| == 1 then parts[0] else parts[0] + "/" + Join(parts[1..])
  }

  /** The components the path rule looks at are the parts between the slashes, none lost. */
  lemma {:induction false} ComponentsJoin(s: string)
    ensures Components(s) != [] && Join(Components(s)) == s
    ensures forall k | 0 <= k < |Components(s)| :: '/' !in Components(s)[k]
  {
    if s != "" {
      ComponentsJoin(s[1..]);
      var rest := Components(s[1..]);
      assert s == [s[0]] + s[1..];
      if s[0] == '/' {
        assert ([""] + rest)[1..] == rest;
      } else if |rest| > 1 {
        assert ([[s[0]] + rest[0]] + rest[1..])[1..] == rest[1..];
      }
    }
  }

  /** The parts keep every component but the empty ones and the dots, so ".." is found wherever it stands. */
  lemma {:induction false} PartsKeep(parts: seq<string>, part: string)
    ensures part in Named(parts) <==> part in parts && part != "" && part != "."
  {
    if parts != [] {
      PartsKeep(parts[1..], part);
      assert parts == [parts[0]] + parts[1..];
    }
  }

  /** A changed name is relative, names something, is on one line and steps up nowhere. */
  lemma RelativeExactly(name: string)
    ensures RelativePath(name) <==>
            name != "" && name[0] != '/' && '\n' !in name && forall k | 0 <= k < |Components(name)| :: Components(name)[k] != ".."
  {
    PartsKeep(Components(name), "..");
    assert ".." in Components(name) <==> exists k :: 0 <= k < |Components(name)| && Components(name)[k] == "..";
    assert "/" <= name <==> name != "" && name[0] == '/';
  }

  /**
   * The gate judges the worktree and the stored evidence judges the diff text. They agree: a worktree
   * passes exactly when the change its diff describes is inside the policy and nothing else is there.
   */
  lemma GateReadsDiff(env: Env, w: Worktree, policy: Policy)
    requires Shows(env.read(w.diff), w)
    ensures GateOk(env.glob, w, policy) <==> ChangeOk(env.glob, env.read(w.diff), policy) && OnlyRegular(w)
  {
    var c := env.read(w.diff);
    forall k | 0 <= k < |w.names|
      ensures NameOk(env.glob, w, policy, w.names[k]) <==> ChangeNameOk(env.glob, c, policy, w.names[k]) && !w.special(w.names[k])
    {
      assert w.names[k] in w.untracked <==> c.added(w.names[k]);
    }
    if GateOk(env.glob, w, policy) {
      assert forall k :: 0 <= k < |w.names| ==> NameOk(env.glob, w, policy, w.names[k]);
    }
  }
}
