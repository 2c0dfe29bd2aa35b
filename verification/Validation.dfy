/**
 * `run_validation` of `aeh/validation.py`: the command loop that stops at the first failure and
 * the capture loop that keeps a bounded prefix of what a process writes.
 *
 * A process is the list of what its pipe delivers and after how long; a read of no bytes is the
 * end of the pipe. Standard error shares the pipe, so it shares the bound.
 */
module Validation {
  import opened Base
  import opened Schema
  import opened Evidence

  type Bytes = seq<bv8>

  const STREAM_LIMIT: nat := 32 * 1024
  const COMMAND_SECONDS: int := 300
  const REFUSED := {"sh", "bash", "zsh", "curl", "wget", "git"}

  datatype Read = Read(after: nat, chunk: Bytes)

  /** The last read of a feed is the end of the pipe; an earlier empty read ends it earlier. */
  type Feed = f: seq<Read> | f != [] && f[|f| - 1].chunk == [] witness [Read(0, [])]

  datatype Process = Process(feed: Feed, exitCode: int)

  // ---- one command ----

  /** The time that the first `n` reads take. */
  function Elapsed(feed: seq<Read>, n: nat): nat
    requires n <= |feed|
  {
    if n == 0 then 0 else Elapsed(feed, n - 1) + feed[n - 1].after
  }

  /** Read `n` is reached before the deadline and answered by then. */
  predicate InTime(feed: seq<Read>, timeout: int, n: nat)
    requires n < |feed|
  {
    Elapsed(feed, n) < timeout && Elapsed(feed, n + 1) <= timeout
  }

  /** The first read that ends the loop: the end of the pipe, or one that comes too late. */
  function StopAt(feed: Feed, timeout: int, n: nat): (k: nat)
    requires n < |feed|
    ensures n <= k < |feed|
    decreases |feed| - n
  {
    if !InTime(feed, timeout, n) || feed[n].chunk == [] then n else StopAt(feed, timeout, n + 1)
  }

  function Stream(feed: seq<Read>): Bytes {
    if feed == [] then [] else Stream(feed[..|feed| - 1]) + feed[|feed| - 1].chunk
  }

  function First(bytes: Bytes, n: nat): Bytes {
    if |bytes| <= n then bytes else bytes[..n]
  }

  /** The inner loop: every byte up to the stop point passes, and the first 32768 of them are kept. */
  method Capture(feed: Feed, timeout: int) returns (captured: Bytes, timedOut: bool)
    ensures var k := StopAt(feed, timeout, 0);
            timedOut == !InTime(feed, timeout, k) && captured == First(Stream(feed[..k]), STREAM_LIMIT)
    ensures var sent := Stream(feed[..StopAt(feed, timeout, 0)]);
            captured <= sent && |captured| == (if |sent| <= 32768 then |sent| else 32768)
  {
    captured, timedOut := [], false;
    var clock, n, open := 0, 0, true;
    while open
      invariant n < |feed| && clock >= 0
      invariant open ==> clock == Elapsed(feed, n) || (clock == timeout && Elapsed(feed, n) < timeout < Elapsed(feed, n + 1))
      invariant StopAt(feed, timeout, 0) == StopAt(feed, timeout, n)
      invariant !open ==> InTime(feed, timeout, n) && feed[n].chunk == []
      invariant captured == First(Stream(feed[..n]), STREAM_LIMIT) && !timedOut
      decreases |feed| - n, open, timeout - clock
    {
      var remaining := timeout - clock;
      if remaining <= 0 {
        timedOut := true;
        break;
      }
      assert Elapsed(feed, n + 1) == Elapsed(feed, n) + feed[n].after;
      if feed[n].after > remaining {
        clock := timeout;
        continue;
      }
      clock := clock + feed[n].after;
      if feed[n].chunk == [] {
        open := false;
      } else {
        if |captured| < STREAM_LIMIT {
          captured := captured + First(feed[n].chunk, STREAM_LIMIT - |captured|);
        }
        assert feed[..n + 1][..n] == feed[..n];
        FirstOfSum(Stream(feed[..n]), feed[n].chunk);
        n := n + 1;
      }
    }
  }

  /** The stream is the chunks in order, nothing added or lost. */
  lemma {:induction false} StreamExactly(feed: seq<Read>, more: seq<Read>)
    ensures Stream(feed + more) == Stream(feed) + Stream(more)
    ensures |feed| == 1 ==> Stream(feed) == feed[0].chunk
  {
    if |feed| == 1 {
      assert feed[..0] == [];
    }
    if more == [] {
      assert feed + more == feed;
    } else {
      StreamExactly(feed, more[..|more| - 1]);
      assert (feed + more)[..|feed + more| - 1] == feed + more[..|more| - 1];
    }
  }

  /** A read is in time when the deadline has not come as it is asked for and has not passed as it answers. */
  lemma {:induction false} ElapsedExactly(feed: seq<Read>, n: nat)
    requires n < |feed|
    ensures Elapsed(feed, 0) == 0 && Elapsed(feed, n + 1) == Elapsed(feed, n) + feed[n].after
  {}

  lemma FirstOfSum(a: Bytes, b: Bytes)
    ensures var kept := First(a, STREAM_LIMIT);
            First(a + b, STREAM_LIMIT) == if |kept| < STREAM_LIMIT then kept + First(b, STREAM_LIMIT - |kept|) else kept
  {}

  /** The stop point is the only one: everything before it is in time and not empty, it is one or the other. */
  lemma {:induction false} StopIsUnique(feed: Feed, timeout: int, k: nat)
    requires k < |feed|
    ensures k == StopAt(feed, timeout, 0) <==>
            && (forall n: nat | n < k :: InTime(feed, timeout, n) && feed[n].chunk != [])
            && (InTime(feed, timeout, k) ==> feed[k].chunk == [])
  {
    StopFrom(feed, timeout, 0);
    var stop := StopAt(feed, timeout, 0);
    if stop < k {
      assert !(InTime(feed, timeout, stop) && feed[stop].chunk != []);
    } else if k < stop {
      assert InTime(feed, timeout, k) && feed[k].chunk != [];
    }
  }

  lemma {:induction false} StopFrom(feed: Feed, timeout: int, n: nat)
    requires n < |feed|
    ensures var stop := StopAt(feed, timeout, n);
            && (forall m: nat | n <= m < stop :: InTime(feed, timeout, m) && feed[m].chunk != [])
            && (InTime(feed, timeout, stop) ==> feed[stop].chunk == [])
    decreases |feed| - n
  {
    if InTime(feed, timeout, n) && feed[n].chunk != [] {
      StopFrom(feed, timeout, n + 1);
    }
  }

  /**
   * Chunking does not matter: whatever way the same bytes are cut into reads, a command that ends in
   * time leaves the same capture.
   */
  lemma ChunkingIsInvisible(a: Feed, b: Feed, s: int, t: int)
    requires InTime(a, s, StopAt(a, s, 0)) && InTime(b, t, StopAt(b, t, 0))
    requires Stream(a) == Stream(b)
    requires forall n: nat | n < |a| - 1 :: a[n].chunk != []
    requires forall n: nat | n < |b| - 1 :: b[n].chunk != []
    ensures First(Stream(a[..StopAt(a, s, 0)]), STREAM_LIMIT) == First(Stream(b[..StopAt(b, t, 0)]), STREAM_LIMIT)
  {
    StopsAtEnd(a, s);
    StopsAtEnd(b, t);
  }

  lemma StopsAtEnd(feed: Feed, timeout: int)
    requires InTime(feed, timeout, StopAt(feed, timeout, 0))
    requires forall n: nat | n < |feed| - 1 :: feed[n].chunk != []
    ensures Stream(feed[..StopAt(feed, timeout, 0)]) == Stream(feed)
  {
    StopFrom(feed, timeout, 0);
    assert StopAt(feed, timeout, 0) == |feed| - 1;
  }

  // ---- all commands ----

  datatype End = Finished | Unregistered | NoSandbox | Broken

  predicate Registered(command: Command) {
    command.argv != [] && command.argv[0] !in REFUSED
  }

  function Timeout(command: Command): int {
    Min(command.timeout, COMMAND_SECONDS) * SECOND
  }

  /** The entry a command leaves in the results. */
  function Entry(command: Command, process: Process, render: Bytes -> string): CommandResult {
    var k := StopAt(process.feed, Timeout(command), 0);
    var output := render(First(Stream(process.feed[..k]), STREAM_LIMIT));
    if !InTime(process.feed, Timeout(command), k) then CommandResult(command.id, TimedOut, None, output)
    else CommandResult(command.id, if process.exitCode == 0 then Passed else CommandFailed, Some(process.exitCode), output)
  }

  /** `results` are the entries of the first commands, in order. */
  predicate EntriesOf(commands: seq<Command>, run: nat -> Process, render: Bytes -> string, results: seq<CommandResult>) {
    && |results| <= |commands|
    && forall k :: 0 <= k < |results| ==> Registered(commands[k]) && results[k] == Entry(commands[k], run(k), render)
  }

  predicate Passing(results: seq<CommandResult>) {
    forall k :: 0 <= k < |results| ==> results[k].status == Passed
  }

  /** One turn of the outer loop: the process's capture, its status and its exit code. */
  method RunCommand(item: Command, process: Process, render: Bytes -> string) returns (result: CommandResult)
    ensures result == Entry(item, process, render)
  {
    var captured, timedOut := Capture(process.feed, Min(item.timeout, COMMAND_SECONDS) * SECOND);
    var exitCode := if timedOut then None else Some(process.exitCode);
    var status := if timedOut then TimedOut else if exitCode == Some(0) then Passed else CommandFailed;
    result := CommandResult(item.id, status, exitCode, render(captured));
  }

  /** The outer loop; an end other than Finished is the exception it raises. */
  method RunValidation(commands: seq<Command>, sandbox: bool, run: nat -> Process, render: Bytes -> string)
    returns (results: seq<CommandResult>, end: End)
    ensures EntriesOf(commands, run, render, results) && (results != [] ==> sandbox)
    ensures end == Finished ==> |results| == |commands| && Passing(results)
    ensures end == Broken ==> results != [] && Passing(results[..|results| - 1]) && results[|results| - 1].status != Passed
    ensures end == Unregistered ==> |results| < |commands| && Passing(results) && !Registered(commands[|results|])
    ensures end == NoSandbox ==> |results| < |commands| && Passing(results) && Registered(commands[|results|]) && !sandbox
  {
    results := [];
    while |results| < |commands|
      invariant EntriesOf(commands, run, render, results) && Passing(results) && (results != [] ==> sandbox)
      decreases |commands| - |results|
    {
      var item := commands[|results|];
      if item.argv == [] || item.argv[0] in REFUSED {
        return results, Unregistered;
      }
      if !sandbox {
        return results, NoSandbox;
      }
      var result := RunCommand(item, run(|results|), render);
      EntriesGrow(commands, run, render, results, result);
      results := results + [result];
      if result.status != Passed {
        return results, Broken;
      }
    }
    end := Finished;
  }

  lemma EntriesGrow(commands: seq<Command>, run: nat -> Process, render: Bytes -> string, results: seq<CommandResult>, result: CommandResult)
    requires EntriesOf(commands, run, render, results) && Passing(results) && |results| < |commands|
    requires Registered(commands[|results|]) && result == Entry(commands[|results|], run(|results|), render)
    ensures EntriesOf(commands, run, render, results + [result]) && (results + [result])[..|results|] == results
    ensures Passing(results + [result]) <==> result.status == Passed
  {
    var more := results + [result];
    assert more[|results|] == result && forall k :: 0 <= k < |results| ==> more[k] == results[k];
  }

  /** A run reports success exactly when every command is registered, ends in time and exits with 0. */
  predicate AllSucceed(commands: seq<Command>, run: nat -> Process) {
    forall k :: 0 <= k < |commands| ==> Registered(commands[k]) && Succeeds(commands[k], run(k))
  }

  predicate Succeeds(command: Command, process: Process) {
    InTime(process.feed, Timeout(command), StopAt(process.feed, Timeout(command), 0)) && process.exitCode == 0
  }

  /** The entry of a command, field by field: its own limit counts up to 300 s, and output is kept up to 32768 bytes. */
  lemma EntryExactly(command: Command, process: Process, render: Bytes -> string)
    ensures var result, k := Entry(command, process, render), StopAt(process.feed, Min(command.timeout, 300) * 1_000_000, 0);
            var late := !InTime(process.feed, (if command.timeout < 300 then command.timeout else 300) * 1_000_000, k);
            && result.id == command.id
            && (result.status == TimedOut <==> late) && (result.status == Passed <==> !late && process.exitCode == 0)
            && result.exitCode == (if late then None else Some(process.exitCode))
            && result.output == render(First(Stream(process.feed[..k]), 32768))
  {}

  /** A command succeeds exactly when its pipe ends within its own limit and within 300 s, and it exits with 0. */
  lemma SucceedsExactly(command: Command, process: Process)
    ensures Succeeds(command, process) <==>
            && process.exitCode == 0
            && exists k: nat :: k < |process.feed| && process.feed[k].chunk == [] && EndsBy(process.feed, k, command.timeout) && EndsBy(process.feed, k, 300)
  {
    var timeout := Timeout(command);
    var stop := StopAt(process.feed, timeout, 0);
    StopIsUnique(process.feed, timeout, stop);
    if k: nat :| k < |process.feed| && process.feed[k].chunk == [] && EndsBy(process.feed, k, command.timeout) && EndsBy(process.feed, k, 300) {
      StopsBy(process.feed, timeout, k);
    }
  }

  /** Read `k` is answered within some seconds, and asked for before they are over. */
  predicate EndsBy(feed: seq<Read>, k: nat, seconds: int)
    requires k < |feed|
  {
    Elapsed(feed, k) < seconds * 1_000_000 && Elapsed(feed, k + 1) <= seconds * 1_000_000
  }

  /** With an empty read in time the loop stops in time. */
  lemma StopsBy(feed: Feed, timeout: int, k: nat)
    requires k < |feed| && feed[k].chunk == [] && InTime(feed, timeout, k)
    ensures InTime(feed, timeout, StopAt(feed, timeout, 0))
  {
    var stop := StopAt(feed, timeout, 0);
    StopFrom(feed, timeout, 0);
    assert forall m: nat | m < stop :: feed[m].chunk != [];
    ElapsedGrows(feed, stop, k);
    ElapsedGrows(feed, stop + 1, k + 1);
  }

  lemma {:induction false} ElapsedGrows(feed: seq<Read>, a: nat, b: nat)
    requires a <= b <= |feed|
    ensures Elapsed(feed, a) <= Elapsed(feed, b)
  {
    if a < b {
      ElapsedGrows(feed, a, b - 1);
    }
  }

  /** Entries that all pass are the evidence a PATCH_READY incident keeps, and only a full success leaves them. */
  lemma FinishedMeans(commands: seq<Command>, run: nat -> Process, render: Bytes -> string, results: seq<CommandResult>)
    requires EntriesOf(commands, run, render, results) && |results| == |commands|
    ensures Passing(results) <==> AllPassed(commands, results)
    ensures Passing(results) <==> AllSucceed(commands, run)
  {
    forall k | 0 <= k < |commands|
      ensures results[k].status == Passed <==> Succeeds(commands[k], run(k))
      ensures results[k].status == Passed ==> results[k].exitCode == Some(0)
      ensures results[k].id == commands[k].id
    {
      assert results[k] == Entry(commands[k], run(k), render);
    }
    if AllSucceed(commands, run) {
      assert forall k :: 0 <= k < |results| ==> Succeeds(commands[k], run(k));
    }
  }

  /** A failing run keeps the evidence of what failed: the entries stop at the first command that does not succeed. */
  lemma BrokenMeans(commands: seq<Command>, run: nat -> Process, render: Bytes -> string, results: seq<CommandResult>)
    requires EntriesOf(commands, run, render, results) && results != []
    requires Passing(results[..|results| - 1]) && results[|results| - 1].status != Passed
    ensures var last := |results| - 1;
            !Succeeds(commands[last], run(last)) && forall k | 0 <= k < last :: Succeeds(commands[k], run(k))
  {
    var last := |results| - 1;
    assert results[last] == Entry(commands[last], run(last), render);
    forall k | 0 <= k < last ensures Succeeds(commands[k], run(k)) {
      assert results[k] == Entry(commands[k], run(k), render);
      assert results[..last][k] == results[k];
    }
  }
}
