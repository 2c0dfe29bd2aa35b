/**
 * The loop that keeps a worker's lease alive: `keep_lease` of `aeh/worker.py`.
 *
 * Sleeps are exact, the clock is monotone, and the n-th heartbeat call answers and lasts as an
 * arbitrary function says. The execution it guards ends by itself at an arbitrary instant.
 */
module Lease {
  import opened Base

  const BEAT: int := 30 * SECOND
  const RETRY: int := 2 * SECOND

  /** What a heartbeat call answers: DbError is a SQLAlchemyError, Escape any other exception. */
  datatype Reply = Owned | Refused | DbError | Escape
  datatype Beat = Beat(reply: Reply, took: nat)

  /** One heartbeat call: when it began, what it answered and how long it took. */
  datatype Call = Call(began: Time, beat: Beat) {
    function Ended(): Time { began + beat.took }
  }

  /** The local deadline after some calls: one lease after the last renewal that was heard of. */
  function Deadline(start: Time, calls: seq<Call>): Time {
    if calls == [] then start + LEASE
    else if calls[|calls| - 1].beat.reply == Owned then calls[|calls| - 1].Ended() + LEASE
    else Deadline(start, calls[..|calls| - 1])
  }

  /** The call after which the worker must give up: a refusal, or an error at or past the deadline. */
  predicate Fatal(start: Time, calls: seq<Call>, k: nat)
    requires k < |calls|
  {
    || calls[k].beat.reply == Refused
    || (calls[k].beat.reply == DbError && Deadline(start, calls[..k]) <= calls[k].Ended())
  }

  /** The call after which the loop is over: the worker gives up, or an exception leaves the loop unhandled. */
  predicate Last(start: Time, calls: seq<Call>, k: nat)
    requires k < |calls|
  {
    Fatal(start, calls, k) || calls[k].beat.reply == Escape
  }

  /** When call `k` is due: a full interval after the start or a renewal, shortly after an error. */
  function Due(start: Time, calls: seq<Call>, k: nat): Time
    requires k <= |calls|
  {
    if k == 0 then start + BEAT
    else calls[k - 1].Ended() + if calls[k - 1].beat.reply == Owned then BEAT else RETRY
  }

  /** Every call is made when it is due, and none follows a last one. */
  ghost predicate Scheduled(start: Time, calls: seq<Call>) {
    && (forall k {:trigger Due(start, calls, k)} | 0 <= k < |calls| :: calls[k].began == Due(start, calls, k))
    && (forall k {:trigger Last(start, calls, k)} | 0 <= k < |calls| - 1 :: !Last(start, calls, k))
  }

  /** The calls so far were made before the execution ended and got the answers they were due. */
  ghost predicate Answered(finish: Time, beats: nat -> Beat, calls: seq<Call>) {
    forall k | 0 <= k < |calls| :: calls[k].beat == beats(k) && calls[k].began < finish
  }

  /** No call so far ends the loop. */
  ghost predicate Holds(start: Time, calls: seq<Call>) {
    Scheduled(start, calls) && (calls != [] ==> !Last(start, calls, |calls| - 1))
  }

  /** The execution ended by itself, the worker gave up and cancelled it, or an exception left the loop and it runs on unguarded. */
  datatype Guard = Ended | GaveUp | Escaped

  /**
   * `keep_lease`. The loop ends because the end of the execution approaches by at least the retry
   * delay at every turn; it cancels the execution exactly after a fatal call, and at once. It never
   * cancels after an exception other than a database error: that one leaves the loop.
   */
  method KeepLease(start: Time, finish: Time, beats: nat -> Beat) returns (calls: seq<Call>, guard: Guard, stopped: Time)
    ensures Scheduled(start, calls) && Answered(finish, beats, calls)
    ensures guard == GaveUp <==> calls != [] && Fatal(start, calls, |calls| - 1)
    ensures guard == Escaped <==> calls != [] && calls[|calls| - 1].beat.reply == Escape
    ensures guard != Ended ==> calls != [] && stopped == calls[|calls| - 1].Ended()
    ensures guard == Ended ==> finish <= stopped
  {
    calls := [];
    stopped := start;
    var deadline, delay := stopped + LEASE, BEAT;
    while stopped < finish
      invariant Holds(start, calls) && Answered(finish, beats, calls)
      invariant deadline == Deadline(start, calls)
      invariant stopped + delay == Due(start, calls, |calls|) && (delay == RETRY || delay == BEAT)
      decreases finish - stopped
    {
      stopped := stopped + delay;
      if finish <= stopped {
        return calls, Ended, stopped;
      }
      var call := Call(stopped, beats(|calls|));
      stopped := call.Ended();
      Extend(start, calls, call);
      Answer(finish, beats, calls, call);
      calls := calls + [call];
      if call.beat.reply == Escape {
        return calls, Escaped, stopped;
      }
      var owned := call.beat.reply == Owned;
      if call.beat.reply == DbError {
        if stopped < deadline {
          delay := RETRY;
          continue;
        }
      }
      if !owned {
        return calls, GaveUp, stopped;
      }
      deadline, delay := stopped + LEASE, BEAT;
    }
    guard := Ended;
  }

  lemma Answer(finish: Time, beats: nat -> Beat, calls: seq<Call>, call: Call)
    requires Answered(finish, beats, calls) && call.beat == beats(|calls|) && call.began < finish
    ensures Answered(finish, beats, calls + [call])
  {}

  lemma Extend(start: Time, calls: seq<Call>, call: Call)
    requires Holds(start, calls) && call.began == Due(start, calls, |calls|)
    ensures Scheduled(start, calls + [call])
    ensures Holds(start, calls + [call]) <==> !Last(start, calls + [call], |calls|)
    ensures Fatal(start, calls + [call], |calls|) <==>
            call.beat.reply == Refused || (call.beat.reply == DbError && Deadline(start, calls) <= call.Ended())
    ensures Deadline(start, calls + [call]) == if call.beat.reply == Owned then call.Ended() + LEASE else Deadline(start, calls)
    ensures Due(start, calls + [call], |calls| + 1) == call.Ended() + if call.beat.reply == Owned then BEAT else RETRY
  {
    var more := calls + [call];
    assert more[..|calls|] == calls;
    forall k: nat | k < |calls|
      ensures Last(start, more, k) == Last(start, calls, k) && Due(start, more, k) == Due(start, calls, k)
    {
      assert more[..k] == calls[..k];
    }
    assert Due(start, more, |calls|) == Due(start, calls, |calls|);
  }

  /** When calls are made, in seconds: 30 after the start or a renewal, 2 after a database error. */
  lemma CallsAreDue(start: Time, calls: seq<Call>, k: nat)
    requires Scheduled(start, calls) && k < |calls|
    ensures k == 0 ==> calls[0].began == start + 30_000_000
    ensures k > 0 && calls[k - 1].beat.reply == Owned ==> calls[k].began == calls[k - 1].began + calls[k - 1].beat.took + 30_000_000
    ensures k > 0 && calls[k - 1].beat.reply == DbError ==> calls[k].began == calls[k - 1].began + calls[k - 1].beat.took + 2_000_000
  {
    assert calls[k].began == Due(start, calls, k);
  }

  /** When the worker gives up: at a refusal, or at a database error 120 s or more after its last renewal `r`. */
  lemma GivesUpExactly(start: Time, calls: seq<Call>, r: nat, k: nat)
    requires r < k < |calls| && calls[r].beat.reply == Owned && forall m | r < m < k :: calls[m].beat.reply != Owned
    ensures Fatal(start, calls, k) <==>
            || calls[k].beat.reply == Refused
            || (calls[k].beat.reply == DbError && calls[k].began + calls[k].beat.took >= calls[r].began + calls[r].beat.took + 120_000_000)
  {
    DeadlineOfRenewal(start, calls, r, k);
  }

  /** Before any renewal the 120 s run from the start. */
  lemma {:induction false} GivesUpFirst(start: Time, calls: seq<Call>, k: nat)
    requires k < |calls| && forall m | 0 <= m < k :: calls[m].beat.reply != Owned
    ensures Fatal(start, calls, k) <==>
            calls[k].beat.reply == Refused || (calls[k].beat.reply == DbError && calls[k].began + calls[k].beat.took >= start + 120_000_000)
  {
    DeadlineUnrenewed(start, calls, k);
  }

  lemma {:induction false} DeadlineUnrenewed(start: Time, calls: seq<Call>, n: nat)
    requires n <= |calls| && forall m | 0 <= m < n :: calls[m].beat.reply != Owned
    ensures Deadline(start, calls[..n]) == start + LEASE
  {
    if n > 0 {
      DeadlineUnrenewed(start, calls, n - 1);
      assert calls[..n][..n - 1] == calls[..n - 1];
    }
  }

  /** Every call falls between a full interval after the last renewal and one retry past the deadline. */
  lemma {:induction false} CallsInWindow(start: Time, calls: seq<Call>, k: nat)
    requires Scheduled(start, calls) && k < |calls|
    ensures Deadline(start, calls[..k]) - LEASE + BEAT <= calls[k].began < Deadline(start, calls[..k]) + RETRY
  {
    assert calls[k].began == Due(start, calls, k);
    if k > 0 {
      assert calls[..k][..k - 1] == calls[..k - 1];
      CallsInWindow(start, calls, k - 1);
      assert !Last(start, calls, k - 1);
    }
  }

  /**
   * The time bound: whatever answers come, the execution is cancelled no later than the local deadline
   * plus one retry delay plus the last heartbeat call.
   */
  lemma CancelsInTime(start: Time, calls: seq<Call>)
    requires Scheduled(start, calls) && calls != [] && Fatal(start, calls, |calls| - 1)
    ensures var last := |calls| - 1;
            calls[last].Ended() < Deadline(start, calls[..last]) + 2 * SECOND + calls[last].beat.took
  {
    CallsInWindow(start, calls, |calls| - 1);
  }

  /** The same bound in terms of the database: the renewal wrote `lockedAt` at some instant of its call. */
  lemma OverrunsDatabaseLease(start: Time, calls: seq<Call>, r: nat, lockedAt: Time)
    requires Scheduled(start, calls) && r < |calls| - 1 && Fatal(start, calls, |calls| - 1)
    requires calls[r].beat.reply == Owned && forall k | r < k < |calls| :: calls[k].beat.reply != Owned
    requires calls[r].began <= lockedAt <= calls[r].Ended()
    ensures calls[|calls| - 1].Ended() < lockedAt + 120 * SECOND + calls[r].beat.took + 2 * SECOND + calls[|calls| - 1].beat.took
  {
    CancelsInTime(start, calls);
    DeadlineOfRenewal(start, calls, r, |calls| - 1);
  }

  lemma {:induction false} DeadlineOfRenewal(start: Time, calls: seq<Call>, r: nat, n: nat)
    requires r < n <= |calls| && calls[r].beat.reply == Owned
    requires forall k | r < k < n :: calls[k].beat.reply != Owned
    ensures Deadline(start, calls[..n]) == calls[r].Ended() + LEASE
  {
    assert calls[..n][..n - 1] == calls[..n - 1];
    if r < n - 1 {
      DeadlineOfRenewal(start, calls, r, n - 1);
    }
  }

  /** The retry phase is finite: at most 46 errors in a row, however short the calls are. */
  lemma RetriesAreBounded(start: Time, calls: seq<Call>, from: nat, to: nat)
    requires Scheduled(start, calls) && from <= to <= |calls|
    requires forall k | from <= k < to :: calls[k].beat.reply == DbError
    ensures to - from <= 46
  {
    if from < to - 1 {
      RetriesAdvance(start, calls, from, to - 2);
      CallsInWindow(start, calls, from);
      assert !Last(start, calls, to - 2);
    }
  }

  /** During a run of errors the deadline stands still and each call is a retry delay later than the one before. */
  lemma {:induction false} RetriesAdvance(start: Time, calls: seq<Call>, from: nat, k: nat)
    requires Scheduled(start, calls) && from <= k < |calls|
    requires forall m | from <= m <= k :: calls[m].beat.reply == DbError
    ensures Deadline(start, calls[..k]) == Deadline(start, calls[..from])
    ensures calls[from].began + (k - from) * RETRY <= calls[k].began
  {
    if from < k {
      assert calls[k].began == Due(start, calls, k);
      RetriesAdvance(start, calls, from, k - 1);
      assert calls[..k][..k - 1] == calls[..k - 1];
    }
  }

  /** Two renewals in a row keep the database lease alive when their calls take less than 90 s together. */
  lemma HealthyLeaseHolds(start: Time, calls: seq<Call>, k: nat, first: Time, second: Time)
    requires Scheduled(start, calls) && k < |calls| - 1
    requires calls[k].beat.reply == Owned && calls[k + 1].beat.reply == Owned
    requires calls[k].began <= first <= calls[k].Ended() && calls[k + 1].began <= second <= calls[k + 1].Ended()
    requires calls[k].beat.took + calls[k + 1].beat.took < 90 * SECOND
    ensures first > second - 120 * SECOND
  {
    assert calls[k + 1].began == Due(start, calls, k + 1);
  }
}
