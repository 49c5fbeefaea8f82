/**
 * The throttle gate: a wrapper around a callback that admits a call only when it
 * comes strictly more than `wait` milliseconds after the last admitted call.
 * The wall clock the wrapper reads on every call is passed in as `now`.
 */
module Throttling {
  import opened Optional

  /** A call at `now` passes the gate whose last admitted call was at `lastCalledAt`. */
  predicate Admits(lastCalledAt: int, wait: int, now: int)
  {
    now > lastCalledAt + wait
  }

  /** The closure state of one throttled wrapper. */
  class Throttle {
    /** Milliseconds that must pass, strictly, between two admitted calls. */
    const wait: int
    /** The clock value of the last admitted call; 0 before any call is admitted. */
    var lastCalledAt: int

    constructor (wait: int)
      ensures this.wait == wait && lastCalledAt == 0
    {
      this.wait := wait;
      lastCalledAt := 0;
    }

    /** The gate alone: decides a call made at `now` and records it if admitted. */
    method Admit(now: int) returns (admitted: bool)
      modifies this`lastCalledAt
      ensures admitted <==> now > old(lastCalledAt) + wait
      ensures lastCalledAt == if admitted then now else old(lastCalledAt)
    {
      admitted := Admits(lastCalledAt, wait, now);
      if admitted {
        lastCalledAt := now;
      }
    }

    /**
     * The throttled wrapper applied to `arg` at clock value `now`: Some(fun(arg))
     * when the call is admitted, None (JavaScript's undefined) when it is dropped.
     */
    method Call<A, R>(fun: A -> R, arg: A, now: int) returns (r: Option<R>)
      modifies this`lastCalledAt
      ensures r.Some? <==> now > old(lastCalledAt) + wait
      ensures r.Some? ==> r.value == fun(arg) && lastCalledAt == now
      ensures r.None? ==> lastCalledAt == old(lastCalledAt)
    {
      var admitted := Admit(now);
      if admitted {
        r := Some(fun(arg));
      } else {
        r := None;
      }
    }
  }

  /**
   * The clock values, in order, of the calls admitted when a gate that last
   * admitted a call at `lastCalledAt` sees calls at the clock values `nows`.
   */
  function AdmittedTimes(wait: int, lastCalledAt: int, nows: seq<int>): (r: seq<int>)
    ensures |r| <= |nows|
    decreases |nows|
  {
    if nows == [] then []
    else if Admits(lastCalledAt, wait, nows[0]) then [nows[0]] + AdmittedTimes(wait, nows[0], nows[1..])
    else AdmittedTimes(wait, lastCalledAt, nows[1..])
  }

  /** The gate's lastCalledAt after it has seen calls at the clock values `nows`. */
  function LastCalledAfter(wait: int, lastCalledAt: int, nows: seq<int>): (r: int)
    ensures r == lastCalledAt || r in nows
    decreases |nows|
  {
    if nows == [] then lastCalledAt
    else if Admits(lastCalledAt, wait, nows[0]) then LastCalledAfter(wait, nows[0], nows[1..])
    else LastCalledAfter(wait, lastCalledAt, nows[1..])
  }

  predicate StrictlyIncreasing(s: seq<int>)
  {
    forall i :: 0 < i < |s| ==> s[i - 1] < s[i]
  }

  /**
   * Admitted calls are spaced by more than `wait`: the first one comes after
   * lastCalledAt + wait, each later one after the previous admitted call + wait;
   * and lastCalledAt ends at the last admitted call (unchanged if there is none).
   */
  lemma {:induction false} AdmittedSpaced(wait: int, lastCalledAt: int, nows: seq<int>)
    ensures var r := AdmittedTimes(wait, lastCalledAt, nows);
      && (r != [] ==> r[0] > lastCalledAt + wait)
      && (forall i :: 0 < i < |r| ==> r[i] > r[i - 1] + wait)
      && LastCalledAfter(wait, lastCalledAt, nows) == (if r == [] then lastCalledAt else r[|r| - 1])
    decreases |nows|
  {
    if nows != [] {
      if Admits(lastCalledAt, wait, nows[0]) {
        AdmittedSpaced(wait, nows[0], nows[1..]);
        var rest := AdmittedTimes(wait, nows[0], nows[1..]);
        var r := [nows[0]] + rest;
        forall i | 0 < i < |r| ensures r[i] > r[i - 1] + wait {
          assert r[i] == rest[i - 1];
        }
      } else {
        AdmittedSpaced(wait, lastCalledAt, nows[1..]);
      }
    }
  }

  /** Every admitted call is one of the calls made. */
  lemma {:induction false} AdmittedAreCalls(wait: int, lastCalledAt: int, nows: seq<int>)
    ensures forall t :: t in AdmittedTimes(wait, lastCalledAt, nows) ==> t in nows
    decreases |nows|
  {
    if nows != [] {
      var next := if Admits(lastCalledAt, wait, nows[0]) then nows[0] else lastCalledAt;
      AdmittedAreCalls(wait, next, nows[1..]);
    }
  }

  /**
   * A fresh gate starts from lastCalledAt = 0: its first call is admitted iff it
   * comes after `wait`.
   */
  lemma FirstCallAdmittedIff(wait: int, nows: seq<int>)
    requires nows != []
    ensures var r := AdmittedTimes(wait, 0, nows);
      (r != [] && r[0] == nows[0]) <==> nows[0] > wait
  {
    if !Admits(0, wait, nows[0]) {
      AdmittedSpaced(wait, 0, nows[1..]);
    }
  }

  /** With a non-negative wait no clock value is admitted twice: admitted times strictly increase. */
  lemma AdmittedStrictlyIncrease(wait: int, lastCalledAt: int, nows: seq<int>)
    requires wait >= 0
    ensures StrictlyIncreasing(AdmittedTimes(wait, lastCalledAt, nows))
  {
    AdmittedSpaced(wait, lastCalledAt, nows);
  }

  /**
   * With wait = 0 every call at a strictly later clock value is admitted. (A call
   * at the same millisecond as the last admitted one is not: BoundaryCallDropped with wait 0.)
   */
  lemma {:induction false} ZeroWaitAdmitsIncreasing(lastCalledAt: int, nows: seq<int>)
    requires StrictlyIncreasing(nows)
    requires nows != [] ==> nows[0] > lastCalledAt
    ensures AdmittedTimes(0, lastCalledAt, nows) == nows
    decreases |nows|
  {
    if nows != [] {
      assert Admits(lastCalledAt, 0, nows[0]);
      if |nows| > 1 {
        assert nows[1..][0] == nows[1];
      }
      ZeroWaitAdmitsIncreasing(nows[0], nows[1..]);
    }
  }

  /** A call at exactly lastCalledAt + wait is dropped and leaves the gate unchanged. */
  lemma BoundaryCallDropped(wait: int, lastCalledAt: int)
    ensures AdmittedTimes(wait, lastCalledAt, [lastCalledAt + wait]) == []
    ensures LastCalledAfter(wait, lastCalledAt, [lastCalledAt + wait]) == lastCalledAt
  {
  }

  /**
   * Calls at simulated clock values 0, 10, 60, 70, 130 through a fresh gate with
   * wait 50: only 60 and 130 are admitted, since the gate starts at 0 and 0 is not after 0 + 50.
   */
  lemma SimulatedClockTrace()
    ensures AdmittedTimes(50, 0, [0, 10, 60, 70, 130]) == [60, 130]
  {
  }
}
