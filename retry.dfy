/** `FixedRetryStrategy`: re-run an operation until it yields `true` or the
    attempt budget is spent. The operation is an oracle: the k-th call made
    by `Run` produces the k-th element of a sequence of outcomes. */
module Retry {

  /** What one call of the retried operation produces. */
  datatype Outcome =
    | Threw                  // its future failed
    | Returned(value: bool)  // its future yielded a value
    | Escaped                // it raised before returning a future, so the loop's own future fails

  /** How the future returned by `run` resolves. */
  datatype RunResult = Resolved | AttemptFailed   // AttemptFailed: the "Attempt failed" runtime_error

  /** A call counts as a success only if its future did not fail and yielded true. */
  predicate Succeeded(o: Outcome) { o == Returned(true) }

  /** A call after which the loop does not go on. */
  predicate Stops(o: Outcome) { o == Returned(true) || o == Escaped }

  /** Calls still allowed: the stop condition `_success || _try >= _retries`
      is checked before every call. */
  function Budget(tries: int, success: bool, retries: int): nat {
    if success || tries >= retries then 0 else retries - tries
  }

  /** The state the loop leaves behind: `_try`, `_success`, the calls made,
      and whether the loop's own future failed. */
  datatype LoopEnd = LoopEnd(tries: int, success: bool, calls: nat, loopFailed: bool)

  /** The `do_until` loop, from the fields' values before it runs. */
  function Loop(tries: int, success: bool, retries: int, outcomes: seq<Outcome>): (e: LoopEnd)
    requires |outcomes| >= Budget(tries, success, retries)
    ensures e.calls <= Budget(tries, success, retries)
    ensures e.tries == tries + e.calls
    ensures !e.loopFailed ==> Budget(e.tries, e.success, retries) == 0
    decreases Budget(tries, success, retries)
  {
    if success || tries >= retries then LoopEnd(tries, success, 0, false)
    else
      match outcomes[0]
      case Escaped => LoopEnd(tries + 1, success, 1, true)
      case Threw =>
        var e := Loop(tries + 1, false, retries, outcomes[1..]);
        e.(calls := e.calls + 1)
      case Returned(b) =>
        var e := Loop(tries + 1, b, retries, outcomes[1..]);
        e.(calls := e.calls + 1)
  }

  /** One round of the loop: the call made, then the rest of the loop. */
  lemma LoopStep(tries: int, success: bool, retries: int, outcomes: seq<Outcome>)
    requires !success && tries < retries && |outcomes| >= Budget(tries, success, retries)
    ensures outcomes[0] == Escaped ==> Loop(tries, success, retries, outcomes) == LoopEnd(tries + 1, success, 1, true)
    ensures outcomes[0] != Escaped ==>
              var e := Loop(tries + 1, Succeeded(outcomes[0]), retries, outcomes[1..]);
              Loop(tries, success, retries, outcomes) == e.(calls := e.calls + 1)
  {
  }

  /** How `run` resolves once its loop has ended: a failed loop is logged and
      swallowed; otherwise "Attempt failed" unless the last round succeeded. */
  function Resolution(e: LoopEnd): RunResult {
    if !e.loopFailed && !e.success then AttemptFailed else Resolved
  }

  class FixedRetryStrategy {
    const retries: int
    var tries: int
    var success: bool

    constructor (retries: int)
      ensures this.retries == retries && tries == 0 && !success
    {
      this.retries := retries;
      tries := 0;
      success := false;
    }

    /** `run(func)`: returns how its future resolves and how many times `func`
        was called; the fields keep their values for a later `run`. */
    method Run(outcomes: seq<Outcome>) returns (result: RunResult, calls: nat)
      requires |outcomes| >= Budget(tries, success, retries)
      modifies this
      ensures var e := Loop(old(tries), old(success), retries, outcomes);
              tries == e.tries && success == e.success && calls == e.calls && result == Resolution(e)
    {
      ghost var e0 := Loop(tries, success, retries, outcomes);
      calls := 0;
      var loopFailed := false;
      while !loopFailed && !(success || tries >= retries)
        invariant calls <= |outcomes|
        invariant Budget(tries, success, retries) <= |outcomes| - calls
        invariant !loopFailed ==>
          var e := Loop(tries, success, retries, outcomes[calls..]);
          e0 == e.(calls := e.calls + calls)
        invariant loopFailed ==> e0 == LoopEnd(tries, success, calls, true)
        decreases retries - tries
      {
        ghost var rest := outcomes[calls..];
        assert rest[1..] == outcomes[calls + 1..];
        LoopStep(tries, success, retries, rest);
        tries := tries + 1;
        var outcome := outcomes[calls];
        calls := calls + 1;
        match outcome {
          case Escaped =>
            loopFailed := true;
          case Threw =>
            success := false;
          case Returned(b) =>
            success := b;
        }
      }
      result := if !loopFailed && !success then AttemptFailed else Resolved;
    }
  }

  // ---------------------------------------------------------------- properties

  /** `func` runs at most max(retries, 0) times on a fresh strategy, and never
      when retries <= 0. */
  lemma BoundedAttempts(retries: int, outcomes: seq<Outcome>)
    requires |outcomes| >= Budget(0, false, retries)
    ensures Loop(0, false, retries, outcomes).calls <= if retries > 0 then retries else 0
    ensures retries <= 0 ==> Loop(0, false, retries, outcomes).calls == 0
  {
  }

  /** The loop goes on past a call only if that call did not stop it, and ends
      before the budget only on a stop; success and a failed loop are read off
      the last call. */
  lemma {:induction false} StopsAtFirstSuccess(tries: int, retries: int, outcomes: seq<Outcome>)
    requires |outcomes| >= Budget(tries, false, retries)
    ensures var e := Loop(tries, false, retries, outcomes);
            && (forall k | 0 <= k < e.calls - 1 :: !Stops(outcomes[k]))
            && (e.calls < Budget(tries, false, retries) ==> e.calls > 0 && Stops(outcomes[e.calls - 1]))
            && (e.success <==> e.calls > 0 && Succeeded(outcomes[e.calls - 1]))
            && (e.loopFailed <==> e.calls > 0 && outcomes[e.calls - 1] == Escaped)
    decreases Budget(tries, false, retries)
  {
    if tries < retries {
      match outcomes[0]
      case Escaped =>
      case Threw =>
        StopsAtFirstSuccess(tries + 1, retries, outcomes[1..]);
      case Returned(b) =>
        if !b {
          StopsAtFirstSuccess(tries + 1, retries, outcomes[1..]);
        }
    }
  }

  /** `run` resolves with "Attempt failed" exactly when no call succeeded and
      the loop itself did not fail. */
  lemma {:induction false} ErrorIffNoSuccess(tries: int, retries: int, outcomes: seq<Outcome>)
    requires |outcomes| >= Budget(tries, false, retries)
    ensures var e := Loop(tries, false, retries, outcomes);
            Resolution(e) == AttemptFailed <==>
              !e.loopFailed && forall k | 0 <= k < e.calls :: !Succeeded(outcomes[k])
  {
    var e := Loop(tries, false, retries, outcomes);
    StopsAtFirstSuccess(tries, retries, outcomes);
    if e.calls > 0 && !Succeeded(outcomes[e.calls - 1]) {
      forall k | 0 <= k < e.calls ensures !Succeeded(outcomes[k]) {
      }
    }
  }

  /** `_try` and `_success` are never reset: unless the first loop failed, a
      second `run` on the same strategy makes no call and resolves as the
      first one did. */
  lemma SecondRunMakesNoCalls(tries: int, success: bool, retries: int, first: seq<Outcome>, second: seq<Outcome>)
    requires |first| >= Budget(tries, success, retries)
    requires var e := Loop(tries, success, retries, first); !e.loopFailed
    ensures var e := Loop(tries, success, retries, first);
            var e2 := Loop(e.tries, e.success, retries, second);
            e2.calls == 0 && e2.tries == e.tries && e2.success == e.success && Resolution(e2) == Resolution(e)
  {
  }

  /** With a budget of 3, an operation that fails twice and then succeeds is
      called 3 times and `run` resolves normally; one that always fails is
      called 3 times and `run` reports "Attempt failed". */
  lemma ThreeAttemptExamples()
    ensures var e := Loop(0, false, 3, [Returned(false), Threw, Returned(true)]);
            e.calls == 3 && Resolution(e) == Resolved
    ensures var e := Loop(0, false, 3, [Returned(false), Threw, Returned(false)]);
            e.calls == 3 && Resolution(e) == AttemptFailed
  {
  }
}
