/** `with_retry`: call a function up to `max_attempts` times, sleeping with
    (optionally exponential, capped) backoff between attempts that raise a
    caught exception, and re-raise the last one when every attempt failed.

    The wrapped call is an oracle `call(k)`: the outcome of attempt `k`.
    Delays are whole milliseconds; `random.uniform(0, 1)` is the oracle
    `jitter(k)`, a number of milliseconds in [0, 1000]. */
module Retry {

  import opened Wrappers

  /** The `exceptions` tuple: `(Exception,)` catches everything. */
  datatype Handler = AnyException | Only(kinds: set<ExcKind>)

  predicate Catches(h: Handler, e: Exception) {
    h.AnyException? || e.kind in h.kinds
  }

  datatype Policy = Policy(maxAttempts: int, exponential: bool, baseDelay: nat, maxDelay: nat, handler: Handler)

  /** The decorator's defaults: 3 attempts, exponential, 1 s base, 60 s cap. */
  const DefaultPolicy := Policy(3, true, 1000, 60000, AnyException)

  function Pow2(k: nat): (r: nat)
    ensures r >= 1
  {
    if k == 0 then 1 else 2 * Pow2(k - 1)
  }

  /** The sleep after failed attempt `k`. */
  function Delay(p: Policy, k: nat, jitter: int): (d: int)
    requires 0 <= jitter <= 1000
    ensures p.exponential ==> d <= p.maxDelay && (d == p.maxDelay || d >= p.baseDelay * Pow2(k))
    ensures !p.exponential ==> d == p.baseDelay
  {
    if p.exponential then
      var raw := p.baseDelay * Pow2(k) + jitter;
      if raw < p.maxDelay then raw else p.maxDelay
    else p.baseDelay
  }

  ghost predicate JitterInRange(jitter: nat -> int) {
    forall k: nat :: 0 <= jitter(k) <= 1000
  }

  /** What a wrapped call does: its outcome, how many times the function was
      invoked and the sleeps in between, in order. */
  datatype Run<T> = Run(result: Outcome<T>, calls: nat, sleeps: seq<int>)

  /** Attempts `k`, `k + 1`, ... given the exception caught so far. Raising
      the initial `None` (no attempt at all) is a TypeError in Python. */
  function RunFrom<T>(p: Policy, call: nat -> Outcome<T>, jitter: nat -> int, k: nat, last: Option<Exception>): (r: Run<T>)
    requires JitterInRange(jitter)
    ensures k >= p.maxAttempts ==> r.calls == 0 && r.sleeps == []
    ensures k < p.maxAttempts ==> 1 <= r.calls <= p.maxAttempts - k && |r.sleeps| == r.calls - 1
    decreases p.maxAttempts - k
  {
    if k >= p.maxAttempts then
      Run(if last.None? then Raised(Exception(TypeError, "exceptions must derive from BaseException")) else Raised(last.value), 0, [])
    else match call(k)
      case Ok(v) => Run(Ok(v), 1, [])
      case Raised(e) =>
        if !Catches(p.handler, e) then Run(Raised(e), 1, [])
        else
          var rest := RunFrom(p, call, jitter, k + 1, Some(e));
          var pause := if k < p.maxAttempts - 1 then [Delay(p, k, jitter(k))] else [];
          Run(rest.result, 1 + rest.calls, pause + rest.sleeps)
  }

  function Attempts<T>(p: Policy, call: nat -> Outcome<T>, jitter: nat -> int): Run<T>
    requires JitterInRange(jitter)
  {
    RunFrom(p, call, jitter, 0, None)
  }

  /** `sync_wrapper` (and `async_wrapper`, which runs the same loop). */
  method WithRetry<T>(p: Policy, call: nat -> Outcome<T>, jitter: nat -> int) returns (result: Outcome<T>, calls: nat, sleeps: seq<int>)
    requires JitterInRange(jitter)
    ensures Run(result, calls, sleeps) == Attempts(p, call, jitter)
  {
    ghost var whole := Attempts(p, call, jitter);
    var last: Option<Exception> := None;
    calls := 0;
    sleeps := [];
    var n := if p.maxAttempts < 0 then 0 else p.maxAttempts;
    for attempt := 0 to n
      invariant calls == attempt
      invariant whole.result == RunFrom(p, call, jitter, attempt, last).result
      invariant whole.calls == calls + RunFrom(p, call, jitter, attempt, last).calls
      invariant whole.sleeps == sleeps + RunFrom(p, call, jitter, attempt, last).sleeps
    {
      var outcome := call(attempt);
      calls := calls + 1;
      if outcome.Ok? || !Catches(p.handler, outcome.exc) {
        RunFromStops(p, call, jitter, attempt, last);
        assert sleeps + [] == sleeps;
        return outcome, calls, sleeps;
      }
      RunFromCaught(p, call, jitter, attempt, last);
      last := Some(outcome.exc);
      if attempt < p.maxAttempts - 1 {
        sleeps := sleeps + [Delay(p, attempt, jitter(attempt))];
      }
    }
    RunFromEnd(p, call, jitter, n, last);
    assert sleeps + [] == sleeps;
    if last.None? {
      return Raised(Exception(TypeError, "exceptions must derive from BaseException")), calls, sleeps;
    }
    result := Raised(last.value);
  }

  /** An attempt that succeeds, or raises what the handler does not catch,
      ends the run with its own outcome. */
  lemma RunFromStops<T>(p: Policy, call: nat -> Outcome<T>, jitter: nat -> int, k: nat, last: Option<Exception>)
    requires JitterInRange(jitter) && k < p.maxAttempts
    requires call(k).Ok? || !Catches(p.handler, call(k).exc)
    ensures RunFrom(p, call, jitter, k, last) == Run(call(k), 1, [])
  {
  }

  /** Past the last attempt, the run re-raises the last exception. */
  lemma RunFromEnd<T>(p: Policy, call: nat -> Outcome<T>, jitter: nat -> int, k: nat, last: Option<Exception>)
    requires JitterInRange(jitter) && k >= p.maxAttempts
    ensures RunFrom(p, call, jitter, k, last)
      == Run(if last.None? then Raised(Exception(TypeError, "exceptions must derive from BaseException")) else Raised(last.value), 0, [])
  {
  }

  /** One caught failure at attempt `k`: the rest of the run is the run from
      `k + 1`, after one pause unless `k` was the last attempt. */
  lemma RunFromCaught<T>(p: Policy, call: nat -> Outcome<T>, jitter: nat -> int, k: nat, last: Option<Exception>)
    requires JitterInRange(jitter) && k < p.maxAttempts
    requires call(k).Raised? && Catches(p.handler, call(k).exc)
    ensures var next := RunFrom(p, call, jitter, k + 1, Some(call(k).exc));
      var rest := RunFrom(p, call, jitter, k, last);
      && rest.result == next.result
      && rest.calls == 1 + next.calls
      && rest.sleeps == (if k < p.maxAttempts - 1 then [Delay(p, k, jitter(k))] else []) + next.sleeps
  {
  }

  /** Attempts `k..j-1` all raised a caught exception. */
  predicate CaughtUntil<T>(p: Policy, call: nat -> Outcome<T>, k: nat, j: nat) {
    forall i: nat :: k <= i < j ==> call(i).Raised? && Catches(p.handler, call(i).exc)
  }

  /** The function is invoked at most `max_attempts` times, and between
      consecutive invocations there is exactly one sleep, never after the
      last; with no attempts allowed the wrapper raises a TypeError. */
  lemma CallsBounded<T>(p: Policy, call: nat -> Outcome<T>, jitter: nat -> int)
    requires JitterInRange(jitter)
    ensures var r := Attempts(p, call, jitter);
      && (p.maxAttempts >= 1 ==> 1 <= r.calls <= p.maxAttempts && |r.sleeps| == r.calls - 1)
      && (p.maxAttempts <= 0 ==> r.calls == 0 && r.result.Raised? && r.result.exc.kind == TypeError)
  {
  }

  /** If attempts `k..j-1` raise caught exceptions and attempt `j` returns,
      that value is the result, after exactly `j - k + 1` calls. */
  lemma {:induction false} FirstSuccessReturned<T>(p: Policy, call: nat -> Outcome<T>, jitter: nat -> int, k: nat, j: nat, last: Option<Exception>)
    requires JitterInRange(jitter)
    requires k <= j < p.maxAttempts && CaughtUntil(p, call, k, j) && call(j).Ok?
    ensures var r := RunFrom(p, call, jitter, k, last); r.result == call(j) && r.calls == j - k + 1
    decreases j - k
  {
    if k < j {
      FirstSuccessReturned(p, call, jitter, k + 1, j, Some(call(k).exc));
    }
  }

  /** An exception the handler does not catch propagates from the attempt
      that raised it, with no further attempt. */
  lemma {:induction false} UncaughtPropagates<T>(p: Policy, call: nat -> Outcome<T>, jitter: nat -> int, k: nat, j: nat, last: Option<Exception>)
    requires JitterInRange(jitter)
    requires k <= j < p.maxAttempts && CaughtUntil(p, call, k, j)
    requires call(j).Raised? && !Catches(p.handler, call(j).exc)
    ensures var r := RunFrom(p, call, jitter, k, last); r.result == call(j) && r.calls == j - k + 1
    decreases j - k
  {
    if k < j {
      UncaughtPropagates(p, call, jitter, k + 1, j, Some(call(k).exc));
    }
  }

  /** When every attempt raises a caught exception, the last one is re-raised
      after `max_attempts` calls. */
  lemma {:induction false} LastExceptionReraised<T>(p: Policy, call: nat -> Outcome<T>, jitter: nat -> int, k: nat, last: Option<Exception>)
    requires JitterInRange(jitter)
    requires k < p.maxAttempts && CaughtUntil(p, call, k, p.maxAttempts)
    ensures var r := RunFrom(p, call, jitter, k, last);
      r.result == call(p.maxAttempts - 1) && r.calls == p.maxAttempts - k
    decreases p.maxAttempts - k
  {
    if k + 1 < p.maxAttempts {
      LastExceptionReraised(p, call, jitter, k + 1, Some(call(k).exc));
    }
  }

  /** The i-th sleep follows the failed attempt `k + i` and lasts
      `Delay(p, k + i, jitter(k + i))`: with exponential backoff at most
      `max_delay`, otherwise exactly `base_delay`. */
  lemma {:induction false} SleepsFollowPolicy<T>(p: Policy, call: nat -> Outcome<T>, jitter: nat -> int, k: nat, last: Option<Exception>)
    requires JitterInRange(jitter)
    ensures forall i :: 0 <= i < |RunFrom(p, call, jitter, k, last).sleeps| ==>
      RunFrom(p, call, jitter, k, last).sleeps[i] == Delay(p, k + i, jitter(k + i))
    decreases p.maxAttempts - k
  {
    if k < p.maxAttempts && call(k).Raised? && Catches(p.handler, call(k).exc) {
      var r := RunFrom(p, call, jitter, k, last);
      var rest := RunFrom(p, call, jitter, k + 1, Some(call(k).exc));
      SleepsFollowPolicy(p, call, jitter, k + 1, Some(call(k).exc));
      if k < p.maxAttempts - 1 {
        assert r.sleeps == [Delay(p, k, jitter(k))] + rest.sleeps;
        forall i | 0 <= i < |r.sleeps| ensures r.sleeps[i] == Delay(p, k + i, jitter(k + i)) {
          if i > 0 {
            assert r.sleeps[i] == rest.sleeps[i - 1];
            assert k + 1 + (i - 1) == k + i;
          }
        }
      } else {
        assert r.sleeps == rest.sleeps == [];
      }
    }
  }

  lemma SleepsBounded<T>(p: Policy, call: nat -> Outcome<T>, jitter: nat -> int)
    requires JitterInRange(jitter)
    ensures var r := Attempts(p, call, jitter);
      && (p.exponential ==> forall i :: 0 <= i < |r.sleeps| ==> r.sleeps[i] <= p.maxDelay)
      && (!p.exponential ==> forall i :: 0 <= i < |r.sleeps| ==> r.sleeps[i] == p.baseDelay)
  {
    var r := Attempts(p, call, jitter);
    SleepsFollowPolicy(p, call, jitter, 0, None);
    forall i | 0 <= i < |r.sleeps|
      ensures p.exponential ==> r.sleeps[i] <= p.maxDelay
      ensures !p.exponential ==> r.sleeps[i] == p.baseDelay
    {
      assert r.sleeps[i] == Delay(p, 0 + i, jitter(0 + i));
    }
  }

  /** Three attempts, two failures then a success: the success value after
      exactly three calls and two sleeps. */
  lemma FailTwiceThenSucceed<T>(call: nat -> Outcome<T>, jitter: nat -> int, v: T)
    requires JitterInRange(jitter)
    requires call(0).Raised? && call(1).Raised? && call(2) == Ok(v)
    ensures var r := Attempts(DefaultPolicy, call, jitter);
      r.result == Ok(v) && r.calls == 3 && |r.sleeps| == 2
      && 1000 <= r.sleeps[0] <= 2000 && 2000 <= r.sleeps[1] <= 3000
  {
    FirstSuccessReturned(DefaultPolicy, call, jitter, 0, 2, None);
    SleepsFollowPolicy(DefaultPolicy, call, jitter, 0, None);
    assert Pow2(1) == 2;
  }
}
