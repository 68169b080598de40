/** Retry strategies and the loop that applies them. Durations are real
    numbers of seconds; what the attempts return is given in advance. */
module Retry {
  import opened RpcCore

  type Duration = real

  /** Strategies are asked after one failure or more. */
  type Failures = n: int | 1 <= n witness 1

  type RetryIndicator = (Failures, Status) -> bool
  type RetryDelayCalculator = Failures -> Duration
  type RetryStrategy = (Failures, Status) -> Option<Duration>

  function CreateRetryStrategy(indicator: RetryIndicator, delay: RetryDelayCalculator): RetryStrategy {
    (failed: Failures, status: Status) => if indicator(failed, status) then Some(delay(failed)) else None
  }

  function CreateLimitedRetryIndicator(maxAttempts: int): RetryIndicator {
    (failed: Failures, status: Status) => failed < maxAttempts
  }

  function CreateUnlimitedRetryIndicator(unrecoverable: set<nat>): RetryIndicator {
    (failed: Failures, status: Status) => status.code !in unrecoverable
  }

  function Power(b: real, e: nat): real {
    if e == 0 then 1.0 else b * Power(b, e - 1)
  }

  function CreateBackoffDelayCalculator(minDelay: Duration, factor: real): RetryDelayCalculator {
    (failed: Failures) => Power(factor, failed - 1) * minDelay
  }

  function CreateConstantDelayCalculator(delay: Duration): RetryDelayCalculator {
    (failed: Failures) => delay
  }

  function CreateLimitedBackoffStrategy(minDelay: Duration, factor: real, maxAttempts: int): RetryStrategy {
    CreateRetryStrategy(CreateLimitedRetryIndicator(maxAttempts), CreateBackoffDelayCalculator(minDelay, factor))
  }

  function CreateUnlimitedConstantDelayStrategy(delay: Duration, unrecoverable: set<nat>): RetryStrategy {
    CreateRetryStrategy(CreateUnlimitedRetryIndicator(unrecoverable), CreateConstantDelayCalculator(delay))
  }

  // ---------------------------------------------------------------------
  // What a retried operation amounts to

  /** The results of attempt 0, 1, 2, ... should they be made. */
  type Script = nat -> Status

  /** There is no strategy, or it refuses to go on after attempt `i` failed. */
  predicate GivesUp(strategy: Option<RetryStrategy>, script: Script, i: nat) {
    strategy.None? || strategy.value(i + 1, script(i)).None?
  }

  /** Attempt `i` is the last one if it is made. */
  predicate Stops(strategy: Option<RetryStrategy>, script: Script, i: nat) {
    script(i).Ok() || GivesUp(strategy, script, i)
  }

  /** None of the first `n` attempts is the last one. */
  predicate GoesOn(strategy: Option<RetryStrategy>, script: Script, n: nat) {
    forall i :: 0 <= i < n ==> !Stops(strategy, script, i)
  }

  predicate FirstStop(strategy: Option<RetryStrategy>, script: Script, n: nat) {
    Stops(strategy, script, n) && GoesOn(strategy, script, n)
  }

  /** Some attempt succeeds and a retry was allowed after each one before it. */
  ghost predicate Succeeds(strategy: Option<RetryStrategy>, script: Script) {
    exists k: nat :: SucceedsAt(strategy, script, k)
  }

  predicate SucceedsAt(strategy: Option<RetryStrategy>, script: Script, k: nat) {
    script(k).Ok() && forall i :: 0 <= i < k ==> !GivesUp(strategy, script, i)
  }

  lemma {:induction false} FirstSuccess(strategy: Option<RetryStrategy>, script: Script, k: nat) returns (m: nat)
    requires SucceedsAt(strategy, script, k)
    ensures FirstStop(strategy, script, m) && script(m).Ok()
    decreases k
  {
    if i: nat :| i < k && script(i).Ok() {
      m := FirstSuccess(strategy, script, i);
    } else {
      m := k;
    }
  }

  lemma StopIsUnique(strategy: Option<RetryStrategy>, script: Script, m: nat, n: nat)
    requires FirstStop(strategy, script, m) && FirstStop(strategy, script, n)
    ensures m == n
  {}

  /** The last attempt succeeds exactly when success was reachable. */
  lemma LastAttemptDecides(strategy: Option<RetryStrategy>, script: Script, n: nat)
    requires FirstStop(strategy, script, n)
    ensures script(n).Ok() <==> Succeeds(strategy, script)
  {
    if script(n).Ok() {
      forall i | 0 <= i < n ensures !GivesUp(strategy, script, i) {
        assert !Stops(strategy, script, i);
      }
      assert SucceedsAt(strategy, script, n);
    }
    if Succeeds(strategy, script) {
      var k: nat :| SucceedsAt(strategy, script, k);
      var m := FirstSuccess(strategy, script, k);
      StopIsUnique(strategy, script, m, n);
    }
  }

  /** The delays between the first n + 1 attempts. */
  function Delays(strategy: Option<RetryStrategy>, script: Script, n: nat): (delays: seq<Duration>)
    requires GoesOn(strategy, script, n)
    ensures |delays| == n
  {
    seq(n, i requires 0 <= i < n && !Stops(strategy, script, i) => strategy.value(i + 1, script(i)).value)
  }

  function Sum(delays: seq<Duration>): Duration {
    if delays == [] then 0.0 else Sum(delays[..|delays| - 1]) + delays[|delays| - 1]
  }

  // ---------------------------------------------------------------------
  // Limited backoff

  function Attempts(maxAttempts: int): nat {
    if maxAttempts > 1 then maxAttempts else 1
  }

  /** It never loops forever: at most max(1, max_attempts) attempts are made,
      and exactly so many if all of them fail. */
  lemma LimitedAttempts(minDelay: Duration, factor: real, maxAttempts: int, script: Script) returns (n: nat)
    ensures FirstStop(Some(CreateLimitedBackoffStrategy(minDelay, factor, maxAttempts)), script, n)
    ensures n < Attempts(maxAttempts)
    ensures (forall i: nat :: i < Attempts(maxAttempts) ==> !script(i).Ok()) ==> n + 1 == Attempts(maxAttempts)
  {
    var strategy := CreateLimitedBackoffStrategy(minDelay, factor, maxAttempts);
    assert Stops(Some(strategy), script, Attempts(maxAttempts) - 1);
    n := LeastStop(Some(strategy), script, Attempts(maxAttempts) - 1);
  }

  lemma {:induction false} LeastStop(strategy: Option<RetryStrategy>, script: Script, k: nat) returns (n: nat)
    requires Stops(strategy, script, k)
    ensures FirstStop(strategy, script, n) && n <= k
    decreases k
  {
    if i: nat :| i < k && Stops(strategy, script, i) {
      n := LeastStop(strategy, script, i);
    } else {
      n := k;
    }
  }

  /** With limited backoff the call succeeds if and only if one of the allowed
      attempts does. */
  lemma LimitedSucceedsIff(minDelay: Duration, factor: real, maxAttempts: int, script: Script)
    ensures Succeeds(Some(CreateLimitedBackoffStrategy(minDelay, factor, maxAttempts)), script) <==>
      exists k: nat :: k < Attempts(maxAttempts) && script(k).Ok()
  {
    var strategy := Some(CreateLimitedBackoffStrategy(minDelay, factor, maxAttempts));
    if k: nat :| k < Attempts(maxAttempts) && script(k).Ok() {
      assert SucceedsAt(strategy, script, k);
    }
    if Succeeds(strategy, script) {
      var k: nat :| SucceedsAt(strategy, script, k);
      assert k > 0 ==> !GivesUp(strategy, script, k - 1);
    }
  }

  /** `total` is min * (p - 1) / (b - 1), without the division. */
  predicate Geometric(total: Duration, p: real, minDelay: Duration, factor: real) {
    total * (factor - 1.0) == minDelay * (p - 1.0)
  }

  lemma AddTerm(total: Duration, p: real, total': Duration, p': real, minDelay: Duration, factor: real)
    requires Geometric(total, p, minDelay, factor) && total' == total + p * minDelay && p' == factor * p
    ensures Geometric(total', p', minDelay, factor)
  {
    var term := p * minDelay;
    assert (total + term) * (factor - 1.0) == total * (factor - 1.0) + term * (factor - 1.0);
    assert term * factor == minDelay * (factor * p);
  }

  predicate IsBackoff(delays: seq<Duration>, minDelay: Duration, factor: real) {
    forall i :: 0 <= i < |delays| ==> delays[i] == Power(factor, i) * minDelay
  }

  lemma {:induction false} GeometricSum(minDelay: Duration, factor: real, delays: seq<Duration>)
    requires IsBackoff(delays, minDelay, factor)
    ensures Geometric(Sum(delays), Power(factor, |delays|), minDelay, factor)
    decreases |delays|
  {
    if delays != [] {
      var n := |delays| - 1;
      GeometricSum(minDelay, factor, delays[..n]);
      AddTerm(Sum(delays[..n]), Power(factor, n), Sum(delays), Power(factor, |delays|), minDelay, factor);
    }
  }

  lemma {:induction false} ConstantSum(delay: Duration, delays: seq<Duration>)
    requires forall i :: 0 <= i < |delays| ==> delays[i] == delay
    ensures Sum(delays) == delay * |delays| as real
    decreases |delays|
  {
    if delays != [] {
      var n := |delays| - 1;
      ConstantSum(delay, delays[..n]);
      assert delay * (n as real + 1.0) == delay * n as real + delay;
    }
  }

  lemma {:induction false} PowerOfOne(e: nat)
    ensures Power(1.0, e) == 1.0
  {
    if e > 0 { PowerOfOne(e - 1); }
  }

  /** An operation that always fails waits, over its max(1, max_attempts) = n
      attempts, for min * (b^(n-1) - 1) / (b - 1) in all, or min * (n - 1) if
      the factor is 1. */
  lemma TotalBackoff(minDelay: Duration, factor: real, maxAttempts: int, script: Script, n: nat)
    requires FirstStop(Some(CreateLimitedBackoffStrategy(minDelay, factor, maxAttempts)), script, n)
    requires forall i: nat :: !script(i).Ok()
    ensures n + 1 == Attempts(maxAttempts)
    ensures var total := Sum(Delays(Some(CreateLimitedBackoffStrategy(minDelay, factor, maxAttempts)), script, n));
      if factor == 1.0 then total == minDelay * n as real
      else total == Closed(Power(factor, n), minDelay, factor)
  {
    var strategy := Some(CreateLimitedBackoffStrategy(minDelay, factor, maxAttempts));
    var m := LimitedAttempts(minDelay, factor, maxAttempts, script);
    StopIsUnique(strategy, script, m, n);
    BackoffDelays(minDelay, factor, maxAttempts, script, n);
    BackoffSum(minDelay, factor, Delays(strategy, script, n));
  }

  lemma BackoffDelays(minDelay: Duration, factor: real, maxAttempts: int, script: Script, n: nat)
    requires GoesOn(Some(CreateLimitedBackoffStrategy(minDelay, factor, maxAttempts)), script, n)
    ensures IsBackoff(Delays(Some(CreateLimitedBackoffStrategy(minDelay, factor, maxAttempts)), script, n),
                      minDelay, factor)
  {
    var strategy := CreateLimitedBackoffStrategy(minDelay, factor, maxAttempts);
    var delays := Delays(Some(strategy), script, n);
    forall i | 0 <= i < n ensures delays[i] == Power(factor, i) * minDelay {
      assert !Stops(Some(strategy), script, i);
      assert strategy(i + 1, script(i)) == Some(CreateBackoffDelayCalculator(minDelay, factor)(i + 1));
    }
  }

  lemma BackoffSum(minDelay: Duration, factor: real, delays: seq<Duration>)
    requires IsBackoff(delays, minDelay, factor)
    ensures if factor == 1.0 then Sum(delays) == minDelay * |delays| as real
      else Sum(delays) == Closed(Power(factor, |delays|), minDelay, factor)
  {
    if factor == 1.0 {
      forall i: nat | i < |delays| ensures delays[i] == minDelay { PowerOfOne(i); }
      ConstantSum(minDelay, delays);
    } else {
      GeometricSum(minDelay, factor, delays);
      Divide(Sum(delays), Power(factor, |delays|), minDelay, factor);
    }
  }

  function Closed(p: real, minDelay: Duration, factor: real): Duration
    requires factor != 1.0
  {
    minDelay * (p - 1.0) / (factor - 1.0)
  }

  lemma Divide(total: Duration, p: real, minDelay: Duration, factor: real)
    requires Geometric(total, p, minDelay, factor) && factor != 1.0
    ensures total == Closed(p, minDelay, factor)
  {
    Quotient(total, factor - 1.0, minDelay * (p - 1.0));
  }

  lemma Quotient(x: real, y: real, z: real)
    requires x * y == z && y != 0.0
    ensures x == z / y
  {}

  /** With a constant delay the thread sleeps for that long between any two attempts. */
  lemma ConstantDelays(delay: Duration, unrecoverable: set<nat>, script: Script, n: nat)
    requires GoesOn(Some(CreateUnlimitedConstantDelayStrategy(delay, unrecoverable)), script, n)
    ensures var delays := Delays(Some(CreateUnlimitedConstantDelayStrategy(delay, unrecoverable)), script, n);
      |delays| == n && (forall i :: 0 <= i < n ==> delays[i] == delay) && Sum(delays) == delay * n as real
  {
    var strategy := CreateUnlimitedConstantDelayStrategy(delay, unrecoverable);
    var delays := Delays(Some(strategy), script, n);
    forall i | 0 <= i < n ensures delays[i] == delay {
      assert !Stops(Some(strategy), script, i);
      assert strategy(i + 1, script(i)) == Some(CreateConstantDelayCalculator(delay)(i + 1));
    }
    ConstantSum(delay, delays);
  }

  /** It goes on exactly as long as the attempts fail with other codes than these. */
  lemma UnlimitedGoesOnIff(delay: Duration, unrecoverable: set<nat>, script: Script, n: nat)
    ensures GoesOn(Some(CreateUnlimitedConstantDelayStrategy(delay, unrecoverable)), script, n) <==>
      forall i: nat :: i < n ==> script(i).code != 0 && script(i).code !in unrecoverable
  {
    var strategy := Some(CreateUnlimitedConstantDelayStrategy(delay, unrecoverable));
    forall i: nat | i < n
      ensures Stops(strategy, script, i) <==> script(i).code == 0 || script(i).code in unrecoverable
    {}
  }

  /** With unrecoverable codes a call succeeds if and only if a success comes
      before the first failure with such a code. */
  lemma UnrecoverableIff(delay: Duration, unrecoverable: set<nat>, script: Script)
    ensures Succeeds(Some(CreateUnlimitedConstantDelayStrategy(delay, unrecoverable)), script) <==>
      exists k: nat :: script(k).Ok() && forall i: nat :: i < k ==> script(i).code !in unrecoverable
  {
    var strategy := Some(CreateUnlimitedConstantDelayStrategy(delay, unrecoverable));
    if k: nat :| script(k).Ok() && forall i: nat :: i < k ==> script(i).code !in unrecoverable {
      assert SucceedsAt(strategy, script, k);
    }
    if Succeeds(strategy, script) {
      var k: nat :| SucceedsAt(strategy, script, k);
      forall i: nat | i < k ensures script(i).code !in unrecoverable {
        assert !GivesUp(strategy, script, i);
      }
    }
  }
}
