/** The reconnect storm guard over whole storms: closed form, bounds, persistence of the cooldown, and what
    entering it says about the failures before. */
module StormGuard {
  import opened Retry
  import opened Runtime
  import opened Wrappers

  datatype Failure = Failure(now: int, kind: string, draw: Draw)

  /** The store after failures recorded one after another, with no live connection between them. */
  function Storm(r: RuntimeState, failures: seq<Failure>, retry: RetryConfig): RuntimeState
    decreases |failures|
  {
    if failures == [] then r
    else
      var f := failures[|failures| - 1];
      RecordFailure(Storm(r, failures[..|failures| - 1], retry), f.now, retry, f.kind, f.draw)
  }

  function Power(n: nat): nat {
    if n == 0 then 1 else 2 * Power(n - 1)
  }

  /** A stored cooldown comes with a failure count at the threshold and a next attempt time. */
  ghost predicate StormOk(r: RuntimeState, guard: StormGuardConfig) {
    && r.storm.cooldownMs.Some? == r.storm.nextAttemptAt.Some?
    && (r.storm.cooldownMs.Some? ==> guard.threshold <= r.storm.failures)
    && (r.storm.cooldownMs.Some? ==> r.storm.cooldownMs.value <= guard.maxCooldownMs)
  }

  lemma RecordFailureKeepsStormOk(r: RuntimeState, f: Failure, retry: RetryConfig)
    requires StormOk(r, retry.guard)
    ensures StormOk(RecordFailure(r, f.now, retry, f.kind, f.draw), retry.guard)
  {
  }

  /** In cooldown a further failure answers with a cooldown, longer than the maximum never, and the next attempt
      lies that far ahead of the failure. */
  lemma CooldownPersists(r: RuntimeState, f: Failure, retry: RetryConfig)
    requires StormOk(r, retry.guard) && r.storm.cooldownMs.Some?
    ensures var next := RecordFailure(r, f.now, retry, f.kind, f.draw);
      && StormOk(next, retry.guard)
      && next.storm.cooldownMs.Some?
      && next.storm.cooldownMs.value <= retry.guard.maxCooldownMs
      && next.storm.nextAttemptAt == Some(f.now + Min(next.storm.cooldownMs.value, I64_MAX))
      && RecordedCooldown(r, f.now, retry, f.kind, f.draw)
         == Some(Cooldown(next.storm.failures, next.storm.cooldownMs.value, next.storm.nextAttemptAt.value,
                          Some(f.kind)))
  {
  }

  /** Every failure that answers with a cooldown, the first of a storm included, stores what it answers: a cooldown
      within the maximum, the next attempt that long after the failure, the count and the kind. One that does not
      answer leaves what is stored. */
  lemma AnswerIsStored(r: RuntimeState, f: Failure, retry: RetryConfig)
    ensures var next, answer := RecordFailure(r, f.now, retry, f.kind, f.draw),
      RecordedCooldown(r, f.now, retry, f.kind, f.draw);
      && (answer.Some? ==>
            && next.storm.cooldownMs == Some(answer.value.cooldownMs)
            && next.storm.nextAttemptAt == Some(answer.value.nextAttemptAt)
            && answer.value.cooldownMs <= retry.guard.maxCooldownMs
            && answer.value.nextAttemptAt == f.now + Min(answer.value.cooldownMs, I64_MAX)
            && answer.value.failures == next.storm.failures && answer.value.lastErrorKind == Some(f.kind))
      && (answer.None? ==>
            next.storm.cooldownMs == r.storm.cooldownMs && next.storm.nextAttemptAt == r.storm.nextAttemptAt)
      && (answer.Some? <==> retry.guard.threshold <= next.storm.failures)
      && next.storm.lastErrorKind == Some(f.kind)
  {
    hide Jitter;
  }

  /** Once in cooldown, every failure of the storm from then on answers with a cooldown no longer than the maximum,
      until a live connection clears it, whatever the draws. */
  lemma {:induction false} StormStaysInCooldown(r: RuntimeState, failures: seq<Failure>, retry: RetryConfig)
    requires StormOk(r, retry.guard) && r.storm.cooldownMs.Some?
    ensures StormOk(Storm(r, failures, retry), retry.guard) && Storm(r, failures, retry).storm.cooldownMs.Some?
    ensures forall k :: 0 <= k < |failures| ==> AnswersWithCooldown(Storm(r, failures[..k], retry), failures[k], retry)
    decreases |failures|
  {
    if failures != [] {
      var front, last := failures[..|failures| - 1], failures[|failures| - 1];
      StormStaysInCooldown(r, front, retry);
      CooldownPersists(Storm(r, front, retry), last, retry);
      hide RecordFailure, RecordedCooldown;
      forall k | 0 <= k < |failures| ensures AnswersWithCooldown(Storm(r, failures[..k], retry), failures[k], retry) {
        if k < |front| {
          assert front[..k] == failures[..k] && front[k] == failures[k];
        }
      }
    }
  }

  /** The failure returns a cooldown within the maximum, and stores it. */
  ghost predicate AnswersWithCooldown(r: RuntimeState, f: Failure, retry: RetryConfig) {
    var answer := RecordedCooldown(r, f.now, retry, f.kind, f.draw);
    && answer.Some? && answer.value.cooldownMs <= retry.guard.maxCooldownMs
    && answer == CurrentCooldown(RecordFailure(r, f.now, retry, f.kind, f.draw).storm)
  }

  /** Without jitter the n-th cooldown of a storm, from 0, is the configured one doubled n times and capped,
      although the doubling saturates. */
  lemma {:induction false} CooldownClosedForm(r: RuntimeState, failures: seq<Failure>, retry: RetryConfig)
    requires StormOk(r, retry.guard) && r.storm.cooldownMs.None?
    requires retry.jitterRatio <= 0.0
    requires failures != [] && Storm(r, failures[..1], retry).storm.cooldownMs.Some?
    ensures StormOk(Storm(r, failures, retry), retry.guard)
    ensures Storm(r, failures, retry).storm.cooldownMs
         == Some(Min(retry.guard.cooldownMs * Power(|failures| - 1), retry.guard.maxCooldownMs))
    decreases |failures|
  {
    var n := |failures| - 1;
    var before := Storm(r, failures[..n], retry);
    var f := failures[n];
    if n == 0 {
      assert failures[..1] == failures;
      assert failures[..0] == [];
      assert Power(0) == 1;
      JitterIsIdentityWithoutRatio(BaseCooldown(r.storm, retry.guard), retry.jitterRatio, f.draw);
    } else {
      assert failures[..n][..1] == failures[..1];
      CooldownClosedForm(r, failures[..n], retry);
      CooldownPersists(before, f, retry);
      JitterIsIdentityWithoutRatio(BaseCooldown(before.storm, retry.guard), retry.jitterRatio, f.draw);
      CappedDoubling(retry.guard.cooldownMs * Power(n - 1), retry.guard.maxCooldownMs);
      assert retry.guard.cooldownMs * Power(n) == 2 * (retry.guard.cooldownMs * Power(n - 1)) by {
        DoubleProduct(retry.guard.cooldownMs, Power(n - 1));
      }
    }
  }

  lemma CappedDoubling(x: nat, cap: U64)
    ensures Min(SaturatingDouble(Min(x, cap)), cap) == Min(2 * x, cap)
  {
  }

  lemma DoubleProduct(c: nat, p: nat)
    ensures c * (2 * p) == 2 * (c * p)
  {
  }

  // ----- Growth of the base -----

  /** The failure reaches the threshold, and so stores a cooldown. */
  predicate Reaches(r: RuntimeState, now: int, kind: string, retry: RetryConfig) {
    retry.guard.threshold <= CountFailure(r, now, retry.guard, kind).storm.failures
  }

  /** The next base falls below this one exactly when jitter takes away more than half of it. */
  lemma BaseFollowsDelay(r: RuntimeState, now: int, kind: string, retry: RetryConfig, draw: Draw)
    requires Reaches(r, now, kind, retry)
    ensures var base := BaseCooldown(r.storm, retry.guard);
      base <= BaseCooldown(RecordFailure(r, now, retry, kind, draw).storm, retry.guard)
      <==> base <= 2 * Jitter(base, retry.jitterRatio, draw)
  {
    hide Jitter;
  }

  /** The base never shrinks, whatever the draw: exactly when there is no jitter, or the spread is at most half
      the base and the sum of base and spread fits an `i64`. */
  lemma BaseNeverShrinks(r: RuntimeState, now: int, kind: string, retry: RetryConfig)
    requires Reaches(r, now, kind, retry)
    ensures (forall draw: Draw ::
        BaseCooldown(r.storm, retry.guard) <= BaseCooldown(RecordFailure(r, now, retry, kind, draw).storm, retry.guard))
      <==> KeepsHalf(BaseCooldown(r.storm, retry.guard), retry.jitterRatio)
  {
    var base := BaseCooldown(r.storm, retry.guard);
    JitterKeepsHalfIff(base, retry.jitterRatio);
    forall draw: Draw
      ensures base <= BaseCooldown(RecordFailure(r, now, retry, kind, draw).storm, retry.guard)
        <==> base <= 2 * Jitter(base, retry.jitterRatio, draw)
    {
      BaseFollowsDelay(r, now, kind, retry, draw);
    }
  }

  /** At the default jitter ratio only the sum can be too large. */
  lemma BaseNeverShrinksByDefault(r: RuntimeState, now: int, kind: string, retry: RetryConfig)
    requires Reaches(r, now, kind, retry) && retry.jitterRatio == 0.2
    ensures (forall draw: Draw ::
        BaseCooldown(r.storm, retry.guard) <= BaseCooldown(RecordFailure(r, now, retry, kind, draw).storm, retry.guard))
      <==> BaseCooldown(r.storm, retry.guard) + Spread(BaseCooldown(r.storm, retry.guard), 0.2) <= I64_MAX
  {
    DefaultSpreadIsAtMostHalf(BaseCooldown(r.storm, retry.guard));
    BaseNeverShrinks(r, now, kind, retry);
    hide Jitter, RecordFailure;
  }

  /** Where every base up to the maximum keeps half, the base grows through the whole storm. */
  lemma {:induction false} BaseGrowsThroughStorm(r: RuntimeState, failures: seq<Failure>, retry: RetryConfig)
    requires StormOk(r, retry.guard) && r.storm.cooldownMs.Some?
    requires forall base: U64 :: base <= retry.guard.maxCooldownMs ==> KeepsHalf(base, retry.jitterRatio)
    ensures forall k :: 0 <= k <= |failures| ==>
      BaseCooldown(Storm(r, failures[..k], retry).storm, retry.guard)
      <= BaseCooldown(Storm(r, failures, retry).storm, retry.guard)
    decreases |failures|
  {
    hide RecordFailure, BaseCooldown, KeepsHalf;
    if failures == [] {
      assert failures[..0] == failures;
    } else {
      var front, last := failures[..|failures| - 1], failures[|failures| - 1];
      BaseGrowsThroughStorm(r, front, retry);
      StormStaysInCooldown(r, front, retry);
      BaseIsCapped(Storm(r, front, retry).storm, retry.guard);
      BaseGrowsByOne(Storm(r, front, retry), last, retry);
      forall k | 0 <= k <= |failures|
        ensures BaseCooldown(Storm(r, failures[..k], retry).storm, retry.guard)
          <= BaseCooldown(Storm(r, failures, retry).storm, retry.guard)
      {
        if k < |failures| {
          assert front[..k] == failures[..k];
        } else {
          assert failures[..k] == failures;
        }
      }
    }
  }

  lemma BaseIsCapped(storm: StormState, guard: StormGuardConfig)
    ensures BaseCooldown(storm, guard) <= guard.maxCooldownMs
  {
  }

  lemma BaseGrowsByOne(r: RuntimeState, f: Failure, retry: RetryConfig)
    requires StormOk(r, retry.guard) && r.storm.cooldownMs.Some?
    requires KeepsHalf(BaseCooldown(r.storm, retry.guard), retry.jitterRatio)
    ensures BaseCooldown(r.storm, retry.guard)
      <= BaseCooldown(RecordFailure(r, f.now, retry, f.kind, f.draw).storm, retry.guard)
  {
    BaseNeverShrinks(r, f.now, f.kind, retry);
    hide KeepsHalf, RecordFailure, BaseCooldown;
  }

  /** A base beyond the largest `i64` wraps: with any jitter at all the middle draw turns it into a cooldown of
      nothing. */
  lemma WrappedBaseShrinks(r: RuntimeState, now: int, kind: string, retry: RetryConfig)
    requires Reaches(r, now, kind, retry) && 0.0 < retry.jitterRatio
    requires I64_MAX < BaseCooldown(r.storm, retry.guard)
    ensures var next := RecordFailure(r, now, retry, kind, 0.5);
      next.storm.cooldownMs == Some(0) && BaseCooldown(next.storm, retry.guard) == 0
    ensures !KeepsHalf(BaseCooldown(r.storm, retry.guard), retry.jitterRatio)
  {
    WrappedBaseIsLost(BaseCooldown(r.storm, retry.guard), retry.jitterRatio);
    JitterKeepsHalfIff(BaseCooldown(r.storm, retry.guard), retry.jitterRatio);
    hide Jitter, KeepsHalf;
  }

  // ----- One process life -----

  datatype Happening = Failed(failure: Failure) | WentLive

  function Live(r: RuntimeState, log: seq<Happening>, retry: RetryConfig): RuntimeState
    decreases |log|
  {
    if log == [] then r
    else
      var before := Live(r, log[..|log| - 1], retry);
      match log[|log| - 1]
      case WentLive => ClearStorm(before)
      case Failed(f) => RecordFailure(before, f.now, retry, f.kind, f.draw)
  }

  /** The times of the failures since the last live connection. */
  function SinceLive(log: seq<Happening>): seq<int>
    decreases |log|
  {
    if log == [] || log[|log| - 1].WentLive? then []
    else SinceLive(log[..|log| - 1]) + [log[|log| - 1].failure.now]
  }

  ghost predicate NonDecreasing(s: seq<int>) {
    forall i, j :: 0 <= i < j < |s| ==> s[i] <= s[j]
  }

  ghost predicate Within(s: seq<int>, span: int) {
    forall i, j :: 0 <= i < |s| && 0 <= j < |s| ==> s[j] - s[i] <= span
  }

  /** While no cooldown is stored, the count is that of the failures since the window opened. */
  ghost predicate CountsTheWindow(r: RuntimeState, times: seq<int>, guard: StormGuardConfig) {
    && r.storm.failures <= |times|
    && (r.storm.failures > 0 ==> r.windowStart == Some(times[|times| - r.storm.failures]))
    && (r.storm.failures > 0 ==> times[|times| - 1] - times[|times| - r.storm.failures] <= guard.failureWindowMs)
  }

  /** The count starts anew with the life, or with the live connection that ends a cooldown: none is stored, or a
      cooldown is. */
  lemma {:induction false} CountsTheWindowAlways(r: RuntimeState, log: seq<Happening>, retry: RetryConfig)
    requires r.storm.cooldownMs.Some? || Uncounted(r)
    requires NonDecreasing(SinceLive(log))
    ensures StormOk(r, retry.guard) ==> StormOk(Live(r, log, retry), retry.guard)
    ensures Live(r, log, retry).storm.cooldownMs.None? ==>
      CountsTheWindow(Live(r, log, retry), SinceLive(log), retry.guard)
    decreases |log|
  {
    hide Jitter;
    if log != [] && log[|log| - 1].Failed? {
      var front := log[..|log| - 1];
      var times := SinceLive(front);
      assert SinceLive(log)[..|times|] == times;
      PrefixNonDecreasing(SinceLive(log), |times|);
      CountsTheWindowAlways(r, front, retry);
      if StormOk(r, retry.guard) {
        RecordFailureKeepsStormOk(Live(r, front, retry), log[|log| - 1].failure, retry);
      }
    }
  }

  /** No failure is counted, no window open and no cooldown stored. */
  ghost predicate Uncounted(r: RuntimeState) {
    r.storm.failures == 0 && r.windowStart.None? && r.storm.cooldownMs.None?
  }

  /** The last thing that happened is a failure that enters a cooldown. */
  ghost predicate Enters(r: RuntimeState, log: seq<Happening>, retry: RetryConfig) {
    && log != [] && log[|log| - 1].Failed?
    && Live(r, log[..|log| - 1], retry).storm.cooldownMs.None?
    && Live(r, log, retry).storm.cooldownMs.Some?
  }

  /** The last `threshold` failures since the last live connection lie within the failure window of each other. */
  ghost predicate RestsOnCloseFailures(log: seq<Happening>, guard: StormGuardConfig) {
    && guard.threshold <= |SinceLive(log)|
    && Within(SinceLive(log)[|SinceLive(log)| - guard.threshold..], guard.failureWindowMs)
  }

  /** From a store without failures, or one in a cooldown, a failure that enters a cooldown is the last of at least
      `threshold` failures since the last live connection, all within the failure window of each other. */
  lemma CooldownIsJustified(r: RuntimeState, log: seq<Happening>, retry: RetryConfig)
    requires r.storm.cooldownMs.Some? || Uncounted(r)
    requires NonDecreasing(SinceLive(log))
    requires Enters(r, log, retry)
    ensures RestsOnCloseFailures(log, retry.guard)
  {
    hide RecordFailure, CountsTheWindow, Uncounted, Within, Live, SinceLive, NonDecreasing, StormOk;
    var front, f := log[..|log| - 1], log[|log| - 1].failure;
    var times := SinceLive(front);
    LastFailure(r, log, retry);
    assert (times + [f.now])[..|times|] == times;
    PrefixNonDecreasing(times + [f.now], |times|);
    CountsTheWindowAlways(r, front, retry);
    EnteringIsJustified(Live(r, front, retry), f, times, retry);
  }

  lemma LastFailure(r: RuntimeState, log: seq<Happening>, retry: RetryConfig)
    requires log != [] && log[|log| - 1].Failed?
    ensures var f := log[|log| - 1].failure;
      && SinceLive(log) == SinceLive(log[..|log| - 1]) + [f.now]
      && Live(r, log, retry) == RecordFailure(Live(r, log[..|log| - 1], retry), f.now, retry, f.kind, f.draw)
  {
    hide RecordFailure;
  }

  function FailuresOf(times: seq<int>, kind: string, draw: Draw): seq<Happening> {
    if times == [] then []
    else FailuresOf(times[..|times| - 1], kind, draw) + [Failed(Failure(times[|times| - 1], kind, draw))]
  }

  lemma {:induction false} FailuresOfOne(times: seq<int>, kind: string, draw: Draw)
    ensures |FailuresOf(times, kind, draw)| == |times|
    decreases |times|
  {
    if times != [] {
      FailuresOfOne(times[..|times| - 1], kind, draw);
    }
  }

  /** From a store without failures, failures within the window of the first are all counted: the count reaches the
      threshold, and a cooldown is entered, exactly with the threshold-th of them. */
  lemma {:induction false} CloseFailuresEnter(r: RuntimeState, times: seq<int>, kind: string, draw: Draw,
                                              retry: RetryConfig)
    requires Uncounted(r) && times != [] && |times| <= U32_MAX
    requires forall t <- times :: t - times[0] <= AsI64(retry.guard.failureWindowMs)
    requires 0 < |times| <= retry.guard.threshold
    ensures var next := Live(r, FailuresOf(times, kind, draw), retry);
      && next.storm.failures == |times| && next.windowStart == Some(times[0])
      && (next.storm.cooldownMs.Some? <==> |times| == retry.guard.threshold)
    decreases |times|
  {
    hide Jitter, AsI64;
    var n := |times| - 1;
    var front := times[..n];
    FailuresOfOne(front, kind, draw);
    assert FailuresOf(times, kind, draw)[..n] == FailuresOf(front, kind, draw);
    if n > 0 {
      assert times[n] in times && front[0] == times[0];
      forall t | t in front ensures t in times {}
      CloseFailuresEnter(r, front, kind, draw, retry);
    } else {
      assert FailuresOf(front, kind, draw) == [];
      assert times[0] in times;
    }
  }

  lemma PrefixNonDecreasing(s: seq<int>, n: nat)
    requires n <= |s| && NonDecreasing(s)
    ensures NonDecreasing(s[..n])
  {
    forall i, j | 0 <= i < j < n ensures s[..n][i] <= s[..n][j] {
      assert s[i] <= s[j];
    }
  }

  lemma EnteringIsJustified(r: RuntimeState, f: Failure, times: seq<int>, retry: RetryConfig)
    requires r.storm.cooldownMs.None? && CountsTheWindow(r, times, retry.guard)
    requires NonDecreasing(times + [f.now])
    requires RecordFailure(r, f.now, retry, f.kind, f.draw).storm.cooldownMs.Some?
    ensures retry.guard.threshold <= |times| + 1
    ensures Within((times + [f.now])[|times| + 1 - retry.guard.threshold..], retry.guard.failureWindowMs)
  {
    var all := times + [f.now];
    var first := |all| - retry.guard.threshold;
    if !WindowLapsed(r, f.now, retry.guard) && first < |all| {
      assert all[|times| - r.storm.failures] <= all[first];
    }
    if first < |all| {
      WithinFromEnds(all, first, retry.guard.failureWindowMs);
    }
  }

  lemma WithinFromEnds(s: seq<int>, first: nat, span: int)
    requires first < |s| && NonDecreasing(s) && s[|s| - 1] - s[first] <= span
    ensures Within(s[first..], span)
  {
    var rest := s[first..];
    forall i, j | 0 <= i < |rest| && 0 <= j < |rest| ensures rest[j] - rest[i] <= span {
      assert s[first] <= s[first + i] && s[first + j] <= s[|s| - 1];
    }
  }
}
