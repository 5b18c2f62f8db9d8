/** A process life that starts from a runtime file: when the cooldowns it enters rest on failures close together. */
module StormRestart {
  import DedupeWindow
  import opened Retry
  import opened Runtime
  import opened StormGuard
  import opened Wrappers

  /** The latest failure of a log, or the time its life began. */
  function Latest(log: seq<Happening>, from: int): int
    decreases |log|
  {
    if log == [] then from
    else if log[|log| - 1].Failed? then log[|log| - 1].failure.now
    else Latest(log[..|log| - 1], from)
  }

  /** Time does not run backwards, from the load on. */
  ghost predicate Clocked(log: seq<Happening>, from: int)
    decreases |log|
  {
    log == [] ||
    (&& Clocked(log[..|log| - 1], from)
     && (log[|log| - 1].Failed? ==> Latest(log[..|log| - 1], from) <= log[|log| - 1].failure.now))
  }

  lemma LaterIsNonDecreasing(times: seq<int>, now: int, latest: int)
    requires NonDecreasing(times) && (times != [] ==> times[|times| - 1] <= latest) && latest <= now
    ensures NonDecreasing(times + [now])
  {
    forall i | 0 <= i < |times| ensures times[i] <= now {
      assert i < |times| - 1 ==> times[i] <= times[|times| - 1];
    }
  }

  lemma NothingIsNonDecreasing()
    ensures NonDecreasing([])
  {
  }

  lemma {:induction false} ClockedIsNonDecreasing(log: seq<Happening>, from: int)
    requires Clocked(log, from)
    ensures NonDecreasing(SinceLive(log))
    ensures SinceLive(log) != [] ==> SinceLive(log)[|SinceLive(log)| - 1] == Latest(log, from)
    decreases |log|
  {
    hide NonDecreasing;
    assert NonDecreasing([]) by {
      NothingIsNonDecreasing();
    }
    if log != [] {
      var front := log[..|log| - 1];
      ClockedIsNonDecreasing(front, from);
      if log[|log| - 1].Failed? {
        LaterIsNonDecreasing(SinceLive(front), log[|log| - 1].failure.now, Latest(front, from));
      }
    }
  }

  ghost predicate CooldownsRest(r: RuntimeState, from: int, retry: RetryConfig) {
    forall log :: Clocked(log, from) && Enters(r, log, retry) ==> RestsOnCloseFailures(log, retry.guard)
  }

  /** The failures at the very load that complete a count of `count`. */
  function Completing(count: nat, threshold: nat, now: int): seq<Happening> {
    Repeated(if count < threshold then threshold - count else 1, now)
  }

  function Repeated(n: nat, now: int): seq<Happening>
    ensures |Repeated(n, now)| == n
  {
    if n == 0 then [] else Repeated(n - 1, now) + [Failed(Failure(now, "timeout", 0.0))]
  }

  lemma {:induction false} RepeatedIsClocked(n: nat, now: int)
    ensures Clocked(Repeated(n, now), now) && Latest(Repeated(n, now), now) == now
    ensures |SinceLive(Repeated(n, now))| == n
  {
    if n > 0 {
      assert Repeated(n, now)[..n - 1] == Repeated(n - 1, now);
      RepeatedIsClocked(n - 1, now);
    }
  }

  /** A failure at the time the window opened adds one to the count. */
  lemma OneMoreCounts(r: RuntimeState, now: int, retry: RetryConfig)
    requires r.storm.cooldownMs.None? && r.windowStart == Some(now)
    requires retry.guard.failureWindowMs <= I64_MAX && r.storm.failures < U32_MAX
    ensures var next := RecordFailure(r, now, retry, "timeout", 0.0);
      if r.storm.failures + 1 < retry.guard.threshold then
        next.storm.cooldownMs.None? && next.windowStart == Some(now) && next.storm.failures == r.storm.failures + 1
      else next.storm.cooldownMs.Some?
  {
    hide Jitter;
  }

  lemma {:induction false} RepeatedCounts(r: RuntimeState, n: nat, now: int, retry: RetryConfig)
    requires r.storm.cooldownMs.None? && r.windowStart == Some(now)
    requires retry.guard.failureWindowMs <= I64_MAX && (n > 0 ==> r.storm.failures + n < retry.guard.threshold)
    ensures var next := Live(r, Repeated(n, now), retry);
      next.storm.cooldownMs.None? && next.windowStart == Some(now) && next.storm.failures == r.storm.failures + n
  {
    hide RecordFailure;
    if n > 0 {
      assert Repeated(n, now)[..n - 1] == Repeated(n - 1, now);
      RepeatedCounts(r, n - 1, now, retry);
      OneMoreCounts(Live(r, Repeated(n - 1, now), retry), now, retry);
    }
  }

  /** Enough of them enter a cooldown; a count already at the threshold needs one. */
  lemma CompletingEnters(r: RuntimeState, now: int, retry: RetryConfig)
    requires r.storm.cooldownMs.None? && r.windowStart == Some(now) && retry.guard.failureWindowMs <= I64_MAX
    ensures Enters(r, Completing(r.storm.failures, retry.guard.threshold, now), retry)
  {
    hide RecordFailure;
    var count := r.storm.failures;
    var n := if count < retry.guard.threshold then retry.guard.threshold - count else 1;
    var log := Repeated(n, now);
    assert log[..n - 1] == Repeated(n - 1, now);
    RepeatedCounts(r, n - 1, now, retry);
    LastEnters(Live(r, Repeated(n - 1, now), retry), now, retry);
  }

  lemma LastEnters(r: RuntimeState, now: int, retry: RetryConfig)
    requires r.windowStart == Some(now) && retry.guard.failureWindowMs <= I64_MAX
    requires retry.guard.threshold <= r.storm.failures + 1
    ensures RecordFailure(r, now, retry, "timeout", 0.0).storm.cooldownMs.Some?
  {
    hide Jitter;
  }

  /** A load in the middle of a count reopens the window: fewer failures than the threshold, all at the load,
      enter a cooldown. */
  lemma RestartStretchesTheWindow(r: RuntimeState, now: int, retry: RetryConfig)
    requires r.storm.cooldownMs.None? && r.windowStart == Some(now) && 0 < r.storm.failures
    requires 2 <= retry.guard.threshold && retry.guard.failureWindowMs <= I64_MAX
    ensures var log := Completing(r.storm.failures, retry.guard.threshold, now);
      && Clocked(log, now) && Enters(r, log, retry)
      && |SinceLive(log)| < retry.guard.threshold
  {
    var count := r.storm.failures;
    CompletingEnters(r, now, retry);
    RepeatedIsClocked(if count < retry.guard.threshold then retry.guard.threshold - count else 1, now);
    hide Enters, Clocked;
  }

  /** With a window beyond the largest `i64` every failure reopens it, so a threshold of two is never reached. */
  lemma {:induction false} WrappedWindowNeverEnters(r: RuntimeState, log: seq<Happening>, from: int, retry: RetryConfig)
    requires r.storm.cooldownMs.None? && (r.windowStart.Some? ==> r.windowStart.value <= from)
    requires Clocked(log, from) && I64_MAX < retry.guard.failureWindowMs && 2 <= retry.guard.threshold
    ensures Live(r, log, retry).storm.cooldownMs.None?
    ensures Live(r, log, retry).windowStart.Some? ==> Live(r, log, retry).windowStart.value <= Latest(log, from)
    decreases |log|
  {
    hide Jitter;
    if log != [] {
      WrappedWindowNeverEnters(r, log[..|log| - 1], from, retry);
      WrappedWindowIsNegative(retry.guard.failureWindowMs);
    }
  }

  lemma WrappedWindowIsNegative(windowMs: U64)
    requires I64_MAX < windowMs
    ensures AsI64(windowMs) < 0
  {
    assert AsI64(windowMs) == windowMs - U64_MAX - 1;
  }

  /** When the cooldowns a life enters rest on close failures of that life: exactly when the file holds a cooldown,
      which only a live connection ends, or counts no failure, or one failure is enough, or the window is beyond the
      largest `i64`. */
  lemma RestartIsJustifiedIff(file: RuntimeFile, windowSize: nat, floor: Option<Stamp>, now: int, retry: RetryConfig)
    ensures CooldownsRest(Loaded(Some(file), windowSize, floor, now), now, retry) <==>
      || file.storm.cooldownMs.Some? || file.storm.failures == 0
      || retry.guard.threshold <= 1 || I64_MAX < retry.guard.failureWindowMs
  {
    var r := Loaded(Some(file), windowSize, floor, now);
    LoadedStorm(file, windowSize, floor, now);
    hide Loaded, Live, Within;
    var guard := retry.guard;
    if file.storm.cooldownMs.Some? || file.storm.failures == 0 || guard.threshold <= 1
      || I64_MAX < guard.failureWindowMs {
      forall log | Clocked(log, now) && Enters(r, log, retry) ensures RestsOnCloseFailures(log, guard) {
        JustifiedFromFile(r, log, now, retry);
      }
    } else {
      RestartStretchesTheWindow(r, now, retry);
      var log := Completing(r.storm.failures, guard.threshold, now);
      assert !RestsOnCloseFailures(log, guard);
    }
  }

  lemma LoadedStorm(file: RuntimeFile, windowSize: nat, floor: Option<Stamp>, now: int)
    ensures var r := Loaded(Some(file), windowSize, floor, now);
      r.storm == file.storm && r.windowStart == WindowStartAtLoad(file.storm, now)
  {
    DedupeWindow.InsertAllKeepsWindow(
      RuntimeState(windowSize, floor, file.lastSeen, [], {}, {}, file.storm, WindowStartAtLoad(file.storm, now)),
      file.recent);
  }

  lemma JustifiedFromFile(r: RuntimeState, log: seq<Happening>, now: int, retry: RetryConfig)
    requires r.windowStart.Some? ==> r.windowStart.value <= now
    requires r.storm.failures == 0 ==> r.windowStart.None?
    requires r.storm.cooldownMs.Some? || r.storm.failures == 0 || retry.guard.threshold <= 1
      || I64_MAX < retry.guard.failureWindowMs
    requires Clocked(log, now) && Enters(r, log, retry)
    ensures RestsOnCloseFailures(log, retry.guard)
  {
    hide Live, Within, NonDecreasing, Uncounted;
    ClockedIsNonDecreasing(log, now);
    LastFailure(r, log, retry);
    hide Clocked, RecordFailure, Latest;
    if r.storm.cooldownMs.Some? {
      CooldownIsJustified(r, log, retry);
    } else if r.storm.failures == 0 {
      assert Uncounted(r) by {
        IsUncounted(r);
      }
      CooldownIsJustified(r, log, retry);
    } else if retry.guard.threshold <= 1 {
      OneIsWithin(SinceLive(log), retry.guard);
    } else {
      WrappedWindowNeverEnters(r, log, now, retry);
      assert false;
    }
  }

  lemma IsUncounted(r: RuntimeState)
    requires r.storm.failures == 0 && r.windowStart.None? && r.storm.cooldownMs.None?
    ensures Uncounted(r)
  {
  }

  lemma OneIsWithin(times: seq<int>, guard: StormGuardConfig)
    requires guard.threshold <= 1 && times != []
    ensures Within(times[|times| - guard.threshold..], guard.failureWindowMs)
  {
  }
}
