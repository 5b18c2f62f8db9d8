/** Hooks fired on hard failures, each throttled by failure kind, component and target. Instants are integers. */
module HardFailure {
  import opened Wrappers

  datatype Hook = Hook(key: string, throttleMs: nat, enabled: bool)

  datatype Event = Event(kind: string, component: string, target: Option<string>)

  function DedupeKey(event: Event): string {
    event.kind + ":" + event.component + ":" + (if event.target.Some? then event.target.value else "")
  }

  function ThrottleKey(hook: Hook, event: Event): string {
    hook.key + ":" + DedupeKey(event)
  }

  predicate NoColon(s: string) {
    ':' !in s
  }

  /** A part without a colon in front of a colon can be read back. */
  lemma {:induction false} PartIsRead(a: string, x: string, b: string, y: string)
    requires NoColon(a) && NoColon(b) && a + ":" + x == b + ":" + y
    ensures a == b && x == y
  {
    var whole := a + ":" + x;
    assert whole[0] == if a == [] then ':' else a[0];
    assert whole[0] == if b == [] then ':' else b[0];
    if a == [] {
      assert b == [];
      assert whole[1..] == x && whole[1..] == y;
    } else {
      assert b != [];
      assert whole[1..] == a[1..] + ":" + x && whole[1..] == b[1..] + ":" + y;
      PartIsRead(a[1..], x, b[1..], y);
    }
  }

  function Target(event: Event): string {
    if event.target.Some? then event.target.value else ""
  }

  /** Hooks, kinds, components and targets are throttled apart, as long as the first three hold no colon. */
  lemma KeysAreApart(hook: Hook, event: Event, other: Hook, another: Event)
    requires NoColon(hook.key) && NoColon(event.kind) && NoColon(event.component)
    requires NoColon(other.key) && NoColon(another.kind) && NoColon(another.component)
    ensures ThrottleKey(hook, event) == ThrottleKey(other, another) <==>
      && hook.key == other.key && event.kind == another.kind && event.component == another.component
      && Target(event) == Target(another)
  {
    if ThrottleKey(hook, event) == ThrottleKey(other, another) {
      PartIsRead(hook.key, DedupeKey(event), other.key, DedupeKey(another));
      var rest, more := event.component + ":" + Target(event), another.component + ":" + Target(another);
      assert DedupeKey(event) == event.kind + ":" + rest && DedupeKey(another) == another.kind + ":" + more;
      PartIsRead(event.kind, rest, another.kind, more);
      PartIsRead(event.component, Target(event), another.component, Target(another));
    }
  }

  /** One question to the throttle: the instant was read before the lock was taken, so instants may reach it
      out of order. */
  datatype Arrival = Arrival(key: string, throttleMs: nat, now: int)

  /** `Instant::duration_since` saturates at zero. */
  function Since(now: int, earlier: int): nat {
    if now <= earlier then 0 else now - earlier
  }

  predicate Throttles(last: map<string, int>, a: Arrival) {
    a.throttleMs > 0 && a.key in last && Since(a.now, last[a.key]) < a.throttleMs
  }

  function After(last: map<string, int>, a: Arrival): map<string, int> {
    if a.throttleMs == 0 || Throttles(last, a) then last else last[a.key := a.now]
  }

  function AfterAll(last: map<string, int>, arrivals: seq<Arrival>): map<string, int>
    decreases |arrivals|
  {
    if arrivals == [] then last
    else After(AfterAll(last, arrivals[..|arrivals| - 1]), arrivals[|arrivals| - 1])
  }

  /** The positions of the arrivals let through. */
  function LetThrough(last: map<string, int>, arrivals: seq<Arrival>): seq<nat>
    decreases |arrivals|
  {
    if arrivals == [] then []
    else
      var front := arrivals[..|arrivals| - 1];
      LetThrough(last, front)
      + (if Throttles(AfterAll(last, front), arrivals[|front|]) then [] else [|front|])
  }

  /** The instants at which a key was let through, in the order the lock saw them. */
  function Fired(last: map<string, int>, arrivals: seq<Arrival>, key: string): seq<int>
    decreases |arrivals|
  {
    if arrivals == [] then []
    else
      var front, a := arrivals[..|arrivals| - 1], arrivals[|arrivals| - 1];
      Fired(last, front, key)
      + (if a.key == key && !Throttles(AfterAll(last, front), a) then [a.now] else [])
  }

  // ----- The rate bound -----

  ghost predicate Spaced(times: seq<int>, gap: int) {
    forall i, j :: 0 <= i < j < |times| ==> times[i] + gap <= times[j]
  }

  ghost predicate ThrottledBy(arrivals: seq<Arrival>, key: string, gap: nat) {
    forall a <- arrivals :: a.key == key ==> gap <= a.throttleMs
  }

  /** Two firings of a key are at least its throttle apart, whatever the order of arrival. */
  lemma {:induction false} FiringsAreSpaced(arrivals: seq<Arrival>, key: string, gap: nat)
    requires 0 < gap && ThrottledBy(arrivals, key, gap)
    ensures Spaced(Fired(map[], arrivals, key), gap)
    ensures Fired(map[], arrivals, key) == [] ==> key !in AfterAll(map[], arrivals)
    ensures Fired(map[], arrivals, key) != [] ==>
      && key in AfterAll(map[], arrivals)
      && AfterAll(map[], arrivals)[key] == Fired(map[], arrivals, key)[|Fired(map[], arrivals, key)| - 1]
    decreases |arrivals|
  {
    if arrivals != [] {
      var front, a := arrivals[..|arrivals| - 1], arrivals[|arrivals| - 1];
      assert a in arrivals;
      FiringsAreSpaced(front, key, gap);
      if a.key == key && !Throttles(AfterAll(map[], front), a) {
        AppendKeepsSpaced(Fired(map[], front, key), a.now, gap);
      }
    }
  }

  lemma AppendKeepsSpaced(times: seq<int>, next: int, gap: nat)
    requires 0 < gap && Spaced(times, gap)
    requires times != [] ==> times[|times| - 1] + gap <= next
    ensures Spaced(times + [next], gap)
  {
  }

  function CountWithin(times: seq<int>, from: int, until: int): nat
    decreases |times|
  {
    if times == [] then 0
    else CountWithin(times[..|times| - 1], from, until)
         + (if from <= times[|times| - 1] <= until then 1 else 0)
  }

  function Product(count: nat, gap: nat): nat {
    count * gap
  }

  function Quota(span: nat, gap: nat): nat
    requires 0 < gap
  {
    span / gap
  }

  lemma OneMoreGap(count: nat, gap: nat)
    ensures Product(count + 1, gap) == Product(count, gap) + gap
  {
  }

  lemma NoGap(gap: nat)
    ensures Product(0, gap) == 0
  {
  }

  lemma ProductIsMonotone(x: nat, y: nat, gap: nat)
    requires x <= y
    ensures Product(x, gap) <= Product(y, gap)
    decreases y
  {
    hide Product;
    if x < y {
      ProductIsMonotone(x, y - 1, gap);
      OneMoreGap(y - 1, gap);
    }
  }

  /** A span lies below the next multiple of the gap after its quota. */
  lemma QuotaReaches(span: nat, gap: nat)
    requires 0 < gap
    ensures span < Product(Quota(span, gap) + 1, gap)
  {
    OneMoreGap(Quota(span, gap), gap);
    var whole, rest := span / gap, span % gap;
    assert span == whole * gap + rest;
  }

  lemma QuotaBound(count: nat, gap: nat, span: nat)
    requires 0 < gap && Product(count, gap) <= span
    ensures count <= Quota(span, gap)
  {
    hide Product, Quota;
    QuotaReaches(span, gap);
    if Quota(span, gap) < count {
      ProductIsMonotone(Quota(span, gap) + 1, count, gap);
    }
  }

  /** The last time within an interval lies as many gaps behind its start as there are times before it. */
  lemma {:induction false} CountReaches(times: seq<int>, gap: nat, from: int, until: int) returns (last: nat)
    requires 0 < gap && Spaced(times, gap)
    requires 0 < CountWithin(times, from, until)
    ensures last < |times| && from <= times[last] <= until
    ensures Product(CountWithin(times, from, until) - 1, gap) <= times[last] - from
    decreases |times|
  {
    hide Product;
    var front, n := times[..|times| - 1], |times| - 1;
    if CountWithin(front, from, until) == 0 {
      last := n;
      NoGap(gap);
    } else {
      last := CountReaches(front, gap, from, until);
      if from <= times[n] <= until {
        assert times[last] + gap <= times[n];
        last := n;
        OneMoreGap(CountWithin(front, from, until) - 1, gap);
      }
    }
  }

  lemma CountIsBounded(times: seq<int>, gap: nat, from: int, span: nat)
    requires 0 < gap && Spaced(times, gap)
    ensures CountWithin(times, from, from + span) <= Quota(span, gap) + 1
  {
    hide Product, Quota, CountWithin, Spaced;
    var count := CountWithin(times, from, from + span);
    if count > 0 {
      var last := CountReaches(times, gap, from, from + span);
      QuotaBound(count - 1, gap, span);
    }
  }

  /** Any interval of length `span` holds at most `span / throttle + 1` firings of one key. */
  lemma RateBound(arrivals: seq<Arrival>, key: string, gap: nat, from: int, span: nat)
    requires 0 < gap && ThrottledBy(arrivals, key, gap)
    ensures CountWithin(Fired(map[], arrivals, key), from, from + span) <= span / gap + 1
  {
    hide CountWithin, Fired, Spaced, ThrottledBy, AfterAll;
    FiringsAreSpaced(arrivals, key, gap);
    CountIsBounded(Fired(map[], arrivals, key), gap, from, span);
  }

  // ----- Who is let through -----

  lemma {:induction false} LetThroughAt(arrivals: seq<Arrival>, n: nat)
    ensures n in LetThrough(map[], arrivals)
      <==> n < |arrivals| && !Throttles(AfterAll(map[], arrivals[..n]), arrivals[n])
    decreases |arrivals|
  {
    hide Throttles, AfterAll;
    if arrivals != [] {
      var front := arrivals[..|arrivals| - 1];
      LetThroughAt(front, n);
      if n < |front| {
        assert front[..n] == arrivals[..n];
      }
    }
  }

  /** The arrival at that position was let through for the key, and its instant noted. */
  ghost predicate Noted(arrivals: seq<Arrival>, k: nat, key: string) {
    && k < |arrivals| && arrivals[k].key == key && 0 < arrivals[k].throttleMs
    && k in LetThrough(map[], arrivals)
  }

  /** The last arrival before position n that was noted for the key. */
  ghost predicate LastNoted(arrivals: seq<Arrival>, n: nat, k: nat, key: string) {
    k < n && Noted(arrivals, k, key) && forall j :: k < j < n ==> !Noted(arrivals, j, key)
  }

  /** What the lock holds for a key is the instant of the last arrival noted for it. */
  lemma {:induction false} LastSentIsLastNoted(arrivals: seq<Arrival>, n: nat, key: string)
    requires n <= |arrivals|
    ensures key in AfterAll(map[], arrivals[..n]) <==> exists k: nat :: LastNoted(arrivals, n, k, key)
    ensures forall k: nat :: LastNoted(arrivals, n, k, key) ==>
      key in AfterAll(map[], arrivals[..n]) && AfterAll(map[], arrivals[..n])[key] == arrivals[k].now
    decreases n
  {
    if n == 0 {
      assert arrivals[..n] == [];
    } else {
      var m := n - 1;
      assert arrivals[..n][..m] == arrivals[..m];
      LastSentIsLastNoted(arrivals, m, key);
      LetThroughAt(arrivals, m);
      var before, last := AfterAll(map[], arrivals[..m]), AfterAll(map[], arrivals[..n]);
      assert last == After(before, arrivals[m]);
      NotedIsSent(before, arrivals[m], key);
      assert Noted(arrivals, m, key) <==>
        arrivals[m].key == key && 0 < arrivals[m].throttleMs && !Throttles(before, arrivals[m]);
      hide Throttles, AfterAll, LetThrough, After, Noted;
      OneMoreNoted(arrivals, m, n, key);
      if k: nat :| LastNoted(arrivals, m, k, key) {
        assert LastNoted(arrivals, n, k, key) || LastNoted(arrivals, n, m, key);
      }
    }
  }

  lemma NotedIsSent(last: map<string, int>, a: Arrival, key: string)
    ensures var noted := a.key == key && 0 < a.throttleMs && !Throttles(last, a);
      && (noted ==> key in After(last, a) && After(last, a)[key] == a.now)
      && (!noted ==> (key in After(last, a) <==> key in last) && (key in last ==> After(last, a)[key] == last[key]))
  {
  }

  lemma OneMoreNoted(arrivals: seq<Arrival>, m: nat, n: nat, key: string)
    requires n == m + 1
    ensures Noted(arrivals, m, key) ==> LastNoted(arrivals, n, m, key)
    ensures Noted(arrivals, m, key) ==> forall k: nat :: LastNoted(arrivals, n, k, key) ==> k == m
    ensures !Noted(arrivals, m, key) ==>
      forall k: nat :: LastNoted(arrivals, n, k, key) <==> LastNoted(arrivals, m, k, key)
  {
    hide Noted;
  }

  /** An arrival is let through exactly when it has no throttle, or nothing of its key was noted before, or the last
      one noted lies at least one throttle before it. */
  lemma LetThroughIff(arrivals: seq<Arrival>, n: nat)
    requires n < |arrivals|
    ensures var a := arrivals[n];
      n in LetThrough(map[], arrivals) <==>
      || a.throttleMs == 0
      || forall k: nat :: LastNoted(arrivals, n, k, a.key) ==> arrivals[k].now + a.throttleMs <= a.now
  {
    LetThroughAt(arrivals, n);
    LastSentIsLastNoted(arrivals, n, arrivals[n].key);
    hide AfterAll, LetThrough, LastNoted;
  }

  /** Hence firings are as many as can be: a suppressed arrival comes less than a throttle after the last one noted,
      or before it. */
  lemma SuppressedIsClose(arrivals: seq<Arrival>, n: nat) returns (k: nat)
    requires n < |arrivals| && n !in LetThrough(map[], arrivals)
    ensures LastNoted(arrivals, n, k, arrivals[n].key) && arrivals[n].now < arrivals[k].now + arrivals[n].throttleMs
  {
    LetThroughIff(arrivals, n);
    hide LetThrough;
    k :| LastNoted(arrivals, n, k, arrivals[n].key) && arrivals[k].now + arrivals[n].throttleMs > arrivals[n].now;
  }

  // ----- What one event lets through -----

  /** The instants of the arrivals at some positions that ask for one key. */
  function InstantsOf(positions: seq<nat>, arrivals: seq<Arrival>, key: string): seq<int>
    decreases |positions|
  {
    if positions == [] then []
    else
      var n := positions[|positions| - 1];
      InstantsOf(positions[..|positions| - 1], arrivals, key)
      + (if n < |arrivals| && arrivals[n].key == key then [arrivals[n].now] else [])
  }

  lemma {:induction false} PositionsAreWithin(last: map<string, int>, arrivals: seq<Arrival>)
    ensures forall n <- LetThrough(last, arrivals) :: n < |arrivals|
    decreases |arrivals|
  {
    if arrivals != [] {
      PositionsAreWithin(last, arrivals[..|arrivals| - 1]);
    }
  }

  lemma {:induction false} InstantsOfPrefix(positions: seq<nat>, front: seq<Arrival>, arrivals: seq<Arrival>,
                                            key: string)
    requires forall n <- positions :: n < |front|
    requires front <= arrivals
    ensures InstantsOf(positions, front, key) == InstantsOf(positions, arrivals, key)
    decreases |positions|
  {
    if positions != [] {
      var before, n := positions[..|positions| - 1], positions[|positions| - 1];
      assert n in positions;
      forall k | k in before ensures k < |front| {
        assert k in positions;
      }
      InstantsOfPrefix(before, front, arrivals, key);
    }
  }

  /** Taken at the positions let through, the instants of a key are its firings. */
  lemma {:induction false} LetThroughAreFired(last: map<string, int>, arrivals: seq<Arrival>, key: string)
    ensures InstantsOf(LetThrough(last, arrivals), arrivals, key) == Fired(last, arrivals, key)
    decreases |arrivals|
  {
    if arrivals != [] {
      var front := arrivals[..|arrivals| - 1];
      PositionsAreWithin(last, front);
      LetThroughAreFired(last, front, key);
      var before := LetThrough(last, front);
      InstantsOfPrefix(before, front, arrivals, key);
      var all := LetThrough(last, arrivals);
      if all != before {
        assert all[..|all| - 1] == before;
      }
    }
  }

  function FiresNow(last: map<string, int>, a: Arrival, key: string): seq<int> {
    if a.key == key && !Throttles(last, a) then [a.now] else []
  }

  lemma OneMoreArrival(last: map<string, int>, front: seq<Arrival>, a: Arrival, key: string)
    ensures AfterAll(last, front + [a]) == After(AfterAll(last, front), a)
    ensures Fired(last, front + [a], key) == Fired(last, front, key) + FiresNow(AfterAll(last, front), a, key)
  {
    hide Throttles, After;
    assert (front + [a])[..|front|] == front;
  }

  /** Firings accumulate over the events that ask one after another. */
  lemma {:induction false} FiredInTurn(last: map<string, int>, a: seq<Arrival>, b: seq<Arrival>, key: string)
    ensures AfterAll(last, a + b) == AfterAll(AfterAll(last, a), b)
    ensures Fired(last, a + b, key) == Fired(last, a, key) + Fired(AfterAll(last, a), b, key)
    decreases |b|
  {
    if b == [] {
      assert a + b == a;
    } else {
      hide Fired, AfterAll, After, FiresNow;
      var front, x := b[..|b| - 1], b[|b| - 1];
      FiredInTurn(last, a, front, key);
      OneMoreArrival(last, a + front, x, key);
      OneMoreArrival(AfterAll(last, a), front, x, key);
      assert b == front + [x] && a + b == a + front + [x];
    }
  }

  // ----- The object -----

  function EnabledHooks(hooks: seq<Hook>): seq<Hook>
    decreases |hooks|
  {
    if hooks == [] then []
    else EnabledHooks(hooks[..|hooks| - 1]) + (if hooks[|hooks| - 1].enabled then [hooks[|hooks| - 1]] else [])
  }

  lemma {:induction false} EnabledHooksMembers(hooks: seq<Hook>, hook: Hook)
    ensures multiset(EnabledHooks(hooks))[hook] == if hook.enabled then multiset(hooks)[hook] else 0
    decreases |hooks|
  {
    if hooks != [] {
      var front, last := hooks[..|hooks| - 1], hooks[|hooks| - 1];
      assert hooks == front + [last];
      EnabledHooksMembers(front, hook);
    }
  }

  /** What one event asks of the throttle: each hook in turn, at the instant read for it. */
  function Arrivals(hooks: seq<Hook>, event: Event, instants: seq<int>): seq<Arrival>
    requires |instants| == |hooks|
  {
    seq(|hooks|, i requires 0 <= i < |hooks| => Arrival(ThrottleKey(hooks[i], event), hooks[i].throttleMs, instants[i]))
  }

  class HardFailureHooks {
    const hooks: seq<Hook>
    var lastSent: map<string, int>

    constructor (hooks: seq<Hook>)
      ensures this.hooks == EnabledHooks(hooks) && lastSent == map[]
    {
      this.hooks := EnabledHooks(hooks);
      lastSent := map[];
    }

    method Throttled(hook: Hook, event: Event, now: int) returns (throttled: bool)
      modifies this
      ensures throttled <==>
        && 0 < hook.throttleMs && ThrottleKey(hook, event) in old(lastSent)
        && now < old(lastSent)[ThrottleKey(hook, event)] + hook.throttleMs
      ensures lastSent == if throttled || hook.throttleMs == 0 then old(lastSent)
                          else old(lastSent)[ThrottleKey(hook, event) := now]
      ensures throttled == Throttles(old(lastSent), Arrival(ThrottleKey(hook, event), hook.throttleMs, now))
      ensures lastSent == After(old(lastSent), Arrival(ThrottleKey(hook, event), hook.throttleMs, now))
    {
      if hook.throttleMs == 0 {
        return false;
      }
      var key := hook.key + ":" + DedupeKey(event);
      if key in lastSent && Since(now, lastSent[key]) < hook.throttleMs {
        return true;
      }
      lastSent := lastSent[key := now];
      return false;
    }

    /** Returns the indices of the hooks that ran. */
    method Fire(event: Event, instants: seq<int>) returns (ran: seq<nat>)
      requires |instants| == |hooks|
      modifies this
      ensures lastSent == AfterAll(old(lastSent), Arrivals(hooks, event, instants))
      ensures ran == LetThrough(old(lastSent), Arrivals(hooks, event, instants))
      ensures forall key :: InstantsOf(ran, Arrivals(hooks, event, instants), key)
                         == Fired(old(lastSent), Arrivals(hooks, event, instants), key)
    {
      hide Throttles, After;
      ghost var arrivals := Arrivals(hooks, event, instants);
      ran := [];
      for n := 0 to |hooks|
        invariant lastSent == AfterAll(old(lastSent), arrivals[..n])
        invariant ran == LetThrough(old(lastSent), arrivals[..n])
      {
        assert arrivals[..n + 1][..n] == arrivals[..n];
        var throttled := Throttled(hooks[n], event, instants[n]);
        ran := ran + (if throttled then [] else [n]);
      }
      assert arrivals[..|hooks|] == arrivals;
      forall key ensures InstantsOf(ran, arrivals, key) == Fired(old(lastSent), arrivals, key) {
        LetThroughAreFired(old(lastSent), arrivals, key);
      }
    }
  }
}
