/** The per-server runtime store: the dedupe window, the ids in progress and the reconnect storm guard.

    `RuntimeState` and the functions on it say what each call does; `RuntimeStore` is the object whose
    methods update its fields, each proved to do just that. */
module Runtime {
  import opened Retry
  import opened Wrappers
  import Text

  type MessageId = string

  /** An RFC 3339 timestamp: its text, and the instant in milliseconds when the text parses. */
  datatype Stamp = Stamp(text: string, instant: Option<int>)

  datatype StormState = StormState(
    failures: U32,
    cooldownMs: Option<U64>,
    nextAttemptAt: Option<int>,
    lastErrorKind: Option<string>)

  const CALM := StormState(0, None, None, None)

  datatype StormGuardConfig = StormGuardConfig(
    failureWindowMs: U64,
    threshold: U32,
    cooldownMs: U64,
    maxCooldownMs: U64)

  datatype RetryConfig = RetryConfig(baseMs: U64, maxMs: U64, jitterRatio: real, guard: StormGuardConfig)

  /** What `flush` writes. */
  datatype RuntimeFile = RuntimeFile(lastSeen: Option<string>, recent: seq<MessageId>, storm: StormState)

  datatype Cooldown = Cooldown(failures: U32, cooldownMs: U64, nextAttemptAt: int, lastErrorKind: Option<string>)

  datatype RuntimeState = RuntimeState(
    windowSize: nat,
    floor: Option<Stamp>,
    lastSeen: Option<string>,
    order: seq<MessageId>,
    seen: set<MessageId>,
    pending: set<MessageId>,
    storm: StormState,
    windowStart: Option<int>)

  predicate BeforeFloor(stamp: Stamp, floor: Option<Stamp>) {
    match floor
    case None => false
    case Some(f) =>
      if stamp.instant.Some? && f.instant.Some? then stamp.instant.value < f.instant.value
      else Text.Less(stamp.text, f.text)
  }

  function Elements(s: seq<MessageId>): set<MessageId> {
    set id | id in s
  }

  ghost predicate NoDuplicates(s: seq<MessageId>) {
    forall i, j :: 0 <= i < j < |s| ==> s[i] != s[j]
  }

  /** The last `n` entries, or all of them when there are fewer. */
  function Newest(n: nat, s: seq<MessageId>): seq<MessageId> {
    if |s| <= n then s else s[|s| - n..]
  }

  // ----- The dedupe window -----

  predicate Accepts(r: RuntimeState, id: MessageId, stamp: Stamp) {
    !BeforeFloor(stamp, r.floor) && id !in r.seen && id !in r.pending
  }

  function ShouldEnqueue(r: RuntimeState, id: MessageId, stamp: Stamp): RuntimeState {
    if Accepts(r, id, stamp) then r.(pending := r.pending + {id}) else r
  }

  function MarkFailed(r: RuntimeState, id: MessageId): RuntimeState {
    r.(pending := r.pending - {id})
  }

  function Evict(r: RuntimeState): RuntimeState
    decreases |r.order|
  {
    if |r.order| > r.windowSize then
      Evict(r.(order := r.order[1..], seen := r.seen - {r.order[0]}))
    else r
  }

  function InsertRecent(r: RuntimeState, id: MessageId): RuntimeState {
    Evict(if id in r.seen then r else r.(order := r.order + [id], seen := r.seen + {id}))
  }

  function LaterSeen(current: Option<string>, stamp: Stamp): Option<string> {
    if current.Some? && !Text.Less(current.value, stamp.text) then current else Some(stamp.text)
  }

  function MarkProcessed(r: RuntimeState, id: MessageId, stamp: Stamp): RuntimeState {
    var cleared := MarkFailed(r, id);
    InsertRecent(cleared, id).(lastSeen := LaterSeen(r.lastSeen, stamp))
  }

  // ----- Persistence -----

  function Flushed(r: RuntimeState): RuntimeFile {
    RuntimeFile(r.lastSeen, r.order, r.storm)
  }

  function InsertAll(r: RuntimeState, ids: seq<MessageId>): RuntimeState
    decreases |ids|
  {
    if ids == [] then r else InsertRecent(InsertAll(r, ids[..|ids| - 1]), ids[|ids| - 1])
  }

  /** A failure count without a cooldown restarts its window at load time. */
  function WindowStartAtLoad(storm: StormState, now: int): Option<int> {
    if storm.failures > 0 && storm.cooldownMs.None? then Some(now) else None
  }

  function Loaded(file: Option<RuntimeFile>, windowSize: nat, floor: Option<Stamp>, now: int): RuntimeState {
    match file
    case None => RuntimeState(windowSize, floor, None, [], {}, {}, CALM, None)
    case Some(f) =>
      InsertAll(
        RuntimeState(windowSize, floor, f.lastSeen, [], {}, {}, f.storm, WindowStartAtLoad(f.storm, now)),
        f.recent)
  }

  // ----- The storm guard -----

  function CurrentCooldown(storm: StormState): Option<Cooldown> {
    if storm.cooldownMs.Some? && storm.nextAttemptAt.Some? then
      Some(Cooldown(storm.failures, storm.cooldownMs.value, storm.nextAttemptAt.value, storm.lastErrorKind))
    else None
  }

  function Min(a: nat, b: nat): nat { if a < b then a else b }

  function SaturatingDouble(n: U64): U64 { Min(2 * n, U64_MAX) }

  /** The cooldown before jitter: the first is the configured one, each later one doubles the last. */
  function BaseCooldown(storm: StormState, guard: StormGuardConfig): U64 {
    Min(if storm.cooldownMs.Some? then SaturatingDouble(storm.cooldownMs.value) else guard.cooldownMs,
        guard.maxCooldownMs)
  }

  predicate WindowLapsed(r: RuntimeState, now: int, guard: StormGuardConfig) {
    && r.storm.cooldownMs.None?
    && (r.windowStart.None? || now - r.windowStart.value > AsI64(guard.failureWindowMs))
  }

  function CountFailure(r: RuntimeState, now: int, guard: StormGuardConfig, kind: string): RuntimeState {
    var lapsed := WindowLapsed(r, now, guard);
    var before := if lapsed then 0 else r.storm.failures;
    r.(windowStart := if lapsed then Some(now) else r.windowStart,
       storm := r.storm.(failures := Min(before + 1, U32_MAX), lastErrorKind := Some(kind)))
  }

  function RecordFailure(r: RuntimeState, now: int, retry: RetryConfig, kind: string, draw: Draw): RuntimeState {
    var counted := CountFailure(r, now, retry.guard, kind);
    if counted.storm.failures < retry.guard.threshold then counted
    else
      var wait := Min(Jitter(BaseCooldown(counted.storm, retry.guard), retry.jitterRatio, draw),
                      retry.guard.maxCooldownMs);
      counted.(storm := counted.storm.(
        cooldownMs := Some(wait),
        nextAttemptAt := Some(now + Min(wait, I64_MAX))))
  }

  /** What recording that failure returns: nothing while the count is below the threshold. */
  function RecordedCooldown(r: RuntimeState, now: int, retry: RetryConfig, kind: string, draw: Draw): Option<Cooldown> {
    if CountFailure(r, now, retry.guard, kind).storm.failures < retry.guard.threshold then None
    else CurrentCooldown(RecordFailure(r, now, retry, kind, draw).storm)
  }

  function ClearStorm(r: RuntimeState): RuntimeState {
    r.(storm := CALM, windowStart := None)
  }

  // ----- The object -----

  /** The runtime file on disk, replaced as a whole by an atomic rename. */
  class DiskCell {
    var file: Option<RuntimeFile>

    constructor (file: Option<RuntimeFile>)
      ensures this.file == file
    {
      this.file := file;
    }
  }

  class RuntimeStore {
    const disk: DiskCell
    const windowSize: nat
    const floor: Option<Stamp>
    var lastSeen: Option<string>
    var order: seq<MessageId>
    var seen: set<MessageId>
    var pending: set<MessageId>
    var storm: StormState
    var windowStart: Option<int>

    function View(): RuntimeState
      reads this
    {
      RuntimeState(windowSize, floor, lastSeen, order, seen, pending, storm, windowStart)
    }

    constructor Load(disk: DiskCell, windowSize: nat, floor: Option<Stamp>, now: int)
      ensures this.disk == disk
      ensures View() == Loaded(disk.file, windowSize, floor, now)
    {
      this.disk := disk;
      this.windowSize := windowSize;
      this.floor := floor;
      order, seen, pending := [], {}, {};
      lastSeen, storm, windowStart := None, CALM, None;
      new;
      if disk.file.Some? {
        var parsed := disk.file.value;
        lastSeen := parsed.lastSeen;
        windowStart := WindowStartAtLoad(parsed.storm, now);
        storm := parsed.storm;
        ghost var empty := View();
        for i := 0 to |parsed.recent|
          invariant View() == InsertAll(empty, parsed.recent[..i])
        {
          AddRecent(parsed.recent[i]);
          assert parsed.recent[..i + 1][..i] == parsed.recent[..i];
        }
        assert parsed.recent[..|parsed.recent|] == parsed.recent;
      }
    }

    method ShouldAccept(id: MessageId, stamp: Stamp) returns (accepted: bool)
      modifies this
      ensures accepted == Accepts(old(View()), id, stamp)
      ensures View() == ShouldEnqueue(old(View()), id, stamp)
      ensures accepted <==> !BeforeFloor(stamp, floor) && id !in old(seen) && id !in old(pending)
      ensures pending == if accepted then old(pending) + {id} else old(pending)
    {
      if BeforeFloor(stamp, floor) {
        return false;
      }
      if id in seen || id in pending {
        return false;
      }
      pending := pending + {id};
      return true;
    }

    method Fail(id: MessageId)
      modifies this
      ensures View() == MarkFailed(old(View()), id)
      ensures pending == old(pending) - {id}
    {
      pending := pending - {id};
    }

    method Process(id: MessageId, stamp: Stamp)
      modifies this
      ensures View() == MarkProcessed(old(View()), id, stamp)
    {
      pending := pending - {id};
      AddRecent(id);
      if lastSeen.Some? && !Text.Less(lastSeen.value, stamp.text) {
      } else {
        lastSeen := Some(stamp.text);
      }
      EvictKeepsTheRest(if id in old(seen) then old(View()).(pending := old(pending) - {id})
        else old(View()).(pending := old(pending) - {id}, order := old(order) + [id], seen := old(seen) + {id}));
    }

    method AddRecent(id: MessageId)
      modifies this
      ensures View() == InsertRecent(old(View()), id)
    {
      if id !in seen {
        seen := seen + {id};
        order := order + [id];
      }
      ghost var inserted := View();
      while |order| > windowSize
        invariant Evict(View()) == Evict(inserted)
      {
        var oldest := order[0];
        order := order[1..];
        seen := seen - {oldest};
      }
    }

    method Flush()
      modifies disk
      ensures disk.file == Some(RuntimeFile(lastSeen, order, storm)) && disk.file == Some(Flushed(View()))
    {
      disk.file := Some(RuntimeFile(lastSeen, order, storm));
    }

    method RecordReconnectFailure(now: int, retry: RetryConfig, kind: string, draw: Draw)
      returns (cooldown: Option<Cooldown>)
      modifies this
      ensures View() == RecordFailure(old(View()), now, retry, kind, draw)
      ensures cooldown == RecordedCooldown(old(View()), now, retry, kind, draw)
    {
      var window := AsI64(retry.guard.failureWindowMs);
      if storm.cooldownMs.None? && (windowStart.None? || now - windowStart.value > window) {
        windowStart := Some(now);
        storm := storm.(failures := 0);
      }
      storm := storm.(failures := Min(storm.failures + 1, U32_MAX), lastErrorKind := Some(kind));
      if storm.failures < retry.guard.threshold {
        return None;
      }
      var base := Min(
        if storm.cooldownMs.Some? then SaturatingDouble(storm.cooldownMs.value) else retry.guard.cooldownMs,
        retry.guard.maxCooldownMs);
      var wait := Min(Jitter(base, retry.jitterRatio, draw), retry.guard.maxCooldownMs);
      storm := storm.(cooldownMs := Some(wait), nextAttemptAt := Some(now + Min(wait, I64_MAX)));
      cooldown := CurrentCooldown(storm);
    }

    method ClearReconnectStorm()
      modifies this
      ensures View() == ClearStorm(old(View()))
      ensures storm == StormState(0, None, None, None) && windowStart.None?
    {
      storm := CALM;
      windowStart := None;
    }
  }

  lemma {:induction false} EvictKeepsTheRest(r: RuntimeState)
    ensures Evict(r) == r.(order := Evict(r).order, seen := Evict(r).seen)
    decreases |r.order|
  {
    if |r.order| > r.windowSize {
      EvictKeepsTheRest(r.(order := r.order[1..], seen := r.seen - {r.order[0]}));
    }
  }
}
