/** What the target and delivery rows of the sink in hand say at every point of its work, and which sinks are
    worked on in which order. */
module RowContents {
  import opened Accounting
  import opened Attention
  import opened Frames
  import opened Protocol
  import opened Storage
  import opened Tables
  import opened Targets
  import opened WorkerInvariant
  import opened Wrappers

  // ----- Which sinks -----

  predicate IsDbSink(sink: SinkConfig) {
    sink.enabled && sink.kind == Db
  }

  predicate IsWakeSink(sink: SinkConfig) {
    sink.enabled && sink.kind == AgentSessionWake
  }

  lemma {:induction false} FirstDbSinkMeaning(sinks: seq<SinkConfig>)
    ensures FirstDbSink(sinks) == [] ==> forall sink <- sinks :: !IsDbSink(sink)
    ensures FirstDbSink(sinks) != [] ==>
      exists i: nat :: i < |sinks| && IsDbSink(sinks[i]) && FirstDbSink(sinks) == [sinks[i]] && NoneBefore(sinks, i)
  {
    if sinks != [] {
      FirstDbSinkMeaning(sinks[1..]);
      if IsDbSink(sinks[0]) {
        assert NoneBefore(sinks, 0);
      } else if FirstDbSink(sinks[1..]) != [] {
        var i: nat :| i < |sinks[1..]| && IsDbSink(sinks[1..][i]) && FirstDbSink(sinks[1..]) == [sinks[1..][i]]
          && NoneBefore(sinks[1..], i);
        forall j | 0 <= j < i + 1 ensures !IsDbSink(sinks[j]) {
          assert j > 0 ==> sinks[j] == sinks[1..][j - 1];
        }
        assert NoneBefore(sinks, i + 1);
      }
    }
  }

  ghost predicate NoneBefore(sinks: seq<SinkConfig>, n: nat)
    requires n <= |sinks|
  {
    forall j :: 0 <= j < n ==> !IsDbSink(sinks[j])
  }

  /** The positions of the enabled wake sinks from the `n`th on, in order. */
  ghost predicate WakePositions(sinks: seq<SinkConfig>, n: nat, at: seq<nat>) {
    && (forall j, k :: 0 <= j < k < |at| ==> at[j] < at[k])
    && (forall i: nat :: i in at <==> n <= i < |sinks| && IsWakeSink(sinks[i]))
  }

  ghost predicate PickedAt(sinks: seq<SinkConfig>, picked: seq<SinkConfig>, at: seq<nat>) {
    |picked| == |at| && forall k :: 0 <= k < |at| ==> at[k] < |sinks| && picked[k] == sinks[at[k]]
  }

  lemma PositionBefore(sinks: seq<SinkConfig>, n: nat, at: seq<nat>)
    requires n < |sinks| && WakePositions(sinks, n + 1, at) && IsWakeSink(sinks[n])
    ensures WakePositions(sinks, n, [n] + at)
  {
    assert forall k :: 0 <= k < |at| ==> at[k] in at;
  }

  lemma NoPositionBefore(sinks: seq<SinkConfig>, n: nat, at: seq<nat>)
    requires n < |sinks| && WakePositions(sinks, n + 1, at) && !IsWakeSink(sinks[n])
    ensures WakePositions(sinks, n, at)
  {
  }

  lemma PickBefore(sinks: seq<SinkConfig>, n: nat, picked: seq<SinkConfig>, at: seq<nat>)
    requires n < |sinks| && PickedAt(sinks, picked, at)
    ensures PickedAt(sinks, [sinks[n]] + picked, [n] + at)
  {
  }

  lemma WakeSinksFrom(sinks: seq<SinkConfig>, n: nat)
    requires n < |sinks|
    ensures IsWakeSink(sinks[n]) ==> WakeSinks(sinks[n..]) == [sinks[n]] + WakeSinks(sinks[n + 1..])
    ensures !IsWakeSink(sinks[n]) ==> WakeSinks(sinks[n..]) == WakeSinks(sinks[n + 1..])
  {
    assert sinks[n..][1..] == sinks[n + 1..];
  }

  lemma NoMorePositions(sinks: seq<SinkConfig>)
    ensures WakePositions(sinks, |sinks|, []) && PickedAt(sinks, WakeSinks(sinks[|sinks|..]), [])
  {
  }

  lemma {:induction false} WakeSinksMeaning(sinks: seq<SinkConfig>, n: nat) returns (at: seq<nat>)
    requires n <= |sinks|
    ensures WakePositions(sinks, n, at) && PickedAt(sinks, WakeSinks(sinks[n..]), at)
    decreases |sinks| - n
  {
    hide *;
    if n == |sinks| {
      at := [];
      NoMorePositions(sinks);
    } else {
      var rest := WakeSinksMeaning(sinks, n + 1);
      WakeSinksFrom(sinks, n);
      if IsWakeSink(sinks[n]) {
        at := [n] + rest;
        PositionBefore(sinks, n, rest);
        PickBefore(sinks, n, WakeSinks(sinks[n + 1..]), rest);
      } else {
        at := rest;
        NoPositionBefore(sinks, n, rest);
      }
    }
  }

  /** A message goes to the first enabled database sink, if there is one, and then to every enabled wake sink, each
      position of the configuration once and in its order. */
  lemma SelectedInOrder(cfg: Setup) returns (db: seq<SinkConfig>, wakes: seq<SinkConfig>, at: seq<nat>)
    ensures SelectedSinks(cfg) == db + wakes
    ensures db == [] ==> forall sink <- cfg.sinks :: !IsDbSink(sink)
    ensures db != [] ==>
      exists i: nat :: i < |cfg.sinks| && IsDbSink(cfg.sinks[i]) && db == [cfg.sinks[i]] && NoneBefore(cfg.sinks, i)
    ensures WakePositions(cfg.sinks, 0, at) && PickedAt(cfg.sinks, wakes, at)
  {
    FirstDbSinkMeaning(cfg.sinks);
    at := WakeSinksMeaning(cfg.sinks, 0);
    assert cfg.sinks[0..] == cfg.sinks;
    db, wakes := FirstDbSink(cfg.sinks), WakeSinks(cfg.sinks);
  }

  // ----- Where a sink leads -----

  /** A configured destination is used as it is. Without one a database sink has the path of the database; a wake
      sink has the session the item names, or else the one of the configuration. */
  ghost predicate LeadsTo(cfg: Setup, sink: SinkConfig, override: Option<string>, destination: string) {
    && (sink.destination.Some? ==> destination == sink.destination.value)
    && (sink.destination.None? && sink.kind == Db ==> destination == cfg.databasePath)
    && (sink.destination.None? && sink.kind == AgentSessionWake && override.Some? ==> destination == override.value)
    && (sink.destination.None? && sink.kind == AgentSessionWake && override.None? ==> destination == cfg.wakeSession)
  }

  /** The target of the sink is enabled and says where the item goes. */
  ghost predicate TargetSays(cfg: Setup, db: Database, item: Item, sink: SinkConfig) {
    && sink.key in db.targets
    && db.targets[sink.key].kind == sink.kind && db.targets[sink.key].disabled.None?
    && LeadsTo(cfg, sink, item.wakeOverride, db.targets[sink.key].destination)
  }

  ghost predicate HasStatus(db: Database, item: Item, sink: SinkKey, a: Status, b: Status) {
    && RowOf(db, item.server, item.id, sink).Some?
    && (RowOf(db, item.server, item.id, sink).value.status == a || RowOf(db, item.server, item.id,
        sink).value.status == b)
  }

  /** A row is queued until it is sent, attempted while the outcome is out or unmarked, and failed between two
      attempts. */
  ghost predicate RowSaysStage(db: Database, item: Item, sink: SinkKey, stage: Stage) {
    match stage
    case Ticketed(_, _) => HasStatus(db, item, sink, Queued, Delivered)
    case Attempt(_) => HasStatus(db, item, sink, Queued, Failed)
    case Sending(_) => HasStatus(db, item, sink, Attempted, Attempted)
    case Waiting(_) => HasStatus(db, item, sink, Attempted, Attempted)
    case Confirm(_) => HasStatus(db, item, sink, Attempted, Attempted)
    case Rejected(_) => HasStatus(db, item, sink, Attempted, Attempted)
    case _ => true
  }

  predicate PastTarget(stage: Stage) {
    !stage.Guard? && !stage.Source? && !stage.Lookup? && !stage.Inserted? && !stage.Matching?
  }

  /** The rows of the sink in hand. */
  ghost predicate RowsOk(cfg: Setup, s: State) {
    s.worker.AtSink? && s.worker.index < |SelectedSinks(cfg)| && HasStore(cfg) && PastTarget(s.worker.stage) ==>
      var sink := SelectedSinks(cfg)[s.worker.index];
      TargetSays(cfg, s.db, s.worker.item, sink) && RowSaysStage(s.db, s.worker.item, sink.key, s.worker.stage)
  }

  lemma DestinationLeads(cfg: Setup, sink: SinkConfig, item: Item)
    ensures LeadsTo(cfg, sink, item.wakeOverride, Destination(cfg, sink, item))
    ensures LeadsTo(cfg, sink, None, DefaultDestination(cfg, sink))
  {
  }

  lemma UpsertedTargetSays(cfg: Setup, db: Database, item: Item, sink: SinkConfig)
    ensures TargetSays(cfg, UpsertTarget(db, sink.key, sink.kind, Destination(cfg, sink, item)), item, sink)
  {
    DestinationLeads(cfg, sink, item);
    hide Destination;
  }

  lemma TargetedIsQueued(db: Database, item: Item, sink: SinkKey, event: RowId)
    requires sink in db.targets && EventOf(db, item.server, item.id) == Some(event)
    ensures var next := UpsertDelivery(db, event, db.targets[sink].id);
      next.targets == db.targets && HasStatus(next, item, sink, Queued, Delivered)
  {
    var next := UpsertDelivery(db, event, db.targets[sink].id);
    DeliveryFrame(db, event, db.targets[sink].id);
    assert EventOf(next, item.server, item.id) == Some(event);
  }

  lemma RowsStepKeepsRows(cfg: Setup, s: State)
    requires TablesOk(cfg, s) && RowsOk(cfg, s) && s.worker.AtSink? && s.worker.index < |SelectedSinks(cfg)|
    requires StepRows(cfg, s).Some?
    ensures RowsOk(cfg, StepRows(cfg, s).value)
  {
    hide DbOk, WellFormed, ReceptorAccepted, SelectedSinks, HasStore, UpsertTarget, UpsertDelivery, UpsertSource,
         UpsertMatch, InsertEvent, InsertIdempotency, Destination, TargetSays, HasStatus, EventOf;
    var item, sink := s.worker.item, SelectedSinks(cfg)[s.worker.index];
    match s.worker.stage
    case Matching(_, _) => UpsertedTargetSays(cfg, s.db, item, sink);
    case Targeted(event) =>
      TargetedIsQueued(s.db, item, sink.key, event);
      TargetStillSays(cfg, s.db, UpsertDelivery(s.db, event, s.db.targets[sink.key].id), item, sink);
    case _ =>
  }

  lemma TargetStillSays(cfg: Setup, was: Database, db: Database, item: Item, sink: SinkConfig)
    requires TargetSays(cfg, was, item, sink) && db.targets == was.targets
    ensures TargetSays(cfg, db, item, sink)
  {
  }

  lemma MarkedStatus(db: Database, item: Item, sink: SinkKey, ticket: RowId, status: Status)
    requires DbOk(db) && TicketIs(db, item, sink, ticket) && !IsDelivered(db, item.server, item.id, sink)
    ensures HasStatus(MarkStatus(db, ticket, status), item, sink, status, status)
    ensures MarkStatus(db, ticket, status).targets == db.targets
  {
    MarkTicket(db, item, sink, ticket, status);
    hide DbOk, MarkStatus, Extends, RowOf;
  }

  lemma NewSinkHasNoRows(cfg: Setup, db: Database, s: State, item: Item, result: AttentionResult, i: nat)
    requires s.worker == StartSink(cfg, item, result, i)
    ensures RowsOk(cfg, s)
  {
  }

  lemma StatusIsWeaker(db: Database, item: Item, sink: SinkKey, a: Status, b: Status)
    requires HasStatus(db, item, sink, a, a) || HasStatus(db, item, sink, b, b)
    ensures HasStatus(db, item, sink, a, b)
  {
  }

  lemma UndeliveredIsQueued(db: Database, item: Item, sink: SinkKey)
    requires HasStatus(db, item, sink, Queued, Delivered) && !IsDelivered(db, item.server, item.id, sink)
    ensures HasStatus(db, item, sink, Queued, Failed)
  {
  }

  lemma SendStepKeepsRows(cfg: Setup, s: State)
    requires TablesOk(cfg, s) && RowsOk(cfg, s) && s.worker.AtSink? && s.worker.index < |SelectedSinks(cfg)|
    requires StepSend(cfg, s).Some?
    ensures RowsOk(cfg, StepSend(cfg, s).value)
  {
    hide DbOk, WellFormed, SelectedSinks, HasStore, MarkStatus, TargetSays, HasStatus, DeliveredById, StartSink,
         IsDelivered, TicketIs, RowOf;
    var item, sink := s.worker.item, SelectedSinks(cfg)[s.worker.index];
    var next := StepSend(cfg, s).value;
    SendLeavesTargets(cfg, s);
    if next.worker == StartSink(cfg, item, s.worker.result, s.worker.index + 1) {
      NewSinkHasNoRows(cfg, next.db, next, item, s.worker.result, s.worker.index + 1);
    } else if HasStore(cfg) {
      TargetStillSays(cfg, s.db, next.db, item, sink);
      match s.worker.stage
      case Ticketed(event, ticket) =>
        DeliveredTicket(s.db, item, sink.key, ticket);
        UndeliveredIsQueued(s.db, item, sink.key);
      case Attempt(wake) => MarkedStatus(s.db, item, sink.key, wake.value, Attempted);
      case Rejected(wake) =>
        MarkedStatus(s.db, item, sink.key, wake.value, Failed);
        StatusIsWeaker(next.db, item, sink.key, Queued, Failed);
      case _ =>
    }
  }

  /** Every step keeps what the rows of the sink in hand say. */
  lemma StepKeepsRows(cfg: Setup, s: State, a: Action)
    requires TablesOk(cfg, s) && RowsOk(cfg, s) && Next(cfg, s, a).Some?
    ensures RowsOk(cfg, Next(cfg, s, a).value)
  {
    hide TablesOk, HasStore, TargetSays, HasStatus, SelectedSinks, Interrupted, Reloaded, StepRows, StepSend;
    if a.Advance? && s.worker.AtSink? {
      if StepAdvance(cfg, s) == StepRows(cfg, s) {
        RowsStepKeepsRows(cfg, s);
      } else {
        SendStepKeepsRows(cfg, s);
      }
    } else {
      hide StepReconcile, UpsertSource, UpsertDecision, Runtime.MarkProcessed;
      OthersKeepRows(cfg, s, a);
    }
  }

  lemma OthersKeepRows(cfg: Setup, s: State, a: Action)
    requires RowsOk(cfg, s) && Next(cfg, s, a).Some? && !(a.Advance? && s.worker.AtSink?)
    ensures RowsOk(cfg, Next(cfg, s, a).value)
  {
    hide HasStore, TargetSays, HasStatus, SelectedSinks, Interrupted, Reloaded, StepRows, StepSend, StepRecord,
         StepReconcile, Runtime.MarkProcessed, AnyEnabled;
    var next := Next(cfg, s, a).value;
    if a.Advance? && !s.worker.Marking? && !s.worker.Flushing? {
      EarlyStartsFresh(cfg, s);
    }
  }

  lemma EarlyStartsFresh(cfg: Setup, s: State)
    requires !s.worker.AtSink? && !s.worker.Marking? && !s.worker.Flushing? && StepAdvance(cfg, s).Some?
    ensures var next := StepAdvance(cfg, s).value;
      next.worker.AtSink? ==> !PastTarget(next.worker.stage) || !HasStore(cfg)
  {
    hide UpsertSource, UpsertDecision, UpsertTarget, ClearDisabled, SoftDisable, DisableMissing, SelectedSinks,
         HasStore, AnyEnabled, DefaultDestination;
  }

  // ----- The marks -----

  /** Each mark says what happened: a start of sending makes the row attempted, an Ok reply delivered, any other
      outcome failed, and the database sink is delivered at once. */
  lemma MarksSayOutcomes(cfg: Setup, s: State)
    requires TablesOk(cfg, s) && HasStore(cfg) && s.worker.AtSink? && StepSend(cfg, s).Some?
    ensures var next, item, sink := StepSend(cfg, s).value, s.worker.item, SelectedSinks(cfg)[s.worker.index];
      && (s.worker.stage.Attempt? ==> HasStatus(next.db, item, sink.key, Attempted, Attempted))
      && (s.worker.stage.Confirm? ==> HasStatus(next.db, item, sink.key, Delivered, Delivered))
      && (s.worker.stage.Rejected? ==> HasStatus(next.db, item, sink.key, Failed, Failed))
      && (s.worker.stage.Ticketed? && sink.kind == Db ==> HasStatus(next.db, item, sink.key, Delivered, Delivered))
  {
    hide DbOk, WellFormed, SelectedSinks, HasStore, MarkStatus, DeliveredById, StartSink, IsDelivered, TicketIs, RowOf,
         HasStatus;
    var item, sink := s.worker.item, SelectedSinks(cfg)[s.worker.index];
    match s.worker.stage
    case Ticketed(_, ticket) => MarkedDelivered(s.db, item, sink.key, ticket);
    case Attempt(wake) => MarkedStatus(s.db, item, sink.key, wake.value, Attempted);
    case Confirm(wake) => MarkedStatus(s.db, item, sink.key, wake.value, Delivered);
    case Rejected(wake) => MarkedStatus(s.db, item, sink.key, wake.value, Failed);
    case _ =>
  }

  lemma MarkedDelivered(db: Database, item: Item, sink: SinkKey, ticket: RowId)
    requires DbOk(db) && TicketIs(db, item, sink, ticket)
    ensures HasStatus(MarkStatus(db, ticket, Delivered), item, sink, Delivered, Delivered)
  {
    MarkTicket(db, item, sink, ticket, Delivered);
    hide DbOk, MarkStatus, Extends, RowOf;
  }

  // ----- The queue -----

  ghost predicate QueueFits(cfg: Setup, s: State) {
    |s.queue| <= cfg.capacity
  }

  lemma StepKeepsQueueFits(cfg: Setup, s: State, a: Action)
    requires QueueFits(cfg, s) && Next(cfg, s, a).Some?
    ensures QueueFits(cfg, Next(cfg, s, a).value)
  {
    hide StepAdvance, Interrupted, Route, Reloaded;
    if a.Advance? {
      AdvanceLeavesQueue(cfg, s);
    }
  }

  lemma AdvanceLeavesQueue(cfg: Setup, s: State)
    requires StepAdvance(cfg, s).Some?
    ensures StepAdvance(cfg, s).value.queue == s.queue
  {
    hide UpsertSource, UpsertDecision, UpsertTarget, UpsertDelivery, UpsertMatch, InsertEvent, InsertIdempotency,
         ClearDisabled, SoftDisable, DisableMissing, MarkStatus, SelectedSinks, StartSink, Route, Destination,
         DefaultDestination, ReceptorAccepted, DeliveredById, Runtime.MarkProcessed;
  }
}
