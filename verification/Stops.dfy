/** What stops do lead to: reachable states with many events for one message, with many Ok replies to one wake, and
    with a delivered event that shows no accepted match. Each holds for every configuration that can deliver. */
module Stops {
  import opened Accounting
  import opened Attention
  import opened Delivery
  import opened Frames
  import opened Inbound
  import opened Protocol
  import Receptors
  import opened Runtime
  import opened Storage
  import opened StoreCalls
  import opened Supervisor
  import opened Tables
  import opened Targets
  import Text
  import opened WorkerInvariant
  import opened Wrappers

  /** A database sink is enabled, no destination is blank, and the queue holds something. */
  ghost predicate CanDeliver(cfg: Setup, server: ServerKey) {
    && HasStore(cfg) && server in cfg.servers && 0 < cfg.capacity
    && BeforeBlank(cfg.sinks, cfg.databasePath, cfg.wakeSession) == |cfg.sinks|
  }

  /** A process life that has just begun and finds no runtime file. */
  ghost predicate AtRest(cfg: Setup, s: State) {
    && s.worker.Idle? && s.queue == [] && s.disk == map[]
    && s.mem == Reloaded(cfg, map[], 0)
    && s.tasks == map server | server in cfg.servers :: Listening
  }

  lemma InitialRests(cfg: Setup)
    ensures AtRest(cfg, Initial(cfg, 0)) && Reachable(cfg, Initial(cfg, 0))
  {
    hide Loaded;
    FollowsItself(cfg, Initial(cfg, 0));
    var actions :| Leads(cfg, Initial(cfg, 0), actions, Initial(cfg, 0));
  }

  lemma CrashRests(cfg: Setup, s: State)
    requires Reachable(cfg, s) && s.disk == map[]
    ensures AtRest(cfg, StepCrash(cfg, s, 0)) && Reachable(cfg, StepCrash(cfg, s, 0))
  {
    hide Loaded, Interrupted, Follows, Reachable;
    StepFollows(cfg, s, Crash(0), StepCrash(cfg, s, 0));
    FollowedIsReachable(cfg, s, StepCrash(cfg, s, 0));
  }

  lemma FollowedExtends(cfg: Setup, s: State, t: State)
    requires Reachable(cfg, s) && Follows(cfg, s, t)
    ensures Reachable(cfg, t) && TablesOk(cfg, t) && DbOk(t.db) && Extends(s.db, t.db)
  {
    FollowedIsReachable(cfg, s, t);
    ReachableIsOk(cfg, s);
    ReachableIsOk(cfg, t);
    hide Reachable, Leads, Extends, DbOk;
    assert DbOk(t.db) && TablesOk(cfg, t);
    hide Inv, TablesOk;
    var actions :| Leads(cfg, s, actions, t);
    RunKeepsInv(cfg, s, actions, t);
  }

  // ----- One message on its way to the first sink -----

  /** A message on the discard floor, which is not before it. */
  function Message(cfg: Setup, server: ServerKey): Item {
    Item(server, "m", if cfg.floor.Some? then cfg.floor.value else Stamp("t", None), [], None)
  }

  lemma MessageIsAdmitted(cfg: Setup, server: ServerKey)
    requires server in cfg.servers
    ensures var r := Reloaded(cfg, map[], 0)[server];
      Accepts(r, Message(cfg, server).id, Message(cfg, server).stamp)
  {
    if cfg.floor.Some? {
      Text.LessIrreflexive(cfg.floor.value.text);
    }
  }

  ghost function Prepared(cfg: Setup, db: Database, item: Item, result: AttentionResult): Database {
    DisableMissing(ReconcileSinks(WithDecision(db, item.server, item.id, result), cfg.sinks, cfg.databasePath,
                                  cfg.wakeSession), cfg.sinks)
  }

  lemma {:induction false} ReconcileFrames(db: Database, sinks: seq<SinkConfig>, databasePath: string,
                                           wakeSession: string)
    ensures var next := ReconcileSinks(db, sinks, databasePath, wakeSession);
      next == db.(targets := next.targets, nextId := next.nextId)
    decreases |sinks|
  {
    if sinks != [] {
      var last := sinks[|sinks| - 1];
      var before := ReconcileSinks(db, sinks[..|sinks| - 1], databasePath, wakeSession);
      ReconcileFrames(db, sinks[..|sinks| - 1], databasePath, wakeSession);
      var destination := TargetDestination(last, databasePath, wakeSession);
      TargetFrame(before, last.key, last.kind, destination);
      var upserted := UpsertTarget(before, last.key, last.kind, destination);
      TargetInPlace(before, last.key, last.kind, destination);
      hide UpsertTarget, ClearDisabled, SoftDisable, TargetDestination;
      if last.enabled {
        ClearFrame(upserted, upserted.targets[last.key].id);
      } else {
        DisableFrame(upserted, upserted.targets[last.key].id, "sink disabled in config");
      }
    }
  }

  lemma PreparedFrames(cfg: Setup, db: Database, item: Item, result: AttentionResult)
    ensures var next := Prepared(cfg, db, item, result);
      && item.server in next.sources && next.sources == UpsertSource(db, item.server).sources
      && next == db.(sources := next.sources, decisions := next.decisions, targets := next.targets,
                     nextId := next.nextId)
  {
    var recorded := WithDecision(db, item.server, item.id, result);
    ReconcileFrames(recorded, cfg.sinks, cfg.databasePath, cfg.wakeSession);
    hide ReconcileSinks, DisableMissing;
    MissingFrame(ReconcileSinks(recorded, cfg.sinks, cfg.databasePath, cfg.wakeSession), cfg.sinks);
  }

  /** The message is received and taken by the worker. */
  lemma IsTaken(cfg: Setup, s: State, server: ServerKey) returns (t: State)
    requires CanDeliver(cfg, server) && AtRest(cfg, s)
    ensures Follows(cfg, s, t)
    ensures t.worker == Evaluating(Message(cfg, server)) && t.db == s.db && t.disk == s.disk && t.hist == s.hist
  {
    var item := Message(cfg, server);
    MessageIsAdmitted(cfg, server);
    MessageIsFor(cfg, server);
    assert server in s.mem && server in s.tasks && s.tasks[server].Listening?;
    hide Follows, Message, Accepts, BeforeBlank, HasStore, ShouldEnqueue, Loaded;
    ReceiptFollows(cfg, s, item);
    var received := Received(cfg, s, item);
    assert received.queue == [item] && received.queue[1..] == [] && received.worker.Idle?;
    TakeFollows(cfg, received);
    t := received.(worker := Evaluating(item), queue := []);
    FollowsThrough(cfg, s, received, t);
  }

  /** The message is received, judged, recorded, and stands before the first sink. */
  lemma ReachesSink(cfg: Setup, s: State, server: ServerKey, result: AttentionResult) returns (t: State)
    requires CanDeliver(cfg, server) && AtRest(cfg, s)
    requires WellFormed(result) && result.deliver
    ensures Follows(cfg, s, t)
    ensures t.worker == AtSink(Message(cfg, server), result, 0, Guard)
    ensures t.disk == s.disk && t.hist == Recorded(s.hist, Message(cfg, server), result)
    ensures t.db == Prepared(cfg, s.db, Message(cfg, server), result)
  {
    var item := Message(cfg, server);
    FirstSinkIsDb(cfg);
    hide AtRest, Follows, Message, WellFormed, ReconcileSinks, DisableMissing, WithDecision, BeforeBlank, SelectedSinks;
    hide HasStore, AnyEnabled;
    var taken := IsTaken(cfg, s, server);
    DecideFollows(cfg, taken, result);
    var decided := taken.(worker := Recording(item, result));
    FollowsThrough(cfg, s, taken, decided);
    DecisionCallFollows(cfg, decided);
    var db := WithDecision(decided.db, item.server, item.id, result);
    var recorded := decided.(db := db, worker := Reconciling(item, result, 0, false),
                             hist := Recorded(decided.hist, item, result));
    FollowsThrough(cfg, s, decided, recorded);
    ReconcileCallFollows(cfg, recorded);
    t := recorded.(db := Prepared(cfg, s.db, item, result), worker := AtSink(item, result, 0, Guard));
    FollowsThrough(cfg, s, recorded, t);
  }

  lemma MessageIsFor(cfg: Setup, server: ServerKey)
    ensures Message(cfg, server).server == server && Message(cfg, server).id == "m"
  {
  }

  lemma RestHasNoFile(cfg: Setup, s: State)
    requires AtRest(cfg, s)
    ensures s.disk == map[]
  {
  }

  /** With a store the first selected sink is a database sink, and there is only one. */
  lemma FirstSinkIsDb(cfg: Setup)
    requires HasStore(cfg)
    ensures AnyEnabled(cfg) && SelectedSinks(cfg) != [] && SelectedSinks(cfg)[0].kind == Db
    ensures SelectedSinks(cfg)[0] in cfg.sinks
    ensures SelectedSinks(cfg)[1..] == WakeSinks(cfg.sinks)
  {
    DbSinkIsEnabled(cfg.sinks);
    SelectedInOrder(cfg);
  }

  lemma DestinationIsGiven(cfg: Setup, server: ServerKey, i: nat)
    requires CanDeliver(cfg, server) && i < |SelectedSinks(cfg)|
    ensures !Receptors.Blank(Destination(cfg, SelectedSinks(cfg)[i], Message(cfg, server)))
  {
    SelectedMeaning(cfg);
    assert SelectedSinks(cfg)[i] in SelectedSinks(cfg);
    var j :| 0 <= j < |cfg.sinks| && cfg.sinks[j] == SelectedSinks(cfg)[i];
  }

  // ----- Judgements -----

  /** A result that delivers on one accepted receptor. */
  function Judged(matches: seq<ReceptorMatch>): AttentionResult {
    AttentionResult(true, matches, None, false, Deliver, false)
  }

  const ACCEPTED := ReceptorMatch("a", Receptors.Broad, 0.9, 0.5, true)
  const RAISED := ReceptorMatch("a", Receptors.Broad, 0.9, 0.95, false)
  const OTHER := ReceptorMatch("b", Receptors.Broad, 0.8, 0.5, true)

  lemma JudgementsAreWellFormed()
    ensures WellFormed(Judged([ACCEPTED])) && WellFormed(Judged([RAISED, OTHER]))
    ensures ReceptorAccepted(Judged([ACCEPTED])) && ReceptorAccepted(Judged([RAISED, OTHER]))
  {
    assert ACCEPTED in [ACCEPTED] && OTHER in [RAISED, OTHER];
  }

  // ----- Many events for one message -----

  /** Every event is one of the message, and no idempotency row names any. */
  ghost predicate OnlyOrphans(db: Database, item: Item) {
    && db.idempotency == map[]
    && (db.events != map[] ==> item.server in db.sources)
    && forall e <- db.events :: db.events[e] == EventRow(db.sources[item.server], item.id)
  }

  lemma OnlyOrphansStay(cfg: Setup, db: Database, item: Item, result: AttentionResult)
    requires OnlyOrphans(db, item)
    ensures OnlyOrphans(Prepared(cfg, db, item, result), item)
  {
    PreparedFrames(cfg, db, item, result);
    hide Prepared;
  }

  /** Before the first sink the event of an unmapped message is inserted. */
  lemma EventIsInserted(cfg: Setup, s: State) returns (t: State)
    requires s.worker.AtSink? && s.worker.index < |SelectedSinks(cfg)| && s.worker.stage.Guard?
    requires ReceptorAccepted(s.worker.result)
    requires s.worker.item.server in s.db.sources && s.db.idempotency == map[]
    ensures Follows(cfg, s, t)
    ensures t == AtStage(s, InsertEvent(s.db, s.db.sources[s.worker.item.server], s.worker.item.id),
                         Inserted(s.db.nextId))
  {
    hide Follows, ReceptorAccepted, SelectedSinks;
    SourcedFollows(cfg, s);
    var sourced := AtStage(s, s.db, Lookup);
    t := AtStage(s, InsertEvent(s.db, s.db.sources[s.worker.item.server], s.worker.item.id), Inserted(s.db.nextId));
    AdvanceFollows(cfg, sourced, t);
    FollowsThrough(cfg, s, sourced, t);
  }

  lemma StopOrphans(cfg: Setup, s: State)
    requires s.worker.AtSink? && s.worker.index < |SelectedSinks(cfg)| && s.worker.stage.Inserted?
    ensures |StepCrash(cfg, s, 0).hist.orphans| == |s.hist.orphans| + 1 && StepCrash(cfg, s, 0).db == s.db
  {
    hide SelectedSinks, Reloaded;
  }

  lemma OneMoreOnlyOrphan(db: Database, item: Item)
    requires OnlyOrphans(db, item) && item.server in db.sources
    ensures OnlyOrphans(InsertEvent(db, db.sources[item.server], item.id), item)
  {
  }

  /** The message is received, its event inserted, and the process dies before the idempotency row. */
  lemma OneMoreOrphan(cfg: Setup, s: State, server: ServerKey) returns (t: State)
    requires CanDeliver(cfg, server) && Reachable(cfg, s) && AtRest(cfg, s)
    requires OnlyOrphans(s.db, Message(cfg, server))
    ensures Reachable(cfg, t) && AtRest(cfg, t)
    ensures OnlyOrphans(t.db, Message(cfg, server)) && Message(cfg, server).server in t.db.sources
    ensures |t.hist.orphans| == |s.hist.orphans| + 1
  {
    var item, result := Message(cfg, server), Judged([ACCEPTED]);
    JudgementsAreWellFormed();
    assert s.disk == map[];
    FirstSinkIsDb(cfg);
    hide Message, Follows, Reachable, AtRest, CanDeliver, SelectedSinks, WellFormed, ReceptorAccepted;
    var first := ReachesSink(cfg, s, server, result);
    OnlyOrphansStay(cfg, s.db, item, result);
    PreparedFrames(cfg, s.db, item, result);
    hide Prepared;
    var inserted := EventIsInserted(cfg, first);
    OneMoreOnlyOrphan(first.db, item);
    hide OnlyOrphans, InsertEvent;
    FollowsThrough(cfg, s, first, inserted);
    FollowedIsReachable(cfg, s, inserted);
    CrashRests(cfg, inserted);
    StopOrphans(cfg, inserted);
    t := StepCrash(cfg, inserted, 0);
    hide StepCrash;
  }

  lemma SourcedFollows(cfg: Setup, s: State)
    requires s.worker.AtSink? && s.worker.index < |SelectedSinks(cfg)| && s.worker.stage.Guard?
    requires ReceptorAccepted(s.worker.result)
    ensures Follows(cfg, s, AtStage(s, UpsertSource(s.db, s.worker.item.server), Lookup))
  {
    hide Follows, ReceptorAccepted, SelectedSinks;
    var guarded := AtStage(s, s.db, Source);
    AdvanceFollows(cfg, s, guarded);
    var sourced := AtStage(s, UpsertSource(s.db, s.worker.item.server), Lookup);
    AdvanceFollows(cfg, guarded, sourced);
    FollowsThrough(cfg, s, guarded, sourced);
  }

  lemma {:induction false} OrphansPileUp(cfg: Setup, server: ServerKey, n: nat) returns (t: State)
    requires CanDeliver(cfg, server)
    ensures Reachable(cfg, t) && AtRest(cfg, t) && |t.hist.orphans| == n
    ensures OnlyOrphans(t.db, Message(cfg, server))
    ensures 0 < n ==> Message(cfg, server).server in t.db.sources
  {
    if n == 0 {
      InitialRests(cfg);
      t := Initial(cfg, 0);
    } else {
      hide Reachable, AtRest, CanDeliver, Message, OnlyOrphans;
      var s := OrphansPileUp(cfg, server, n - 1);
      t := OneMoreOrphan(cfg, s, server);
    }
  }

  /** One message can have any number of events, none of them mapped: one for each stop between the two
      statements that insert an event and its idempotency row. */
  lemma AnyNumberOfEvents(cfg: Setup, server: ServerKey, n: nat) returns (s: State)
    requires CanDeliver(cfg, server) && 0 < n
    ensures Reachable(cfg, s) && server in s.db.sources
    ensures |s.db.events| == n && Orphans(s.db) == s.db.events.Keys
    ensures forall e <- s.db.events :: s.db.events[e] == EventRow(s.db.sources[server], "m")
  {
    s := OrphansPileUp(cfg, server, n);
    hide Reachable, CanDeliver;
    RowsPointAtMappedEvents(cfg, s);
    assert Orphans(s.db) == s.db.events.Keys;
    assert |s.db.events.Keys| == |s.db.events|;
  }

  // ----- A delivered event without an accepted match -----

  lemma {:induction false} MatchesFrame(db: Database, event: RowId, ms: seq<ReceptorMatch>)
    ensures var next := UpsertMatches(db, event, ms); next == db.(matches := next.matches)
    decreases |ms|
  {
    if ms != [] {
      MatchesFrame(db, event, ms[..|ms| - 1]);
    }
  }

  lemma EnsuredFrame(db: Database, server: ServerKey, message: MessageId)
    ensures var next := EnsureEvent(db, server, message);
      next == db.(sources := next.sources, events := next.events, idempotency := next.idempotency,
                  nextId := next.nextId)
  {
  }

  lemma QueuedFrame(db: Database, event: RowId, sink: SinkKey, kind: SinkKind, destination: string)
    ensures var next := WithDelivery(db, event, sink, kind, destination);
      next == db.(targets := next.targets, deliveries := next.deliveries, nextId := next.nextId)
  {
    TargetFrame(db, sink, kind, destination);
    TargetInPlace(db, sink, kind, destination);
    var upserted := UpsertTarget(db, sink, kind, destination);
    hide UpsertTarget, UpsertDelivery;
    DeliveryFrame(upserted, event, upserted.targets[sink].id);
  }

  lemma CanonicalFrame(db: Database, server: ServerKey, message: MessageId, result: AttentionResult)
    ensures var next, ensured := CanonicalEvent(db, server, message, result), EnsureEvent(db, server, message);
      && next.targets == db.targets && next.deliveries == db.deliveries && next.decisions == db.decisions
      && next.sources == ensured.sources && next.idempotency == ensured.idempotency
      && EventOf(next, server, message) == Some(EventFor(db, server, message))
  {
    EnsuredFrame(db, server, message);
    MatchesFrame(EnsureEvent(db, server, message), EventFor(db, server, message), result.matches);
    hide EnsureEvent, UpsertMatches;
  }

  /** Only deliveries to one sink are marked delivered. */
  ghost predicate OnlyDelivered(db: Database, sink: SinkKey) {
    forall k <- db.deliveries :: db.deliveries[k].status == Delivered ==>
      sink in db.targets && k.target == db.targets[sink].id
  }

  lemma QueueingKeepsOnly(db: Database, event: RowId, sink: SinkKey, kind: SinkKind, destination: string, only: SinkKey)
    requires OnlyDelivered(db, only)
    ensures OnlyDelivered(WithDelivery(db, event, sink, kind, destination), only)
  {
    TargetInPlace(db, sink, kind, destination);
    TargetKeepsOnly(db, sink, kind, destination, only);
    var upserted := UpsertTarget(db, sink, kind, destination);
    hide UpsertTarget, OnlyDelivered;
    RowKeepsOnly(upserted, event, upserted.targets[sink].id, only);
    hide UpsertDelivery;
  }

  lemma TargetKeepsOnly(db: Database, sink: SinkKey, kind: SinkKind, destination: string, only: SinkKey)
    requires OnlyDelivered(db, only)
    ensures OnlyDelivered(UpsertTarget(db, sink, kind, destination), only)
  {
    TargetFrame(db, sink, kind, destination);
    UpsertTargetChanges(db, sink, kind, destination);
    if sink in db.targets {
      assert UpsertTarget(db, sink, kind, destination).targets[sink].id == db.targets[sink].id;
    }
    hide UpsertTarget;
  }

  lemma RowKeepsOnly(db: Database, event: RowId, target: RowId, only: SinkKey)
    requires OnlyDelivered(db, only)
    ensures OnlyDelivered(UpsertDelivery(db, event, target), only)
  {
    var key := DeliveryKey(event, target);
    if key !in db.deliveries {
      QueuedRowKeepsOnly(db, key, DeliveryRow(db.nextId, Status.Queued), db.nextId + 1, only);
    } else if db.deliveries[key].status != Delivered {
      QueuedRowKeepsOnly(db, key, DeliveryRow(db.deliveries[key].id, Status.Queued), db.nextId, only);
    }
    hide OnlyDelivered;
  }

  lemma QueuedRowKeepsOnly(db: Database, key: DeliveryKey, row: DeliveryRow, next: RowId, only: SinkKey)
    requires OnlyDelivered(db, only) && row.status == Status.Queued
    ensures OnlyDelivered(db.(deliveries := db.deliveries[key := row], nextId := next), only)
  {
  }

  lemma MarkingKeepsOnly(db: Database, event: RowId, sink: SinkKey, ticket: RowId)
    requires DbOk(db) && DeliveryId(db, event, sink) == Some(ticket) && OnlyDelivered(db, sink)
    ensures OnlyDelivered(MarkStatus(db, ticket, Delivered), sink)
  {
    hide SourceIdsOk, EventIdsOk, TargetIdsOk, ReferencesHold;
  }

  lemma PreparingKeepsOnly(cfg: Setup, db: Database, item: Item, result: AttentionResult, only: SinkKey)
    requires OnlyDelivered(db, only) && Extends(db, Prepared(cfg, db, item, result))
    ensures OnlyDelivered(Prepared(cfg, db, item, result), only)
  {
    PreparedFrames(cfg, db, item, result);
    hide Prepared;
  }

  /** A queued delivery of the message: its ticket is the row of its event and the sink. */
  lemma QueuesDelivery(cfg: Setup, s: State, server: ServerKey, result: AttentionResult, i: nat) returns (t: State)
    requires CanDeliver(cfg, server) && Reachable(cfg, s) && ReceptorAccepted(result)
    requires i < |SelectedSinks(cfg)| && s.worker == AtSink(Message(cfg, server), result, i, Guard)
    ensures Follows(cfg, s, t) && Reachable(cfg, t) && TablesOk(cfg, t) && DbOk(t.db)
    ensures t.worker.AtSink? && t.worker.stage.Ticketed?
    ensures t.worker == AtSink(Message(cfg, server), result, i, t.worker.stage)
    ensures t.disk == s.disk && t.hist.(cut := map[], decided := map[]) == s.hist.(cut := map[], decided := map[])
    ensures var event, sink := EventFor(s.db, server, "m"), SelectedSinks(cfg)[i];
      && t.db == WithDelivery(CanonicalEvent(s.db, server, "m", result), event, sink.key, sink.kind,
                              Destination(cfg, sink, Message(cfg, server)))
      && DeliveryId(t.db, event, sink.key) == Some(t.worker.stage.ticket)
    ensures TicketIs(t.db, Message(cfg, server), SelectedSinks(cfg)[i].key, t.worker.stage.ticket)
  {
    DestinationIsGiven(cfg, server, i);
    var item, sink := Message(cfg, server), SelectedSinks(cfg)[i];
    assert item.server == server && item.id == "m";
    hide Message, HasStore, SelectedSinks, Reachable, Follows, BeforeBlank, ReceptorAccepted, Destination,
         Receptors.Blank;
    hide CanonicalEvent, WithDelivery, DeliveryId, EventFor, CanDeliver;
    QueueCallFollows(cfg, s);
    t := TicketedState(cfg, s, DeliveryId(QueuedRows(cfg, s), EventFor(s.db, server, "m"), sink.key).value);
    FollowedExtends(cfg, s, t);
    TicketedIs(cfg, t);
  }

  ghost function QueuedFor(cfg: Setup, db: Database, server: ServerKey, result: AttentionResult, i: nat): Database
    requires i < |SelectedSinks(cfg)|
  {
    var sink := SelectedSinks(cfg)[i];
    WithDelivery(CanonicalEvent(db, server, "m", result), EventFor(db, server, "m"), sink.key, sink.kind,
                 Destination(cfg, sink, Message(cfg, server)))
  }

  /** The first sink queues and marks its delivery. */
  lemma DbSinkDelivers(cfg: Setup, s: State, server: ServerKey, result: AttentionResult) returns (t: State)
    requires CanDeliver(cfg, server) && Reachable(cfg, s) && ReceptorAccepted(result)
    requires s.worker == AtSink(Message(cfg, server), result, 0, Guard)
    ensures Follows(cfg, s, t) && Reachable(cfg, t)
    ensures t.worker == StartSink(cfg, Message(cfg, server), result, 1)
    ensures t.disk == s.disk && t.hist.(cut := map[], decided := map[]) == s.hist.(cut := map[], decided := map[])
    ensures SelectedSinks(cfg) != []
    ensures IsDelivered(t.db, server, "m", SelectedSinks(cfg)[0].key)
    ensures t.db.matches == CanonicalEvent(s.db, server, "m", result).matches
    ensures EventOf(t.db, server, "m") == Some(EventFor(s.db, server, "m"))
    ensures OnlyDelivered(s.db, SelectedSinks(cfg)[0].key) ==> OnlyDelivered(t.db, SelectedSinks(cfg)[0].key)
  {
    FirstSinkIsDb(cfg);
    var item, sink := Message(cfg, server), SelectedSinks(cfg)[0];
    assert item.server == server && item.id == "m";
    hide Message, HasStore, SelectedSinks, Reachable, Follows, BeforeBlank, ReceptorAccepted, Destination, CanDeliver;
    hide CanonicalEvent, WithDelivery, DeliveryId, EventFor, EventOf, MarkStatus, StartSink, OnlyDelivered, TablesOk,
         DbOk;
    hide TicketIs, RowOf, Extends;
    var ticketed := QueuesDelivery(cfg, s, server, result, 0);
    var ticket := ticketed.worker.stage.ticket;
    TicketFollows(cfg, ticketed);
    t := AfterTicket(cfg, ticketed);
    FollowsThrough(cfg, s, ticketed, t);
    FollowedIsReachable(cfg, s, t);
    MarkTicket(ticketed.db, item, sink.key, ticket, Delivered);
    assert ticketed.db == QueuedFor(cfg, s.db, server, result, 0);
    hide QueuedFor;
    MarkedEffects(cfg, s.db, server, result, ticket);
  }

  /** A marked delivery leaves the matches and the event of the message as queueing made them. */
  lemma MarkedEffects(cfg: Setup, db: Database, server: ServerKey, result: AttentionResult, ticket: RowId)
    requires SelectedSinks(cfg) != [] && DbOk(QueuedFor(cfg, db, server, result, 0))
    requires DeliveryId(QueuedFor(cfg, db, server, result, 0), EventFor(db, server, "m"),
                        SelectedSinks(cfg)[0].key) == Some(ticket)
    ensures var next := MarkStatus(QueuedFor(cfg, db, server, result, 0), ticket, Delivered);
      && next.matches == CanonicalEvent(db, server, "m", result).matches
      && EventOf(next, server, "m") == Some(EventFor(db, server, "m"))
      && (OnlyDelivered(db, SelectedSinks(cfg)[0].key) ==> OnlyDelivered(next, SelectedSinks(cfg)[0].key))
  {
    hide SelectedSinks, Destination, CanonicalEvent, WithDelivery, DeliveryId, EventFor, MarkStatus, OnlyDelivered,
         DbOk, EnsureEvent;
    var sink, event, canonical := SelectedSinks(cfg)[0], EventFor(db, server, "m"),
      CanonicalEvent(db, server, "m", result);
    var queued := QueuedFor(cfg, db, server, result, 0);
    CanonicalFrame(db, server, "m", result);
    QueuedFrame(canonical, event, sink.key, sink.kind, Destination(cfg, sink, Message(cfg, server)));
    MarkFrame(queued, ticket, Delivered);
    if OnlyDelivered(db, sink.key) {
      SameDeliveriesSameOnly(db, canonical, sink.key);
      QueueingKeepsOnly(canonical, event, sink.key, sink.kind, Destination(cfg, sink, Message(cfg, server)), sink.key);
      MarkingKeepsOnly(queued, event, sink.key, ticket);
    }
  }

  lemma SameDeliveriesSameOnly(was: Database, db: Database, only: SinkKey)
    requires OnlyDelivered(was, only) && db.targets == was.targets && db.deliveries == was.deliveries
    ensures OnlyDelivered(db, only)
  {
  }

  lemma TicketedIs(cfg: Setup, s: State)
    requires TablesOk(cfg, s) && s.worker.AtSink? && s.worker.stage.Ticketed?
    ensures s.worker.index < |SelectedSinks(cfg)|
    ensures TicketIs(s.db, s.worker.item, SelectedSinks(cfg)[s.worker.index].key, s.worker.stage.ticket)
  {
    hide DbOk, WellFormed, RowOf;
  }

  lemma OneMatchWritten(db: Database, event: RowId, m: ReceptorMatch)
    ensures UpsertMatches(db, event, [m]) == UpsertMatch(db, event, m)
  {
    assert [m][..0] == [];
    assert UpsertMatches(db, event, [m][..0]) == db;
  }

  /** After the first life: the message is delivered to the database sink on its one match. */
  lemma DeliveredOnce(cfg: Setup, server: ServerKey) returns (t: State)
    requires CanDeliver(cfg, server)
    ensures Reachable(cfg, t) && AtRest(cfg, t) && SelectedSinks(cfg) != []
    ensures IsDelivered(t.db, server, "m", SelectedSinks(cfg)[0].key)
    ensures EventOf(t.db, server, "m").Some?
    ensures t.db.matches.Keys == {KeyOfMatch(EventOf(t.db, server, "m").value, ACCEPTED)}
  {
    hide AtRest, Initial, Message, Follows, Reachable, CanDeliver, SelectedSinks, WellFormed, ReceptorAccepted,
         IsDelivered, Prepared;
    hide EventOf, EventFor, CanonicalEvent, StepCrash;
    var result := Judged([ACCEPTED]);
    JudgementsAreWellFormed();
    InitialRests(cfg);
    var s := Initial(cfg, 0);
    InitialHasNoRows(cfg);
    var first := ReachesSink(cfg, s, server, result);
    PreparedFrames(cfg, s.db, Message(cfg, server), result);
    FollowedIsReachable(cfg, s, first);
    var delivered := DbSinkDelivers(cfg, first, server, result);
    OneMatchOnly(first.db, server, "m", ACCEPTED);
    CrashRests(cfg, delivered);
    t := StepCrash(cfg, delivered, 0);
    CrashKeepsRows(cfg, delivered);
  }

  lemma InitialHasNoRows(cfg: Setup)
    ensures Initial(cfg, 0).db == EMPTY && Initial(cfg, 0).disk == map[]
  {
  }

  lemma CrashKeepsRows(cfg: Setup, s: State)
    ensures StepCrash(cfg, s, 0).db == s.db && StepCrash(cfg, s, 0).worker.Idle?
  {
  }

  lemma OneMatchOnly(db: Database, server: ServerKey, message: MessageId, m: ReceptorMatch)
    requires db.matches == map[]
    ensures CanonicalEvent(db, server, message, Judged([m])).matches.Keys
         == {KeyOfMatch(EventFor(db, server, message), m)}
  {
    var event := EventFor(db, server, message);
    EnsuredFrame(db, server, message);
    OneMatchWritten(EnsureEvent(db, server, message), event, m);
    hide EnsureEvent, EventFor, UpsertMatches;
  }

  /** The message is replayed under changed receptors, and the process dies after the first match row: the event
      is delivered and shows no accepted match. */
  lemma StopCanHideAcceptance(cfg: Setup, server: ServerKey) returns (s: State)
    requires CanDeliver(cfg, server)
    ensures Reachable(cfg, s) && s.worker.Idle? && SelectedSinks(cfg) != []
    ensures IsDelivered(s.db, server, "m", SelectedSinks(cfg)[0].key)
    ensures EventOf(s.db, server, "m").Some? && !Accepted(s.db, EventOf(s.db, server, "m").value)
  {
    hide AtRest, Message, Follows, Reachable, CanDeliver, SelectedSinks, WellFormed, ReceptorAccepted, IsDelivered,
         Prepared;
    hide EventOf, Extends, DbOk, TablesOk, Accepted, StepCrash;
    var result := Judged([RAISED, OTHER]);
    JudgementsAreWellFormed();
    var rested := DeliveredOnce(cfg, server);
    var event, sink := EventOf(rested.db, server, "m").value, SelectedSinks(cfg)[0].key;
    RestHasNoFile(cfg, rested);
    var first := ReachesSink(cfg, rested, server, result);
    PreparedFrames(cfg, rested.db, Message(cfg, server), result);
    MessageIsFor(cfg, server);
    FollowedExtends(cfg, rested, first);
    ExtendsKeepsRows(rested.db, first.db, server, "m", sink);
    var begun := RewriteBegins(cfg, first, server, event);
    FollowedExtends(cfg, first, begun);
    ExtendsKeepsRows(first.db, begun.db, server, "m", sink);
    CrashRests(cfg, begun);
    s := StepCrash(cfg, begun, 0);
    CrashKeepsRows(cfg, begun);
    OneRowHides(first.db, event);
  }

  /** A known event gets its first match row rewritten. */
  lemma RewriteBegins(cfg: Setup, s: State, server: ServerKey, event: RowId) returns (t: State)
    requires s.worker.AtSink? && s.worker.index < |SelectedSinks(cfg)| && s.worker.stage.Guard?
    requires s.worker.result == Judged([RAISED, OTHER])
    requires s.worker.item.server == server && s.worker.item.id == "m" && EventOf(s.db, server, "m") == Some(event)
    ensures Follows(cfg, s, t)
    ensures t.db == UpsertMatch(s.db, event, RAISED) && t.disk == s.disk
  {
    hide Follows, SelectedSinks, EventOf;
    JudgementsAreWellFormed();
    EventFollows(cfg, s);
    EnsuredIsThere(s.db, server, "m");
    var matching := AtStage(s, s.db, Matching(event, 0));
    MatchesFollow(cfg, matching, event, 1);
    assert s.worker.result.matches[..1] == [RAISED];
    OneMatchWritten(s.db, event, RAISED);
    t := AtStage(matching, UpsertMatch(s.db, event, RAISED), Matching(event, 1));
    FollowsThrough(cfg, s, matching, t);
  }

  lemma EnsuredIsThere(db: Database, server: ServerKey, message: MessageId)
    requires EventOf(db, server, message).Some?
    ensures EnsureEvent(db, server, message) == db
    ensures EventFor(db, server, message) == EventOf(db, server, message).value
  {
  }

  lemma OneRowHides(db: Database, event: RowId)
    requires db.matches.Keys == {KeyOfMatch(event, ACCEPTED)}
    ensures !Accepted(UpsertMatch(db, event, RAISED), event)
  {
    assert KeyOfMatch(event, RAISED) == KeyOfMatch(event, ACCEPTED);
  }

  // ----- Many Ok replies to one wake -----

  /** No delivery but those to the database sink is marked. */
  ghost predicate WakeUndelivered(cfg: Setup, s: State)
    requires SelectedSinks(cfg) != []
  {
    OnlyDelivered(s.db, SelectedSinks(cfg)[0].key)
  }

  function WakeJob(cfg: Setup, server: ServerKey): Job
    requires 1 < |SelectedSinks(cfg)|
  {
    Job(server, "m", SelectedSinks(cfg)[1].key)
  }

  lemma OnlyMeansUndelivered(cfg: Setup, db: Database, server: ServerKey, message: MessageId)
    requires DbOk(db) && UniqueSinkKeys(cfg.sinks) && HasStore(cfg) && 1 < |SelectedSinks(cfg)|
    requires OnlyDelivered(db, SelectedSinks(cfg)[0].key)
    ensures !IsDelivered(db, server, message, SelectedSinks(cfg)[1].key)
  {
    SecondSinkIsWake(cfg);
    hide SourceIdsOk, EventIdsOk, DeliveryIdsOk, ReferencesHold, SelectedSinks, HasStore, UniqueSinkKeys;
  }

  lemma SecondSinkIsWake(cfg: Setup)
    requires UniqueSinkKeys(cfg.sinks) && HasStore(cfg) && 1 < |SelectedSinks(cfg)|
    ensures SelectedSinks(cfg)[1].kind == AgentSessionWake
    ensures SelectedSinks(cfg)[1].key != SelectedSinks(cfg)[0].key
  {
    FirstSinkIsDb(cfg);
    WakeSinksAreEnabled(cfg.sinks);
    var first, second := SelectedSinks(cfg)[0], SelectedSinks(cfg)[1];
    assert second == SelectedSinks(cfg)[1..][0];
    hide SelectedSinks;
    assert second in WakeSinks(cfg.sinks) && first in cfg.sinks;
    var i :| 0 <= i < |cfg.sinks| && cfg.sinks[i] == first;
    var j :| 0 <= j < |cfg.sinks| && cfg.sinks[j] == second;
    assert i != j;
  }

  lemma StoreStartsAtGuard(cfg: Setup, server: ServerKey, result: AttentionResult)
    requires CanDeliver(cfg, server) && 1 < |SelectedSinks(cfg)|
    ensures StartSink(cfg, Message(cfg, server), result, 1) == AtSink(Message(cfg, server), result, 1, Guard)
  {
  }

  /** A wake attempted once and answered Ok. */
  lemma WakeIsAnswered(cfg: Setup, s: State, ticket: RowId) returns (t: State)
    requires Waking(cfg, s) && s.worker.stage == Attempt(Some(ticket))
    ensures Follows(cfg, s, t)
    ensures t.db == MarkStatus(s.db, ticket, Attempted) && t.worker == s.worker.(stage := Confirm(Some(ticket)))
    ensures t.disk == s.disk
    ensures t.hist.oks == s.hist.oks + multiset{JobOf(cfg, s)} && t.hist.lost == s.hist.lost
  {
    hide Follows, MarkStatus, SelectedSinks;
    AttemptFollows(cfg, s, Some(ticket));
    var attempted := AtStage(s, Marked(s.db, Some(ticket), Attempted), Sending(Some(ticket)));
    SendingFollows(cfg, attempted, Some(ticket));
    var sent := AtStage(attempted, attempted.db, Waiting(Some(ticket))).(
      hist := attempted.hist.(calls := attempted.hist.calls + multiset{JobOf(cfg, attempted)}));
    FollowsThrough(cfg, s, attempted, sent);
    t := AtStage(sent, sent.db, Confirm(Some(ticket))).(
      hist := sent.hist.(oks := sent.hist.oks + multiset{JobOf(cfg, sent)}));
    StepFollows(cfg, sent, GatewayReply(true), t);
    FollowsThrough(cfg, s, sent, t);
  }

  lemma AttemptKeepsOnly(db: Database, ticket: RowId, only: SinkKey)
    requires OnlyDelivered(db, only)
    ensures OnlyDelivered(MarkStatus(db, ticket, Attempted), only)
  {
  }

  /** Queueing the wake leaves it undelivered. */
  lemma QueuedWakeIsUndelivered(cfg: Setup, db: Database, server: ServerKey, result: AttentionResult, kind: SinkKind,
                                destination: string)
    requires UniqueSinkKeys(cfg.sinks) && HasStore(cfg) && 1 < |SelectedSinks(cfg)|
    requires OnlyDelivered(db, SelectedSinks(cfg)[0].key)
    ensures var next := WithDelivery(CanonicalEvent(db, server, "m", result), EventFor(db, server, "m"),
                                     SelectedSinks(cfg)[1].key, kind, destination);
      && OnlyDelivered(next, SelectedSinks(cfg)[0].key)
      && (DbOk(next) ==> !IsDelivered(next, server, "m", SelectedSinks(cfg)[1].key))
  {
    hide SelectedSinks, HasStore, UniqueSinkKeys, CanonicalEvent, EventFor, WithDelivery, OnlyDelivered, IsDelivered,
         DbOk;
    var canonical, event, only := CanonicalEvent(db, server, "m", result), EventFor(db, server, "m"),
      SelectedSinks(cfg)[0].key;
    CanonicalFrame(db, server, "m", result);
    SameDeliveriesSameOnly(db, canonical, only);
    QueueingKeepsOnly(canonical, event, SelectedSinks(cfg)[1].key, kind, destination, only);
    var next := WithDelivery(canonical, event, SelectedSinks(cfg)[1].key, kind, destination);
    if DbOk(next) {
      OnlyMeansUndelivered(cfg, next, server, "m");
    }
  }

  /** The message is before its wake, the database sink served. */
  lemma ReachesWake(cfg: Setup, s: State, server: ServerKey, result: AttentionResult) returns (t: State)
    requires CanDeliver(cfg, server) && 1 < |SelectedSinks(cfg)|
    requires Reachable(cfg, s) && AtRest(cfg, s) && OnlyDelivered(s.db, SelectedSinks(cfg)[0].key)
    requires WellFormed(result) && result.deliver
    ensures Reachable(cfg, t) && t.worker == AtSink(Message(cfg, server), result, 1, Guard) && t.disk == map[]
    ensures t.hist.(cut := map[], decided := map[]) == s.hist.(cut := map[], decided := map[])
    ensures OnlyDelivered(t.db, SelectedSinks(cfg)[0].key)
  {
    var first := ReachesSink(cfg, s, server, result);
    var key := SelectedSinks(cfg)[0].key;
    assert s.disk == map[] && ReceptorAccepted(result);
    StoreStartsAtGuard(cfg, server, result);
    hide AtRest, Follows, Reachable, CanDeliver, WellFormed, ReceptorAccepted, SelectedSinks, Extends, DbOk, TablesOk,
         OnlyDelivered;
    hide IsDelivered, StartSink, Message, CanonicalEvent, EventFor, EventOf, Prepared;
    FollowedExtends(cfg, s, first);
    PreparingKeepsOnly(cfg, s.db, Message(cfg, server), result, key);
    t := DbSinkDelivers(cfg, first, server, result);
  }

  /** The wake is queued and about to be attempted. */
  lemma WakeIsQueued(cfg: Setup, s: State, server: ServerKey, result: AttentionResult) returns (t: State)
    requires CanDeliver(cfg, server) && UniqueSinkKeys(cfg.sinks) && 1 < |SelectedSinks(cfg)|
    requires Reachable(cfg, s) && ReceptorAccepted(result) && OnlyDelivered(s.db, SelectedSinks(cfg)[0].key)
    requires s.worker == AtSink(Message(cfg, server), result, 1, Guard)
    ensures Reachable(cfg, t) && OnlyDelivered(t.db, SelectedSinks(cfg)[0].key)
    ensures t.worker.AtSink? && t.worker.stage.Attempt? && t.worker.stage.wake.Some?
    ensures t.worker == AtSink(Message(cfg, server), result, 1, t.worker.stage)
    ensures t.disk == s.disk && t.hist.(cut := map[], decided := map[]) == s.hist.(cut := map[], decided := map[])
  {
    SecondSinkIsWake(cfg);
    var item, wake := Message(cfg, server), SelectedSinks(cfg)[1];
    assert HasStore(cfg) && item.server == server && item.id == "m";
    hide Follows, Reachable, CanDeliver, ReceptorAccepted, SelectedSinks, DbOk, TablesOk, OnlyDelivered, Destination;
    hide IsDelivered, Message, CanonicalEvent, EventFor, WithDelivery, DeliveryId, TicketIs, DeliveredById, HasStore,
         UniqueSinkKeys;
    var ticketed := QueuesDelivery(cfg, s, server, result, 1);
    var ticket := ticketed.worker.stage.ticket;
    QueuedWakeIsUndelivered(cfg, s.db, server, result, wake.kind, Destination(cfg, wake, item));
    DeliveredTicket(ticketed.db, item, wake.key, ticket);
    TicketFollows(cfg, ticketed);
    t := AfterTicket(cfg, ticketed);
    FollowedIsReachable(cfg, ticketed, t);
  }

  /** The wake of the message is answered Ok once more, and not marked yet. */
  lemma OneMoreReply(cfg: Setup, s: State, server: ServerKey) returns (answered: State)
    requires CanDeliver(cfg, server) && UniqueSinkKeys(cfg.sinks) && 1 < |SelectedSinks(cfg)|
    requires Reachable(cfg, s) && AtRest(cfg, s) && WakeUndelivered(cfg, s)
    ensures Reachable(cfg, answered) && ConfirmPending(cfg, answered.worker, WakeJob(cfg, server))
    ensures answered.disk == map[] && WakeUndelivered(cfg, answered)
    ensures answered.hist.oks == s.hist.oks + multiset{WakeJob(cfg, server)} && answered.hist.lost == s.hist.lost
  {
    hide AtRest, Follows, Reachable, CanDeliver, WellFormed, ReceptorAccepted, SelectedSinks, OnlyDelivered, Message,
         MarkStatus;
    hide UniqueSinkKeys, StepCrash;
    var result := Judged([ACCEPTED]);
    JudgementsAreWellFormed();
    MessageIsFor(cfg, server);
    var stored := ReachesWake(cfg, s, server, result);
    var attempting := WakeIsQueued(cfg, stored, server, result);
    answered := WakeIsAnswered(cfg, attempting, attempting.worker.stage.wake.value);
    FollowedIsReachable(cfg, attempting, answered);
    AttemptKeepsOnly(attempting.db, attempting.worker.stage.wake.value, SelectedSinks(cfg)[0].key);
  }

  lemma StopLosesTheMark(cfg: Setup, s: State, server: ServerKey)
    requires 1 < |SelectedSinks(cfg)| && ConfirmPending(cfg, s.worker, WakeJob(cfg, server))
    ensures var next := StepCrash(cfg, s, 0).hist;
      next.oks == s.hist.oks && next.lost == s.hist.lost + multiset{WakeJob(cfg, server)}
  {
    hide SelectedSinks, Reloaded;
  }

  lemma {:induction false} RepliesPileUp(cfg: Setup, server: ServerKey, n: nat) returns (t: State)
    requires CanDeliver(cfg, server) && UniqueSinkKeys(cfg.sinks) && 1 < |SelectedSinks(cfg)|
    ensures Reachable(cfg, t) && AtRest(cfg, t) && WakeUndelivered(cfg, t)
    ensures t.hist.oks[WakeJob(cfg, server)] == n && t.hist.lost[WakeJob(cfg, server)] == n
  {
    if n == 0 {
      InitialRests(cfg);
      t := Initial(cfg, 0);
    } else {
      hide Reachable, AtRest, CanDeliver, WakeUndelivered, UniqueSinkKeys, SelectedSinks, ConfirmPending, Initial;
      var s := RepliesPileUp(cfg, server, n - 1);
      var answered := OneMoreReply(cfg, s, server);
      StopLosesTheMark(cfg, answered, server);
      CrashRests(cfg, answered);
      t := StepCrash(cfg, answered, 0);
      hide Interrupted, Reloaded;
    }
  }

  /** The bound on Ok replies is met for every number of lost marks: a wake can be answered once more than marks
      were lost, and so any number of times. */
  lemma BoundOnRepliesIsMet(cfg: Setup, server: ServerKey, n: nat) returns (s: State)
    requires CanDeliver(cfg, server) && UniqueSinkKeys(cfg.sinks) && 1 < |SelectedSinks(cfg)|
    ensures Reachable(cfg, s)
    ensures s.hist.lost[WakeJob(cfg, server)] == n && s.hist.oks[WakeJob(cfg, server)] == 1 + n
  {
    hide Reachable, AtRest, CanDeliver, OnlyDelivered, UniqueSinkKeys, SelectedSinks, ConfirmPending;
    var rested := RepliesPileUp(cfg, server, n);
    s := OneMoreReply(cfg, rested, server);
  }
}
