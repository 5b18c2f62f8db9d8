/** The delivery database: its tables, the single SQL statements, and the calls made of them.

    Row ids come from one counter; all that matters is that a new row never reuses one. Functions on `Database`
    say what each statement does. `DeliveryStore` issues the statements against its own tables. */
module Storage {
  import opened Attention
  import opened Receptors
  import opened Wrappers

  type ServerKey = string
  type MessageId = string
  type SinkKey = string
  type RowId = nat

  datatype SinkKind = Db | AgentSessionWake

  datatype SinkConfig = SinkConfig(key: SinkKey, kind: SinkKind, enabled: bool, destination: Option<string>)

  datatype Status = Queued | Attempted | Delivered | Failed

  datatype EventRow = EventRow(source: RowId, message: MessageId)

  /** The unique index of the idempotency table. */
  datatype EventKey = EventKey(source: RowId, text: string)

  datatype DecisionKey = DecisionKey(source: RowId, message: MessageId)

  datatype Decision = Decision(disposition: Disposition, eligible: bool)

  datatype MatchKey = MatchKey(event: RowId, receptor: string, cls: ReceptorClass)

  datatype MatchRow = MatchRow(score: real, threshold: real, above: bool)

  datatype TargetRow = TargetRow(id: RowId, kind: SinkKind, destination: string, disabled: Option<string>)

  datatype DeliveryKey = DeliveryKey(event: RowId, target: RowId)

  datatype DeliveryRow = DeliveryRow(id: RowId, status: Status)

  datatype Database = Database(
    sources: map<ServerKey, RowId>,
    decisions: map<DecisionKey, Decision>,
    events: map<RowId, EventRow>,
    idempotency: map<EventKey, RowId>,
    matches: map<MatchKey, MatchRow>,
    targets: map<SinkKey, TargetRow>,
    deliveries: map<DeliveryKey, DeliveryRow>,
    nextId: RowId)

  const EMPTY := Database(map[], map[], map[], map[], map[], map[], map[], 1)

  // ----- Statements -----

  function UpsertSource(db: Database, server: ServerKey): Database {
    if server in db.sources then db
    else db.(sources := db.sources[server := db.nextId], nextId := db.nextId + 1)
  }

  function UpsertDecision(db: Database, source: RowId, message: MessageId, result: AttentionResult): Database {
    db.(decisions := db.decisions[DecisionKey(source, message) := Decision(result.disposition, result.deliver)])
  }

  function IdempotencyText(server: ServerKey, message: MessageId): string {
    server + ":" + message
  }

  function InsertEvent(db: Database, source: RowId, message: MessageId): Database {
    db.(events := db.events[db.nextId := EventRow(source, message)], nextId := db.nextId + 1)
  }

  function InsertIdempotency(db: Database, key: EventKey, event: RowId): Database {
    db.(idempotency := db.idempotency[key := event])
  }

  function KeyOfMatch(event: RowId, m: ReceptorMatch): MatchKey {
    MatchKey(event, m.id, m.cls)
  }

  function UpsertMatch(db: Database, event: RowId, m: ReceptorMatch): Database {
    db.(matches := db.matches[KeyOfMatch(event, m) := MatchRow(m.score, m.threshold, m.above)])
  }

  function UpsertMatches(db: Database, event: RowId, ms: seq<ReceptorMatch>): Database
    decreases |ms|
  {
    if ms == [] then db else UpsertMatch(UpsertMatches(db, event, ms[..|ms| - 1]), event, ms[|ms| - 1])
  }

  /** Inserting or updating a target always enables it. */
  function UpsertTarget(db: Database, sink: SinkKey, kind: SinkKind, destination: string): Database {
    if sink in db.targets then
      db.(targets := db.targets[sink := TargetRow(db.targets[sink].id, kind, destination, None)])
    else
      db.(targets := db.targets[sink := TargetRow(db.nextId, kind, destination, None)], nextId := db.nextId + 1)
  }

  function ClearDisabled(db: Database, id: RowId): Database {
    db.(targets := map k | k in db.targets ::
          if db.targets[k].id == id then db.targets[k].(disabled := None) else db.targets[k])
  }

  function SoftDisable(db: Database, id: RowId, reason: string): Database {
    db.(targets := map k | k in db.targets ::
          if db.targets[k].id == id then db.targets[k].(disabled := Some(reason)) else db.targets[k])
  }

  predicate Configured(sinks: seq<SinkConfig>, key: SinkKey) {
    exists sink <- sinks :: sink.key == key
  }

  function DisableMissing(db: Database, sinks: seq<SinkConfig>): Database {
    db.(targets := map k | k in db.targets ::
          if !Configured(sinks, k) && db.targets[k].disabled.None? then
            db.targets[k].(disabled := Some("sink removed from config"))
          else db.targets[k])
  }

  /** An existing row keeps its id, and keeps its status when that is `Delivered`. */
  function UpsertDelivery(db: Database, event: RowId, target: RowId): Database {
    var key := DeliveryKey(event, target);
    if key !in db.deliveries then
      db.(deliveries := db.deliveries[key := DeliveryRow(db.nextId, Queued)], nextId := db.nextId + 1)
    else if db.deliveries[key].status == Delivered then db
    else db.(deliveries := db.deliveries[key := DeliveryRow(db.deliveries[key].id, Queued)])
  }

  /** `UPDATE ... WHERE id`, whatever the status was. */
  function MarkStatus(db: Database, id: RowId, status: Status): Database {
    db.(deliveries := map k | k in db.deliveries ::
          if db.deliveries[k].id == id then db.deliveries[k].(status := status) else db.deliveries[k])
  }

  predicate DeliveredById(db: Database, id: RowId) {
    exists k <- db.deliveries :: db.deliveries[k].id == id && db.deliveries[k].status == Delivered
  }

  // ----- The delivery guard -----

  /** What storage insists on before it lets a result feed a sink. */
  predicate ReceptorAccepted(result: AttentionResult) {
    && result.deliver && result.disposition == Deliver
    && !result.vetoNotEvaluated
    && !result.fallback
    && exists m <- result.matches :: m.above && m.cls != Veto
  }

  // ----- Calls -----

  function Key(db: Database, server: ServerKey, message: MessageId): EventKey
    requires server in db.sources
  {
    EventKey(db.sources[server], IdempotencyText(server, message))
  }

  function EventOf(db: Database, server: ServerKey, message: MessageId): Option<RowId> {
    if server in db.sources && Key(db, server, message) in db.idempotency then
      Some(db.idempotency[Key(db, server, message)])
    else None
  }

  function WithDecision(db: Database, server: ServerKey, message: MessageId, result: AttentionResult): Database {
    var db := UpsertSource(db, server);
    UpsertDecision(db, db.sources[server], message, result)
  }

  /** The event of a message: the one its idempotency row names, or a new one. */
  function EnsureEvent(db: Database, server: ServerKey, message: MessageId): (after: Database)
    ensures EventOf(after, server, message).Some?
  {
    var db := UpsertSource(db, server);
    if Key(db, server, message) in db.idempotency then db
    else InsertIdempotency(InsertEvent(db, db.sources[server], message), Key(db, server, message), db.nextId)
  }

  function EventFor(db: Database, server: ServerKey, message: MessageId): RowId {
    EventOf(EnsureEvent(db, server, message), server, message).value
  }

  function CanonicalEvent(db: Database, server: ServerKey, message: MessageId, result: AttentionResult): Database {
    UpsertMatches(EnsureEvent(db, server, message), EventFor(db, server, message), result.matches)
  }

  /** The target and the delivery row of an event. */
  function WithDelivery(db: Database, event: RowId, sink: SinkKey, kind: SinkKind, destination: string): Database {
    var db := UpsertTarget(db, sink, kind, destination);
    UpsertDelivery(db, event, db.targets[sink].id)
  }

  function DeliveryId(db: Database, event: RowId, sink: SinkKey): Option<RowId> {
    if sink in db.targets && DeliveryKey(event, db.targets[sink].id) in db.deliveries then
      Some(db.deliveries[DeliveryKey(event, db.targets[sink].id)].id)
    else None
  }

  function DbDestination(sink: SinkConfig, databasePath: string): string {
    if sink.destination.Some? then sink.destination.value else databasePath
  }

  function TargetDestination(sink: SinkConfig, databasePath: string, wakeSession: string): string {
    if sink.kind == Db then DbDestination(sink, databasePath)
    else if sink.destination.Some? then sink.destination.value
    else wakeSession
  }

  function ReconcileSink(db: Database, sink: SinkConfig, destination: string): Database {
    var db := UpsertTarget(db, sink.key, sink.kind, destination);
    var id := db.targets[sink.key].id;
    if sink.enabled then ClearDisabled(db, id) else SoftDisable(db, id, "sink disabled in config")
  }

  function ReconcileSinks(db: Database, sinks: seq<SinkConfig>, databasePath: string, wakeSession: string): Database
    decreases |sinks|
  {
    if sinks == [] then db
    else
      var last := sinks[|sinks| - 1];
      ReconcileSink(ReconcileSinks(db, sinks[..|sinks| - 1], databasePath, wakeSession), last,
                    TargetDestination(last, databasePath, wakeSession))
  }

  /** How many sinks there are before the first whose destination is blank. */
  function BeforeBlank(sinks: seq<SinkConfig>, databasePath: string, wakeSession: string): (n: nat)
    ensures n <= |sinks|
    ensures forall j :: 0 <= j < n ==> !Blank(TargetDestination(sinks[j], databasePath, wakeSession))
    ensures n < |sinks| ==> Blank(TargetDestination(sinks[n], databasePath, wakeSession))
  {
    if sinks == [] || Blank(TargetDestination(sinks[0], databasePath, wakeSession)) then 0
    else
      var n := BeforeBlank(sinks[1..], databasePath, wakeSession);
      assert forall j :: 0 < j <= n ==> sinks[j] == sinks[1..][j - 1];
      n + 1
  }

  datatype Ticket = Ticket(event: RowId, delivery: RowId, alreadyDelivered: bool)

  // ----- The object -----

  class DeliveryStore {
    const databasePath: string
    var sources: map<ServerKey, RowId>
    var decisions: map<DecisionKey, Decision>
    var events: map<RowId, EventRow>
    var idempotency: map<EventKey, RowId>
    var matches: map<MatchKey, MatchRow>
    var targets: map<SinkKey, TargetRow>
    var deliveries: map<DeliveryKey, DeliveryRow>
    var nextId: RowId

    function View(): Database
      reads this
    {
      Database(sources, decisions, events, idempotency, matches, targets, deliveries, nextId)
    }

    constructor (databasePath: string)
      ensures this.databasePath == databasePath
      ensures View() == EMPTY
    {
      this.databasePath := databasePath;
      sources, decisions, events, idempotency := map[], map[], map[], map[];
      matches, targets, deliveries, nextId := map[], map[], map[], 1;
    }

    method NewId() returns (id: RowId)
      modifies `nextId
      ensures id == old(nextId) && nextId == id + 1
    {
      id := nextId;
      nextId := nextId + 1;
    }

    method UpsertIngressSource(server: ServerKey) returns (id: RowId)
      modifies this
      ensures View() == UpsertSource(old(View()), server)
      ensures server in sources && id == sources[server]
    {
      if server !in sources {
        var row := NewId();
        sources := sources[server := row];
      }
      id := sources[server];
    }

    method RecordAttentionDecision(server: ServerKey, message: MessageId, result: AttentionResult)
      modifies this
      ensures View() == WithDecision(old(View()), server, message, result)
      ensures server in sources && decisions
           == old(decisions)[DecisionKey(sources[server], message) := Decision(result.disposition, result.deliver)]
    {
      var source := UpsertIngressSource(server);
      decisions := decisions[DecisionKey(source, message) := Decision(result.disposition, result.deliver)];
    }

    method UpsertReceptorMatches(event: RowId, ms: seq<ReceptorMatch>)
      modifies `matches
      ensures View() == UpsertMatches(old(View()), event, ms)
    {
      for i := 0 to |ms|
        invariant View() == UpsertMatches(old(View()), event, ms[..i])
      {
        assert ms[..i + 1][..i] == ms[..i];
        matches := matches[KeyOfMatch(event, ms[i]) := MatchRow(ms[i].score, ms[i].threshold, ms[i].above)];
      }
      assert ms[..|ms|] == ms;
    }

    method UpsertCanonicalEvent(server: ServerKey, message: MessageId, result: AttentionResult) returns (event: RowId)
      modifies this
      ensures View() == CanonicalEvent(old(View()), server, message, result)
      ensures event == EventFor(old(View()), server, message)
    {
      var source := UpsertIngressSource(server);
      var key := EventKey(source, IdempotencyText(server, message));
      if key in idempotency {
        event := idempotency[key];
      } else {
        event := NewId();
        events := events[event := EventRow(source, message)];
        idempotency := idempotency[key := event];
      }
      UpsertReceptorMatches(event, result.matches);
    }

    method UpsertSinkTarget(sink: SinkKey, kind: SinkKind, destination: string) returns (id: Result<RowId>)
      modifies this
      ensures id.Ok? <==> !Blank(destination)
      ensures id.Err? ==> View() == old(View())
      ensures id.Ok? ==>
        && View() == UpsertTarget(old(View()), sink, kind, destination)
        && targets == old(targets)[sink := TargetRow(id.value, kind, destination, None)]
        && id.value == if sink in old(targets) then old(targets)[sink].id else old(nextId)
    {
      if Blank(destination) {
        return Err("sink destination must not be empty");
      }
      var row: RowId;
      if sink in targets {
        row := targets[sink].id;
      } else {
        row := NewId();
      }
      targets := targets[sink := TargetRow(row, kind, destination, None)];
      id := Ok(row);
    }

    method UpsertSinkDelivery(event: RowId, target: RowId) returns (id: RowId)
      modifies this
      ensures View() == UpsertDelivery(old(View()), event, target) && targets == old(targets)
      ensures var key := DeliveryKey(event, target);
        && id == (if key in old(deliveries) then old(deliveries)[key].id else old(nextId))
        && deliveries == old(deliveries)[key := DeliveryRow(id,
             if key in old(deliveries) && old(deliveries)[key].status == Delivered then Delivered else Queued)]
    {
      var key := DeliveryKey(event, target);
      if key !in deliveries {
        var row := NewId();
        deliveries := deliveries[key := DeliveryRow(row, Queued)];
      } else if deliveries[key].status != Delivered {
        deliveries := deliveries[key := deliveries[key].(status := Queued)];
      }
      id := deliveries[key].id;
    }

    method SetStatus(id: RowId, status: Status)
      modifies `deliveries
      ensures View() == MarkStatus(old(View()), id, status)
    {
      deliveries := map k | k in deliveries ::
        if deliveries[k].id == id then deliveries[k].(status := status) else deliveries[k];
    }

    method MarkDeliveryAttempted(id: RowId)
      modifies `deliveries
      ensures View() == MarkStatus(old(View()), id, Attempted)
    {
      SetStatus(id, Attempted);
    }

    method MarkDeliveryFailed(id: RowId)
      modifies `deliveries
      ensures View() == MarkStatus(old(View()), id, Failed)
    {
      SetStatus(id, Failed);
    }

    method MarkDeliveryDelivered(id: RowId)
      modifies `deliveries
      ensures View() == MarkStatus(old(View()), id, Delivered)
    {
      SetStatus(id, Delivered);
    }

    /** What both deliveries do first: guard, event, matches, target and delivery row. A rejected result changes
        nothing; a blank destination is noticed only after the event and its matches are written. */
    method QueueDelivery(server: ServerKey, message: MessageId, result: AttentionResult, sink: SinkKey,
                         kind: SinkKind, destination: string)
      returns (queued: Result<(RowId, RowId)>)
      modifies this
      ensures queued.Ok? <==>
        && result.deliver && result.disposition == Deliver && !result.vetoNotEvaluated && !result.fallback
        && !(forall m <- result.matches :: m.above ==> m.cls == Veto)
        && !Blank(destination)
      ensures queued.Ok? <==> ReceptorAccepted(result) && !Blank(destination)
      ensures !ReceptorAccepted(result) ==> View() == old(View())
      ensures ReceptorAccepted(result) && Blank(destination) ==>
        View() == CanonicalEvent(old(View()), server, message, result)
      ensures queued.Ok? ==>
        && queued.value.0 == EventFor(old(View()), server, message)
        && View() == WithDelivery(CanonicalEvent(old(View()), server, message, result), queued.value.0, sink, kind,
                                  destination)
        && DeliveryId(View(), queued.value.0, sink) == Some(queued.value.1)
    {
      hide CanonicalEvent, EventFor, UpsertTarget, UpsertDelivery, Blank;
      if !ReceptorAccepted(result) {
        return Err("sink delivery requires an accepted receptor result");
      }
      var event := UpsertCanonicalEvent(server, message, result);
      var target := UpsertSinkTarget(sink, kind, destination);
      if target.Err? {
        return Err(target.error);
      }
      var delivery := UpsertSinkDelivery(event, target.value);
      queued := Ok((event, delivery));
    }

    method RecordDbSinkDelivery(server: ServerKey, message: MessageId, result: AttentionResult, sink: SinkConfig)
      returns (event: Result<RowId>)
      modifies this
      ensures event.Ok? <==> ReceptorAccepted(result) && !Blank(DbDestination(sink, databasePath))
      ensures event.Err? ==>
        View() == if ReceptorAccepted(result) then CanonicalEvent(old(View()), server, message, result) else old(View())
      ensures event.Ok? ==>
        && event.value == EventFor(old(View()), server, message)
        && var queued := WithDelivery(CanonicalEvent(old(View()), server, message, result), event.value, sink.key, Db,
                                      DbDestination(sink, databasePath));
           && DeliveryId(queued, event.value, sink.key).Some?
           && View() == MarkStatus(queued, DeliveryId(queued, event.value, sink.key).value, Delivered)
    {
      var queued := QueueDelivery(server, message, result, sink.key, Db, DbDestination(sink, databasePath));
      if queued.Err? {
        return Err(queued.error);
      }
      MarkDeliveryDelivered(queued.value.1);
      event := Ok(queued.value.0);
    }

    method QueueWakeSinkDelivery(server: ServerKey, message: MessageId, result: AttentionResult, sink: SinkKey,
                                 destination: string)
      returns (ticket: Result<Ticket>)
      modifies this
      ensures ticket.Ok? <==> ReceptorAccepted(result) && !Blank(destination)
      ensures ticket.Err? ==>
        View() == if ReceptorAccepted(result) then CanonicalEvent(old(View()), server, message, result) else old(View())
      ensures ticket.Ok? ==>
        && ticket.value.event == EventFor(old(View()), server, message)
        && View() == WithDelivery(CanonicalEvent(old(View()), server, message, result), ticket.value.event, sink,
                                  AgentSessionWake, destination)
        && DeliveryId(View(), ticket.value.event, sink) == Some(ticket.value.delivery)
        && ticket.value.alreadyDelivered == DeliveredById(View(), ticket.value.delivery)
    {
      var queued := QueueDelivery(server, message, result, sink, AgentSessionWake, destination);
      if queued.Err? {
        return Err(queued.error);
      }
      var delivered := DeliveredById(View(), queued.value.1);
      ticket := Ok(Ticket(queued.value.0, queued.value.1, delivered));
    }

    /** A blank destination ends the work with the sinks before it reconciled. */
    method ReconcileSinkTargets(sinks: seq<SinkConfig>, wakeSession: string) returns (done: Result<()>)
      modifies this
      ensures done.Ok? <==> BeforeBlank(sinks, databasePath, wakeSession) == |sinks|
      ensures done.Ok? ==>
        View() == DisableMissing(ReconcileSinks(old(View()), sinks, databasePath, wakeSession), sinks)
      ensures done.Err? ==>
        View() == ReconcileSinks(old(View()), sinks[..BeforeBlank(sinks, databasePath, wakeSession)], databasePath,
                                 wakeSession)
    {
      for i := 0 to |sinks|
        invariant i <= BeforeBlank(sinks, databasePath, wakeSession)
        invariant View() == ReconcileSinks(old(View()), sinks[..i], databasePath, wakeSession)
      {
        assert sinks[..i + 1][..i] == sinks[..i];
        var sink := sinks[i];
        var destination := TargetDestination(sink, databasePath, wakeSession);
        var id := UpsertSinkTarget(sink.key, sink.kind, destination);
        if id.Err? {
          return Err(id.error);
        }
        if sink.enabled {
          targets := map k | k in targets ::
            if targets[k].id == id.value then targets[k].(disabled := None) else targets[k];
        } else {
          targets := map k | k in targets ::
            if targets[k].id == id.value then targets[k].(disabled := Some("sink disabled in config")) else targets[k];
        }
      }
      assert sinks[..|sinks|] == sinks;
      targets := map k | k in targets ::
        if !Configured(sinks, k) && targets[k].disabled.None? then
          targets[k].(disabled := Some("sink removed from config"))
        else targets[k];
      done := Ok(());
    }
  }
}
