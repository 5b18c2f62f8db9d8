/** What every SQL statement of the delivery keeps about the tables, and which facts it can never undo. */
module Tables {
  import opened Attention
  import opened Storage
  import opened Wrappers

  ghost predicate EventIsMapped(db: Database, event: RowId) {
    exists k <- db.idempotency :: db.idempotency[k] == event
  }

  ghost predicate TargetExists(db: Database, target: RowId) {
    exists k <- db.targets :: db.targets[k].id == target
  }

  /** The key of an idempotency row is made of the source and the message of the event it points at. */
  ghost predicate KeyMatchesEvent(db: Database, k: EventKey) {
    && k in db.idempotency
    && db.idempotency[k] in db.events
    && var row := db.events[db.idempotency[k]];
       exists server <- db.sources :: db.sources[server] == row.source
         && k == EventKey(row.source, IdempotencyText(server, row.message))
  }

  ghost predicate SourceIdsOk(sources: map<ServerKey, RowId>, next: RowId) {
    && (forall k <- sources :: sources[k] < next)
    && (forall a, b :: a in sources && b in sources && sources[a] == sources[b] ==> a == b)
  }

  ghost predicate EventIdsOk(events: map<RowId, EventRow>, next: RowId) {
    forall e <- events :: e < next
  }

  ghost predicate TargetIdsOk(targets: map<SinkKey, TargetRow>, next: RowId) {
    && (forall k <- targets :: targets[k].id < next)
    && (forall a, b :: a in targets && b in targets && targets[a].id == targets[b].id ==> a == b)
  }

  ghost predicate DeliveryIdsOk(deliveries: map<DeliveryKey, DeliveryRow>, next: RowId) {
    && (forall k <- deliveries :: deliveries[k].id < next)
    && (forall a, b :: a in deliveries && b in deliveries && deliveries[a].id == deliveries[b].id ==> a == b)
  }

  /** Row ids are below the counter, and no two rows of a table share one. */
  ghost predicate IdsOk(db: Database) {
    && SourceIdsOk(db.sources, db.nextId)
    && EventIdsOk(db.events, db.nextId)
    && TargetIdsOk(db.targets, db.nextId)
    && DeliveryIdsOk(db.deliveries, db.nextId)
  }

  /** References hold, and matches and deliveries only ever hang from mapped events. */
  ghost predicate ReferencesHold(db: Database) {
    && (forall k <- db.idempotency :: KeyMatchesEvent(db, k))
    && (forall k <- db.matches :: EventIsMapped(db, k.event))
    && (forall k <- db.deliveries :: EventIsMapped(db, k.event) && TargetExists(db, k.target))
  }

  ghost predicate DbOk(db: Database) {
    IdsOk(db) && ReferencesHold(db)
  }

  /** Rows are never deleted, keep their ids and references, and `Delivered` is final. */
  ghost predicate Extends(was: Database, db: Database) {
    && (forall k <- was.sources :: k in db.sources && db.sources[k] == was.sources[k])
    && (forall k <- was.events :: k in db.events && db.events[k] == was.events[k])
    && (forall k <- was.idempotency :: k in db.idempotency && db.idempotency[k] == was.idempotency[k])
    && (forall k <- was.targets :: k in db.targets && db.targets[k].id == was.targets[k].id)
    && (forall k <- was.deliveries :: k in db.deliveries && db.deliveries[k].id == was.deliveries[k].id)
    && (forall k <- was.deliveries :: was.deliveries[k].status == Delivered ==> db.deliveries[k].status == Delivered)
  }

  function RowOf(db: Database, server: ServerKey, message: MessageId, sink: SinkKey): Option<DeliveryRow> {
    var event := EventOf(db, server, message);
    if event.Some? && sink in db.targets && DeliveryKey(event.value, db.targets[sink].id) in db.deliveries then
      Some(db.deliveries[DeliveryKey(event.value, db.targets[sink].id)])
    else None
  }

  predicate IsDelivered(db: Database, server: ServerKey, message: MessageId, sink: SinkKey) {
    RowOf(db, server, message, sink).Some? && RowOf(db, server, message, sink).value.status == Delivered
  }

  lemma ExtendsItself(db: Database)
    ensures Extends(db, db)
  {
  }

  lemma ExtendsIsTransitive(a: Database, b: Database, c: Database)
    requires Extends(a, b) && Extends(b, c)
    ensures Extends(a, c)
  {
  }

  /** Once a message has its event, it keeps it; once a delivery is marked, it stays marked. */
  lemma ExtendsKeepsRows(was: Database, db: Database, server: ServerKey, message: MessageId, sink: SinkKey)
    requires Extends(was, db)
    ensures EventOf(was, server, message).Some? ==> EventOf(db, server, message) == EventOf(was, server, message)
    ensures RowOf(was, server, message, sink).Some? ==>
      && RowOf(db, server, message, sink).Some?
      && RowOf(db, server, message, sink).value.id == RowOf(was, server, message, sink).value.id
    ensures IsDelivered(was, server, message, sink) ==> IsDelivered(db, server, message, sink)
  {
  }

  lemma IdempotencyTextIsInjective(server: ServerKey, a: MessageId, b: MessageId)
    requires IdempotencyText(server, a) == IdempotencyText(server, b)
    ensures a == b
  {
    assert IdempotencyText(server, a)[|server| + 1..] == a;
    assert IdempotencyText(server, b)[|server| + 1..] == b;
  }

  /** Two messages never share an event: the text of the key is ambiguous across servers, but the row's source is
      not. */
  lemma EventsAreNotShared(db: Database, serverA: ServerKey, a: MessageId, serverB: ServerKey, b: MessageId)
    requires DbOk(db)
    requires EventOf(db, serverA, a).Some? && EventOf(db, serverA, a) == EventOf(db, serverB, b)
    ensures serverA == serverB && a == b
  {
    var ka, kb := Key(db, serverA, a), Key(db, serverB, b);
    assert KeyMatchesEvent(db, ka) && KeyMatchesEvent(db, kb);
    var row := db.events[db.idempotency[ka]];
    var sa :| && sa in db.sources && db.sources[sa] == row.source
              && ka == EventKey(row.source, IdempotencyText(sa, row.message));
    var sb :| && sb in db.sources && db.sources[sb] == row.source
              && kb == EventKey(row.source, IdempotencyText(sb, row.message));
    assert serverA == sa && serverB == sb && sa == sb;
    IdempotencyTextIsInjective(serverA, a, row.message);
    IdempotencyTextIsInjective(serverB, b, row.message);
  }

  /** A mapped event belongs to the message its idempotency key was made from. */
  lemma EventRowOfMessage(db: Database, server: ServerKey, message: MessageId)
    requires DbOk(db) && EventOf(db, server, message).Some?
    ensures EventOf(db, server, message).value in db.events
    ensures db.events[EventOf(db, server, message).value] == EventRow(db.sources[server], message)
  {
    var k := Key(db, server, message);
    assert KeyMatchesEvent(db, k);
    var row := db.events[db.idempotency[k]];
    var s :| && s in db.sources && db.sources[s] == row.source
             && k == EventKey(row.source, IdempotencyText(s, row.message));
    assert s == server;
    IdempotencyTextIsInjective(server, message, row.message);
  }

  // ----- Statement by statement -----

  lemma MappedStays(was: Database, db: Database)
    requires Extends(was, db)
    ensures forall e :: EventIsMapped(was, e) ==> EventIsMapped(db, e)
    ensures forall t :: TargetExists(was, t) ==> TargetExists(db, t)
  {
    forall e | EventIsMapped(was, e) ensures EventIsMapped(db, e) {
      var k :| k in was.idempotency && was.idempotency[k] == e;
      assert db.idempotency[k] == e;
    }
    forall t | TargetExists(was, t) ensures TargetExists(db, t) {
      var k :| k in was.targets && was.targets[k].id == t;
      assert db.targets[k].id == t;
    }
  }

  lemma KeysStayMatched(was: Database, db: Database)
    requires Extends(was, db)
    ensures forall k :: KeyMatchesEvent(was, k) ==> KeyMatchesEvent(db, k)
  {
    forall k | KeyMatchesEvent(was, k) ensures KeyMatchesEvent(db, k) {
      var row := was.events[was.idempotency[k]];
      var s :| && s in was.sources && was.sources[s] == row.source
               && k == EventKey(row.source, IdempotencyText(s, row.message));
      assert db.sources[s] == row.source;
    }
  }

  /** References survive a statement when every row it adds refers to what is there. */
  lemma ReferencesStay(was: Database, db: Database)
    requires ReferencesHold(was) && Extends(was, db)
    requires forall k <- db.idempotency :: k in was.idempotency || KeyMatchesEvent(db, k)
    requires forall k <- db.matches :: k in was.matches || EventIsMapped(db, k.event)
    requires forall k <- db.deliveries ::
      k in was.deliveries || (EventIsMapped(db, k.event) && TargetExists(db, k.target))
    ensures ReferencesHold(db)
  {
    MappedStays(was, db);
    KeysStayMatched(was, db);
    hide KeyMatchesEvent, EventIsMapped, TargetExists, Extends;
  }

  /** A statement that adds no referring row keeps every reference. */
  lemma ReferencesStayAsTheyAre(was: Database, db: Database)
    requires ReferencesHold(was) && Extends(was, db)
    requires db.idempotency == was.idempotency && db.matches == was.matches && db.deliveries == was.deliveries
    ensures ReferencesHold(db)
  {
    ReferencesStay(was, db);
  }

  lemma IdsStayBelow(db: Database, next: RowId)
    requires IdsOk(db) && db.nextId <= next
    ensures IdsOk(db.(nextId := next))
  {
  }

  lemma UpsertSourceKeeps(db: Database, server: ServerKey)
    requires DbOk(db)
    ensures DbOk(UpsertSource(db, server)) && Extends(db, UpsertSource(db, server))
  {
    if server !in db.sources {
      NewSourceKeeps(db, server);
    }
  }

  lemma NewSourceKeeps(db: Database, server: ServerKey)
    requires DbOk(db) && server !in db.sources
    ensures DbOk(UpsertSource(db, server)) && Extends(db, UpsertSource(db, server))
  {
    IdsStayBelow(db, db.nextId + 1);
    assert SourceIdsOk(db.sources[server := db.nextId], db.nextId + 1);
    hide SourceIdsOk, EventIdsOk, TargetIdsOk, DeliveryIdsOk, ReferencesHold;
    assert Extends(db, UpsertSource(db, server));
    ReferencesStayAsTheyAre(db, UpsertSource(db, server));
  }

  lemma UpsertDecisionKeeps(db: Database, source: RowId, message: MessageId, result: AttentionResult)
    requires DbOk(db)
    ensures DbOk(UpsertDecision(db, source, message, result))
    ensures Extends(db, UpsertDecision(db, source, message, result))
  {
    ReferencesStayAsTheyAre(db, UpsertDecision(db, source, message, result));
  }

  lemma InsertEventKeeps(db: Database, source: RowId, message: MessageId)
    requires DbOk(db)
    ensures DbOk(InsertEvent(db, source, message)) && Extends(db, InsertEvent(db, source, message))
    ensures !EventIsMapped(InsertEvent(db, source, message), db.nextId)
  {
    IdsStayBelow(db, db.nextId + 1);
    hide SourceIdsOk, TargetIdsOk, DeliveryIdsOk;
    ReferencesStayAsTheyAre(db, InsertEvent(db, source, message));
    forall k | k in db.idempotency ensures db.idempotency[k] != db.nextId {
      assert KeyMatchesEvent(db, k);
    }
  }

  lemma InsertIdempotencyKeeps(db: Database, server: ServerKey, message: MessageId, event: RowId)
    requires DbOk(db) && server in db.sources
    requires event in db.events && db.events[event] == EventRow(db.sources[server], message)
    requires EventOf(db, server, message).None?
    ensures var next := InsertIdempotency(db, Key(db, server, message), event);
      && DbOk(next) && Extends(db, next)
      && EventOf(next, server, message) == Some(event)
  {
    hide IdsOk;
    var k := Key(db, server, message);
    var next := InsertIdempotency(db, k, event);
    assert Extends(db, next);
    assert KeyMatchesEvent(next, k);
    ReferencesStay(db, next);
    assert IdsOk(next) by {
      IdsDependOnIdTables(db, next);
    }
  }

  lemma IdsDependOnIdTables(was: Database, db: Database)
    requires IdsOk(was)
    requires db == was.(decisions := db.decisions, idempotency := db.idempotency, matches := db.matches)
    ensures IdsOk(db)
  {
  }

  lemma UpsertMatchKeeps(db: Database, event: RowId, m: ReceptorMatch)
    requires DbOk(db) && EventIsMapped(db, event)
    ensures DbOk(UpsertMatch(db, event, m)) && Extends(db, UpsertMatch(db, event, m))
  {
    hide IdsOk;
    var next := UpsertMatch(db, event, m);
    assert Extends(db, next);
    MappedStays(db, next);
    ReferencesStay(db, next);
    IdsDependOnIdTables(db, next);
  }

  lemma UpsertTargetKeeps(db: Database, sink: SinkKey, kind: SinkKind, destination: string)
    requires DbOk(db)
    ensures var next := UpsertTarget(db, sink, kind, destination);
      DbOk(next) && Extends(db, next) && sink in next.targets
  {
    hide SourceIdsOk, EventIdsOk, TargetIdsOk, DeliveryIdsOk, ReferencesHold;
    if sink in db.targets {
      TargetRowsKeepIds(db.targets, sink, TargetRow(db.targets[sink].id, kind, destination, None), db.nextId);
      assert Extends(db, UpsertTarget(db, sink, kind, destination));
      ReferencesStayAsTheyAre(db, UpsertTarget(db, sink, kind, destination));
    } else {
      TargetRowsKeepIds(db.targets, sink, TargetRow(db.nextId, kind, destination, None), db.nextId);
      IdsStayBelow(db, db.nextId + 1);
      assert Extends(db, UpsertTarget(db, sink, kind, destination));
      ReferencesStayAsTheyAre(db, UpsertTarget(db, sink, kind, destination));
    }
  }

  lemma TargetRowsKeepIds(targets: map<SinkKey, TargetRow>, k: SinkKey, row: TargetRow, next: RowId)
    requires TargetIdsOk(targets, next)
    requires row.id == if k in targets then targets[k].id else next
    ensures TargetIdsOk(targets[k := row], if k in targets then next else next + 1)
  {
  }

  /** Flag updates of targets touch nothing else. */
  lemma FlagsKeep(db: Database, next: Database)
    requires DbOk(db)
    requires next == db.(targets := next.targets)
    requires next.targets.Keys == db.targets.Keys
    requires forall k <- db.targets :: next.targets[k].id == db.targets[k].id
    ensures DbOk(next) && Extends(db, next)
  {
    hide SourceIdsOk, EventIdsOk, DeliveryIdsOk;
    assert Extends(db, next);
    ReferencesStayAsTheyAre(db, next);
  }

  lemma DeliveryRowsKeepIds(deliveries: map<DeliveryKey, DeliveryRow>, k: DeliveryKey, row: DeliveryRow, next: RowId)
    requires DeliveryIdsOk(deliveries, next)
    requires row.id == if k in deliveries then deliveries[k].id else next
    ensures DeliveryIdsOk(deliveries[k := row], if k in deliveries then next else next + 1)
  {
  }

  lemma UpsertDeliveryKeeps(db: Database, event: RowId, sink: SinkKey)
    requires DbOk(db) && EventIsMapped(db, event) && sink in db.targets
    ensures var next := UpsertDelivery(db, event, db.targets[sink].id);
      && DbOk(next) && Extends(db, next)
      && DeliveryKey(event, db.targets[sink].id) in next.deliveries
  {
    assert TargetExists(db, db.targets[sink].id);
    UpsertDeliveryKeepsAt(db, DeliveryKey(event, db.targets[sink].id));
  }

  lemma UpsertDeliveryKeepsAt(db: Database, k: DeliveryKey)
    requires DbOk(db) && EventIsMapped(db, k.event) && TargetExists(db, k.target)
    ensures var next := UpsertDelivery(db, k.event, k.target);
      DbOk(next) && Extends(db, next) && k in next.deliveries
  {
    hide DbOk, Extends, EventIsMapped, TargetExists;
    if k !in db.deliveries {
      NewDeliveryKeeps(db, k);
    } else if db.deliveries[k].status == Delivered {
      ExtendsItself(db);
    } else {
      ReplacedDeliveryKeeps(db, k, DeliveryRow(db.deliveries[k].id, Queued));
    }
  }

  lemma NewDeliveryKeeps(db: Database, k: DeliveryKey)
    requires DbOk(db) && EventIsMapped(db, k.event) && TargetExists(db, k.target) && k !in db.deliveries
    ensures var next := db.(deliveries := db.deliveries[k := DeliveryRow(db.nextId, Queued)], nextId := db.nextId + 1);
      DbOk(next) && Extends(db, next)
  {
    hide SourceIdsOk, EventIdsOk, TargetIdsOk, DeliveryIdsOk, ReferencesHold;
    DeliveryRowsKeepIds(db.deliveries, k, DeliveryRow(db.nextId, Queued), db.nextId);
    IdsStayBelow(db, db.nextId + 1);
    var next := db.(deliveries := db.deliveries[k := DeliveryRow(db.nextId, Queued)], nextId := db.nextId + 1);
    assert Extends(db, next);
    MappedStays(db, next);
    hide EventIsMapped, TargetExists;
    ReferencesStay(db, next);
  }

  lemma ReplacedDeliveryKeeps(db: Database, k: DeliveryKey, row: DeliveryRow)
    requires DbOk(db) && k in db.deliveries && row.id == db.deliveries[k].id
    requires db.deliveries[k].status == Delivered ==> row.status == Delivered
    ensures var next := db.(deliveries := db.deliveries[k := row]); DbOk(next) && Extends(db, next)
  {
    hide SourceIdsOk, EventIdsOk, TargetIdsOk, DeliveryIdsOk, ReferencesHold;
    var next := db.(deliveries := db.deliveries[k := row]);
    DeliveryRowsKeepIds(db.deliveries, k, row, db.nextId);
    assert Extends(db, next);
    ReferencesStay(db, next);
  }

  /** A status may be overwritten by `Delivered`, or on a row that is not delivered. */
  lemma MarkStatusKeeps(db: Database, key: DeliveryKey, status: Status)
    requires DbOk(db) && key in db.deliveries
    requires status == Delivered || db.deliveries[key].status != Delivered
    ensures var next := MarkStatus(db, db.deliveries[key].id, status);
      && DbOk(next) && Extends(db, next)
      && next == db.(deliveries := db.deliveries[key := db.deliveries[key].(status := status)])
  {
    var row := db.deliveries[key].(status := status);
    MarkedDeliveries(db, key, status);
    hide MarkStatus, SourceIdsOk, EventIdsOk, TargetIdsOk, DeliveryIdsOk, ReferencesHold;
    ReplacedDeliveryKeeps(db, key, row);
  }

  lemma MarkedDeliveries(db: Database, key: DeliveryKey, status: Status)
    requires IdsOk(db) && key in db.deliveries
    ensures MarkStatus(db, db.deliveries[key].id, status)
         == db.(deliveries := db.deliveries[key := db.deliveries[key].(status := status)])
  {
    hide SourceIdsOk, EventIdsOk, TargetIdsOk;
    assert MarkStatus(db, db.deliveries[key].id, status).deliveries
        == db.deliveries[key := db.deliveries[key].(status := status)];
  }
}
