/** How many events each message has. */
module EventCounts {
  import opened Accounting
  import opened Protocol
  import opened Storage
  import opened Tables
  import opened WorkerInvariant
  import opened Wrappers

  ghost function EventsOf(db: Database, server: ServerKey, message: MessageId): set<RowId> {
    set e | e in db.events && server in db.sources && db.events[e] == EventRow(db.sources[server], message)
  }

  ghost function OrphansOf(db: Database, server: ServerKey, message: MessageId): set<RowId> {
    set e | e in EventsOf(db, server, message) && !EventIsMapped(db, e)
  }

  /** The message whose event was inserted and is about to be mapped. */
  function Inserting(worker: Worker): Option<(ServerKey, MessageId)> {
    if worker.AtSink? && worker.stage.Inserted? then Some((worker.item.server, worker.item.id)) else None
  }

  ghost predicate OrphanCount(s: State, server: ServerKey, message: MessageId) {
    |OrphansOf(s.db, server, message)|
    == s.hist.orphans[(server, message)] + One(Inserting(s.worker) == Some((server, message)))
  }

  ghost predicate SourcesKnown(db: Database) {
    forall e <- db.events :: exists server <- db.sources :: db.sources[server] == db.events[e].source
  }

  ghost predicate CountsOk(s: State) {
    SourcesKnown(s.db) && forall server, message :: OrphanCount(s, server, message)
  }

  /** Of the events of a message at most one is mapped, the one its key names. */
  lemma MappedEventCounts(db: Database, server: ServerKey, message: MessageId)
    requires DbOk(db)
    ensures |EventsOf(db, server, message)| == |OrphansOf(db, server,
                                                          message)| + One(EventOf(db, server, message).Some?)
  {
    forall e | e in EventsOf(db, server, message) && EventIsMapped(db, e)
      ensures EventOf(db, server, message) == Some(e)
    {
      MappedByItsKey(db, server, message, e);
    }
    var mapped := EventOf(db, server, message);
    if mapped.Some? {
      EventRowOfMessage(db, server, message);
      EventIsMappedByKey(db, server, message);
      hide EventOf, EventIsMapped, DbOk;
      assert EventsOf(db, server, message) == OrphansOf(db, server, message) + {mapped.value};
    } else {
      assert EventsOf(db, server, message) == OrphansOf(db, server, message);
    }
  }

  lemma MappedByItsKey(db: Database, server: ServerKey, message: MessageId, event: RowId)
    requires DbOk(db) && event in EventsOf(db, server, message) && EventIsMapped(db, event)
    ensures EventOf(db, server, message) == Some(event)
  {
    var k :| k in db.idempotency && db.idempotency[k] == event;
    assert KeyMatchesEvent(db, k);
    var row := db.events[event];
    var x :| && x in db.sources && db.sources[x] == row.source
             && k == EventKey(row.source, IdempotencyText(x, row.message));
    assert x == server;
  }

  // ----- Preservation -----

  lemma SameEventsSameCounts(was: Database, db: Database, server: ServerKey, message: MessageId)
    requires SourcesKnown(was) && Extends(was, db) && SourceIdsOk(db.sources, db.nextId)
    requires db.events == was.events && db.idempotency == was.idempotency
    ensures OrphansOf(db, server, message) == OrphansOf(was, server, message)
  {
    assert forall e :: EventIsMapped(was, e) <==> EventIsMapped(db, e);
    hide EventIsMapped;
    forall e | e in db.events ensures e in EventsOf(db, server, message) <==> e in EventsOf(was, server, message) {
      var x :| x in was.sources && was.sources[x] == was.events[e].source;
      assert db.sources[x] == was.sources[x];
    }
  }

  lemma SourcesStayKnown(was: Database, db: Database)
    requires SourcesKnown(was) && Extends(was, db) && db.events == was.events
    ensures SourcesKnown(db)
  {
    forall e | e in db.events ensures exists server <- db.sources :: db.sources[server] == db.events[e].source {
      var x :| x in was.sources && was.sources[x] == was.events[e].source;
      assert db.sources[x] == was.sources[x];
    }
  }

  /** A step that touches neither events nor idempotency rows. */
  lemma CountsStay(s: State, next: State)
    requires CountsOk(s) && Extends(s.db, next.db) && DbOk(next.db)
    requires next.db.events == s.db.events && next.db.idempotency == s.db.idempotency
    requires next.hist.orphans == s.hist.orphans && Inserting(next.worker) == Inserting(s.worker)
    ensures CountsOk(next)
  {
    SourcesStayKnown(s.db, next.db);
    assert SourceIdsOk(next.db.sources, next.db.nextId);
    hide SourcesKnown, DbOk, Extends, OrphansOf, SourceIdsOk, Inserting;
    forall server, message ensures OrphanCount(next, server, message) {
      assert OrphanCount(s, server, message);
      SameEventsSameCounts(s.db, next.db, server, message);
    }
  }

  lemma InsertedCounts(db: Database, server: ServerKey, message: MessageId, other: ServerKey, text: MessageId)
    requires DbOk(db) && server in db.sources
    ensures var next := InsertEvent(db, db.sources[server], message);
      |OrphansOf(next, other, text)| == |OrphansOf(db, other, text)| + One((other, text) == (server, message))
  {
    var next := InsertEvent(db, db.sources[server], message);
    InsertEventKeeps(db, db.sources[server], message);
    assert forall e :: EventIsMapped(db, e) <==> EventIsMapped(next, e);
    assert db.nextId !in db.events;
    assert other in db.sources && db.sources[other] == db.sources[server] ==> other == server;
    hide EventIsMapped, DbOk, Extends;
    if (other, text) == (server, message) {
      assert OrphansOf(next, other, text) == OrphansOf(db, other, text) + {db.nextId};
    } else {
      assert OrphansOf(next, other, text) == OrphansOf(db, other, text);
    }
  }

  lemma MappedCounts(db: Database, server: ServerKey, message: MessageId, event: RowId, other: ServerKey,
                     text: MessageId)
    requires DbOk(db) && server in db.sources && Key(db, server, message) !in db.idempotency
    requires event in OrphansOf(db, server, message)
    ensures var next := InsertIdempotency(db, Key(db, server, message), event);
      |OrphansOf(next, other, text)| == |OrphansOf(db, other, text)| - One((other, text) == (server, message))
  {
    var next := InsertIdempotency(db, Key(db, server, message), event);
    forall e ensures EventIsMapped(next, e) <==> EventIsMapped(db, e) || e == event {
      if EventIsMapped(db, e) {
        var k :| k in db.idempotency && db.idempotency[k] == e;
        assert next.idempotency[k] == e;
      }
      assert next.idempotency[Key(db, server, message)] == event;
    }
    assert other in db.sources && db.sources[other] == db.sources[server] ==> other == server;
    hide EventIsMapped, DbOk;
    if (other, text) == (server, message) {
      assert OrphansOf(next, other, text) == OrphansOf(db, other, text) - {event};
    } else {
      assert event !in OrphansOf(db, other, text);
      assert OrphansOf(next, other, text) == OrphansOf(db, other, text);
    }
  }

  lemma InsertKeepsCounts(cfg: Setup, s: State)
    requires DbOk(s.db) && CountsOk(s) && s.worker.AtSink? && s.worker.stage.Lookup?
    requires s.worker.item.server in s.db.sources
    ensures CountsOk(s.(db := InsertEvent(s.db, s.db.sources[s.worker.item.server], s.worker.item.id),
                        worker := s.worker.(stage := Inserted(s.db.nextId))))
  {
    var item := s.worker.item;
    var next := s.(db := InsertEvent(s.db, s.db.sources[item.server], item.id),
                   worker := s.worker.(stage := Inserted(s.db.nextId)));
    assert SourcesKnown(next.db);
    hide DbOk, OrphansOf, InsertEvent, SourcesKnown;
    forall server, message ensures OrphanCount(next, server, message) {
      assert OrphanCount(s, server, message);
      InsertedCounts(s.db, item.server, item.id, server, message);
    }
  }

  lemma MapKeepsCounts(cfg: Setup, s: State, event: RowId)
    requires DbOk(s.db) && CountsOk(s) && s.worker.AtSink? && s.worker.stage == Inserted(event)
    requires s.worker.item.server in s.db.sources
    requires Key(s.db, s.worker.item.server, s.worker.item.id) !in s.db.idempotency
    requires event in OrphansOf(s.db, s.worker.item.server, s.worker.item.id)
    ensures CountsOk(s.(db := InsertIdempotency(s.db, Key(s.db, s.worker.item.server, s.worker.item.id), event),
                        worker := s.worker.(stage := Matching(event, 0))))
  {
    var item := s.worker.item;
    var next := s.(db := InsertIdempotency(s.db, Key(s.db, item.server, item.id), event),
                   worker := s.worker.(stage := Matching(event, 0)));
    assert SourcesKnown(next.db);
    hide DbOk, OrphansOf, InsertIdempotency, SourcesKnown;
    forall server, message ensures OrphanCount(next, server, message) {
      assert OrphanCount(s, server, message);
      MappedCounts(s.db, item.server, item.id, event, server, message);
    }
  }

  /** Where an event was just inserted: it is one of the message and not mapped. */
  lemma InsertedIsCounted(cfg: Setup, s: State)
    requires TablesOk(cfg, s) && s.worker.AtSink? && s.worker.stage.Inserted?
    ensures s.worker.item.server in s.db.sources && DbOk(s.db) && s.worker.index < |SelectedSinks(cfg)|
    ensures Key(s.db, s.worker.item.server, s.worker.item.id) !in s.db.idempotency
    ensures s.worker.stage.event in OrphansOf(s.db, s.worker.item.server, s.worker.item.id)
  {
    hide DbOk, WellFormed;
  }

  lemma RowsKeepCounts(cfg: Setup, s: State)
    requires TablesOk(cfg, s) && CountsOk(s) && s.worker.AtSink? && s.worker.index < |SelectedSinks(cfg)|
    requires StepRows(cfg, s).Some?
    requires TablesOk(cfg, StepRows(cfg, s).value) && Extends(s.db, StepRows(cfg, s).value.db)
    requires StepRows(cfg, s).value.hist.orphans == s.hist.orphans
    ensures CountsOk(StepRows(cfg, s).value)
  {
    hide DbOk, WellFormed, StageOk, CountsOk, Extends, UpsertSource, UpsertTarget, UpsertDelivery, UpsertMatch,
         OrphansOf;
    hide SelectedSinks;
    var next := StepRows(cfg, s).value;
    var item := s.worker.item;
    if s.worker.stage.Lookup? && Key(s.db, item.server, item.id) !in s.db.idempotency {
      InsertKeepsCounts(cfg, s);
    } else if s.worker.stage.Inserted? {
      InsertedIsCounted(cfg, s);
      MapKeepsCounts(cfg, s, s.worker.stage.event);
    } else {
      SameTables(cfg, s);
      hide StepRows;
      CountsStay(s, next);
    }
  }

  lemma AdvanceKeepsCounts(cfg: Setup, s: State)
    requires TablesOk(cfg, s) && CountsOk(s) && StepAdvance(cfg, s).Some?
    ensures CountsOk(StepAdvance(cfg, s).value)
  {
    AdvanceKeeps(cfg, s);
    AdvanceLeavesReplies(cfg, s);
    var next := StepAdvance(cfg, s).value;
    assert DbOk(next.db);
    hide CountsOk, StepRows, StepSend, DbOk, Extends;
    if s.worker.AtSink? && StepAdvance(cfg, s) == StepRows(cfg, s) {
      assert s.worker.index < |SelectedSinks(cfg)|;
      hide TablesOk, StepAdvance;
      RowsKeepCounts(cfg, s);
    } else {
      hide TablesOk;
      OtherAdvanceKeepsEvents(cfg, s);
      hide StepAdvance;
      CountsStay(s, next);
    }
  }

  /** A stop takes the event being inserted for an orphan. */
  lemma StopKeepsCounts(cfg: Setup, s: State, next: State)
    requires TablesOk(cfg, s) && CountsOk(s) && next.db == s.db && !next.worker.AtSink?
    requires next.hist.orphans == Interrupted(cfg, s.worker, s.hist).orphans
    ensures CountsOk(next)
  {
    if s.worker.AtSink? && s.worker.stage.Inserted? {
      InsertedIsCounted(cfg, s);
    }
    hide TablesOk, OrphansOf, SourcesKnown, SelectedSinks;
    forall server, message ensures OrphanCount(next, server, message) {
      assert OrphanCount(s, server, message);
    }
  }

  lemma StepKeepsCounts(cfg: Setup, s: State, a: Action)
    requires TablesOk(cfg, s) && CountsOk(s) && Next(cfg, s, a).Some?
    ensures CountsOk(Next(cfg, s, a).value)
  {
    hide TablesOk, StepAdvance, CountsOk, Interrupted, Route;
    if a.Advance? {
      AdvanceKeepsCounts(cfg, s);
    } else if a.Halt? || a.Crash? {
      StopKeepsCounts(cfg, s, Next(cfg, s, a).value);
    } else {
      QuietKeepsCounts(cfg, s, a);
    }
  }

  lemma QuietKeepsCounts(cfg: Setup, s: State, a: Action)
    requires TablesOk(cfg, s) && CountsOk(s) && !a.Advance? && !a.Halt? && !a.Crash? && Next(cfg, s, a).Some?
    ensures CountsOk(Next(cfg, s, a).value)
  {
    assert DbOk(s.db);
    ExtendsItself(s.db);
    QuietLeavesEvents(cfg, s, a);
    hide TablesOk, Next, CountsOk, DbOk, Extends, Inserting;
    CountsStay(s, Next(cfg, s, a).value);
  }

  lemma QuietLeavesEvents(cfg: Setup, s: State, a: Action)
    requires !a.Advance? && !a.Halt? && !a.Crash? && Next(cfg, s, a).Some?
    ensures var next := Next(cfg, s, a).value;
      next.db == s.db && next.hist.orphans == s.hist.orphans && Inserting(next.worker) == Inserting(s.worker)
  {
    if a.Decide? {
      StartSinkInsertsNothing(cfg, s.worker.item, a.result, 0);
    }
    hide StepAdvance, StepHalt, StepCrash, Route;
  }
}
