/** What holds of the tables wherever the worker stands, and what each of its steps does to them. */
module WorkerInvariant {
  import opened Attention
  import Receptors
  import opened Protocol
  import opened Storage
  import opened Tables
  import opened Wrappers

  ghost predicate UniqueSinkKeys(sinks: seq<SinkConfig>) {
    forall i, j :: 0 <= i < j < |sinks| ==> sinks[i].key != sinks[j].key
  }

  /** Some receptor other than a veto is recorded as having accepted the event. */
  ghost predicate Accepted(db: Database, event: RowId) {
    exists k <- db.matches :: k.event == event && k.cls != Receptors.Veto && db.matches[k].above
  }

  ghost predicate MatchesWritten(db: Database, event: RowId, ms: seq<ReceptorMatch>, done: nat) {
    && done <= |ms|
    && forall j :: 0 <= j < done ==>
         && KeyOfMatch(event, ms[j]) in db.matches
         && db.matches[KeyOfMatch(event, ms[j])] == MatchRow(ms[j].score, ms[j].threshold, ms[j].above)
  }

  ghost predicate TicketIs(db: Database, item: Item, sink: SinkKey, ticket: RowId) {
    && RowOf(db, item.server, item.id, sink).Some?
    && RowOf(db, item.server, item.id, sink).value.id == ticket
  }

  /** A wake in progress: its row, when there is a store, is the one of the item and the sink and not delivered. */
  ghost predicate WakeOk(cfg: Setup, db: Database, item: Item, sink: SinkConfig, wake: Option<RowId>) {
    && sink.kind == AgentSessionWake
    && (wake.Some? <==> HasStore(cfg))
    && (wake.Some? ==> TicketIs(db, item, sink.key, wake.value) && !IsDelivered(db, item.server, item.id, sink.key))
  }

  ghost predicate StageOk(cfg: Setup, db: Database, item: Item, result: AttentionResult, sink: SinkConfig,
                          stage: Stage) {
    match stage
    case Guard => HasStore(cfg)
    case Source => HasStore(cfg)
    case Lookup => HasStore(cfg) && item.server in db.sources
    case Inserted(event) =>
      && HasStore(cfg) && item.server in db.sources
      && event in db.events && db.events[event] == EventRow(db.sources[item.server], item.id)
      && !EventIsMapped(db, event)
      && EventOf(db, item.server, item.id).None?
    case Matching(event, done) =>
      HasStore(cfg) && EventOf(db, item.server, item.id) == Some(event)
        && MatchesWritten(db, event, result.matches, done)
    case Targeted(event) =>
      HasStore(cfg) && EventOf(db, item.server, item.id) == Some(event) && sink.key in db.targets && Accepted(db, event)
    case Ticketed(event, ticket) => HasStore(cfg) && TicketIs(db, item, sink.key, ticket)
    case Attempt(wake) => WakeOk(cfg, db, item, sink, wake)
    case Sending(wake) => WakeOk(cfg, db, item, sink, wake)
    case Waiting(wake) => WakeOk(cfg, db, item, sink, wake)
    case Confirm(wake) => WakeOk(cfg, db, item, sink, wake)
    case Rejected(wake) => WakeOk(cfg, db, item, sink, wake)
  }

  ghost predicate WorkerOk(cfg: Setup, db: Database, worker: Worker) {
    match worker
    case Idle => true
    case Halted => true
    case Evaluating(item) => item.server in cfg.servers
    case Recording(item, result) => item.server in cfg.servers && WellFormed(result) && HasStore(cfg)
    case Deciding(item, result) => item.server in cfg.servers && WellFormed(result) && HasStore(cfg)
      && item.server in db.sources
    case Reconciling(item, result, k, upserted) =>
      && item.server in cfg.servers && WellFormed(result) && result.deliver && HasStore(cfg)
      && k <= |cfg.sinks| && (upserted ==> k < |cfg.sinks| && cfg.sinks[k].key in db.targets)
    case AtSink(item, result, i, stage) =>
      && item.server in cfg.servers && WellFormed(result) && result.deliver
      && i < |SelectedSinks(cfg)|
      && StageOk(cfg, db, item, result, SelectedSinks(cfg)[i], stage)
    case Marking(item) => item.server in cfg.servers
    case Flushing(item) => item.server in cfg.servers
  }

  // ----- Selected sinks -----

  lemma {:induction false} DbSinkIsEnabled(sinks: seq<SinkConfig>)
    ensures forall sink <- FirstDbSink(sinks) :: sink in sinks && sink.enabled && sink.kind == Db
    ensures (exists sink <- sinks :: sink.enabled && sink.kind == Db) <==> FirstDbSink(sinks) != []
  {
    if sinks != [] {
      DbSinkIsEnabled(sinks[1..]);
      assert sinks == [sinks[0]] + sinks[1..];
    }
  }

  lemma {:induction false} WakeSinksAreEnabled(sinks: seq<SinkConfig>)
    ensures forall sink :: sink in WakeSinks(sinks) <==> sink in sinks && sink.enabled && sink.kind == AgentSessionWake
  {
    if sinks != [] {
      WakeSinksAreEnabled(sinks[1..]);
      assert sinks == [sinks[0]] + sinks[1..];
    }
  }

  /** The selected sinks: every enabled wake sink, and a database sink whenever one is enabled. */
  lemma SelectedMeaning(cfg: Setup)
    ensures forall sink :: sink in SelectedSinks(cfg) ==> sink in cfg.sinks && sink.enabled
    ensures forall sink :: sink in cfg.sinks && sink.enabled && sink.kind == AgentSessionWake ==>
      sink in SelectedSinks(cfg)
    ensures HasStore(cfg) <==> exists sink <- SelectedSinks(cfg) :: sink.kind == Db
    ensures AnyEnabled(cfg) ==> SelectedSinks(cfg) != []
  {
    DbSinkIsEnabled(cfg.sinks);
    WakeSinksAreEnabled(cfg.sinks);
    if FirstDbSink(cfg.sinks) != [] {
      assert FirstDbSink(cfg.sinks)[0] in SelectedSinks(cfg);
    }
    if AnyEnabled(cfg) {
      var sink :| sink in cfg.sinks && sink.enabled;
      if sink.kind == AgentSessionWake {
        assert sink in WakeSinks(cfg.sinks);
      }
    }
  }

  lemma StartSinkIsOk(cfg: Setup, db: Database, item: Item, result: AttentionResult, i: nat)
    requires item.server in cfg.servers && WellFormed(result) && result.deliver
    ensures WorkerOk(cfg, db, StartSink(cfg, item, result, i))
  {
    if i < |SelectedSinks(cfg)| && !HasStore(cfg) {
      SelectedMeaning(cfg);
      assert SelectedSinks(cfg)[i] in SelectedSinks(cfg);
    }
  }

  lemma RouteIsOk(cfg: Setup, db: Database, item: Item, result: AttentionResult)
    requires item.server in cfg.servers && WellFormed(result)
    ensures WorkerOk(cfg, db, Route(cfg, item, result))
  {
    if result.deliver && AnyEnabled(cfg) && !HasStore(cfg) {
      StartSinkIsOk(cfg, db, item, result, 0);
    }
  }

  // ----- Steps of the worker on the tables -----

  /** What the steps of the worker keep: the table invariant, everything final, and the worker's own position. */
  ghost predicate TablesOk(cfg: Setup, s: State) {
    DbOk(s.db) && WorkerOk(cfg, s.db, s.worker)
  }

  lemma RecordKeeps(cfg: Setup, s: State)
    requires TablesOk(cfg, s) && (s.worker.Recording? || s.worker.Deciding?)
    requires StepRecord(cfg, s).Some?
    ensures TablesOk(cfg, StepRecord(cfg, s).value) && Extends(s.db, StepRecord(cfg, s).value.db)
  {
    hide DbOk, Extends, Route;
    var item := s.worker.item;
    if s.worker.Recording? {
      UpsertSourceKeeps(s.db, item.server);
    } else {
      UpsertDecisionKeeps(s.db, s.db.sources[item.server], item.id, s.worker.result);
      RouteIsOk(cfg, UpsertDecision(s.db, s.db.sources[item.server], item.id, s.worker.result), item, s.worker.result);
      hide UpsertDecision, WorkerOk;
    }
  }

  lemma ReconcileKeeps(cfg: Setup, s: State)
    requires TablesOk(cfg, s) && s.worker.Reconciling?
    requires StepReconcile(cfg, s).Some?
    ensures TablesOk(cfg, StepReconcile(cfg, s).value) && Extends(s.db, StepReconcile(cfg, s).value.db)
  {
    hide DbOk, Extends;
    var Reconciling(item, result, k, upserted) := s.worker;
    if k >= |cfg.sinks| {
      var next := DisableMissing(s.db, cfg.sinks);
      FlagsKeep(s.db, next);
      StartSinkIsOk(cfg, next, item, result, 0);
    } else if !upserted {
      UpsertTargetKeeps(s.db, cfg.sinks[k].key, cfg.sinks[k].kind, DefaultDestination(cfg, cfg.sinks[k]));
    } else if cfg.sinks[k].enabled {
      FlagsKeep(s.db, ClearDisabled(s.db, s.db.targets[cfg.sinks[k].key].id));
    } else {
      FlagsKeep(s.db, SoftDisable(s.db, s.db.targets[cfg.sinks[k].key].id, "sink disabled in config"));
    }
  }

  lemma LookupKeeps(cfg: Setup, s: State)
    requires TablesOk(cfg, s) && s.worker.AtSink? && (s.worker.stage.Guard? || s.worker.stage.Source?
                                                      || s.worker.stage.Lookup?)
    requires StepRows(cfg, s).Some?
    ensures TablesOk(cfg, StepRows(cfg, s).value) && Extends(s.db, StepRows(cfg, s).value.db)
  {
    hide DbOk, Extends;
    var item := s.worker.item;
    ExtendsItself(s.db);
    if s.worker.stage.Source? {
      UpsertSourceKeeps(s.db, item.server);
    } else if s.worker.stage.Lookup? && Key(s.db, item.server, item.id) !in s.db.idempotency {
      InsertEventKeeps(s.db, s.db.sources[item.server], item.id);
    }
  }

  lemma InsertedKeeps(cfg: Setup, s: State)
    requires TablesOk(cfg, s) && s.worker.AtSink? && s.worker.stage.Inserted?
    requires StepRows(cfg, s).Some?
    ensures TablesOk(cfg, StepRows(cfg, s).value) && Extends(s.db, StepRows(cfg, s).value.db)
  {
    hide DbOk, Extends, EventOf;
    var item := s.worker.item;
    InsertIdempotencyKeeps(s.db, item.server, item.id, s.worker.stage.event);
  }

  lemma EventIsMappedByKey(db: Database, server: ServerKey, message: MessageId)
    requires EventOf(db, server, message).Some?
    ensures EventIsMapped(db, EventOf(db, server, message).value)
  {
    assert db.idempotency[Key(db, server, message)] == EventOf(db, server, message).value;
  }

  /** The matches written so far stay as written, because no two of them share a row. */
  lemma MatchingKeeps(cfg: Setup, s: State)
    requires TablesOk(cfg, s) && s.worker.AtSink? && s.worker.stage.Matching?
    requires s.worker.stage.done < |s.worker.result.matches|
    requires StepRows(cfg, s).Some?
    ensures TablesOk(cfg, StepRows(cfg, s).value) && Extends(s.db, StepRows(cfg, s).value.db)
  {
    var AtSink(item, result, i, stage) := s.worker;
    var Matching(event, done) := stage;
    EventIsMappedByKey(s.db, item.server, item.id);
    hide DbOk, Extends, EventIsMapped;
    UpsertMatchKeeps(s.db, event, result.matches[done]);
    WrittenGrows(s.db, event, result, done);
  }

  lemma WrittenGrows(db: Database, event: RowId, result: AttentionResult, done: nat)
    requires WellFormed(result) && done < |result.matches| && MatchesWritten(db, event, result.matches, done)
    ensures MatchesWritten(UpsertMatch(db, event, result.matches[done]), event, result.matches, done + 1)
  {
    forall j | 0 <= j < done ensures KeyOfMatch(event, result.matches[j]) != KeyOfMatch(event, result.matches[done]) {
      assert KeyOfMatch(0, result.matches[j]) != KeyOfMatch(0, result.matches[done]);
    }
  }

  lemma WrittenIsAccepted(db: Database, event: RowId, result: AttentionResult)
    requires ReceptorAccepted(result) && MatchesWritten(db, event, result.matches, |result.matches|)
    ensures Accepted(db, event)
  {
    var m :| m in result.matches && m.above && m.cls != Receptors.Veto;
    var j :| 0 <= j < |result.matches| && result.matches[j] == m;
    assert KeyOfMatch(event, result.matches[j]) in db.matches;
  }

  lemma MatchedKeeps(cfg: Setup, s: State)
    requires TablesOk(cfg, s) && s.worker.AtSink? && s.worker.stage.Matching?
    requires s.worker.stage.done == |s.worker.result.matches|
    requires StepRows(cfg, s).Some?
    ensures TablesOk(cfg, StepRows(cfg, s).value) && Extends(s.db, StepRows(cfg, s).value.db)
  {
    hide DbOk, Extends, MatchesWritten, WellFormed, Accepted, UpsertTarget, EventOf, SelectedSinks, Destination;
    var AtSink(item, result, i, stage) := s.worker;
    var sink := SelectedSinks(cfg)[i];
    MatchedNext(cfg, s);
    MatchedFacts(cfg, s);
    hide StepRows, StageOk;
    UpsertTargetKeeps(s.db, sink.key, sink.kind, Destination(cfg, sink, item));
    MatchedStage(cfg, s.db, item, result, sink, stage.event);
  }

  lemma MatchedNext(cfg: Setup, s: State)
    requires s.worker.AtSink? && s.worker.index < |SelectedSinks(cfg)| && s.worker.stage.Matching?
    requires s.worker.stage.done == |s.worker.result.matches| && StepRows(cfg, s).Some?
    ensures var next, sink := StepRows(cfg, s).value, SelectedSinks(cfg)[s.worker.index];
      && next.db == UpsertTarget(s.db, sink.key, sink.kind, Destination(cfg, sink, s.worker.item))
      && next.worker == s.worker.(stage := Targeted(s.worker.stage.event))
  {
    hide UpsertTarget, SelectedSinks, Destination;
  }

  lemma MatchedFacts(cfg: Setup, s: State)
    requires TablesOk(cfg, s) && s.worker.AtSink? && s.worker.stage.Matching?
    requires s.worker.stage.done == |s.worker.result.matches|
    ensures s.worker.index < |SelectedSinks(cfg)| && s.worker.item.server in cfg.servers
    ensures DbOk(s.db) && WellFormed(s.worker.result) && s.worker.result.deliver && HasStore(cfg)
    ensures EventOf(s.db, s.worker.item.server, s.worker.item.id) == Some(s.worker.stage.event)
    ensures MatchesWritten(s.db, s.worker.stage.event, s.worker.result.matches, |s.worker.result.matches|)
  {
    hide DbOk, MatchesWritten, WellFormed, EventOf;
  }

  lemma MatchedStage(cfg: Setup, db: Database, item: Item, result: AttentionResult, sink: SinkConfig, event: RowId)
    requires DbOk(db) && HasStore(cfg) && WellFormed(result) && result.deliver
    requires EventOf(db, item.server, item.id) == Some(event)
    requires MatchesWritten(db, event, result.matches, |result.matches|)
    ensures StageOk(cfg, UpsertTarget(db, sink.key, sink.kind, Destination(cfg, sink, item)), item, result, sink,
                    Targeted(event))
  {
    WrittenIsAccepted(db, event, result);
    hide DbOk, MatchesWritten, WellFormed;
    if sink.key in db.targets {
      assert UpsertTarget(db, sink.key, sink.kind, Destination(cfg, sink, item)).matches == db.matches;
    }
  }

  lemma TargetedKeeps(cfg: Setup, s: State)
    requires TablesOk(cfg, s) && s.worker.AtSink? && s.worker.stage.Targeted?
    requires StepRows(cfg, s).Some?
    ensures TablesOk(cfg, StepRows(cfg, s).value) && Extends(s.db, StepRows(cfg, s).value.db)
  {
    var AtSink(item, result, i, stage) := s.worker;
    var sink := SelectedSinks(cfg)[i];
    hide DbOk, Extends, WellFormed, Accepted, EventIsMapped;
    EventIsMappedByKey(s.db, item.server, item.id);
    TargetedStage(cfg, s.db, item, result, sink, stage.event);
    hide StageOk, EventOf;
    UpsertDeliveryKeeps(s.db, stage.event, sink.key);
    hide UpsertDelivery;
  }

  lemma TargetedStage(cfg: Setup, db: Database, item: Item, result: AttentionResult, sink: SinkConfig, event: RowId)
    requires HasStore(cfg) && EventOf(db, item.server, item.id) == Some(event) && sink.key in db.targets
    ensures var key := DeliveryKey(event, db.targets[sink.key].id);
      var next := UpsertDelivery(db, event, db.targets[sink.key].id);
      key in next.deliveries && StageOk(cfg, next, item, result, sink, Ticketed(event, next.deliveries[key].id))
  {
    var key := DeliveryKey(event, db.targets[sink.key].id);
    if key !in db.deliveries {
      assert RowOf(UpsertDelivery(db, event, key.target), item.server, item.id,
                   sink.key) == Some(DeliveryRow(db.nextId, Queued));
    } else if db.deliveries[key].status != Delivered {
      assert RowOf(UpsertDelivery(db, event, key.target), item.server, item.id,
                   sink.key) == Some(DeliveryRow(db.deliveries[key].id, Queued));
    }
  }

  /** Marking a ticket changes the status of exactly the row it names. */
  lemma MarkTicket(db: Database, item: Item, sink: SinkKey, ticket: RowId, status: Status)
    requires DbOk(db) && TicketIs(db, item, sink, ticket)
    requires status == Delivered || !IsDelivered(db, item.server, item.id, sink)
    ensures var next := MarkStatus(db, ticket, status);
      && DbOk(next) && Extends(db, next)
      && RowOf(next, item.server, item.id, sink) == Some(DeliveryRow(ticket, status))
      && next == db.(deliveries := next.deliveries)
      && next.deliveries.Keys == db.deliveries.Keys
  {
    hide DbOk, Extends, MarkStatus;
    var key := DeliveryKey(EventOf(db, item.server, item.id).value, db.targets[sink].id);
    assert db.deliveries[key].id == ticket && (status == Delivered || db.deliveries[key].status != Delivered);
    MarkStatusKeeps(db, key, status);
    RowAfterUpdate(db, item, sink, DeliveryRow(ticket, status));
  }

  lemma RowAfterUpdate(db: Database, item: Item, sink: SinkKey, row: DeliveryRow)
    requires RowOf(db, item.server, item.id, sink).Some?
    ensures var key := DeliveryKey(EventOf(db, item.server, item.id).value, db.targets[sink].id);
      RowOf(db.(deliveries := db.deliveries[key := row]), item.server, item.id, sink) == Some(row)
  {
  }

  lemma DeliveredTicket(db: Database, item: Item, sink: SinkKey, ticket: RowId)
    requires DbOk(db) && TicketIs(db, item, sink, ticket)
    ensures DeliveredById(db, ticket) <==> IsDelivered(db, item.server, item.id, sink)
  {
    var key := DeliveryKey(EventOf(db, item.server, item.id).value, db.targets[sink].id);
    assert db.deliveries[key].id == ticket;
  }

  lemma SendKeeps(cfg: Setup, s: State)
    requires TablesOk(cfg, s) && s.worker.AtSink?
    requires StepSend(cfg, s).Some?
    ensures TablesOk(cfg, StepSend(cfg, s).value) && Extends(s.db, StepSend(cfg, s).value.db)
  {
    hide DbOk, Extends, RowOf, WellFormed, MarkStatus, DeliveredById;
    var AtSink(item, result, i, stage) := s.worker;
    var sink := SelectedSinks(cfg)[i];
    var next := StepSend(cfg, s).value;
    StartSinkIsOk(cfg, next.db, item, result, i + 1);
    ExtendsItself(s.db);
    match stage
    case Ticketed(event, ticket) =>
      DeliveredTicket(s.db, item, sink.key, ticket);
      if sink.kind == Db {
        MarkTicket(s.db, item, sink.key, ticket, Delivered);
      }
    case Attempt(wake) =>
      if wake.Some? {
        MarkTicket(s.db, item, sink.key, wake.value, Attempted);
      }
    case Sending(wake) =>
    case Confirm(wake) =>
      if wake.Some? {
        MarkTicket(s.db, item, sink.key, wake.value, Delivered);
      }
    case Rejected(wake) =>
      if wake.Some? {
        MarkTicket(s.db, item, sink.key, wake.value, Failed);
      }
    case _ =>
  }

  lemma AdvanceKeeps(cfg: Setup, s: State)
    requires TablesOk(cfg, s) && StepAdvance(cfg, s).Some?
    ensures TablesOk(cfg, StepAdvance(cfg, s).value) && Extends(s.db, StepAdvance(cfg, s).value.db)
  {
    hide DbOk, Extends, StageOk, WellFormed, StepRecord, StepReconcile, StepRows, StepSend;
    match s.worker
    case Recording(_, _) => RecordKeeps(cfg, s);
    case Deciding(_, _) => RecordKeeps(cfg, s);
    case Reconciling(_, _, _, _) => ReconcileKeeps(cfg, s);
    case AtSink(item, result, i, stage) =>
      match stage {
        case Guard => LookupKeeps(cfg, s);
        case Source => LookupKeeps(cfg, s);
        case Lookup => LookupKeeps(cfg, s);
        case Inserted(_) => InsertedKeeps(cfg, s);
        case Matching(event, done) =>
          MatchingIsWithin(cfg, s);
          if done < |result.matches| {
            MatchingKeeps(cfg, s);
          } else {
            MatchedKeeps(cfg, s);
          }
        case Targeted(_) => TargetedKeeps(cfg, s);
        case _ => SendKeeps(cfg, s);
      }
    case _ => ExtendsItself(s.db);
  }

  lemma MatchingIsWithin(cfg: Setup, s: State)
    requires TablesOk(cfg, s) && s.worker.AtSink? && s.worker.stage.Matching?
    ensures s.worker.stage.done <= |s.worker.result.matches|
  {
  }

  /** Every step of the system keeps the tables in order and undoes nothing final. */
  lemma StepKeepsTables(cfg: Setup, s: State, a: Action)
    requires TablesOk(cfg, s) && Next(cfg, s, a).Some?
    requires a.Decide? ==> WellFormed(a.result)
    requires forall item <- s.queue :: item.server in cfg.servers
    ensures TablesOk(cfg, Next(cfg, s, a).value) && Extends(s.db, Next(cfg, s, a).value.db)
  {
    hide DbOk, Extends, WellFormed, StepAdvance, Route, Interrupted;
    ExtendsItself(s.db);
    match a
    case Advance => AdvanceKeeps(cfg, s);
    case Decide(result) =>
      hide StageOk;
      RouteIsOk(cfg, s.db, s.worker.item, result);
    case _ =>
  }
}
