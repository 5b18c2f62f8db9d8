/** Counting over the whole history: Ok replies against delivered rows, and events against idempotency rows. */
module Accounting {
  import Attention
  import opened Frames
  import opened Protocol
  import opened Storage
  import opened Tables
  import opened WorkerInvariant

  // ----- Ok replies -----

  function One(b: bool): nat {
    if b then 1 else 0
  }

  /** The worker holds an Ok reply for this job that is not marked yet. */
  predicate ConfirmPending(cfg: Setup, worker: Worker, job: Job) {
    && worker.AtSink? && worker.stage.Confirm? && worker.index < |SelectedSinks(cfg)|
    && job == Job(worker.item.server, worker.item.id, SelectedSinks(cfg)[worker.index].key)
  }

  ghost predicate ReplyCount(cfg: Setup, db: Database, worker: Worker, hist: History, job: Job) {
    hist.oks[job]
    <= One(IsDelivered(db, job.server, job.id, job.sink)) + One(ConfirmPending(cfg, worker, job)) + hist.lost[job]
  }

  /** With a store, every Ok reply shows as a delivered row, as the mark the worker is about to make, or as a mark
      lost to a stop; so all but one of the replies to a job were lost. */
  ghost predicate RepliesOk(cfg: Setup, s: State) {
    HasStore(cfg) ==> forall job :: ReplyCount(cfg, s.db, s.worker, s.hist, job)
  }

  lemma RepliesStay(cfg: Setup, s: State, next: State)
    requires RepliesOk(cfg, s) && Extends(s.db, next.db)
    requires next.hist.oks == s.hist.oks && next.hist.lost == s.hist.lost
    requires forall job :: ConfirmPending(cfg, s.worker, job) ==>
      ConfirmPending(cfg, next.worker, job)
      || (IsDelivered(next.db, job.server, job.id, job.sink) && !IsDelivered(s.db, job.server, job.id, job.sink))
    ensures RepliesOk(cfg, next)
  {
    hide Extends, IsDelivered, ConfirmPending;
    if HasStore(cfg) {
      forall job ensures ReplyCount(cfg, next.db, next.worker, next.hist, job) {
        assert ReplyCount(cfg, s.db, s.worker, s.hist, job);
        ExtendsKeepsRows(s.db, next.db, job.server, job.id, job.sink);
      }
    }
  }

  lemma ReplyKeepsReplies(cfg: Setup, s: State, ok: bool)
    requires TablesOk(cfg, s) && RepliesOk(cfg, s) && StepReply(cfg, s, ok).Some?
    ensures RepliesOk(cfg, StepReply(cfg, s, ok).value)
  {
    var next := StepReply(cfg, s, ok).value;
    hide TablesOk, IsDelivered;
    if HasStore(cfg) {
      forall job ensures ReplyCount(cfg, next.db, next.worker, next.hist, job) {
        assert ReplyCount(cfg, s.db, s.worker, s.hist, job);
      }
    }
  }

  /** A stop moves a pending confirmation into the lost marks. */
  lemma StopKeepsReplies(cfg: Setup, s: State, next: State)
    requires RepliesOk(cfg, s)
    requires next.db == s.db && !next.worker.AtSink?
    requires next.hist == Interrupted(cfg, s.worker, s.hist).(left := next.hist.left, processed := next.hist.processed)
    ensures RepliesOk(cfg, next)
  {
    hide IsDelivered;
    if HasStore(cfg) {
      forall job ensures ReplyCount(cfg, next.db, next.worker, next.hist, job) {
        assert ReplyCount(cfg, s.db, s.worker, s.hist, job);
      }
    }
  }

  /** Marking the row of an answered wake settles the reply: the row was not delivered before. */
  lemma ConfirmSettles(cfg: Setup, s: State)
    requires TablesOk(cfg, s) && HasStore(cfg) && s.worker.AtSink? && s.worker.stage.Confirm?
    requires StepSend(cfg, s).Some?
    ensures var item, sink := s.worker.item, SelectedSinks(cfg)[s.worker.index].key;
      && !IsDelivered(s.db, item.server, item.id, sink)
      && IsDelivered(StepSend(cfg, s).value.db, item.server, item.id, sink)
      && StepSend(cfg, s).value.hist == s.hist
  {
    hide DbOk, RowOf, MarkStatus, WellFormed, StartSink;
    var sink := SelectedSinks(cfg)[s.worker.index].key;
    var ticket := s.worker.stage.wake.value;
    MarkTicket(s.db, s.worker.item, sink, ticket, Delivered);
  }

  lemma AdvanceKeepsReplies(cfg: Setup, s: State)
    requires TablesOk(cfg, s) && RepliesOk(cfg, s) && StepAdvance(cfg, s).Some?
    ensures RepliesOk(cfg, StepAdvance(cfg, s).value)
  {
    AdvanceKeeps(cfg, s);
    AdvanceLeavesReplies(cfg, s);
    var next := StepAdvance(cfg, s).value;
    if HasStore(cfg) {
      if s.worker.AtSink? && s.worker.stage.Confirm? {
        ConfirmSettles(cfg, s);
        assert next == StepSend(cfg, s).value;
      }
      hide TablesOk, IsDelivered, StepAdvance;
      RepliesStay(cfg, s, next);
    }
  }

  /** Neither Ok replies, lost marks nor orphans are counted by the worker's own steps. */
  ghost predicate SameReplies(was: History, hist: History) {
    hist.oks == was.oks && hist.lost == was.lost && hist.orphans == was.orphans
  }

  lemma RowsLeaveReplies(cfg: Setup, s: State)
    requires s.worker.AtSink? && s.worker.index < |SelectedSinks(cfg)| && StepRows(cfg, s).Some?
    ensures SameReplies(s.hist, StepRows(cfg, s).value.hist)
  {
    hide UpsertSource, UpsertTarget, UpsertMatch, UpsertDelivery, InsertEvent, InsertIdempotency, SelectedSinks;
    hide ReceptorAccepted, Destination, Key;
  }

  lemma AdvanceLeavesReplies(cfg: Setup, s: State)
    requires StepAdvance(cfg, s).Some?
    ensures SameReplies(s.hist, StepAdvance(cfg, s).value.hist)
  {
    hide StepRows, StepSend, SelectedSinks;
    if s.worker.AtSink? {
      if StepAdvance(cfg, s) == StepRows(cfg, s) {
        RowsLeaveReplies(cfg, s);
      } else {
        SendTouchesDeliveries(cfg, s);
      }
    } else {
      hide StartSink, Route, UpsertSource, UpsertDecision, UpsertTarget, DisableMissing, ClearDisabled, SoftDisable;
      hide Runtime.MarkProcessed;
    }
  }

  lemma StepKeepsReplies(cfg: Setup, s: State, a: Action)
    requires TablesOk(cfg, s) && RepliesOk(cfg, s) && Next(cfg, s, a).Some?
    ensures RepliesOk(cfg, Next(cfg, s, a).value)
  {
    hide TablesOk, StepAdvance, StepReply, Interrupted, Route, ReplyCount;
    ExtendsItself(s.db);
    match a
    case Advance => AdvanceKeepsReplies(cfg, s);
    case GatewayReply(ok) => ReplyKeepsReplies(cfg, s, ok);
    case Halt => StopKeepsReplies(cfg, s, StepHalt(cfg, s).value);
    case Crash(now) => StopKeepsReplies(cfg, s, StepCrash(cfg, s, now));
    case _ => RepliesStay(cfg, s, Next(cfg, s, a).value);
  }

  // ----- Events without an idempotency row -----

  ghost function Orphans(db: Database): set<RowId> {
    set e | e in db.events && !EventIsMapped(db, e)
  }

  /** The events without an idempotency row are those a stop separated from it, and the one being inserted. */
  ghost predicate OrphansOk(s: State) {
    |Orphans(s.db)| == |s.hist.orphans| + One(s.worker.AtSink? && s.worker.stage.Inserted?)
  }

  lemma SameEventsSameOrphans(was: Database, db: Database)
    requires db.events == was.events && db.idempotency == was.idempotency
    ensures Orphans(db) == Orphans(was)
  {
    assert forall e :: EventIsMapped(was, e) <==> EventIsMapped(db, e);
  }

  lemma InsertedIsAnOrphan(db: Database, source: RowId, message: MessageId)
    requires DbOk(db)
    ensures |Orphans(InsertEvent(db, source, message))| == |Orphans(db)| + 1
  {
    InsertEventKeeps(db, source, message);
    var next := InsertEvent(db, source, message);
    assert forall e :: EventIsMapped(db, e) <==> EventIsMapped(next, e);
    assert db.nextId !in db.events;
    hide EventIsMapped, DbOk, Extends;
    assert Orphans(next) == Orphans(db) + {db.nextId};
  }

  lemma MappingEndsAnOrphan(db: Database, key: EventKey, event: RowId)
    requires event in Orphans(db) && key !in db.idempotency
    ensures |Orphans(InsertIdempotency(db, key, event))| == |Orphans(db)| - 1
  {
    var next := InsertIdempotency(db, key, event);
    forall e ensures EventIsMapped(next, e) <==> EventIsMapped(db, e) || e == event {
      if EventIsMapped(db, e) {
        var k :| k in db.idempotency && db.idempotency[k] == e;
        assert next.idempotency[k] == e;
      }
      assert next.idempotency[key] == event;
    }
    hide EventIsMapped;
    assert Orphans(next) == Orphans(db) - {event};
  }

  lemma InsertedIsNoKey(db: Database, server: ServerKey, message: MessageId, event: RowId)
    requires server in db.sources && EventOf(db, server, message).None?
    requires event in db.events && !EventIsMapped(db, event)
    ensures Key(db, server, message) !in db.idempotency
    ensures event in Orphans(db)
  {
  }

  lemma SameTables(cfg: Setup, s: State)
    requires s.worker.AtSink? && s.worker.index < |SelectedSinks(cfg)| && StepRows(cfg, s).Some?
    requires !s.worker.stage.Inserted?
    requires s.worker.stage.Lookup? ==>
      s.worker.item.server in s.db.sources && Key(s.db, s.worker.item.server, s.worker.item.id) in s.db.idempotency
    ensures SameEvents(s, StepRows(cfg, s).value)
  {
    hide UpsertSource, UpsertTarget, UpsertDelivery, UpsertMatch, ReceptorAccepted;
    var item, sink := s.worker.item, SelectedSinks(cfg)[s.worker.index];
    match s.worker.stage
    case Source => SourceFrame(s.db, item.server);
    case Matching(event, done) =>
      if done < |s.worker.result.matches| {
        MatchFrame(s.db, event, s.worker.result.matches[done]);
      } else {
        TargetFrame(s.db, sink.key, sink.kind, Destination(cfg, sink, item));
      }
    case Targeted(event) => DeliveryFrame(s.db, event, s.db.targets[sink.key].id);
    case _ =>
  }

  lemma RowsKeepOrphans(cfg: Setup, s: State)
    requires TablesOk(cfg, s) && OrphansOk(s) && s.worker.AtSink? && StepRows(cfg, s).Some?
    ensures OrphansOk(StepRows(cfg, s).value)
  {
    hide DbOk, WellFormed, MatchesWritten, Orphans, EventOf, UpsertSource, UpsertTarget, UpsertDelivery, UpsertMatch;
    var next := StepRows(cfg, s).value;
    var item := s.worker.item;
    if s.worker.stage.Lookup? && Key(s.db, item.server, item.id) !in s.db.idempotency {
      InsertedIsAnOrphan(s.db, s.db.sources[item.server], item.id);
    } else if s.worker.stage.Inserted? {
      InsertedIsNoKey(s.db, item.server, item.id, s.worker.stage.event);
      MappingEndsAnOrphan(s.db, Key(s.db, item.server, item.id), s.worker.stage.event);
    } else {
      hide StageOk;
      SameTables(cfg, s);
      SameEventsSameOrphans(s.db, next.db);
    }
  }

  /** The step neither inserts an event or an idempotency row nor is about to. */
  ghost predicate SameEvents(s: State, next: State) {
    && next.db.events == s.db.events && next.db.idempotency == s.db.idempotency
    && !(next.worker.AtSink? && next.worker.stage.Inserted?)
  }

  lemma StartSinkInsertsNothing(cfg: Setup, item: Item, result: Attention.AttentionResult, i: nat)
    ensures !(StartSink(cfg, item, result, i).AtSink? && StartSink(cfg, item, result, i).stage.Inserted?)
    ensures !(Route(cfg, item, result).AtSink? && Route(cfg, item, result).stage.Inserted?)
  {
  }

  lemma SendKeepsEvents(cfg: Setup, s: State)
    requires s.worker.AtSink? && s.worker.index < |SelectedSinks(cfg)|
    ensures StepSend(cfg, s).Some? ==> SameEvents(s, StepSend(cfg, s).value)
  {
    StartSinkInsertsNothing(cfg, s.worker.item, s.worker.result, s.worker.index + 1);
    if StepSend(cfg, s).Some? {
      SendTouchesDeliveries(cfg, s);
      SendInsertsNothing(cfg, s);
    }
    hide StepSend, StartSink, SelectedSinks;
  }

  lemma SendInsertsNothing(cfg: Setup, s: State)
    requires s.worker.AtSink? && s.worker.index < |SelectedSinks(cfg)| && StepSend(cfg, s).Some?
    ensures var next := StepSend(cfg, s).value;
      next.worker.AtSink? && next.worker.stage.Inserted? ==>
        next.worker == StartSink(cfg, s.worker.item, s.worker.result, s.worker.index + 1)
  {
    hide DeliveredById, StartSink, SelectedSinks, MarkStatus;
  }

  lemma EarlyKeepsEvents(cfg: Setup, s: State)
    requires s.worker.Recording? || s.worker.Deciding? || s.worker.Reconciling?
    requires StepAdvance(cfg, s).Some?
    ensures SameEvents(s, StepAdvance(cfg, s).value)
  {
    hide StartSink, Route, UpsertSource, UpsertDecision, UpsertTarget, ClearDisabled, SoftDisable, DisableMissing;
    StartSinkInsertsNothing(cfg, s.worker.item, s.worker.result, 0);
    if s.worker.Recording? {
      SourceFrame(s.db, s.worker.item.server);
    } else if s.worker.Deciding? {
      DecisionFrame(s.db, s.db.sources[s.worker.item.server], s.worker.item.id, s.worker.result);
    } else {
      ReconcileFrame(cfg, s);
    }
  }

  /** One statement of a reconciliation touches targets only. */
  lemma ReconcileFrame(cfg: Setup, s: State)
    requires s.worker.Reconciling? && StepReconcile(cfg, s).Some?
    ensures var next := StepReconcile(cfg, s).value;
      next.db == s.db.(targets := next.db.targets, nextId := next.db.nextId) && next.hist == s.hist
  {
    hide StartSink, UpsertTarget, ClearDisabled, SoftDisable, DisableMissing;
    if s.worker.index >= |cfg.sinks| {
      MissingFrame(s.db, cfg.sinks);
    } else {
      var sink := cfg.sinks[s.worker.index];
      if !s.worker.upserted {
        TargetFrame(s.db, sink.key, sink.kind, DefaultDestination(cfg, sink));
      } else if sink.enabled {
        ClearFrame(s.db, s.db.targets[sink.key].id);
      } else {
        DisableFrame(s.db, s.db.targets[sink.key].id, "sink disabled in config");
      }
    }
  }

  lemma OtherAdvanceKeepsEvents(cfg: Setup, s: State)
    requires StepAdvance(cfg, s).Some?
    requires s.worker.AtSink? ==> StepAdvance(cfg, s) != StepRows(cfg, s)
    ensures SameEvents(s, StepAdvance(cfg, s).value)
    ensures !(s.worker.AtSink? && s.worker.stage.Inserted?)
  {
    hide StepRows, StepSend, StepRecord, StepReconcile, Runtime.MarkProcessed, SameEvents;
    if s.worker.AtSink? {
      SendKeepsEvents(cfg, s);
    } else if s.worker.Marking? || s.worker.Flushing? {
      MarkKeepsEvents(s);
    } else {
      EarlyKeepsEvents(cfg, s);
    }
  }

  lemma MarkKeepsEvents(s: State)
    requires (s.worker.Marking? || s.worker.Flushing?) && StepMark(s).Some?
    ensures SameEvents(s, StepMark(s).value)
  {
    hide Runtime.MarkProcessed;
  }

  lemma StepKeepsOrphans(cfg: Setup, s: State, a: Action)
    requires TablesOk(cfg, s) && OrphansOk(s) && Next(cfg, s, a).Some?
    ensures OrphansOk(Next(cfg, s, a).value)
  {
    hide StepAdvance, StepRows, DbOk, Orphans, WellFormed;
    match a
    case Advance => AdvanceKeepsOrphans(cfg, s);
    case Halt => hide StageOk;
    case Crash(_) => hide StageOk;
    case _ => hide TablesOk;
  }

  lemma AdvanceKeepsOrphans(cfg: Setup, s: State)
    requires TablesOk(cfg, s) && OrphansOk(s) && StepAdvance(cfg, s).Some?
    ensures OrphansOk(StepAdvance(cfg, s).value)
  {
    AdvanceLeavesReplies(cfg, s);
    hide TablesOk, StepRows, StepSend, Orphans;
    if s.worker.AtSink? && StepAdvance(cfg, s) == StepRows(cfg, s) {
      RowsKeepOrphans(cfg, s);
    } else {
      OtherAdvanceKeepsEvents(cfg, s);
      hide StepAdvance;
      SameEventsSameOrphans(s.db, StepAdvance(cfg, s).value.db);
    }
  }
}
