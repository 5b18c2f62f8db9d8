/** What the decision table holds: for each message, the last decision recorded for it. */
module Decisions {
  import opened Accounting
  import opened Attention
  import opened Frames
  import opened Protocol
  import opened Storage
  import opened Tables
  import opened WorkerInvariant
  import opened Wrappers

  /** The decision row of a message says what the result says. */
  ghost predicate RowSays(db: Database, server: ServerKey, message: MessageId, result: AttentionResult) {
    && server in db.sources
    && DecisionKey(db.sources[server], message) in db.decisions
    && db.decisions[DecisionKey(db.sources[server], message)].disposition == result.disposition
    && db.decisions[DecisionKey(db.sources[server], message)].eligible == result.deliver
  }

  /** Recording a decision makes the row of the message say it, and leaves every other row as it was. */
  lemma RecordingMeaning(db: Database, server: ServerKey, message: MessageId, result: AttentionResult)
    ensures var next := WithDecision(db, server, message, result);
      && RowSays(next, server, message, result)
      && forall k :: k != DecisionKey(next.sources[server], message) ==>
           (k in next.decisions <==> k in db.decisions) && (k in db.decisions ==> next.decisions[k] == db.decisions[k])
  {
  }

  // ----- Over runs -----

  ghost predicate RowsSayDecided(db: Database, decided: map<(ServerKey, MessageId), AttentionResult>) {
    forall server, message :: (server, message) in decided ==> RowSays(db, server, message, decided[(server, message)])
  }

  ghost predicate RowIsDecided(db: Database, decided: map<(ServerKey, MessageId), AttentionResult>, k: DecisionKey) {
    exists server <- db.sources :: db.sources[server] == k.source && (server, k.message) in decided
  }

  ghost predicate DecidedInHand(cfg: Setup, worker: Worker, decided: map<(ServerKey, MessageId), AttentionResult>) {
    HasStore(cfg) ==>
      match worker
      case Reconciling(item, result, _, _) =>
        (item.server, item.id) in decided && decided[(item.server, item.id)] == result
      case AtSink(item, result, _, _) =>
        (item.server, item.id) in decided && decided[(item.server, item.id)] == result
      case Marking(item) => (item.server, item.id) in decided
      case _ => true
  }

  ghost predicate DecisionsOk(cfg: Setup, s: State) {
    && RowsSayDecided(s.db, s.hist.decided)
    && (forall k <- s.db.decisions :: RowIsDecided(s.db, s.hist.decided, k))
    && DecidedInHand(cfg, s.worker, s.hist.decided)
  }

  lemma RowMeansDecided(db: Database, decided: map<(ServerKey, MessageId), AttentionResult>, server: ServerKey,
                        message: MessageId)
    requires SourceIdsOk(db.sources, db.nextId) && server in db.sources
    requires RowIsDecided(db, decided, DecisionKey(db.sources[server], message))
    ensures (server, message) in decided
  {
  }

  lemma InHandIsDecided(cfg: Setup, s: State)
    requires DecisionsOk(cfg, s) && HasStore(cfg) && (s.worker.Reconciling? || s.worker.AtSink?)
    ensures RowSays(s.db, s.worker.item.server, s.worker.item.id, s.worker.result)
  {
    hide HasStore, RowSays;
  }

  lemma RowSaysStays(was: Database, db: Database, server: ServerKey, message: MessageId, result: AttentionResult)
    requires RowSays(was, server, message, result) && Extends(was, db) && db.decisions == was.decisions
    ensures RowSays(db, server, message, result)
  {
  }

  lemma RowIsDecidedStays(was: Database, db: Database, decided: map<(ServerKey, MessageId), AttentionResult>,
                          k: DecisionKey)
    requires RowIsDecided(was, decided, k) && Extends(was, db)
    ensures RowIsDecided(db, decided, k)
  {
    var server :| server in was.sources && was.sources[server] == k.source && (server, k.message) in decided;
    assert db.sources[server] == k.source;
  }

  lemma DecisionsStay(cfg: Setup, s: State, next: State)
    requires DecisionsOk(cfg, s) && Extends(s.db, next.db)
    requires next.db.decisions == s.db.decisions && next.hist.decided == s.hist.decided
    requires DecidedInHand(cfg, next.worker, next.hist.decided)
    ensures DecisionsOk(cfg, next)
  {
    hide Extends, RowSays, RowIsDecided, DecidedInHand;
    forall server, message | (server, message) in next.hist.decided
      ensures RowSays(next.db, server, message, next.hist.decided[(server, message)])
    {
      RowSaysStays(s.db, next.db, server, message, s.hist.decided[(server, message)]);
    }
    forall k | k in next.db.decisions ensures RowIsDecided(next.db, next.hist.decided, k) {
      RowIsDecidedStays(s.db, next.db, s.hist.decided, k);
    }
  }

  lemma RouteInHand(cfg: Setup, item: Item, result: AttentionResult, decided: map<(ServerKey, MessageId),
                    AttentionResult>)
    requires (item.server, item.id) in decided && decided[(item.server, item.id)] == result
    ensures DecidedInHand(cfg, Route(cfg, item, result), decided)
    ensures forall i: nat :: DecidedInHand(cfg, StartSink(cfg, item, result, i), decided)
  {
    hide HasStore, AnyEnabled;
  }

  lemma DecidingKeeps(cfg: Setup, s: State)
    requires DbOk(s.db) && DecisionsOk(cfg, s) && s.worker.Deciding? && StepRecord(cfg, s).Some?
    ensures DecisionsOk(cfg, StepRecord(cfg, s).value)
  {
    var item, result := s.worker.item, s.worker.result;
    var next := StepRecord(cfg, s).value;
    RouteInHand(cfg, item, result, next.hist.decided);
    DecidingRows(s.db, s.hist.decided, item.server, item.id, result);
    hide Route, RowSays, RowIsDecided, DecidedInHand, UpsertDecision;
  }

  lemma DecidingRows(db: Database, decided: map<(ServerKey, MessageId), AttentionResult>, server: ServerKey,
                     message: MessageId, result: AttentionResult)
    requires DbOk(db) && server in db.sources && RowsSayDecided(db, decided)
    requires forall k <- db.decisions :: RowIsDecided(db, decided, k)
    ensures var next, after := UpsertDecision(db, db.sources[server], message, result),
      decided[(server, message) := result];
      && RowsSayDecided(next, after)
      && forall k <- next.decisions :: RowIsDecided(next, after, k)
  {
    var next, after := UpsertDecision(db, db.sources[server], message, result), decided[(server, message) := result];
    hide EventIdsOk, TargetIdsOk, DeliveryIdsOk, ReferencesHold;
    forall other, text | (other, text) in after ensures RowSays(next, other, text, after[(other, text)]) {
      if (other, text) != (server, message) {
        assert RowSays(db, other, text, decided[(other, text)]);
        assert db.sources[other] == db.sources[server] ==> other == server;
      }
    }
    forall k | k in next.decisions ensures RowIsDecided(next, after, k) {
      if k in db.decisions {
        assert RowIsDecided(db, decided, k);
        var x :| x in db.sources && db.sources[x] == k.source && (x, k.message) in decided;
        assert (x, k.message) in after;
      } else {
        assert (server, k.message) in after;
      }
    }
  }

  lemma RowsLeaveDecisions(cfg: Setup, s: State)
    requires s.worker.AtSink? && s.worker.index < |SelectedSinks(cfg)| && StepRows(cfg, s).Some?
    ensures var next := StepRows(cfg, s).value;
      && next.db.decisions == s.db.decisions && next.hist.decided == s.hist.decided
      && next.worker.AtSink? && next.worker.item == s.worker.item && next.worker.result == s.worker.result
  {
    hide ReceptorAccepted, SelectedSinks, Destination, UpsertSource, UpsertTarget, UpsertDelivery, UpsertMatch;
    var item, sink := s.worker.item, SelectedSinks(cfg)[s.worker.index];
    match s.worker.stage
    case Source => SourceFrame(s.db, item.server);
    case Matching(event, done) =>
      if done < |s.worker.result.matches| {
        MatchFrame(s.db, event, s.worker.result.matches[done]);
      } else {
        TargetFrame(s.db, sink.key, sink.kind, Destination(cfg, sink, item));
      }
    case Targeted(event) => DeliveryFrame(s.db, event, s.db.targets[sink.key].id);
    case _ =>
  }

  lemma SendLeavesDecisions(cfg: Setup, s: State)
    requires s.worker.AtSink? && s.worker.index < |SelectedSinks(cfg)| && StepSend(cfg, s).Some?
    ensures var next := StepSend(cfg, s).value;
      && next.db.decisions == s.db.decisions && next.hist.decided == s.hist.decided
      && (next.worker == StartSink(cfg, s.worker.item, s.worker.result, s.worker.index + 1)
          || (next.worker.AtSink? && next.worker.item == s.worker.item && next.worker.result == s.worker.result))
  {
    SendTouchesDeliveries(cfg, s);
    SendGoesOn(cfg, s);
    hide StepSend, StartSink, SelectedSinks;
  }

  lemma SinkKeepsDecisions(cfg: Setup, s: State)
    requires s.worker.AtSink? && s.worker.index < |SelectedSinks(cfg)| && StepAdvance(cfg, s).Some?
    requires DecisionsOk(cfg, s) && Extends(s.db, StepAdvance(cfg, s).value.db)
    ensures DecisionsOk(cfg, StepAdvance(cfg, s).value)
  {
    hide StepRows, StepSend, RowsSayDecided, RowIsDecided, Extends, SelectedSinks, HasStore, Route, StartSink;
    var next := StepAdvance(cfg, s).value;
    if HasStore(cfg) {
      RouteInHand(cfg, s.worker.item, s.worker.result, s.hist.decided);
    }
    if StepAdvance(cfg, s) == StepRows(cfg, s) {
      RowsLeaveDecisions(cfg, s);
    } else {
      SendLeavesDecisions(cfg, s);
    }
    hide StepAdvance;
    DecisionsStay(cfg, s, next);
  }

  lemma EarlyKeepsDecisions(cfg: Setup, s: State)
    requires s.worker.Recording? || s.worker.Reconciling?
    requires StepAdvance(cfg, s).Some? && DecisionsOk(cfg, s) && Extends(s.db, StepAdvance(cfg, s).value.db)
    ensures DecisionsOk(cfg, StepAdvance(cfg, s).value)
  {
    hide RowsSayDecided, RowIsDecided, Extends, UpsertSource, HasStore, StartSink;
    var next := StepAdvance(cfg, s).value;
    if s.worker.Recording? {
      SourceFrame(s.db, s.worker.item.server);
    } else {
      if HasStore(cfg) {
        RouteInHand(cfg, s.worker.item, s.worker.result, s.hist.decided);
      }
      ReconcileFrame(cfg, s);
      ReconcileGoesOn(cfg, s);
      hide StepReconcile;
    }
    DecisionsStay(cfg, s, next);
  }

  lemma ReconcileGoesOn(cfg: Setup, s: State)
    requires s.worker.Reconciling? && StepReconcile(cfg, s).Some?
    ensures var next := StepReconcile(cfg, s).value;
      || next.worker == StartSink(cfg, s.worker.item, s.worker.result, 0)
      || (next.worker.Reconciling? && next.worker.item == s.worker.item && next.worker.result == s.worker.result)
  {
    hide StartSink, UpsertTarget, ClearDisabled, SoftDisable, DisableMissing;
  }

  lemma AdvanceKeepsDecisions(cfg: Setup, s: State)
    requires TablesOk(cfg, s) && DecisionsOk(cfg, s) && StepAdvance(cfg, s).Some?
    ensures DecisionsOk(cfg, StepAdvance(cfg, s).value)
  {
    AdvanceKeeps(cfg, s);
    assert DbOk(s.db) && (s.worker.AtSink? ==> s.worker.index < |SelectedSinks(cfg)|);
    hide TablesOk, DbOk, Extends, StepRows, StepSend, StepRecord, StepReconcile, DecisionsOk;
    if s.worker.AtSink? {
      hide StepAdvance;
      SinkKeepsDecisions(cfg, s);
    } else if s.worker.Deciding? {
      DecidingKeeps(cfg, s);
    } else if s.worker.Recording? || s.worker.Reconciling? {
      hide StepAdvance;
      EarlyKeepsDecisions(cfg, s);
    } else {
      MarkKeepsDecisions(cfg, s);
    }
  }

  lemma MarkKeepsDecisions(cfg: Setup, s: State)
    requires (s.worker.Marking? || s.worker.Flushing?) && StepMark(s).Some? && DecisionsOk(cfg, s)
    ensures DecisionsOk(cfg, StepMark(s).value)
  {
    hide Runtime.MarkProcessed, RowsSayDecided, RowIsDecided, HasStore;
  }

  lemma StepKeepsDecisions(cfg: Setup, s: State, a: Action)
    requires TablesOk(cfg, s) && DecisionsOk(cfg, s) && Next(cfg, s, a).Some?
    ensures DecisionsOk(cfg, Next(cfg, s, a).value)
  {
    if a.Advance? {
      hide TablesOk, StepAdvance, DecisionsOk;
      AdvanceKeepsDecisions(cfg, s);
    } else {
      OthersLeaveDecisions(cfg, s, a);
      ExtendsItself(s.db);
      hide Next, Extends, TablesOk, RowsSayDecided, RowIsDecided, HasStore;
      DecisionsStay(cfg, s, Next(cfg, s, a).value);
    }
  }

  lemma StopLeavesDecided(cfg: Setup, worker: Worker, hist: History)
    ensures Interrupted(cfg, worker, hist).decided == hist.decided
  {
    hide SelectedSinks;
  }

  lemma StopsKeepTheLast(cfg: Setup, s: State, a: Action)
    requires (a.Halt? || a.Crash?) && Next(cfg, s, a).Some?
    ensures var next := Next(cfg, s, a).value;
      && next.db == s.db && next.hist.decided == s.hist.decided
      && (next.worker.Halted? || next.worker.Idle?)
  {
    StopLeavesDecided(cfg, s.worker, s.hist);
    hide Interrupted, Reloaded;
  }

  lemma ReplyKeepsTheLast(cfg: Setup, s: State, ok: bool)
    requires StepReply(cfg, s, ok).Some?
    ensures var next := StepReply(cfg, s, ok).value;
      && next.db == s.db && next.hist.decided == s.hist.decided
      && s.worker.AtSink? && next.worker == s.worker.(stage := next.worker.stage)
  {
    hide SelectedSinks;
  }

  lemma DecideKeepsTheLast(cfg: Setup, s: State, result: AttentionResult)
    requires StepDecide(cfg, s, result).Some?
    ensures var next := StepDecide(cfg, s, result).value;
      && next.db == s.db && next.hist.decided == s.hist.decided
      && (HasStore(cfg) ==> next.worker.Recording?)
  {
    hide Route, HasStore;
  }

  lemma QuietStepsKeepTheLast(cfg: Setup, s: State, a: Action)
    requires a.Arrive? || a.Offer? || a.Bounce? || a.Take? || a.ManageStorm?
    requires Next(cfg, s, a).Some?
    ensures var next := Next(cfg, s, a).value;
      && next.db == s.db && next.hist.decided == s.hist.decided
      && (next.worker == s.worker || next.worker.Evaluating?)
  {
    hide Runtime.Accepts, Runtime.ShouldEnqueue, Runtime.MarkFailed;
  }

  /** Only the step that writes a decision row changes what was decided last. */
  lemma OthersKeepTheLast(cfg: Setup, s: State, a: Action)
    requires !a.Advance? && Next(cfg, s, a).Some?
    ensures Next(cfg, s, a).value.db == s.db && Next(cfg, s, a).value.hist.decided == s.hist.decided
  {
    hide StepReply, StepDecide, StepAdvance, StepHalt, StepCrash;
    if a.Halt? || a.Crash? {
      StopsKeepTheLast(cfg, s, a);
    } else if a.GatewayReply? {
      ReplyKeepsTheLast(cfg, s, a.ok);
    } else if a.Decide? {
      DecideKeepsTheLast(cfg, s, a.result);
    } else {
      hide Next;
      QuietStepsKeepTheLast(cfg, s, a);
    }
  }

  lemma OthersLeaveDecisions(cfg: Setup, s: State, a: Action)
    requires !a.Advance? && Next(cfg, s, a).Some? && DecidedInHand(cfg, s.worker, s.hist.decided)
    ensures var next := Next(cfg, s, a).value;
      next.db == s.db && next.hist.decided == s.hist.decided && DecidedInHand(cfg, next.worker, next.hist.decided)
  {
    hide StepReply, StepDecide, StepAdvance, StepHalt, StepCrash, HasStore;
    OthersKeepTheLast(cfg, s, a);
    if a.Halt? || a.Crash? {
      hide Next;
      StopsKeepTheLast(cfg, s, a);
    } else if a.GatewayReply? {
      ReplyKeepsTheLast(cfg, s, a.ok);
    } else if a.Decide? {
      DecideKeepsTheLast(cfg, s, a.result);
    } else {
      hide Next;
      QuietStepsKeepTheLast(cfg, s, a);
    }
  }
}
