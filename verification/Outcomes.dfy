/** What justifies a processed id, in memory and on disk: a refusal, no sinks, or every selected sink done. */
module Outcomes {
  import Attention
  import opened Admission
  import opened DedupeWindow
  import opened Protocol
  import opened Runtime
  import opened Storage
  import opened Tables
  import opened WorkerInvariant
  import opened Wrappers

  // ----- Processed implies delivered -----

  /** A sink is done with a message: its row is delivered, or its wake was answered Ok. */
  ghost predicate Completed(cfg: Setup, db: Database, hist: History, server: ServerKey, id: MessageId,
                            sink: SinkConfig) {
    || (sink.kind == AgentSessionWake && 0 < hist.oks[Job(server, id, sink.key)])
    || (HasStore(cfg) && IsDelivered(db, server, id, sink.key))
  }

  /** The message was refused by attention, there was no sink to deliver to, or every selected sink is done. */
  ghost predicate Justified(cfg: Setup, db: Database, hist: History, server: ServerKey, id: MessageId) {
    || (server, id) in hist.refused
    || !AnyEnabled(cfg)
    || forall sink <- SelectedSinks(cfg) :: Completed(cfg, db, hist, server, id, sink)
  }

  /** Evidence only accumulates. */
  ghost predicate HistoryGrows(was: History, hist: History) {
    was.oks <= hist.oks && was.refused <= hist.refused
  }

  lemma CompletedStays(cfg: Setup, was: Database, wasHist: History, db: Database, hist: History, server: ServerKey,
                       id: MessageId, sink: SinkConfig)
    requires Extends(was, db) && HistoryGrows(wasHist, hist)
    requires Completed(cfg, was, wasHist, server, id, sink)
    ensures Completed(cfg, db, hist, server, id, sink)
  {
    ExtendsKeepsRows(was, db, server, id, sink.key);
    hide Extends, IsDelivered;
    assert wasHist.oks[Job(server, id, sink.key)] <= hist.oks[Job(server, id, sink.key)];
  }

  lemma JustifiedStays(cfg: Setup, was: Database, wasHist: History, db: Database, hist: History, server: ServerKey,
                       id: MessageId)
    requires Extends(was, db) && HistoryGrows(wasHist, hist)
    requires Justified(cfg, was, wasHist, server, id)
    ensures Justified(cfg, db, hist, server, id)
  {
    hide Extends, Completed;
    if (server, id) !in wasHist.refused && AnyEnabled(cfg) {
      forall sink | sink in SelectedSinks(cfg) ensures Completed(cfg, db, hist, server, id, sink) {
        CompletedStays(cfg, was, wasHist, db, hist, server, id, sink);
      }
    }
  }

  ghost predicate SinksDone(cfg: Setup, db: Database, hist: History, item: Item, n: nat)
    requires n <= |SelectedSinks(cfg)|
  {
    forall j :: 0 <= j < n ==> Completed(cfg, db, hist, item.server, item.id, SelectedSinks(cfg)[j])
  }

  /** The worker leaves a sink only when it is done, and marks a message only when that is justified. */
  ghost predicate WorkerJustified(cfg: Setup, db: Database, hist: History, worker: Worker) {
    match worker
    case Recording(item, result) => result.deliver || (item.server, item.id) in hist.refused
    case Deciding(item, result) => result.deliver || (item.server, item.id) in hist.refused
    case AtSink(item, result, i, stage) =>
      && i < |SelectedSinks(cfg)| && SinksDone(cfg, db, hist, item, i)
      && (stage.Confirm? ==> SelectedSinks(cfg)[i].kind == AgentSessionWake
                             && 0 < hist.oks[Job(item.server, item.id, SelectedSinks(cfg)[i].key)])
    case Marking(item) => Justified(cfg, db, hist, item.server, item.id)
    case _ => true
  }

  ghost predicate FilesJustified(cfg: Setup, s: State) {
    && (forall server <- s.mem, id :: id in s.mem[server].order ==> Justified(cfg, s.db, s.hist, server, id))
    && (forall server <- s.disk, id :: id in s.disk[server].recent ==> Justified(cfg, s.db, s.hist, server, id))
  }

  ghost predicate JustifiedOk(cfg: Setup, s: State) {
    FilesJustified(cfg, s) && WorkerJustified(cfg, s.db, s.hist, s.worker)
  }

  lemma StartSinkJustified(cfg: Setup, db: Database, hist: History, item: Item, result: Attention.AttentionResult,
                           n: nat)
    requires n <= |SelectedSinks(cfg)| && SinksDone(cfg, db, hist, item, n)
    ensures WorkerJustified(cfg, db, hist, StartSink(cfg, item, result, n))
  {
    hide Completed;
    if n == |SelectedSinks(cfg)| {
      forall sink | sink in SelectedSinks(cfg) ensures Completed(cfg, db, hist, item.server, item.id, sink) {
        var j :| 0 <= j < |SelectedSinks(cfg)| && SelectedSinks(cfg)[j] == sink;
      }
    }
  }

  lemma RouteJustified(cfg: Setup, db: Database, hist: History, item: Item, result: Attention.AttentionResult)
    requires result.deliver || (item.server, item.id) in hist.refused
    ensures WorkerJustified(cfg, db, hist, Route(cfg, item, result))
  {
    if result.deliver && AnyEnabled(cfg) && !HasStore(cfg) {
      StartSinkJustified(cfg, db, hist, item, result, 0);
    }
  }

  lemma WorkerJustifiedStays(cfg: Setup, was: Database, wasHist: History, db: Database, hist: History, worker: Worker)
    requires Extends(was, db) && HistoryGrows(wasHist, hist)
    requires WorkerJustified(cfg, was, wasHist, worker)
    ensures WorkerJustified(cfg, db, hist, worker)
  {
    hide Extends, Completed, Justified;
    if worker.AtSink? {
      var AtSink(item, result, i, stage) := worker;
      forall j | 0 <= j < i ensures Completed(cfg, db, hist, item.server, item.id, SelectedSinks(cfg)[j]) {
        CompletedStays(cfg, was, wasHist, db, hist, item.server, item.id, SelectedSinks(cfg)[j]);
      }
      if stage.Confirm? {
        var job := Job(item.server, item.id, SelectedSinks(cfg)[i].key);
        assert wasHist.oks[job] <= hist.oks[job];
      }
    } else if worker.Marking? {
      JustifiedStays(cfg, was, wasHist, db, hist, worker.item.server, worker.item.id);
    }
  }

  lemma FilesJustifiedStay(cfg: Setup, s: State, next: State)
    requires FilesJustified(cfg, s) && Extends(s.db, next.db) && HistoryGrows(s.hist, next.hist)
    requires next.mem == s.mem && next.disk == s.disk
    ensures FilesJustified(cfg, next)
  {
    hide Extends, Justified, HistoryGrows;
    forall server, id | server in s.mem && id in s.mem[server].order
      ensures Justified(cfg, next.db, next.hist, server, id)
    {
      JustifiedStays(cfg, s.db, s.hist, next.db, next.hist, server, id);
    }
    forall server, id | server in s.disk && id in s.disk[server].recent
      ensures Justified(cfg, next.db, next.hist, server, id)
    {
      JustifiedStays(cfg, s.db, s.hist, next.db, next.hist, server, id);
    }
  }

  /** A step that ends the work for one sink leaves that sink done. */
  lemma NextSinkJustified(cfg: Setup, s: State, db: Database)
    requires s.worker.AtSink? && WorkerJustified(cfg, s.db, s.hist, s.worker) && Extends(s.db, db)
    requires Completed(cfg, db, s.hist, s.worker.item.server, s.worker.item.id, SelectedSinks(cfg)[s.worker.index])
    ensures WorkerJustified(cfg, db, s.hist, StartSink(cfg, s.worker.item, s.worker.result, s.worker.index + 1))
  {
    WorkerJustifiedStays(cfg, s.db, s.hist, db, s.hist, s.worker);
    hide Extends, Completed;
    StartSinkJustified(cfg, db, s.hist, s.worker.item, s.worker.result, s.worker.index + 1);
  }

  lemma SendJustified(cfg: Setup, s: State)
    requires TablesOk(cfg, s) && s.worker.AtSink? && WorkerJustified(cfg, s.db, s.hist, s.worker)
    requires StepSend(cfg, s).Some?
    ensures var next := StepSend(cfg, s).value;
      && WorkerJustified(cfg, next.db, next.hist, next.worker)
      && HistoryGrows(s.hist, next.hist)
  {
    SendKeeps(cfg, s);
    hide TablesOk, Extends, WorkerJustified, StepSend;
    if s.worker.stage.Ticketed? {
      TicketedJustified(cfg, s);
    } else if s.worker.stage.Confirm? {
      ConfirmJustified(cfg, s);
    } else {
      OtherSendJustified(cfg, s);
    }
  }

  lemma OtherSendJustified(cfg: Setup, s: State)
    requires s.worker.AtSink? && !s.worker.stage.Ticketed? && !s.worker.stage.Confirm?
    requires WorkerJustified(cfg, s.db, s.hist, s.worker)
    requires StepSend(cfg, s).Some? && Extends(s.db, StepSend(cfg, s).value.db)
    ensures var next := StepSend(cfg, s).value;
      && WorkerJustified(cfg, next.db, next.hist, next.worker)
      && HistoryGrows(s.hist, next.hist)
  {
    hide Extends, Completed, MarkStatus, StartSink;
    var next := StepSend(cfg, s).value;
    WorkerJustifiedStays(cfg, s.db, s.hist, next.db, next.hist, s.worker);
  }

  /** A database sink is done by its mark, an already delivered wake by the row it found. */
  lemma TicketedJustified(cfg: Setup, s: State)
    requires TablesOk(cfg, s) && s.worker.AtSink? && s.worker.stage.Ticketed?
    requires WorkerJustified(cfg, s.db, s.hist, s.worker)
    requires StepSend(cfg, s).Some? && Extends(s.db, StepSend(cfg, s).value.db)
    ensures var next := StepSend(cfg, s).value;
      && WorkerJustified(cfg, next.db, next.hist, next.worker)
      && HistoryGrows(s.hist, next.hist)
  {
    hide WorkerJustified, DbOk, Extends, MarkStatus, DeliveredById, StartSink, RowOf, WellFormed;
    var item, stage := s.worker.item, s.worker.stage;
    var sink := SelectedSinks(cfg)[s.worker.index];
    assert HasStore(cfg) && TicketIs(s.db, item, sink.key, stage.ticket);
    hide TablesOk, TicketIs;
    if sink.kind == Db {
      MarkTicket(s.db, item, sink.key, stage.ticket, Delivered);
      assert Completed(cfg, MarkStatus(s.db, stage.ticket, Delivered), s.hist, item.server, item.id, sink);
      hide Completed, IsDelivered;
      NextSinkJustified(cfg, s, MarkStatus(s.db, stage.ticket, Delivered));
    } else if DeliveredById(s.db, stage.ticket) {
      DeliveredTicket(s.db, item, sink.key, stage.ticket);
      assert Completed(cfg, s.db, s.hist, item.server, item.id, sink);
      hide Completed, IsDelivered;
      NextSinkJustified(cfg, s, s.db);
    } else {
      StartAttemptJustified(cfg, s);
    }
  }

  lemma StartAttemptJustified(cfg: Setup, s: State)
    requires s.worker.AtSink? && s.worker.stage.Ticketed? && WorkerJustified(cfg, s.db, s.hist, s.worker)
    ensures WorkerJustified(cfg, s.db, s.hist,
              AtSink(s.worker.item, s.worker.result, s.worker.index, Attempt(Some(s.worker.stage.ticket))))
  {
    hide Completed;
  }

  lemma ConfirmJustified(cfg: Setup, s: State)
    requires s.worker.AtSink? && s.worker.stage.Confirm? && WorkerJustified(cfg, s.db, s.hist, s.worker)
    requires StepSend(cfg, s).Some? && Extends(s.db, StepSend(cfg, s).value.db)
    ensures var next := StepSend(cfg, s).value;
      && WorkerJustified(cfg, next.db, next.hist, next.worker)
      && next.hist == s.hist
  {
    hide Extends, MarkStatus, IsDelivered;
    var next := StepSend(cfg, s).value;
    assert Completed(cfg, next.db, s.hist, s.worker.item.server, s.worker.item.id, SelectedSinks(cfg)[s.worker.index]);
    hide WorkerJustified, Completed, StartSink;
    NextSinkJustified(cfg, s, next.db);
  }

  /** The statements before the ticket leave the history of outcomes and the sink alone. */
  lemma RowsStayAtSink(cfg: Setup, s: State)
    requires s.worker.AtSink? && s.worker.index < |SelectedSinks(cfg)| && StepRows(cfg, s).Some?
    ensures var next := StepRows(cfg, s).value;
      && next.worker.AtSink? && next.worker == s.worker.(stage := next.worker.stage)
      && !next.worker.stage.Confirm?
      && next.hist.oks == s.hist.oks && next.hist.refused == s.hist.refused
  {
    hide UpsertSource, InsertEvent, InsertIdempotency, UpsertMatch, UpsertTarget, UpsertDelivery, SelectedSinks;
    hide ReceptorAccepted, Destination, Key;
  }

  lemma RowsJustified(cfg: Setup, s: State)
    requires s.worker.AtSink? && WorkerJustified(cfg, s.db, s.hist, s.worker)
    requires StepRows(cfg, s).Some? && Extends(s.db, StepRows(cfg, s).value.db)
    ensures var next := StepRows(cfg, s).value;
      && WorkerJustified(cfg, next.db, next.hist, next.worker)
      && HistoryGrows(s.hist, next.hist)
  {
    RowsStayAtSink(cfg, s);
    hide Extends, Completed, StepRows, SelectedSinks;
    var next := StepRows(cfg, s).value;
    WorkerJustifiedStays(cfg, s.db, s.hist, next.db, next.hist, s.worker);
  }

  lemma EarlyJustified(cfg: Setup, s: State)
    requires WorkerJustified(cfg, s.db, s.hist, s.worker)
    requires s.worker.Recording? || s.worker.Deciding? || s.worker.Reconciling?
    requires StepAdvance(cfg, s).Some?
    ensures var next := StepAdvance(cfg, s).value;
      && WorkerJustified(cfg, next.db, next.hist, next.worker)
      && HistoryGrows(s.hist, next.hist)
  {
    hide UpsertSource, UpsertDecision, UpsertTarget, DisableMissing, ClearDisabled, SoftDisable, Route, StartSink;
    var next := StepAdvance(cfg, s).value;
    if s.worker.Deciding? {
      RouteJustified(cfg, next.db, s.hist, s.worker.item, s.worker.result);
    } else if s.worker.Reconciling? {
      StartSinkJustified(cfg, next.db, s.hist, s.worker.item, s.worker.result, 0);
    }
  }

  lemma MarkJustified(cfg: Setup, s: State)
    requires AdmissionOk(cfg, s) && JustifiedOk(cfg, s)
    requires (s.worker.Marking? || s.worker.Flushing?) && StepMark(s).Some?
    ensures JustifiedOk(cfg, StepMark(s).value)
  {
    hide Justified, PendingOk;
    var item := s.worker.item;
    var next := StepMark(s).value;
    assert StoreOk(cfg, s.mem[item.server], s.hist.processed[item.server]);
    hide AdmissionOk;
    if s.worker.Marking? {
      MarkedOrder(s.mem[item.server], item.id, item.stamp);
      HistoryOnlyAddsProcessed(cfg, s.db, s.hist, next.hist);
      hide MarkProcessed;
      FilesAfterMark(cfg, s, next, item);
    }
  }

  lemma MarkedOrder(r: RuntimeState, id: MessageId, stamp: Stamp)
    requires WindowOk(r)
    ensures forall x <- MarkProcessed(r, id, stamp).order :: x in r.order || x == id
  {
    ProcessKeepsWindow(r, id, stamp);
    NewestMembers(r.windowSize, r.order + [id]);
    hide MarkProcessed, Newest;
  }

  lemma HistoryOnlyAddsProcessed(cfg: Setup, db: Database, was: History, hist: History)
    requires hist == was.(processed := hist.processed)
    ensures forall server, id :: Justified(cfg, db, was, server, id) <==> Justified(cfg, db, hist, server, id)
  {
    hide IsDelivered;
    forall server, id ensures Justified(cfg, db, was, server, id) <==> Justified(cfg, db, hist, server, id) {
      assert forall sink :: Completed(cfg, db, was, server, id, sink) <==> Completed(cfg, db, hist, server, id, sink);
    }
  }

  lemma FilesAfterMark(cfg: Setup, s: State, next: State, item: Item)
    requires FilesJustified(cfg, s) && Justified(cfg, s.db, s.hist, item.server, item.id)
    requires next.db == s.db && next.disk == s.disk && item.server in s.mem
    requires next.mem.Keys == s.mem.Keys
    requires forall server <- s.mem :: server != item.server ==> next.mem[server] == s.mem[server]
    requires forall x <- next.mem[item.server].order :: x in s.mem[item.server].order || x == item.id
    requires forall server, id ::
      Justified(cfg, s.db, s.hist, server, id) <==> Justified(cfg, s.db, next.hist, server, id)
    ensures FilesJustified(cfg, next)
  {
    hide Justified;
  }

  lemma CrashJustified(cfg: Setup, s: State, now: int)
    requires JustifiedOk(cfg, s)
    ensures JustifiedOk(cfg, StepCrash(cfg, s, now))
  {
    var next := StepCrash(cfg, s, now);
    ExtendsItself(s.db);
    InterruptedGrows(cfg, s.worker, s.hist);
    hide Justified, Interrupted;
    forall server, id | server in next.mem && id in next.mem[server].order
      ensures Justified(cfg, next.db, next.hist, server, id)
    {
      LoadedIdsAreStored(StoredFile(s.disk, server), cfg.windowSize, cfg.floor, now);
      JustifiedStays(cfg, s.db, s.hist, next.db, next.hist, server, id);
    }
    forall server, id | server in next.disk && id in next.disk[server].recent
      ensures Justified(cfg, next.db, next.hist, server, id)
    {
      JustifiedStays(cfg, s.db, s.hist, next.db, next.hist, server, id);
    }
  }

  lemma InterruptedGrows(cfg: Setup, worker: Worker, hist: History)
    ensures HistoryGrows(hist, Interrupted(cfg, worker, hist))
    ensures Interrupted(cfg, worker, hist).oks == hist.oks && Interrupted(cfg, worker, hist).calls == hist.calls
  {
  }

  lemma AdvanceJustified(cfg: Setup, s: State)
    requires TablesOk(cfg, s) && AdmissionOk(cfg, s) && JustifiedOk(cfg, s) && StepAdvance(cfg, s).Some?
    ensures JustifiedOk(cfg, StepAdvance(cfg, s).value)
  {
    AdvanceKeeps(cfg, s);
    hide DbOk, Extends, StepRecord, StepReconcile, StepRows, StepSend, StepMark, WorkerJustified, FilesJustified,
         WorkerOk;
    if s.worker.Marking? || s.worker.Flushing? {
      MarkJustified(cfg, s);
    } else {
      AdvanceLeavesAdmission(cfg, s);
      if s.worker.AtSink? {
        RowsOrSendJustified(cfg, s);
      } else {
        EarlyJustified(cfg, s);
      }
      hide StepAdvance;
      FilesJustifiedStay(cfg, s, StepAdvance(cfg, s).value);
    }
  }

  lemma RowsOrSendJustified(cfg: Setup, s: State)
    requires TablesOk(cfg, s) && s.worker.AtSink? && WorkerJustified(cfg, s.db, s.hist, s.worker)
    requires StepAdvance(cfg, s).Some? && Extends(s.db, StepAdvance(cfg, s).value.db)
    ensures var next := StepAdvance(cfg, s).value;
      && WorkerJustified(cfg, next.db, next.hist, next.worker)
      && HistoryGrows(s.hist, next.hist)
  {
    hide Extends, WorkerJustified, TablesOk, StepRows, StepSend, HistoryGrows;
    if StepAdvance(cfg, s) == StepRows(cfg, s) {
      RowsJustified(cfg, s);
    } else {
      SendJustified(cfg, s);
    }
  }

  lemma StepKeepsJustified(cfg: Setup, s: State, a: Action)
    requires TablesOk(cfg, s) && AdmissionOk(cfg, s) && JustifiedOk(cfg, s) && Next(cfg, s, a).Some?
    ensures JustifiedOk(cfg, Next(cfg, s, a).value)
  {
    hide TablesOk, AdmissionOk, StepAdvance, StepHalt, StepCrash, Interrupted, Route;
    ExtendsItself(s.db);
    match a
    case Advance => AdvanceJustified(cfg, s);
    case Crash(now) => CrashJustified(cfg, s, now);
    case Halt => HaltJustified(cfg, s);
    case Decide(result) => DecideJustified(cfg, s, result);
    case GatewayReply(ok) => ReplyJustified(cfg, s, ok);
    case Arrive(item) => hide Justified, WorkerJustified;
    case Offer(server) => hide Justified, WorkerJustified;
    case Bounce(server) => hide Justified, WorkerJustified;
    case Take => hide Justified;
    case ManageStorm(_, _, _) => hide Justified, WorkerJustified;
  }

  lemma HaltJustified(cfg: Setup, s: State)
    requires JustifiedOk(cfg, s) && StepHalt(cfg, s).Some?
    ensures JustifiedOk(cfg, StepHalt(cfg, s).value)
  {
    var next := StepHalt(cfg, s).value;
    ExtendsItself(s.db);
    InterruptedGrows(cfg, s.worker, s.hist);
    hide Interrupted;
    FilesJustifiedStay(cfg, s, next);
  }

  lemma DecideJustified(cfg: Setup, s: State, result: Attention.AttentionResult)
    requires JustifiedOk(cfg, s) && StepDecide(cfg, s, result).Some?
    ensures JustifiedOk(cfg, StepDecide(cfg, s, result).value)
  {
    var next := StepDecide(cfg, s, result).value;
    ExtendsItself(s.db);
    hide Route;
    FilesJustifiedStay(cfg, s, next);
    RouteJustified(cfg, s.db, next.hist, s.worker.item, result);
  }

  lemma ReplyJustified(cfg: Setup, s: State, ok: bool)
    requires TablesOk(cfg, s) && JustifiedOk(cfg, s) && StepReply(cfg, s, ok).Some?
    ensures JustifiedOk(cfg, StepReply(cfg, s, ok).value)
  {
    var next := StepReply(cfg, s, ok).value;
    assert SelectedSinks(cfg)[s.worker.index].kind == AgentSessionWake;
    hide TablesOk;
    ExtendsItself(s.db);
    FilesJustifiedStay(cfg, s, next);
    WorkerJustifiedStays(cfg, s.db, s.hist, next.db, next.hist, s.worker);
    hide Completed, FilesJustified, Extends;
  }
}
