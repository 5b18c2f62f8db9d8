/** The inbound delivery protocol over whole runs: every interleaving, replay, eviction, gateway failure, halt
    and crash, from an empty database on. */
module Delivery {
  import opened Accounting
  import opened Admission
  import opened AuditTrail
  import opened Decisions
  import opened DedupeWindow
  import opened EventCounts
  import opened Outcomes
  import opened Protocol
  import opened Receptors
  import opened RowContents
  import opened Runtime
  import opened Storage
  import opened Tables
  import opened Targets
  import opened WorkerInvariant
  import opened Wrappers

  ghost predicate Inv(cfg: Setup, s: State) {
    && TablesOk(cfg, s) && AdmissionOk(cfg, s) && JustifiedOk(cfg, s)
    && RepliesOk(cfg, s) && OrphansOk(s) && CountsOk(s) && DecisionsOk(cfg, s) && AuditOk(s)
    && TargetsOk(cfg, s) && RowsOk(cfg, s) && QueueFits(cfg, s)
  }

  /** Some run of the system, fed by the evaluator, leads from one state to another. */
  ghost predicate Leads(cfg: Setup, s: State, actions: seq<Action>, t: State) {
    FromEvaluator(actions) && Run(cfg, s, actions) == Some(t)
  }

  // ----- The invariant -----

  lemma InitialTables(cfg: Setup, now: int)
    ensures TablesOk(cfg, Initial(cfg, now))
    ensures RepliesOk(cfg, Initial(cfg, now)) && AuditOk(Initial(cfg, now)) && TargetsOk(cfg, Initial(cfg, now))
    ensures DecisionsOk(cfg, Initial(cfg, now)) && RowsOk(cfg, Initial(cfg, now)) && QueueFits(cfg, Initial(cfg, now))
  {
  }

  lemma NothingIsOrphaned()
    ensures Orphans(EMPTY) == {}
  {
  }

  lemma NothingIsCounted(cfg: Setup, now: int)
    ensures CountsOk(Initial(cfg, now))
  {
    hide Reloaded;
    forall server, message ensures OrphanCount(Initial(cfg, now), server, message) {
      assert OrphansOf(EMPTY, server, message) == {};
    }
  }

  lemma InitialAdmission(cfg: Setup, now: int)
    ensures AdmissionOk(cfg, Initial(cfg, now))
  {
    hide StoreOk, Loaded;
    var s := Initial(cfg, now);
    forall server | server in cfg.servers
      ensures StoreOk(cfg, s.mem[server], s.hist.processed[server])
      ensures PendingOf(s.mem[server], s.tasks[server], Backlog(s), InHand(s), server)
    {
      ReloadedIsOk(cfg, map[], now, server);
    }
  }

  lemma InitialJustified(cfg: Setup, now: int)
    ensures JustifiedOk(cfg, Initial(cfg, now))
  {
    hide Justified;
    var s := Initial(cfg, now);
    assert forall server <- cfg.servers :: s.mem[server].order == [];
  }

  lemma InitialInv(cfg: Setup, now: int)
    ensures Inv(cfg, Initial(cfg, now))
  {
    hide TablesOk, AdmissionOk, JustifiedOk, RepliesOk, CountsOk, DecisionsOk, AuditOk, TargetsOk, RowsOk, QueueFits,
         Orphans;
    InitialTables(cfg, now);
    InitialAdmission(cfg, now);
    InitialJustified(cfg, now);
    NothingIsOrphaned();
    NothingIsCounted(cfg, now);
  }

  lemma WorkerIsOurs(cfg: Setup, s: State)
    requires TablesOk(cfg, s)
    ensures HeldIsOurs(cfg, s)
  {
  }

  lemma QueueIsOurs(cfg: Setup, s: State)
    requires AdmissionOk(cfg, s)
    ensures forall item <- s.queue :: item.server in cfg.servers
  {
  }

  lemma StepKeepsInv(cfg: Setup, s: State, a: Action)
    requires Inv(cfg, s) && Next(cfg, s, a).Some?
    requires a.Decide? ==> WellFormed(a.result)
    ensures Inv(cfg, Next(cfg, s, a).value)
    ensures Extends(s.db, Next(cfg, s, a).value.db)
  {
    WorkerIsOurs(cfg, s);
    QueueIsOurs(cfg, s);
    hide Next, TablesOk, AdmissionOk, JustifiedOk, RepliesOk, OrphansOk, CountsOk, DecisionsOk, AuditOk, TargetsOk,
         RowsOk, QueueFits, Extends, WellFormed, HeldIsOurs;
    StepKeepsTables(cfg, s, a);
    StepKeepsAdmission(cfg, s, a);
    StepKeepsJustified(cfg, s, a);
    StepKeepsReplies(cfg, s, a);
    StepKeepsOrphans(cfg, s, a);
    StepKeepsCounts(cfg, s, a);
    StepKeepsDecisions(cfg, s, a);
    StepKeepsAudit(cfg, s, a);
    StepKeepsTargets(cfg, s, a);
    StepKeepsRows(cfg, s, a);
    StepKeepsQueueFits(cfg, s, a);
  }

  /** The states between the steps of a run. */
  lemma LastStep(cfg: Setup, s: State, actions: seq<Action>, t: State)
    requires Leads(cfg, s, actions, t) && actions != []
    ensures var front, last := actions[..|actions| - 1], actions[|actions| - 1];
      && Run(cfg, s, front).Some? && Leads(cfg, s, front, Run(cfg, s, front).value)
      && Next(cfg, Run(cfg, s, front).value, last) == Some(t)
      && (last.Decide? ==> WellFormed(last.result))
  {
    hide WellFormed, Next;
    var front := actions[..|actions| - 1];
    assert forall a <- front :: a in actions;
    assert actions[|actions| - 1] in actions;
  }

  /** The invariant holds after every run, and the rows of the tables are only ever extended. */
  lemma {:induction false} RunKeepsInv(cfg: Setup, s: State, actions: seq<Action>, t: State)
    requires Inv(cfg, s) && Leads(cfg, s, actions, t)
    ensures Inv(cfg, t) && Extends(s.db, t.db)
    decreases |actions|
  {
    hide Inv, Next, Extends;
    if actions == [] {
      ExtendsItself(s.db);
    } else {
      LastStep(cfg, s, actions, t);
      var before := Run(cfg, s, actions[..|actions| - 1]).value;
      hide Leads, Run;
      RunKeepsInv(cfg, s, actions[..|actions| - 1], before);
      StepKeepsInv(cfg, before, actions[|actions| - 1]);
      ExtendsIsTransitive(s.db, before.db, t.db);
    }
  }

  ghost predicate Reachable(cfg: Setup, s: State) {
    exists now: int, actions :: Leads(cfg, Initial(cfg, now), actions, s)
  }

  lemma ReachableIsOk(cfg: Setup, s: State)
    requires Reachable(cfg, s)
    ensures Inv(cfg, s)
  {
    hide Inv, Leads, Initial;
    var now: int, actions :| Leads(cfg, Initial(cfg, now), actions, s);
    InitialInv(cfg, now);
    RunKeepsInv(cfg, Initial(cfg, now), actions, s);
  }

  // ----- At most once -----

  /** A wake that is sent for a recorded message is sent for a row that is not delivered. */
  lemma SendsOnlyUndelivered(cfg: Setup, s: State)
    requires TablesOk(cfg, s) && HasStore(cfg)
    requires s.worker.AtSink? && s.worker.stage.Sending?
    ensures !IsDelivered(s.db, s.worker.item.server, s.worker.item.id, SelectedSinks(cfg)[s.worker.index].key)
  {
    hide DbOk, WellFormed, RowOf;
  }

  lemma CallsComeFromSending(cfg: Setup, s: State, a: Action, job: Job)
    requires Next(cfg, s, a).Some?
    requires s.worker.AtSink? && s.worker.stage.Sending? && s.worker.index < |SelectedSinks(cfg)| ==>
      job != Job(s.worker.item.server, s.worker.item.id, SelectedSinks(cfg)[s.worker.index].key)
    ensures Next(cfg, s, a).value.hist.calls[job] == s.hist.calls[job]
  {
    hide SelectedSinks, StartSink, Route, MarkStatus, DeliveredById, UpsertSource, UpsertDecision, UpsertTarget;
    hide UpsertMatch, UpsertDelivery, InsertEvent, InsertIdempotency, DisableMissing, ClearDisabled, SoftDisable;
    hide MarkProcessed, Reloaded, ReceptorAccepted;
  }

  lemma DeliveredIsNotSent(cfg: Setup, s: State, a: Action, job: Job)
    requires TablesOk(cfg, s) && HasStore(cfg) && IsDelivered(s.db, job.server, job.id, job.sink)
    requires Next(cfg, s, a).Some?
    ensures Next(cfg, s, a).value.hist.calls[job] == s.hist.calls[job]
  {
    hide TablesOk, IsDelivered, Next;
    if s.worker.AtSink? && s.worker.stage.Sending? {
      SendsOnlyUndelivered(cfg, s);
    }
    CallsComeFromSending(cfg, s, a, job);
  }

  lemma {:induction false} DeliveredStaysUnsent(cfg: Setup, s: State, actions: seq<Action>, t: State, job: Job)
    requires Inv(cfg, s) && HasStore(cfg) && IsDelivered(s.db, job.server, job.id, job.sink)
    requires Leads(cfg, s, actions, t)
    ensures t.hist.calls[job] == s.hist.calls[job]
    decreases |actions|
  {
    hide Inv, Next, IsDelivered, Extends;
    if actions != [] {
      LastStep(cfg, s, actions, t);
      var front := actions[..|actions| - 1];
      var before := Run(cfg, s, front).value;
      hide Leads, Run;
      DeliveredStaysUnsent(cfg, s, front, before, job);
      RunKeepsInv(cfg, s, front, before);
      ExtendsKeepsRows(s.db, before.db, job.server, job.id, job.sink);
      assert TablesOk(cfg, before) by {
        TablesOfInv(cfg, before);
      }
      DeliveredIsNotSent(cfg, before, actions[|actions| - 1], job);
    }
  }

  lemma TablesOfInv(cfg: Setup, s: State)
    requires Inv(cfg, s)
    ensures TablesOk(cfg, s)
  {
  }

  /** At most once: with a database sink enabled, once the row of a message and a sink is delivered it keeps its
      id and its status through whatever follows, and no chat request is issued for it again. */
  lemma DeliveredIsFinal(cfg: Setup, s: State, actions: seq<Action>, t: State, job: Job)
    requires Reachable(cfg, s) && Leads(cfg, s, actions, t)
    requires HasStore(cfg) && IsDelivered(s.db, job.server, job.id, job.sink)
    ensures IsDelivered(t.db, job.server, job.id, job.sink)
    ensures RowOf(t.db, job.server, job.id, job.sink) == RowOf(s.db, job.server, job.id, job.sink)
    ensures t.hist.calls[job] == s.hist.calls[job]
  {
    ReachableIsOk(cfg, s);
    hide Inv, Leads, Extends, Reachable;
    RunKeepsInv(cfg, s, actions, t);
    ExtendsKeepsRows(s.db, t.db, job.server, job.id, job.sink);
    DeliveredStaysUnsent(cfg, s, actions, t, job);
    hide RowOf;
  }

  /** Ok replies for one message and sink: at most one, plus the stops that fell between a reply and its mark.
      An answered job is delivered, about to be marked, or lost that way. */
  lemma OkRepliesAreBounded(cfg: Setup, s: State, job: Job)
    requires Reachable(cfg, s) && HasStore(cfg)
    ensures s.hist.oks[job] <= 1 + s.hist.lost[job]
    ensures s.hist.oks[job] > s.hist.lost[job] ==>
      IsDelivered(s.db, job.server, job.id, job.sink) || ConfirmPending(cfg, s.worker, job)
  {
    ReachableIsOk(cfg, s);
    assert RepliesOk(cfg, s);
    assert TablesOk(cfg, s);
    hide Inv, Reachable;
    ConfirmsUndelivered(cfg, s, job);
    hide TablesOk, IsDelivered, ConfirmPending;
    assert ReplyCount(cfg, s.db, s.worker, s.hist, job);
  }

  lemma ConfirmsUndelivered(cfg: Setup, s: State, job: Job)
    requires TablesOk(cfg, s) && HasStore(cfg)
    ensures ConfirmPending(cfg, s.worker, job) ==> !IsDelivered(s.db, job.server, job.id, job.sink)
  {
    hide DbOk, WellFormed, RowOf;
  }

  // ----- What the history counts -----

  function Stops(actions: seq<Action>): nat
    decreases |actions|
  {
    if actions == [] then 0
    else Stops(actions[..|actions| - 1]) + One(actions[|actions| - 1].Halt? || actions[|actions| - 1].Crash?)
  }

  function OkReplies(actions: seq<Action>): nat
    decreases |actions|
  {
    if actions == [] then 0
    else OkReplies(actions[..|actions| - 1]) + One(actions[|actions| - 1] == GatewayReply(true))
  }

  lemma InterruptedCounts(cfg: Setup, worker: Worker, hist: History)
    ensures var next := Interrupted(cfg, worker, hist);
      && |hist.lost| + |hist.orphans| <= |next.lost| + |next.orphans| <= |hist.lost| + |hist.orphans| + 1
      && next.oks == hist.oks
  {
  }

  lemma StepCounts(cfg: Setup, s: State, a: Action)
    requires Next(cfg, s, a).Some?
    ensures var next := Next(cfg, s, a).value;
      && |next.hist.lost| + |next.hist.orphans| <= |s.hist.lost| + |s.hist.orphans| + One(a.Halt? || a.Crash?)
      && |next.hist.oks| == |s.hist.oks| + One(a == GatewayReply(true))
  {
    hide StepAdvance, Route, Reloaded, Interrupted;
    match a
    case Advance => AdvanceLeavesReplies(cfg, s);
    case Halt => InterruptedCounts(cfg, s.worker, s.hist);
    case Crash(_) => InterruptedCounts(cfg, s.worker, s.hist);
    case _ =>
  }

  /** The history is the run's own: Ok replies observed are the gateway's Ok replies, and the marks and
      idempotency rows lost are no more than the stops. */
  lemma {:induction false} HistoryFollowsTheRun(cfg: Setup, now: int, actions: seq<Action>, s: State)
    requires Leads(cfg, Initial(cfg, now), actions, s)
    ensures |s.hist.oks| == OkReplies(actions)
    ensures |s.hist.lost| + |s.hist.orphans| <= Stops(actions)
    decreases |actions|
  {
    if actions != [] {
      LastStep(cfg, Initial(cfg, now), actions, s);
      var front := actions[..|actions| - 1];
      var before := Run(cfg, Initial(cfg, now), front).value;
      hide Leads, Run, Next, Initial;
      HistoryFollowsTheRun(cfg, now, front, before);
      StepCounts(cfg, before, actions[|actions| - 1]);
    }
  }

  // ----- Processed implies delivered -----

  /** Every id in the recent set of a running store or of its file was refused by attention, found no enabled
      sink, or had every selected sink done by an Ok reply or a delivered row. */
  lemma ProcessedIsJustified(cfg: Setup, s: State, server: ServerKey, id: MessageId)
    requires Reachable(cfg, s)
    requires (server in s.mem && id in s.mem[server].seen) || (server in s.disk && id in s.disk[server].recent)
    ensures Justified(cfg, s.db, s.hist, server, id)
  {
    ReachableIsOk(cfg, s);
    if server in s.mem {
      assert StoreOk(cfg, s.mem[server], s.hist.processed[server]);
    }
    hide Justified, TablesOk, RepliesOk, OrphansOk, CountsOk, DecisionsOk, AuditOk, TargetsOk, Reachable, PendingOk;
  }

  // ----- One event per message -----

  /** A message keeps the event it was first given, no two messages share one, and match and delivery rows point
      only at such events; those without an idempotency row number the stops that cut them off, and the one
      just being inserted. */
  lemma OneEventPerMessage(cfg: Setup, s: State, actions: seq<Action>, t: State, serverA: ServerKey, a: MessageId,
                           serverB: ServerKey, b: MessageId)
    requires Reachable(cfg, s) && Leads(cfg, s, actions, t)
    requires EventOf(s.db, serverA, a).Some?
    ensures EventOf(t.db, serverA, a) == EventOf(s.db, serverA, a)
    ensures EventOf(s.db, serverA, a) == EventOf(s.db, serverB, b) ==> serverA == serverB && a == b
    ensures EventOf(s.db, serverA, a).value in s.db.events
    ensures s.db.events[EventOf(s.db, serverA, a).value] == EventRow(s.db.sources[serverA], a)
  {
    ReachableIsOk(cfg, s);
    TablesOfInv(cfg, s);
    assert DbOk(s.db);
    hide Inv, Leads, DbOk, TablesOk, Reachable, Extends;
    RunKeepsInv(cfg, s, actions, t);
    ExtendsKeepsRows(s.db, t.db, serverA, a, "");
    EventRowOfMessage(s.db, serverA, a);
    if EventOf(s.db, serverA, a) == EventOf(s.db, serverB, b) {
      EventsAreNotShared(s.db, serverA, a, serverB, b);
    }
  }

  lemma RowsPointAtMappedEvents(cfg: Setup, s: State)
    requires Reachable(cfg, s)
    ensures forall k <- s.db.deliveries :: EventIsMapped(s.db, k.event) && TargetExists(s.db, k.target)
    ensures forall k <- s.db.matches :: EventIsMapped(s.db, k.event)
    ensures |Orphans(s.db)| == |s.hist.orphans| + One(s.worker.AtSink? && s.worker.stage.Inserted?)
  {
    ReachableIsOk(cfg, s);
    assert OrphansOk(s);
    hide EventIsMapped, TargetExists, Orphans, IdsOk, AdmissionOk, JustifiedOk, RepliesOk, AuditOk, TargetsOk, CountsOk;
    hide WorkerOk, Reachable;
  }

  /** The events of one message, counted exactly: the mapped one if there is one, those whose idempotency row a stop
      cut off, and the one being inserted. */
  lemma EventsOfAMessage(cfg: Setup, s: State, server: ServerKey, message: MessageId)
    requires Reachable(cfg, s)
    ensures |EventsOf(s.db, server, message)|
         == One(EventOf(s.db, server, message).Some?) + s.hist.orphans[(server, message)]
            + One(Inserting(s.worker) == Some((server, message)))
  {
    ReachableIsOk(cfg, s);
    TablesOfInv(cfg, s);
    assert DbOk(s.db) && CountsOk(s);
    hide Inv, TablesOk, DbOk, Reachable, EventsOf, EventOf;
    MappedEventCounts(s.db, server, message);
    assert OrphanCount(s, server, message);
  }

  // ----- Decisions -----

  lemma DecisionsOfInv(cfg: Setup, s: State)
    requires Inv(cfg, s)
    ensures DecisionsOk(cfg, s) && SourceIdsOk(s.db.sources, s.db.nextId)
  {
    hide AdmissionOk, JustifiedOk, RepliesOk, OrphansOk, CountsOk, DecisionsOk, AuditOk, TargetsOk, RowsOk;
  }

  /** The decision row of a message says what the last decision recorded for it was, there are rows for no other
      messages, and from the end of recording to its last sink the message in hand is recorded with its result. */
  lemma RowsSayTheLastDecision(cfg: Setup, s: State, server: ServerKey, message: MessageId)
    requires Reachable(cfg, s)
    ensures (server, message) in s.hist.decided ==> RowSays(s.db, server, message, s.hist.decided[(server, message)])
    ensures server in s.db.sources && DecisionKey(s.db.sources[server], message) in s.db.decisions ==>
      (server, message) in s.hist.decided
    ensures HasStore(cfg) && (s.worker.Reconciling? || s.worker.AtSink?) ==>
      RowSays(s.db, s.worker.item.server, s.worker.item.id, s.worker.result)
  {
    ReachableIsOk(cfg, s);
    DecisionsOfInv(cfg, s);
    hide Inv, Reachable, RowSays, HasStore, SourceIdsOk, RowIsDecided, DecidedInHand;
    if server in s.db.sources && DecisionKey(s.db.sources[server], message) in s.db.decisions {
      RowMeansDecided(s.db, s.hist.decided, server, message);
    }
    if HasStore(cfg) && (s.worker.Reconciling? || s.worker.AtSink?) {
      InHandIsDecided(cfg, s);
    }
  }

  /** The decision recorded is the one just made, for the message in hand. */
  lemma RecordingIsOfTheResult(cfg: Setup, s: State, a: Action)
    requires Next(cfg, s, a).Some?
    ensures var next := Next(cfg, s, a).value;
      next.hist.decided == if a.Advance? && s.worker.Deciding? then
        s.hist.decided[(s.worker.item.server, s.worker.item.id) := s.worker.result]
      else s.hist.decided
  {
    if a.Advance? {
      hide StepAdvance;
      if s.worker.AtSink? || s.worker.Reconciling? {
        AdvanceLeavesDecided(cfg, s);
      } else {
        AdvanceDecides(cfg, s);
      }
    } else {
      hide StepAdvance, Next;
      OthersKeepTheLast(cfg, s, a);
    }
  }

  lemma AdvanceDecides(cfg: Setup, s: State)
    requires !s.worker.AtSink? && !s.worker.Reconciling? && StepAdvance(cfg, s).Some?
    ensures StepAdvance(cfg, s).value.hist.decided
         == if s.worker.Deciding? then s.hist.decided[(s.worker.item.server, s.worker.item.id) := s.worker.result]
            else s.hist.decided
  {
    hide StepRows, StepSend, StepReconcile, Route, Runtime.MarkProcessed, UpsertDecision, UpsertSource;
  }

  lemma AdvanceLeavesDecided(cfg: Setup, s: State)
    requires (s.worker.AtSink? || s.worker.Reconciling?) && StepAdvance(cfg, s).Some?
    ensures StepAdvance(cfg, s).value.hist.decided == s.hist.decided
  {
    hide StepRows, StepSend, StepReconcile, SelectedSinks;
    if s.worker.Reconciling? {
      ReconcileFrame(cfg, s);
    } else if StepAdvance(cfg, s) == StepRows(cfg, s) {
      RowsLeaveDecisions(cfg, s);
    } else {
      SendLeavesDecisions(cfg, s);
    }
  }

  // ----- Admission -----

  /** At every interleaving, before and after a halt of the worker, the pending ids of a server are exactly the one
      its task is offering, those of the backlog and the one in the worker's hands, all apart, and none of them is
      recent. The backlog is the queue while the worker runs; after a halt both it and the item in hand are what
      the worker left, which stays pending until the process starts again. */
  lemma PendingIsConserved(cfg: Setup, s: State, server: ServerKey)
    requires Reachable(cfg, s) && server in cfg.servers
    ensures server in s.mem && server in s.tasks
    ensures s.mem[server].pending
         == OfferedBy(s.tasks[server]) + QueuedFor(Backlog(s), server) + HeldFor(InHand(s), server)
    ensures OfferedBy(s.tasks[server]) !! QueuedFor(Backlog(s), server) !! HeldFor(InHand(s), server)
    ensures s.mem[server].pending !! s.mem[server].seen
    ensures DistinctItems(Backlog(s))
    ensures !s.worker.Halted? ==> Backlog(s) == s.queue && InHand(s) == Held(s.worker)
  {
    ReachableIsOk(cfg, s);
    hide TablesOk, JustifiedOk, RepliesOk, OrphansOk, CountsOk, DecisionsOk, AuditOk, TargetsOk, Reachable, StoreOk,
         DistinctItems,
         QueuedFor;
    assert PendingOf(s.mem[server], s.tasks[server], Backlog(s), InHand(s), server);
  }

  /** What a halted worker left is what it had: a halt changes no backlog and no item in hand, and until a crash no
      step does. */
  lemma LeftoverStays(cfg: Setup, s: State, a: Action)
    requires Next(cfg, s, a).Some? && (a.Halt? || (s.worker.Halted? && !a.Crash?))
    ensures Backlog(Next(cfg, s, a).value) == Backlog(s) && InHand(Next(cfg, s, a).value) == InHand(s)
    ensures Next(cfg, s, a).value.worker.Halted?
  {
    hide Interrupted;
    if a.Halt? {
      HaltLeavesAdmission(cfg, s);
    }
  }

  /** The window of a server is exactly the newest ids it processed, so an id is taken a second time in one
      process life only after a full window of other ids. */
  lemma SecondAcceptanceNeedsAFullWindow(cfg: Setup, s: State, server: ServerKey, id: MessageId, stamp: Stamp, j: nat)
    requires Reachable(cfg, s) && server in cfg.servers
    ensures server in s.mem && server in s.hist.processed
    ensures s.mem[server].order == Newest(cfg.windowSize, s.hist.processed[server]) && WindowOk(s.mem[server])
    ensures j < |s.hist.processed[server]| && s.hist.processed[server][j] == id && Accepts(s.mem[server], id, stamp) ==>
      var log := s.hist.processed[server];
      && j + cfg.windowSize < |log|
      && NoDuplicates(log[|log| - cfg.windowSize..]) && id !in log[|log| - cfg.windowSize..]
  {
    ReachableIsOk(cfg, s);
    hide TablesOk, JustifiedOk, RepliesOk, OrphansOk, CountsOk, DecisionsOk, AuditOk, TargetsOk, Reachable, PendingOk;
    assert StoreOk(cfg, s.mem[server], s.hist.processed[server]);
    var log := s.hist.processed[server];
    if j < |log| && log[j] == id && Accepts(s.mem[server], id, stamp) {
      hide AdmissionOk, Accepts, WindowOk;
      AcceptedAgainOnlyAfterAFullWindow(s.mem[server], log, id, stamp, j);
    }
  }

  /** An id whose offer bounced, off a full queue or a closed one, is no longer pending, so a replay of it is
      admitted. */
  lemma BouncedReplayIsAdmitted(cfg: Setup, s: State, server: ServerKey)
    requires Reachable(cfg, s) && server in cfg.servers
    requires server in s.tasks && s.tasks[server].Bounced?
    ensures StepBounce(s, server).Some?
    ensures var next, item := StepBounce(s, server).value, s.tasks[server].item;
      && server in next.mem && item.id !in next.mem[server].pending
      && Accepts(next.mem[server], item.id, item.stamp) == !BeforeFloor(item.stamp, cfg.floor)
  {
    ReachableIsOk(cfg, s);
    hide TablesOk, JustifiedOk, RepliesOk, OrphansOk, CountsOk, DecisionsOk, AuditOk, TargetsOk, Reachable;
    assert StoreOk(cfg, s.mem[server], s.hist.processed[server]);
    assert PendingOf(s.mem[server], s.tasks[server], Backlog(s), InHand(s), server);
    hide QueuedFor;
  }

  // ----- The audit trail -----

  /** Every event with a delivery row shows an accepted receptor match that is no veto, unless a rewrite of its
      match rows is going on or was cut short by a stop; then it shows one exactly when a match written by that
      rewrite is accepted, or an accepted row from before is not among those written. */
  lemma DeliveriesShowAcceptance(cfg: Setup, s: State, k: DeliveryKey)
    requires Reachable(cfg, s) && k in s.db.deliveries
    ensures Accepted(s.db, k.event) <==> Shows(s, k.event)
    ensures LastWritten(s, k.event).None? ==> Accepted(s.db, k.event)
  {
    ReachableIsOk(cfg, s);
    hide TablesOk, AdmissionOk, JustifiedOk, RepliesOk, OrphansOk, CountsOk, DecisionsOk, AuditOk, TargetsOk,
         Reachable, Accepted;
    TrailIsExact(cfg, s, k.event);
    hide Shows, LastWritten;
    ShownByDefault(s, k.event);
  }

  lemma ShownByDefault(s: State, event: RowId)
    ensures LastWritten(s, event).None? ==> Shows(s, event)
  {
  }

  // ----- Targets -----

  /** From the reconciliation of a message to its last sink, and beyond it, exactly the enabled configured keys
      are not disabled; targets keep their ids through everything. */
  lemma TargetsStayReconciled(cfg: Setup, s: State, a: Action, t: State)
    requires Reachable(cfg, s) && UniqueSinkKeys(cfg.sinks) && HasStore(cfg) && s.worker.AtSink?
    requires Next(cfg, s, a) == Some(t)
    ensures Reconciled(cfg.sinks, s.db.targets) && Reconciled(cfg.sinks, t.db.targets)
  {
    ReachableIsOk(cfg, s);
    hide TablesOk, AdmissionOk, JustifiedOk, RepliesOk, OrphansOk, CountsOk, DecisionsOk, AuditOk, Reachable, Next,
         Reconciled;
    ReconciledStays(cfg, s, a);
  }

  // ----- What the rows say -----

  /** At every point of the work for a sink past its target statement, its target is enabled and says where the item
      goes, and its delivery row says how far the work is. */
  lemma RowsSayTheStage(cfg: Setup, s: State)
    requires Reachable(cfg, s) && HasStore(cfg) && s.worker.AtSink? && PastTarget(s.worker.stage)
    ensures s.worker.index < |SelectedSinks(cfg)|
    ensures TargetSays(cfg, s.db, s.worker.item, SelectedSinks(cfg)[s.worker.index])
    ensures RowSaysStage(s.db, s.worker.item, SelectedSinks(cfg)[s.worker.index].key, s.worker.stage)
  {
    ReachableIsOk(cfg, s);
    hide AdmissionOk, JustifiedOk, RepliesOk, OrphansOk, CountsOk, DecisionsOk, AuditOk, TargetsOk, Reachable,
         DbOk, WellFormed, StageOk, SelectedSinks, TargetSays, RowSaysStage;
  }

  /** The mark that follows an outcome says that outcome. */
  lemma MarksFollowOutcomes(cfg: Setup, s: State, t: State)
    requires Reachable(cfg, s) && HasStore(cfg) && s.worker.AtSink? && Next(cfg, s, Advance) == Some(t)
    ensures s.worker.index < |SelectedSinks(cfg)|
    ensures var item, sink := s.worker.item, SelectedSinks(cfg)[s.worker.index];
      && (s.worker.stage.Attempt? ==> HasStatus(t.db, item, sink.key, Attempted, Attempted))
      && (s.worker.stage.Confirm? ==> HasStatus(t.db, item, sink.key, Delivered, Delivered))
      && (s.worker.stage.Rejected? ==> HasStatus(t.db, item, sink.key, Failed, Failed))
      && (s.worker.stage.Ticketed? && sink.kind == Db ==> HasStatus(t.db, item, sink.key, Delivered, Delivered))
  {
    ReachableIsOk(cfg, s);
    TablesOfInv(cfg, s);
    hide Inv, Reachable, HasStatus, HasStore;
    InHandIsSelected(cfg, s);
    hide TablesOk;
    if s.worker.stage.Attempt? || s.worker.stage.Confirm? || s.worker.stage.Rejected? || s.worker.stage.Ticketed? {
      AdvanceSends(cfg, s);
      hide StepSend, SelectedSinks, Next;
      MarksSayOutcomes(cfg, s);
    }
  }

  lemma InHandIsSelected(cfg: Setup, s: State)
    requires TablesOk(cfg, s) && s.worker.AtSink?
    ensures s.worker.index < |SelectedSinks(cfg)|
  {
    hide DbOk, WellFormed, StageOk, SelectedSinks;
  }

  lemma AdvanceSends(cfg: Setup, s: State)
    requires s.worker.AtSink? && Next(cfg, s, Advance).Some?
    requires s.worker.stage.Attempt? || s.worker.stage.Confirm? || s.worker.stage.Rejected? || s.worker.stage.Ticketed?
    ensures s.worker.index < |SelectedSinks(cfg)| && Next(cfg, s, Advance) == StepSend(cfg, s)
  {
    hide StepSend, StepRows, SelectedSinks;
  }

  /** The queue never holds more than its capacity, and an offer is refused exactly when it is full or its receiver
      is gone. */
  lemma QueueIsBounded(cfg: Setup, s: State, server: ServerKey)
    requires Reachable(cfg, s)
    ensures |s.queue| <= cfg.capacity
    ensures Next(cfg, s, Offer(server)).Some? ==>
      var t := Next(cfg, s, Offer(server)).value;
      && (t.tasks[server].Bounced? <==> s.worker.Halted? || |s.queue| == cfg.capacity)
      && t.queue == if t.tasks[server].Bounced? then s.queue else s.queue + [s.tasks[server].item]
  {
    ReachableIsOk(cfg, s);
    hide TablesOk, AdmissionOk, JustifiedOk, RepliesOk, OrphansOk, CountsOk, DecisionsOk, AuditOk, TargetsOk, RowsOk,
         Reachable;
  }

  // ----- Progress -----

  /** The destination the worker's next statement needs is blank. */
  predicate NeedsDestination(cfg: Setup, s: State) {
    match s.worker
    case Reconciling(_, _, k, upserted) => k < |cfg.sinks| && !upserted && Blank(DefaultDestination(cfg, cfg.sinks[k]))
    case AtSink(item, result, i, Matching(_, done)) =>
      i < |SelectedSinks(cfg)| && done >= |result.matches| && Blank(Destination(cfg, SelectedSinks(cfg)[i], item))
    case _ => false
  }

  predicate Working(worker: Worker) {
    !worker.Idle? && !worker.Halted? && !worker.Evaluating? && !(worker.AtSink? && worker.stage.Waiting?)
  }

  lemma WorkingGoesOn(cfg: Setup, s: State)
    requires TablesOk(cfg, s) && ShapeOk(cfg, s) && Working(s.worker)
    ensures StepAdvance(cfg, s).None? <==> NeedsDestination(cfg, s)
  {
    hide DbOk, Accepted, MatchesWritten, RowOf, UpsertSource, UpsertDecision, UpsertTarget, UpsertMatch;
    hide UpsertDelivery, InsertEvent, InsertIdempotency, MarkStatus, DeliveredById, DisableMissing, ClearDisabled;
    hide SoftDisable, MarkProcessed, StartSink, Route, Blank;
  }

  lemma AdvanceIsAStep(cfg: Setup, s: State)
    ensures Next(cfg, s, Advance) == StepAdvance(cfg, s)
  {
  }

  lemma ShapeOfInv(cfg: Setup, s: State)
    requires Inv(cfg, s)
    ensures ShapeOk(cfg, s)
  {
    hide TablesOk, JustifiedOk, RepliesOk, OrphansOk, CountsOk, DecisionsOk, AuditOk, TargetsOk, RowsOk, StoresOk,
         PendingOk, ShapeOk;
  }

  /** A busy worker can always take its next step, and so never fails on the delivery guard or on a row it expects:
      it stops by itself exactly on a blank destination. */
  lemma WorkerStopsOnlyOnBlankDestination(cfg: Setup, s: State)
    requires Reachable(cfg, s) && Working(s.worker)
    ensures Next(cfg, s, Advance).None? <==> NeedsDestination(cfg, s)
  {
    hide *;
    ReachableIsOk(cfg, s);
    TablesOfInv(cfg, s);
    ShapeOfInv(cfg, s);
    AdvanceIsAStep(cfg, s);
    WorkingGoesOn(cfg, s);
  }
}
