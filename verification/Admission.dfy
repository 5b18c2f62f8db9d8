/** Ids between admission and processing: conservation of the pending sets, and the dedupe window, at every
    interleaving of the server tasks and the worker. */
module Admission {
  import Attention
  import opened DedupeWindow
  import opened Protocol
  import opened Runtime
  import opened Storage
  import opened Wrappers

  /** Every map is keyed by the configured servers, and items stay with their server. */
  ghost predicate ShapeOk(cfg: Setup, s: State) {
    && s.mem.Keys == cfg.servers && s.tasks.Keys == cfg.servers
    && s.hist.processed.Keys == cfg.servers && s.disk.Keys <= cfg.servers
    && (forall item <- s.queue :: item.server in cfg.servers)
    && (forall server <- s.tasks :: !s.tasks[server].Listening? ==> s.tasks[server].item.server == server)
  }

  /** Each store satisfies the window invariant, and its window is the newest part of what was processed. */
  ghost predicate StoreOk(cfg: Setup, r: RuntimeState, processed: seq<MessageId>) {
    && WindowOk(r) && r.windowSize == cfg.windowSize && r.floor == cfg.floor
    && r.order == Newest(cfg.windowSize, processed)
  }

  ghost predicate StoresOk(cfg: Setup, s: State)
    requires ShapeOk(cfg, s)
  {
    forall server <- cfg.servers :: StoreOk(cfg, s.mem[server], s.hist.processed[server])
  }

  // ----- Pending ids -----

  function OfferedBy(task: Task): set<MessageId> {
    if task.Listening? then {} else {task.item.id}
  }

  function QueuedFor(queue: seq<Item>, server: ServerKey): set<MessageId> {
    set item | item in queue && item.server == server :: item.id
  }

  /** The items waiting for a worker: in the queue, or left there by a worker that halted. */
  function Backlog(s: State): seq<Item> {
    if s.worker.Halted? then s.hist.left.queue else s.queue
  }

  /** The item in the worker's hands, or left in them when it halted. */
  function InHand(s: State): Option<Item> {
    if s.worker.Halted? then s.hist.left.held else Held(s.worker)
  }

  function HeldFor(held: Option<Item>, server: ServerKey): set<MessageId> {
    if held.Some? && held.value.server == server then {held.value.id} else {}
  }

  ghost predicate DistinctItems(queue: seq<Item>) {
    forall i, j :: 0 <= i < j < |queue| ==> queue[i].server != queue[j].server || queue[i].id != queue[j].id
  }

  /** The pending set of a server is made of the id its task is offering, its queued ids and the id in the
      worker's hands; these are apart from each other and from the recent ids. */
  ghost predicate PendingOf(r: RuntimeState, task: Task, queue: seq<Item>, held: Option<Item>, server: ServerKey) {
    && r.pending == OfferedBy(task) + QueuedFor(queue, server) + HeldFor(held, server)
    && OfferedBy(task) !! QueuedFor(queue, server) !! HeldFor(held, server)
    && r.pending !! r.seen
  }

  ghost predicate PendingOk(cfg: Setup, s: State)
    requires ShapeOk(cfg, s)
  {
    && DistinctItems(Backlog(s))
    && forall server <- cfg.servers :: PendingOf(s.mem[server], s.tasks[server], Backlog(s), InHand(s), server)
  }

  ghost predicate AdmissionOk(cfg: Setup, s: State) {
    ShapeOk(cfg, s) && StoresOk(cfg, s) && PendingOk(cfg, s)
  }

  /** A held item belongs to a configured server. */
  ghost predicate HeldIsOurs(cfg: Setup, s: State) {
    Held(s.worker).Some? ==> Held(s.worker).value.server in cfg.servers
  }

  // ----- Preservation -----

  lemma AcceptedIsPending(r: RuntimeState, task: Task, queue: seq<Item>, held: Option<Item>, item: Item)
    requires PendingOf(r, task, queue, held, item.server) && task.Listening? && Accepts(r, item.id, item.stamp)
    ensures PendingOf(ShouldEnqueue(r, item.id, item.stamp), Offering(item), queue, held, item.server)
  {
    hide QueuedFor;
  }

  lemma ArriveKeeps(cfg: Setup, s: State, item: Item)
    requires AdmissionOk(cfg, s) && StepArrive(cfg, s, item).Some?
    ensures AdmissionOk(cfg, StepArrive(cfg, s, item).value)
  {
    if Accepts(s.mem[item.server], item.id, item.stamp) {
      AcceptedKeeps(cfg, s, item);
    }
  }

  lemma AcceptedKeeps(cfg: Setup, s: State, item: Item)
    requires AdmissionOk(cfg, s) && item.server in s.mem && item.server in s.tasks && s.tasks[item.server].Listening?
    requires Accepts(s.mem[item.server], item.id, item.stamp)
    ensures AdmissionOk(cfg, StepArrive(cfg, s, item).value)
  {
    hide StoreOk, PendingOf, DistinctItems, Accepts, ShouldEnqueue;
    var r := s.mem[item.server];
    var next := s.(mem := s.mem[item.server := ShouldEnqueue(r, item.id, item.stamp)],
                   tasks := s.tasks[item.server := Offering(item)]);
    assert StepArrive(cfg, s, item) == Some(next);
    hide StepArrive;
    forall server | server in cfg.servers ensures StoreOk(cfg, next.mem[server], next.hist.processed[server]) {
      assert StoreOk(cfg, s.mem[server], s.hist.processed[server]);
      AcceptedStore(cfg, s.mem[server], s.hist.processed[server], item);
    }
    forall server | server in cfg.servers
      ensures PendingOf(next.mem[server], next.tasks[server], Backlog(next), InHand(next), server)
    {
      assert PendingOf(s.mem[server], s.tasks[server], Backlog(s), InHand(s), server);
      if server == item.server {
        AcceptedIsPending(r, s.tasks[item.server], Backlog(s), InHand(s), item);
      }
    }
  }

  lemma AcceptedStore(cfg: Setup, r: RuntimeState, processed: seq<MessageId>, item: Item)
    requires StoreOk(cfg, r, processed)
    ensures StoreOk(cfg, ShouldEnqueue(r, item.id, item.stamp), processed)
  {
  }

  lemma QueuedAppend(queue: seq<Item>, item: Item, server: ServerKey)
    ensures QueuedFor(queue + [item], server)
         == QueuedFor(queue, server) + (if item.server == server then {item.id} else {})
  {
    forall x ensures x in queue + [item] <==> x in queue || x == item {}
    if item.server == server {
      assert item in queue + [item];
    }
  }

  lemma OfferKeeps(cfg: Setup, s: State, server: ServerKey)
    requires AdmissionOk(cfg, s) && StepOffer(cfg, s, server).Some?
    ensures AdmissionOk(cfg, StepOffer(cfg, s, server).value)
  {
    var next := StepOffer(cfg, s, server).value;
    var item := s.tasks[server].item;
    if !(s.worker.Halted? || |s.queue| >= cfg.capacity) {
      QueueTakesOffered(cfg, s, server);
    }
  }

  lemma QueueTakesOffered(cfg: Setup, s: State, server: ServerKey)
    requires AdmissionOk(cfg, s) && server in s.tasks && s.tasks[server].Offering?
    requires !s.worker.Halted? && |s.queue| < cfg.capacity
    ensures AdmissionOk(cfg, StepOffer(cfg, s, server).value)
  {
    hide StoreOk, PendingOf, DistinctItems;
    var next := StepOffer(cfg, s, server).value;
    var item := s.tasks[server].item;
    forall other | other in cfg.servers
      ensures PendingOf(next.mem[other], next.tasks[other], Backlog(next), InHand(next), other)
    {
      assert PendingOf(s.mem[other], s.tasks[other], Backlog(s), InHand(s), other);
      QueuedIsOffered(s.mem[other], s.tasks[other], next.tasks[other], Backlog(s), InHand(s), item, other);
    }
    assert PendingOf(s.mem[server], s.tasks[server], Backlog(s), InHand(s), server);
    OfferedStaysDistinct(s.mem[server], s.tasks[server], Backlog(s), InHand(s), item);
  }

  /** For its own server the item moves from the task to the queue; for the others nothing moves. */
  lemma QueuedIsOffered(r: RuntimeState, task: Task, after: Task, queue: seq<Item>, held: Option<Item>, item: Item,
                        server: ServerKey)
    requires PendingOf(r, task, queue, held, server)
    requires if item.server == server then task == Offering(item) && after == Listening else after == task
    ensures PendingOf(r, after, queue + [item], held, server)
  {
    QueuedAppend(queue, item, server);
    hide QueuedFor;
  }

  lemma OfferedStaysDistinct(r: RuntimeState, task: Task, queue: seq<Item>, held: Option<Item>, item: Item)
    requires PendingOf(r, task, queue, held, item.server) && task == Offering(item)
    requires DistinctItems(queue)
    ensures DistinctItems(queue + [item])
  {
    forall i | 0 <= i < |queue| ensures queue[i].server != item.server || queue[i].id != item.id {
      if queue[i].server == item.server {
        assert queue[i].id in QueuedFor(queue, item.server);
      }
    }
  }

  lemma BouncedStore(cfg: Setup, r: RuntimeState, processed: seq<MessageId>, id: MessageId)
    requires StoreOk(cfg, r, processed)
    ensures StoreOk(cfg, MarkFailed(r, id), processed)
  {
  }

  lemma BouncedIsNotPending(r: RuntimeState, task: Task, queue: seq<Item>, held: Option<Item>, server: ServerKey)
    requires PendingOf(r, task, queue, held, server) && task.Bounced?
    ensures PendingOf(MarkFailed(r, task.item.id), Listening, queue, held, server)
  {
    hide QueuedFor;
  }

  lemma BounceKeeps(cfg: Setup, s: State, server: ServerKey)
    requires AdmissionOk(cfg, s) && StepBounce(s, server).Some?
    ensures AdmissionOk(cfg, StepBounce(s, server).value)
  {
    hide StoreOk, PendingOf, DistinctItems, MarkFailed;
    var task := s.tasks[server];
    var next := s.(mem := s.mem[server := MarkFailed(s.mem[server], task.item.id)],
                   tasks := s.tasks[server := Listening]);
    assert StepBounce(s, server) == Some(next);
    hide StepBounce;
    forall other | other in cfg.servers ensures StoreOk(cfg, next.mem[other], next.hist.processed[other]) {
      assert StoreOk(cfg, s.mem[other], s.hist.processed[other]);
      BouncedStore(cfg, s.mem[other], s.hist.processed[other], task.item.id);
    }
    forall other | other in cfg.servers
      ensures PendingOf(next.mem[other], next.tasks[other], Backlog(next), InHand(next), other)
    {
      assert PendingOf(s.mem[other], s.tasks[other], Backlog(s), InHand(s), other);
      if other == server {
        BouncedIsNotPending(s.mem[server], task, Backlog(s), InHand(s), server);
      }
    }
  }

  lemma QueuedHead(queue: seq<Item>, server: ServerKey)
    requires queue != [] && DistinctItems(queue)
    ensures QueuedFor(queue, server)
         == QueuedFor(queue[1..], server) + (if queue[0].server == server then {queue[0].id} else {})
    ensures queue[0].server == server ==> queue[0].id !in QueuedFor(queue[1..], server)
  {
    QueuedPrepend(queue[0], queue[1..], server);
    assert queue == [queue[0]] + queue[1..];
    var rest := queue[1..];
    forall i | 0 <= i < |rest| ensures rest[i].server != queue[0].server || rest[i].id != queue[0].id {
      assert rest[i] == queue[i + 1];
    }
  }

  lemma QueuedPrepend(item: Item, queue: seq<Item>, server: ServerKey)
    ensures QueuedFor([item] + queue, server)
         == QueuedFor(queue, server) + (if item.server == server then {item.id} else {})
  {
    forall x ensures x in [item] + queue <==> x in queue || x == item {}
    if item.server == server {
      assert item in [item] + queue;
    }
  }

  lemma RestStaysDistinct(queue: seq<Item>)
    requires queue != [] && DistinctItems(queue)
    ensures DistinctItems(queue[1..])
    ensures forall item :: item in queue[1..] ==> item in queue
  {
  }

  /** For its own server the head moves from the queue into the worker's hands. */
  lemma TakenIsHeld(r: RuntimeState, task: Task, queue: seq<Item>, server: ServerKey)
    requires queue != [] && DistinctItems(queue) && PendingOf(r, task, queue, None, server)
    ensures PendingOf(r, task, queue[1..], Some(queue[0]), server)
  {
    QueuedHead(queue, server);
    hide QueuedFor, DistinctItems;
  }

  lemma TakeKeeps(cfg: Setup, s: State)
    requires AdmissionOk(cfg, s) && StepTake(s).Some?
    ensures AdmissionOk(cfg, StepTake(s).value)
  {
    hide StoreOk, QueuedFor, PendingOf, DistinctItems;
    var next := StepTake(s).value;
    RestStaysDistinct(s.queue);
    forall server | server in cfg.servers
      ensures PendingOf(next.mem[server], next.tasks[server], Backlog(next), InHand(next), server)
    {
      assert PendingOf(s.mem[server], s.tasks[server], Backlog(s), InHand(s), server);
      TakenIsHeld(s.mem[server], s.tasks[server], s.queue, server);
    }
  }

  lemma MarkedStore(cfg: Setup, r: RuntimeState, processed: seq<MessageId>, id: MessageId, stamp: Stamp)
    requires StoreOk(cfg, r, processed) && id !in r.seen
    ensures StoreOk(cfg, MarkProcessed(r, id, stamp), processed + [id])
    ensures MarkProcessed(r, id, stamp).pending == r.pending - {id}
    ensures MarkProcessed(r, id, stamp).seen <= r.seen + {id}
  {
    ProcessKeepsWindow(r, id, stamp);
    NewestAppend(cfg.windowSize, processed, id);
    NewestMembers(cfg.windowSize, r.order + [id]);
    hide MarkProcessed, NoDuplicates, Newest;
  }

  lemma NewestMembers(n: nat, s: seq<MessageId>)
    ensures forall x <- Newest(n, s) :: x in s
  {
  }

  /** Marking takes the held id out of the pending set and into the window. */
  lemma MarkedPending(r: RuntimeState, after: RuntimeState, task: Task, queue: seq<Item>, item: Item)
    requires PendingOf(r, task, queue, Some(item), item.server)
    requires after.pending == r.pending - {item.id} && after.seen <= r.seen + {item.id}
    ensures item.id !in r.seen
    ensures PendingOf(after, task, queue, None, item.server)
  {
    hide QueuedFor;
  }

  lemma MarkKeeps(cfg: Setup, s: State)
    requires AdmissionOk(cfg, s) && s.worker.Marking? && StepMark(s).Some?
    ensures AdmissionOk(cfg, StepMark(s).value)
  {
    hide MarkProcessed, StoreOk, PendingOf, DistinctItems;
    var next := StepMark(s).value;
    var item := s.worker.item;
    var r, processed := s.mem[item.server], s.hist.processed[item.server];
    assert PendingOf(r, s.tasks[item.server], Backlog(s), InHand(s), item.server);
    HeldIsNotSeen(r, s.tasks[item.server], s.queue, item);
    MarkedStore(cfg, r, processed, item.id, item.stamp);
    MarkedPending(r, next.mem[item.server], s.tasks[item.server], s.queue, item);
    forall server | server in cfg.servers
      ensures PendingOf(next.mem[server], next.tasks[server], next.queue, None, server)
    {
      if server != item.server {
        OtherServerHolds(s.mem[server], s.tasks[server], s.queue, item, server);
      }
    }
  }

  lemma HeldIsNotSeen(r: RuntimeState, task: Task, queue: seq<Item>, item: Item)
    requires PendingOf(r, task, queue, Some(item), item.server)
    ensures item.id !in r.seen
  {
    assert item.id in r.pending;
  }

  lemma OtherServerHolds(r: RuntimeState, task: Task, queue: seq<Item>, item: Item, server: ServerKey)
    requires server != item.server
    ensures PendingOf(r, task, queue, Some(item), server) <==> PendingOf(r, task, queue, None, server)
  {
  }

  lemma FlushKeeps(cfg: Setup, s: State)
    requires AdmissionOk(cfg, s) && s.worker.Flushing? && StepMark(s).Some?
    ensures AdmissionOk(cfg, StepMark(s).value)
  {
  }

  lemma ManageStormKeeps(cfg: Setup, s: State, server: ServerKey, storm: StormState, windowStart: Option<int>)
    requires AdmissionOk(cfg, s) && StepManageStorm(s, server, storm, windowStart).Some?
    ensures AdmissionOk(cfg, StepManageStorm(s, server, storm, windowStart).value)
  {
    assert StoreOk(cfg, s.mem[server], s.hist.processed[server]);
    assert PendingOf(s.mem[server], s.tasks[server], Backlog(s), InHand(s), server);
  }

  lemma ReloadedIsOk(cfg: Setup, disk: map<ServerKey, RuntimeFile>, now: int, server: ServerKey)
    requires server in cfg.servers
    ensures StoreOk(cfg, Reloaded(cfg, disk, now)[server], Reloaded(cfg, disk, now)[server].order)
    ensures Reloaded(cfg, disk, now)[server].pending == {}
  {
    LoadEstablishesWindow(StoredFile(disk, server), cfg.windowSize, cfg.floor, now);
  }

  lemma NothingIsPending(r: RuntimeState, server: ServerKey)
    requires r.pending == {}
    ensures PendingOf(r, Listening, [], None, server)
  {
  }

  lemma NoItemsAreDistinct()
    ensures DistinctItems([])
  {
  }

  lemma CrashKeeps(cfg: Setup, s: State, now: int)
    requires AdmissionOk(cfg, s)
    ensures AdmissionOk(cfg, StepCrash(cfg, s, now))
  {
    hide Interrupted, StoreOk, Loaded, PendingOf, DistinctItems;
    var next := StepCrash(cfg, s, now);
    assert ShapeOk(cfg, s) && ShapeOk(cfg, next);
    NoItemsAreDistinct();
    hide AdmissionOk;
    forall server | server in cfg.servers
      ensures StoreOk(cfg, next.mem[server], next.hist.processed[server])
      ensures PendingOf(next.mem[server], next.tasks[server], Backlog(next), InHand(next), server)
    {
      ReloadedIsOk(cfg, s.disk, now, server);
      NothingIsPending(next.mem[server], server);
    }
    assert StoresOk(cfg, next) && PendingOk(cfg, next);
    hide StoresOk, PendingOk, ShapeOk;
    CrashIsOk(cfg, next);
  }

  lemma CrashIsOk(cfg: Setup, s: State)
    requires ShapeOk(cfg, s) && StoresOk(cfg, s) && PendingOk(cfg, s)
    ensures AdmissionOk(cfg, s)
  {
  }

  /** Steps that leave memory, tasks, queue and the held item alone. */
  lemma ElsewhereKeeps(cfg: Setup, s: State, next: State)
    requires AdmissionOk(cfg, s)
    requires next.mem == s.mem && next.tasks == s.tasks && next.disk == s.disk
    requires next.hist.processed == s.hist.processed
    requires next.queue == [] || next.queue == s.queue
    requires Backlog(next) == Backlog(s) && InHand(next) == InHand(s)
    ensures AdmissionOk(cfg, next)
  {
  }

  lemma HaltLeavesAdmission(cfg: Setup, s: State)
    requires StepHalt(cfg, s).Some?
    ensures var next := StepHalt(cfg, s).value;
      && next.mem == s.mem && next.tasks == s.tasks && next.disk == s.disk && next.hist.processed == s.hist.processed
      && next.queue == [] && Backlog(next) == Backlog(s) && InHand(next) == InHand(s)
  {
  }

  /** The part of the state that admission is about. */
  ghost predicate SameAdmission(s: State, next: State) {
    && next.mem == s.mem && next.tasks == s.tasks && next.disk == s.disk && next.hist.processed == s.hist.processed
    && next.queue == s.queue && Held(next.worker) == Held(s.worker)
    && !s.worker.Halted? && !next.worker.Halted?
  }

  lemma RecordLeavesAdmission(cfg: Setup, s: State)
    requires s.worker.Recording? || s.worker.Deciding?
    ensures StepRecord(cfg, s).Some? ==> SameAdmission(s, StepRecord(cfg, s).value)
  {
    RouteHolds(cfg, s.worker.item, s.worker.result);
    hide Route;
  }

  lemma ReconcileLeavesAdmission(cfg: Setup, s: State)
    requires s.worker.Reconciling?
    ensures StepReconcile(cfg, s).Some? ==> SameAdmission(s, StepReconcile(cfg, s).value)
  {
    hide StartSink, UpsertTarget, DisableMissing, ClearDisabled, SoftDisable;
    StartSinkHolds(cfg, s.worker.item, s.worker.result, 0);
  }

  lemma RowsLeaveAdmission(cfg: Setup, s: State)
    requires s.worker.AtSink? && s.worker.index < |SelectedSinks(cfg)|
    ensures StepRows(cfg, s).Some? ==> SameAdmission(s, StepRows(cfg, s).value)
  {
    if s.worker.stage.Matching? {
      hide StepRows;
      MatchingLeavesAdmission(cfg, s);
    } else {
      hide UpsertSource, UpsertMatch, UpsertTarget, UpsertDelivery, InsertEvent, InsertIdempotency, SelectedSinks;
      hide Destination, ReceptorAccepted, Key;
    }
  }

  lemma MatchingLeavesAdmission(cfg: Setup, s: State)
    requires s.worker.AtSink? && s.worker.index < |SelectedSinks(cfg)| && s.worker.stage.Matching?
    ensures StepRows(cfg, s).Some? ==> SameAdmission(s, StepRows(cfg, s).value)
  {
    hide UpsertMatch, UpsertTarget, SelectedSinks, Destination;
  }

  lemma SendLeavesAdmission(cfg: Setup, s: State)
    requires s.worker.AtSink? && s.worker.index < |SelectedSinks(cfg)|
    ensures StepSend(cfg, s).Some? ==> SameAdmission(s, StepSend(cfg, s).value)
  {
    if s.worker.stage.Ticketed? {
      hide StepSend;
      TicketedLeavesAdmission(cfg, s);
    } else if s.worker.stage.Confirm? {
      hide StepSend;
      ConfirmLeavesAdmission(cfg, s);
    } else {
      hide MarkStatus, DeliveredById, StartSink, SelectedSinks;
    }
  }

  lemma TicketedLeavesAdmission(cfg: Setup, s: State)
    requires s.worker.AtSink? && s.worker.index < |SelectedSinks(cfg)| && s.worker.stage.Ticketed?
    ensures StepSend(cfg, s).Some? ==> SameAdmission(s, StepSend(cfg, s).value)
  {
    hide MarkStatus, DeliveredById, StartSink, SelectedSinks;
    StartSinkHolds(cfg, s.worker.item, s.worker.result, s.worker.index + 1);
  }

  lemma ConfirmLeavesAdmission(cfg: Setup, s: State)
    requires s.worker.AtSink? && s.worker.index < |SelectedSinks(cfg)| && s.worker.stage.Confirm?
    ensures StepSend(cfg, s).Some? ==> SameAdmission(s, StepSend(cfg, s).value)
  {
    hide MarkStatus, DeliveredById, StartSink, SelectedSinks;
    StartSinkHolds(cfg, s.worker.item, s.worker.result, s.worker.index + 1);
  }

  lemma AdvanceLeavesAdmission(cfg: Setup, s: State)
    requires StepAdvance(cfg, s).Some? && !s.worker.Marking? && !s.worker.Flushing?
    ensures SameAdmission(s, StepAdvance(cfg, s).value)
  {
    hide StepRecord, StepReconcile, StepRows, StepSend, SameAdmission;
    if s.worker.Recording? || s.worker.Deciding? {
      RecordLeavesAdmission(cfg, s);
    } else if s.worker.Reconciling? {
      ReconcileLeavesAdmission(cfg, s);
    } else {
      RowsLeaveAdmission(cfg, s);
      SendLeavesAdmission(cfg, s);
    }
  }

  lemma StepKeepsAdmission(cfg: Setup, s: State, a: Action)
    requires AdmissionOk(cfg, s) && HeldIsOurs(cfg, s) && Next(cfg, s, a).Some?
    ensures AdmissionOk(cfg, Next(cfg, s, a).value)
  {
    hide AdmissionOk, StepArrive, StepOffer, StepBounce, StepManageStorm, StepMark, StepHalt, StepCrash, StepTake,
         StepAdvance, Route;
    match a
    case Arrive(item) => ArriveKeeps(cfg, s, item);
    case Offer(server) => OfferKeeps(cfg, s, server);
    case Bounce(server) => BounceKeeps(cfg, s, server);
    case Take => TakeKeeps(cfg, s);
    case Decide(result) =>
      RouteHolds(cfg, s.worker.item, result);
      ElsewhereKeeps(cfg, s, StepDecide(cfg, s, result).value);
    case Advance => AdvanceKeepsAdmission(cfg, s);
    case GatewayReply(ok) => ElsewhereKeeps(cfg, s, StepReply(cfg, s, ok).value);
    case ManageStorm(server, storm, windowStart) => ManageStormKeeps(cfg, s, server, storm, windowStart);
    case Halt =>
      HaltLeavesAdmission(cfg, s);
      ElsewhereKeeps(cfg, s, StepHalt(cfg, s).value);
    case Crash(now) => CrashKeeps(cfg, s, now);
  }

  lemma StartSinkHolds(cfg: Setup, item: Item, result: Attention.AttentionResult, i: nat)
    ensures Held(StartSink(cfg, item, result, i)) == Some(item) && !StartSink(cfg, item, result, i).Halted?
  {
  }

  lemma RouteHolds(cfg: Setup, item: Item, result: Attention.AttentionResult)
    ensures Held(Route(cfg, item, result)) == Some(item) && !Route(cfg, item, result).Halted?
  {
  }

  lemma AdvanceKeepsAdmission(cfg: Setup, s: State)
    requires AdmissionOk(cfg, s) && StepAdvance(cfg, s).Some?
    ensures AdmissionOk(cfg, StepAdvance(cfg, s).value)
  {
    hide AdmissionOk, StepMark;
    if s.worker.Marking? {
      MarkKeeps(cfg, s);
    } else if s.worker.Flushing? {
      FlushKeeps(cfg, s);
    } else {
      AdvanceLeavesAdmission(cfg, s);
      hide StepAdvance;
      ElsewhereKeeps(cfg, s, StepAdvance(cfg, s).value);
    }
  }
}
