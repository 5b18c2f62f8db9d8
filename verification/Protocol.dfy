/** The inbound delivery protocol as a step system: server tasks, the bounded wake queue, the one worker, the
    runtime files and the database.

    Every SQL statement, every gateway call and reply, and every update of shared memory is a step of its own,
    so that a halt or a crash may fall between any two of them. Configuration is fixed through restarts. */
module Protocol {
  import opened Attention
  import opened Receptors
  import opened Runtime
  import opened Storage
  import opened Wrappers

  datatype Setup = Setup(
    sinks: seq<SinkConfig>,
    servers: set<ServerKey>,
    capacity: nat,
    windowSize: nat,
    floor: Option<Stamp>,
    wakeSession: string,
    databasePath: string)

  datatype Item = Item(server: ServerKey, id: MessageId, stamp: Stamp, embeddings: seq<Embedding>,
                       wakeOverride: Option<string>)

  /** One delivery obligation: a message and a sink. */
  datatype Job = Job(server: ServerKey, id: MessageId, sink: SinkKey)

  // ----- Sinks -----

  /** The database is used at all only when some database sink is enabled. */
  predicate HasStore(cfg: Setup) {
    exists sink <- cfg.sinks :: sink.enabled && sink.kind == Db
  }

  predicate AnyEnabled(cfg: Setup) {
    exists sink <- cfg.sinks :: sink.enabled
  }

  function FirstDbSink(sinks: seq<SinkConfig>): seq<SinkConfig> {
    if sinks == [] then []
    else if sinks[0].enabled && sinks[0].kind == Db then [sinks[0]]
    else FirstDbSink(sinks[1..])
  }

  function WakeSinks(sinks: seq<SinkConfig>): seq<SinkConfig> {
    if sinks == [] then []
    else (if sinks[0].enabled && sinks[0].kind == AgentSessionWake then [sinks[0]] else []) + WakeSinks(sinks[1..])
  }

  /** The first enabled database sink, then every enabled wake sink. */
  function SelectedSinks(cfg: Setup): seq<SinkConfig> {
    FirstDbSink(cfg.sinks) + WakeSinks(cfg.sinks)
  }

  function DefaultDestination(cfg: Setup, sink: SinkConfig): string {
    TargetDestination(sink, cfg.databasePath, cfg.wakeSession)
  }

  function Destination(cfg: Setup, sink: SinkConfig, item: Item): string {
    if sink.destination.None? && sink.kind == AgentSessionWake && item.wakeOverride.Some? then item.wakeOverride.value
    else DefaultDestination(cfg, sink)
  }

  // ----- States -----

  /** Where the worker is inside the work for one sink. `ticket` is the delivery row, absent without a store. */
  datatype Stage =
    | Guard
    | Source
    | Lookup
    | Inserted(event: RowId)
    | Matching(event: RowId, done: nat)
    | Targeted(event: RowId)
    | Ticketed(event: RowId, ticket: RowId)
    | Attempt(wake: Option<RowId>)
    | Sending(wake: Option<RowId>)
    | Waiting(wake: Option<RowId>)
    | Confirm(wake: Option<RowId>)
    | Rejected(wake: Option<RowId>)

  datatype Worker =
    | Idle
    | Halted
    | Evaluating(item: Item)
    | Recording(item: Item, result: AttentionResult)
    | Deciding(item: Item, result: AttentionResult)
    | Reconciling(item: Item, result: AttentionResult, index: nat, upserted: bool)
    | AtSink(item: Item, result: AttentionResult, index: nat, stage: Stage)
    | Marking(item: Item)
    | Flushing(item: Item)

  /** A server task between its steps on one frame. */
  datatype Task =
    | Listening
    | Offering(item: Item)
    | Bounced(item: Item)

  /** What a worker that halts leaves behind: the queue its receiver had, and the item in its hands. */
  datatype Leftover = Leftover(queue: seq<Item>, held: Option<Item>)

  /** What happened so far, for stating properties; no step depends on it. */
  datatype History = History(
    calls: multiset<Job>,               // chat requests issued
    oks: multiset<Job>,                 // Ok replies observed
    lost: multiset<Job>,                // stops between an Ok reply and its mark
    refused: set<(ServerKey, MessageId)>,
    orphans: multiset<(ServerKey, MessageId)>,  // stops between an event and its idempotency row
    cut: map<RowId, seq<ReceptorMatch>>,  // what a stop let a rewrite of an event's matches write
    decided: map<(ServerKey, MessageId), AttentionResult>,  // the last decision recorded for a message
    left: Leftover,                       // by the worker of this process life, once it halted
    processed: map<ServerKey, seq<MessageId>>)   // in this process life, after the ids loaded

  datatype State = State(
    mem: map<ServerKey, RuntimeState>,
    tasks: map<ServerKey, Task>,
    queue: seq<Item>,
    worker: Worker,
    db: Database,
    disk: map<ServerKey, RuntimeFile>,
    hist: History)

  datatype Action =
    | Arrive(item: Item)
    | Offer(server: ServerKey)
    | Bounce(server: ServerKey)
    | Take
    | Decide(result: AttentionResult)
    | Advance
    | GatewayReply(ok: bool)
    | ManageStorm(server: ServerKey, storm: StormState, windowStart: Option<int>)
    | Halt
    | Crash(now: int)

  // ----- Server tasks -----

  function StoredFile(disk: map<ServerKey, RuntimeFile>, server: ServerKey): Option<RuntimeFile> {
    if server in disk then Some(disk[server]) else None
  }

  /** A frame passes the filters of the connection and asks the runtime store for admission. */
  function StepArrive(cfg: Setup, s: State, item: Item): Option<State> {
    if item.server !in s.mem || item.server !in s.tasks || s.tasks[item.server] != Listening then None
    else if !Accepts(s.mem[item.server], item.id, item.stamp) then Some(s)
    else Some(s.(mem := s.mem[item.server := ShouldEnqueue(s.mem[item.server], item.id, item.stamp)],
                 tasks := s.tasks[item.server := Offering(item)]))
  }

  /** `try_send`: the queue takes the item unless it is full or its receiver is gone. */
  function StepOffer(cfg: Setup, s: State, server: ServerKey): Option<State> {
    if server !in s.tasks || !s.tasks[server].Offering? then None
    else
      var item := s.tasks[server].item;
      if s.worker.Halted? || |s.queue| >= cfg.capacity then Some(s.(tasks := s.tasks[server := Bounced(item)]))
      else Some(s.(tasks := s.tasks[server := Listening], queue := s.queue + [item]))
  }

  function StepBounce(s: State, server: ServerKey): Option<State> {
    if server !in s.mem || server !in s.tasks || !s.tasks[server].Bounced? then None
    else Some(s.(tasks := s.tasks[server := Listening],
                 mem := s.mem[server := MarkFailed(s.mem[server], s.tasks[server].item.id)]))
  }

  /** The manager updates the storm guard and flushes. */
  function StepManageStorm(s: State, server: ServerKey, storm: StormState, windowStart: Option<int>): Option<State> {
    if server !in s.mem then None
    else
      var r := s.mem[server].(storm := storm, windowStart := windowStart);
      Some(s.(mem := s.mem[server := r], disk := s.disk[server := Flushed(r)]))
  }

  // ----- The worker -----

  ghost predicate WellFormed(result: AttentionResult) {
    && (result.deliver <==> ReceptorAccepted(result))
    && forall i, j :: 0 <= i < j < |result.matches| ==>
         KeyOfMatch(0, result.matches[i]) != KeyOfMatch(0, result.matches[j])
  }

  function StartSink(cfg: Setup, item: Item, result: AttentionResult, index: nat): Worker {
    if index < |SelectedSinks(cfg)| then AtSink(item, result, index, if HasStore(cfg) then Guard else Attempt(None))
    else Marking(item)
  }

  function Route(cfg: Setup, item: Item, result: AttentionResult): Worker {
    if !result.deliver || !AnyEnabled(cfg) then Marking(item)
    else if HasStore(cfg) then Reconciling(item, result, 0, false)
    else StartSink(cfg, item, result, 0)
  }

  function StepTake(s: State): Option<State> {
    if !s.worker.Idle? || s.queue == [] then None
    else Some(s.(worker := Evaluating(s.queue[0]), queue := s.queue[1..]))
  }

  function StepDecide(cfg: Setup, s: State, result: AttentionResult): Option<State> {
    if !s.worker.Evaluating? then None
    else
      var item := s.worker.item;
      Some(s.(worker := if HasStore(cfg) then Recording(item, result) else Route(cfg, item, result),
              hist := if result.deliver then s.hist
                      else s.hist.(refused := s.hist.refused + {(item.server, item.id)})))
  }

  function Recorded(hist: History, item: Item, result: AttentionResult): History {
    hist.(decided := hist.decided[(item.server, item.id) := result])
  }

  function StepRecord(cfg: Setup, s: State): Option<State>
    requires s.worker.Recording? || s.worker.Deciding?
  {
    var item, result := s.worker.item, s.worker.result;
    if s.worker.Recording? then Some(s.(db := UpsertSource(s.db, item.server), worker := Deciding(item, result)))
    else if item.server !in s.db.sources then None
    else Some(s.(db := UpsertDecision(s.db, s.db.sources[item.server], item.id, result),
                 worker := Route(cfg, item, result),
                 hist := Recorded(s.hist, item, result)))
  }

  /** One statement of the reconciliation: insert or update a target, set its flag, or disable the unknown ones.
      A blank destination stops the worker instead. */
  function StepReconcile(cfg: Setup, s: State): Option<State>
    requires s.worker.Reconciling?
  {
    var Reconciling(item, result, k, upserted) := s.worker;
    if k >= |cfg.sinks| then
      Some(s.(db := DisableMissing(s.db, cfg.sinks), worker := StartSink(cfg, item, result, 0)))
    else
      var sink := cfg.sinks[k];
      if !upserted then
        if Blank(DefaultDestination(cfg, sink)) then None
        else Some(s.(db := UpsertTarget(s.db, sink.key, sink.kind, DefaultDestination(cfg, sink)),
                     worker := Reconciling(item, result, k, true)))
      else if sink.key !in s.db.targets then None
      else
        var id := s.db.targets[sink.key].id;
        Some(s.(db := if sink.enabled then ClearDisabled(s.db, id)
                      else SoftDisable(s.db, id, "sink disabled in config"),
                worker := Reconciling(item, result, k + 1, false)))
  }

  /** The statements of `upsert_canonical_event`, `upsert_sink_target` and `upsert_sink_delivery`. */
  function StepRows(cfg: Setup, s: State): Option<State>
    requires s.worker.AtSink? && s.worker.index < |SelectedSinks(cfg)|
  {
    var AtSink(item, result, i, stage) := s.worker;
    var sink := SelectedSinks(cfg)[i];
    match stage
    case Guard =>
      if ReceptorAccepted(result) then Some(s.(worker := AtSink(item, result, i, Source))) else None
    case Source =>
      Some(s.(db := UpsertSource(s.db, item.server), worker := AtSink(item, result, i, Lookup)))
    case Lookup =>
      if item.server !in s.db.sources then None
      else
        var key := Key(s.db, item.server, item.id);
        if key in s.db.idempotency then
          Some(s.(worker := AtSink(item, result, i, Matching(s.db.idempotency[key], 0))))
        else
          Some(s.(db := InsertEvent(s.db, s.db.sources[item.server], item.id),
                  worker := AtSink(item, result, i, Inserted(s.db.nextId))))
    case Inserted(event) =>
      if item.server !in s.db.sources then None
      else Some(s.(db := InsertIdempotency(s.db, Key(s.db, item.server, item.id), event),
                   worker := AtSink(item, result, i, Matching(event, 0))))
    case Matching(event, done) =>
      if done < |result.matches| then
        Some(s.(db := UpsertMatch(s.db, event, result.matches[done]),
                worker := AtSink(item, result, i, Matching(event, done + 1))))
      else if Blank(Destination(cfg, sink, item)) then None
      else Some(s.(db := UpsertTarget(s.db, sink.key, sink.kind, Destination(cfg, sink, item)),
                   worker := AtSink(item, result, i, Targeted(event)),
                   hist := s.hist.(cut := s.hist.cut - {event})))
    case Targeted(event) =>
      if sink.key !in s.db.targets then None
      else
        var target := s.db.targets[sink.key].id;
        var db := UpsertDelivery(s.db, event, target);
        var ticket := db.deliveries[DeliveryKey(event, target)].id;
        Some(s.(db := db, worker := AtSink(item, result, i, Ticketed(event, ticket))))
    case _ => None
  }

  /** From the ticket on: a database sink is marked at once; a wake sink is sent, retried and marked. */
  function StepSend(cfg: Setup, s: State): Option<State>
    requires s.worker.AtSink? && s.worker.index < |SelectedSinks(cfg)|
  {
    var AtSink(item, result, i, stage) := s.worker;
    var sink := SelectedSinks(cfg)[i];
    match stage
    case Ticketed(event, ticket) =>
      if sink.kind == Db then
        Some(s.(db := MarkStatus(s.db, ticket, Delivered), worker := StartSink(cfg, item, result, i + 1)))
      else if DeliveredById(s.db, ticket) then Some(s.(worker := StartSink(cfg, item, result, i + 1)))
      else Some(s.(worker := AtSink(item, result, i, Attempt(Some(ticket)))))
    case Attempt(wake) =>
      Some(s.(db := if wake.Some? then MarkStatus(s.db, wake.value, Attempted) else s.db,
              worker := AtSink(item, result, i, Sending(wake))))
    case Sending(wake) =>
      Some(s.(worker := AtSink(item, result, i, Waiting(wake)),
              hist := s.hist.(calls := s.hist.calls + multiset{Job(item.server, item.id, sink.key)})))
    case Confirm(wake) =>
      Some(s.(db := if wake.Some? then MarkStatus(s.db, wake.value, Delivered) else s.db,
              worker := StartSink(cfg, item, result, i + 1)))
    case Rejected(wake) =>
      Some(s.(db := if wake.Some? then MarkStatus(s.db, wake.value, Failed) else s.db,
              worker := AtSink(item, result, i, Attempt(wake))))
    case _ => None
  }

  function StepReply(cfg: Setup, s: State, ok: bool): Option<State> {
    if !s.worker.AtSink? || s.worker.index >= |SelectedSinks(cfg)| || !s.worker.stage.Waiting? then None
    else
      var AtSink(item, result, i, stage) := s.worker;
      var job := Job(item.server, item.id, SelectedSinks(cfg)[i].key);
      Some(s.(worker := AtSink(item, result, i, if ok then Confirm(stage.wake) else Rejected(stage.wake)),
              hist := if ok then s.hist.(oks := s.hist.oks + multiset{job}) else s.hist))
  }

  /** Mark the message processed in memory, then flush the runtime file. */
  function StepMark(s: State): Option<State>
    requires s.worker.Marking? || s.worker.Flushing?
  {
    var item := s.worker.item;
    if item.server !in s.mem || item.server !in s.hist.processed then None
    else if s.worker.Marking? then
      Some(s.(mem := s.mem[item.server := MarkProcessed(s.mem[item.server], item.id, item.stamp)],
              worker := Flushing(item),
              hist := s.hist.(processed := s.hist.processed[item.server := s.hist.processed[item.server] + [item.id]])))
    else
      Some(s.(disk := s.disk[item.server := Flushed(s.mem[item.server])], worker := Idle))
  }

  function StepAdvance(cfg: Setup, s: State): Option<State> {
    match s.worker
    case Recording(_, _) => StepRecord(cfg, s)
    case Deciding(_, _) => StepRecord(cfg, s)
    case Reconciling(_, _, _, _) => StepReconcile(cfg, s)
    case AtSink(_, _, i, stage) =>
      if i >= |SelectedSinks(cfg)| then None
      else if stage.Guard? || stage.Source? || stage.Lookup? || stage.Inserted? || stage.Matching?
        || stage.Targeted? then
        StepRows(cfg, s)
      else StepSend(cfg, s)
    case Marking(_) => StepMark(s)
    case Flushing(_) => StepMark(s)
    case _ => None
  }

  // ----- Stops -----

  /** What a stop in the middle of a step sequence leaves behind. */
  function Interrupted(cfg: Setup, worker: Worker, hist: History): History {
    if !worker.AtSink? || worker.index >= |SelectedSinks(cfg)| then hist
    else
      var AtSink(item, result, i, stage) := worker;
      var job := Job(item.server, item.id, SelectedSinks(cfg)[i].key);
      match stage
      case Inserted(_) => hist.(orphans := hist.orphans + multiset{(item.server, item.id)})
      case Matching(event, done) =>
        if 0 < done <= |result.matches| then hist.(cut := hist.cut[event := result.matches[..done]]) else hist
      case Confirm(_) => hist.(lost := hist.lost + multiset{job})
      case _ => hist
  }

  /** The item the worker holds, until it is marked processed. */
  function Held(worker: Worker): Option<Item> {
    match worker
    case Evaluating(item) => Some(item)
    case Recording(item, _) => Some(item)
    case Deciding(item, _) => Some(item)
    case Reconciling(item, _, _, _) => Some(item)
    case AtSink(item, _, _, _) => Some(item)
    case Marking(item) => Some(item)
    case _ => None
  }

  function HaltedHistory(cfg: Setup, s: State): History {
    Interrupted(cfg, s.worker, s.hist).(left := Leftover(s.queue, Held(s.worker)))
  }

  /** The worker returns: on shutdown, or on any error of the database or the runtime file. Its receiver closes. */
  function StepHalt(cfg: Setup, s: State): Option<State> {
    if s.worker.Halted? then None
    else Some(s.(worker := Halted, queue := [], hist := HaltedHistory(cfg, s)))
  }

  function Reloaded(cfg: Setup, disk: map<ServerKey, RuntimeFile>, now: int): map<ServerKey, RuntimeState> {
    map server | server in cfg.servers :: Loaded(StoredFile(disk, server), cfg.windowSize, cfg.floor, now)
  }

  function Orders(mem: map<ServerKey, RuntimeState>): map<ServerKey, seq<MessageId>> {
    map server | server in mem :: mem[server].order
  }

  /** The process dies and starts again: memory is what the files hold, the database is as the last statement
      left it. */
  function StepCrash(cfg: Setup, s: State, now: int): State {
    var mem := Reloaded(cfg, s.disk, now);
    State(mem, map server | server in cfg.servers :: Listening, [], Idle, s.db, s.disk,
          Interrupted(cfg, s.worker, s.hist).(left := Leftover([], None), processed := Orders(mem)))
  }

  // ----- Runs -----

  function Initial(cfg: Setup, now: int): State {
    var mem := Reloaded(cfg, map[], now);
    State(mem, map server | server in cfg.servers :: Listening, [], Idle, EMPTY, map[],
          History(multiset{}, multiset{}, multiset{}, {}, multiset{}, map[], map[], Leftover([], None), Orders(mem)))
  }

  function Next(cfg: Setup, s: State, a: Action): Option<State> {
    match a
    case Arrive(item) => StepArrive(cfg, s, item)
    case Offer(server) => StepOffer(cfg, s, server)
    case Bounce(server) => StepBounce(s, server)
    case Take => StepTake(s)
    case Decide(result) => StepDecide(cfg, s, result)
    case Advance => StepAdvance(cfg, s)
    case GatewayReply(ok) => StepReply(cfg, s, ok)
    case ManageStorm(server, storm, windowStart) => StepManageStorm(s, server, storm, windowStart)
    case Halt => StepHalt(cfg, s)
    case Crash(now) => Some(StepCrash(cfg, s, now))
  }

  /** Any interleaving of steps; nothing when some step is not possible where it stands. */
  function Run(cfg: Setup, s: State, actions: seq<Action>): Option<State>
    decreases |actions|
  {
    if actions == [] then Some(s)
    else
      var before := Run(cfg, s, actions[..|actions| - 1]);
      if before.None? then None else Next(cfg, before.value, actions[|actions| - 1])
  }

  /** Attention results come from the evaluator. */
  ghost predicate FromEvaluator(actions: seq<Action>) {
    forall a <- actions :: a.Decide? ==> WellFormed(a.result)
  }
}
