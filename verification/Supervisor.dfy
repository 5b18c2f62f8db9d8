/** The wake worker as the object that does the work: it takes items, asks the attention layer of their server, calls
    the delivery store, sends and retries wakes, and marks messages processed. Every method is proved to follow the
    protocol. */
module Supervisor {
  import opened Attention
  import opened Delivery
  import opened GuardAgreement
  import opened Outcomes
  import opened Protocol
  import opened Receptors
  import opened Retry
  import opened Runtime
  import opened Storage
  import opened StoreCalls
  import StormGuard
  import opened Tables
  import opened WorkerInvariant
  import opened Wrappers

  /** What one attempt meets: whether the shutdown deadline had passed before it was sent, the reply if there is
      one, and whether the deadline had passed before the retry delay. The deadline exists only in a shutdown. */
  datatype Outcome = Outcome(expiredBefore: bool, reply: Option<bool>, expiredAfter: bool, draw: Draw)

  datatype Exit =
    | Finished
    | Returned(error: Option<string>)
    | Blocked                          // on the queue, or on a reply that is not known to come

  datatype Verdict = Sent | TryAgain | Unanswered | Expired

  // ----- Steps of one attempt -----

  ghost function Marked(db: Database, wake: Option<RowId>, status: Status): Database {
    if wake.Some? then MarkStatus(db, wake.value, status) else db
  }

  ghost predicate Waking(cfg: Setup, s: State) {
    s.worker.AtSink? && s.worker.index < |SelectedSinks(cfg)|
  }

  ghost function JobOf(cfg: Setup, s: State): Job
    requires Waking(cfg, s)
  {
    Job(s.worker.item.server, s.worker.item.id, SelectedSinks(cfg)[s.worker.index].key)
  }

  lemma AttemptFollows(cfg: Setup, s: State, wake: Option<RowId>)
    requires Waking(cfg, s) && s.worker.stage == Attempt(wake)
    ensures Follows(cfg, s, AtStage(s, Marked(s.db, wake, Attempted), Sending(wake)))
  {
    hide Follows, MarkStatus, SelectedSinks;
    AdvanceFollows(cfg, s, AtStage(s, Marked(s.db, wake, Attempted), Sending(wake)));
  }

  lemma SendingFollows(cfg: Setup, s: State, wake: Option<RowId>)
    requires Waking(cfg, s) && s.worker.stage == Sending(wake)
    ensures Follows(cfg, s, AtStage(s, s.db, Waiting(wake)).(
      hist := s.hist.(calls := s.hist.calls + multiset{JobOf(cfg, s)})))
  {
    hide Follows, SelectedSinks;
    AdvanceFollows(cfg, s, AtStage(s, s.db, Waiting(wake)).(
      hist := s.hist.(calls := s.hist.calls + multiset{JobOf(cfg, s)})));
  }

  /** An Ok reply, and the mark it leads to. */
  lemma AcceptedReplyFollows(cfg: Setup, s: State, wake: Option<RowId>)
    requires Waking(cfg, s) && s.worker.stage == Waiting(wake)
    ensures Follows(cfg, s, s.(
      db := Marked(s.db, wake, Delivered),
      worker := StartSink(cfg, s.worker.item, s.worker.result, s.worker.index + 1),
      hist := s.hist.(oks := s.hist.oks + multiset{JobOf(cfg, s)})))
  {
    hide Follows, SelectedSinks, StartSink, MarkStatus;
    var confirming := AtStage(s, s.db, Confirm(wake)).(hist := s.hist.(oks := s.hist.oks + multiset{JobOf(cfg, s)}));
    StepFollows(cfg, s, GatewayReply(true), confirming);
    var next := confirming.(db := Marked(s.db, wake, Delivered),
                            worker := StartSink(cfg, s.worker.item, s.worker.result, s.worker.index + 1));
    AdvanceFollows(cfg, confirming, next);
    FollowsThrough(cfg, s, confirming, next);
  }

  lemma RejectedReplyFollows(cfg: Setup, s: State, wake: Option<RowId>)
    requires Waking(cfg, s) && s.worker.stage == Waiting(wake)
    ensures Follows(cfg, s, AtStage(s, Marked(s.db, wake, Failed), Attempt(wake)))
  {
    hide Follows, SelectedSinks, MarkStatus;
    var rejecting := AtStage(s, s.db, Rejected(wake));
    StepFollows(cfg, s, GatewayReply(false), rejecting);
    AdvanceFollows(cfg, rejecting, AtStage(s, Marked(s.db, wake, Failed), Attempt(wake)));
    FollowsThrough(cfg, s, rejecting, AtStage(s, Marked(s.db, wake, Failed), Attempt(wake)));
  }

  /** What a ticket leads to: a database sink is marked, a delivered wake is skipped, any other is attempted. */
  ghost function AfterTicket(cfg: Setup, s: State): State
    requires Waking(cfg, s) && s.worker.stage.Ticketed?
  {
    var AtSink(item, result, i, stage) := s.worker;
    if SelectedSinks(cfg)[i].kind == Db then
      s.(db := MarkStatus(s.db, stage.ticket, Delivered), worker := StartSink(cfg, item, result, i + 1))
    else if DeliveredById(s.db, stage.ticket) then s.(worker := StartSink(cfg, item, result, i + 1))
    else AtStage(s, s.db, Attempt(Some(stage.ticket)))
  }

  lemma TicketFollows(cfg: Setup, s: State)
    requires Waking(cfg, s) && s.worker.stage.Ticketed?
    ensures Follows(cfg, s, AfterTicket(cfg, s))
  {
    hide Follows, SelectedSinks, MarkStatus, DeliveredById, StartSink;
    AdvanceFollows(cfg, s, AfterTicket(cfg, s));
  }

  lemma HaltFollows(cfg: Setup, s: State)
    requires !s.worker.Halted?
    ensures Follows(cfg, s, s.(worker := Halted, queue := [], hist := HaltedHistory(cfg, s)))
  {
    hide Follows, HaltedHistory;
    StepFollows(cfg, s, Halt, s.(worker := Halted, queue := [], hist := HaltedHistory(cfg, s)));
  }

  lemma TakeFollows(cfg: Setup, s: State)
    requires s.worker.Idle? && s.queue != []
    ensures Follows(cfg, s, s.(worker := Evaluating(s.queue[0]), queue := s.queue[1..]))
  {
    hide Follows;
    StepFollows(cfg, s, Take, s.(worker := Evaluating(s.queue[0]), queue := s.queue[1..]));
  }

  ghost function DecidedHistory(hist: History, item: Item, result: AttentionResult): History {
    if result.deliver then hist else hist.(refused := hist.refused + {(item.server, item.id)})
  }

  lemma DecideFollows(cfg: Setup, s: State, result: AttentionResult)
    requires s.worker.Evaluating? && WellFormed(result)
    ensures Follows(cfg, s, s.(
      worker := if HasStore(cfg) then Recording(s.worker.item, result) else Route(cfg, s.worker.item, result),
      hist := DecidedHistory(s.hist, s.worker.item, result)))
  {
    hide Follows, Route, WellFormed;
    StepFollows(cfg, s, Decide(result), StepDecide(cfg, s, result).value);
  }

  ghost function MarkedHistory(hist: History, item: Item): History
    requires item.server in hist.processed
  {
    hist.(processed := hist.processed[item.server := hist.processed[item.server] + [item.id]])
  }

  lemma MarkFollows(cfg: Setup, s: State)
    requires s.worker.Marking? && s.worker.item.server in s.mem && s.worker.item.server in s.hist.processed
    ensures var item := s.worker.item;
      var r := MarkProcessed(s.mem[item.server], item.id, item.stamp);
      Follows(cfg, s, s.(mem := s.mem[item.server := r], disk := s.disk[item.server := Flushed(r)],
                         hist := MarkedHistory(s.hist, item), worker := Idle))
  {
    hide Follows, MarkProcessed;
    var item := s.worker.item;
    var r := MarkProcessed(s.mem[item.server], item.id, item.stamp);
    var marked := s.(mem := s.mem[item.server := r], hist := MarkedHistory(s.hist, item), worker := Flushing(item));
    AdvanceFollows(cfg, s, marked);
    var flushed := marked.(disk := s.disk[item.server := Flushed(r)], worker := Idle);
    AdvanceFollows(cfg, marked, flushed);
    FollowsThrough(cfg, s, marked, flushed);
  }

  // ----- Retry delays -----

  /** The delay before the n-th retry, before jitter. */
  function Backoff(retry: RetryConfig, n: nat): U64 {
    if n == 0 then retry.baseMs else Min(SaturatingDouble(Backoff(retry, n - 1)), retry.maxMs)
  }

  /** The n-th delay is the base doubled n times, up to the maximum. */
  lemma {:induction false} BackoffClosedForm(retry: RetryConfig, n: nat)
    requires retry.baseMs <= retry.maxMs
    ensures Backoff(retry, n) == Min(retry.baseMs * StormGuard.Power(n), retry.maxMs)
  {
    if n > 0 {
      BackoffClosedForm(retry, n - 1);
      StormGuard.CappedDoubling(retry.baseMs * StormGuard.Power(n - 1), retry.maxMs);
      StormGuard.DoubleProduct(retry.baseMs, StormGuard.Power(n - 1));
    }
  }

  /** The delays are those of the doubling backoff, jittered by the draws of the attempts before them. */
  ghost predicate FollowsBackoff(retry: RetryConfig, delays: seq<U64>, attempts: seq<Outcome>) {
    && |delays| <= |attempts|
    && forall j :: 0 <= j < |delays| ==> delays[j] == Jitter(Backoff(retry, j), retry.jitterRatio, attempts[j].draw)
  }

  // ----- When a wake succeeds -----

  ghost predicate Retried(o: Outcome, shuttingDown: bool) {
    o.reply == Some(false) && !(shuttingDown && (o.expiredBefore || o.expiredAfter))
  }

  ghost predicate Through(o: Outcome, shuttingDown: bool) {
    o.reply == Some(true) && !(shuttingDown && o.expiredBefore)
  }

  ghost predicate AllRetried(outcomes: seq<Outcome>, shuttingDown: bool, n: nat)
    requires n <= |outcomes|
  {
    forall j :: 0 <= j < n ==> Retried(outcomes[j], shuttingDown)
  }

  /** The n-th attempt gets through, and every one before it was retried. */
  ghost predicate SucceedsAt(outcomes: seq<Outcome>, shuttingDown: bool, n: nat) {
    n < |outcomes| && Through(outcomes[n], shuttingDown) && AllRetried(outcomes, shuttingDown, n)
  }

  lemma FirstSuccess(outcomes: seq<Outcome>, shuttingDown: bool, n: nat)
    requires n < |outcomes| && AllRetried(outcomes, shuttingDown, n) && Through(outcomes[n], shuttingDown)
    ensures SucceedsAt(outcomes, shuttingDown, n)
  {
  }

  lemma NoSuccess(outcomes: seq<Outcome>, shuttingDown: bool, n: nat)
    requires n <= |outcomes| && AllRetried(outcomes, shuttingDown, n)
    requires n < |outcomes| ==> !Through(outcomes[n], shuttingDown) && !Retried(outcomes[n], shuttingDown)
    ensures forall k: nat :: !SucceedsAt(outcomes, shuttingDown, k)
  {
  }

  lemma NothingWaited(retry: RetryConfig, outcomes: seq<Outcome>, shuttingDown: bool)
    ensures FollowsBackoff(retry, [], outcomes) && AllRetried(outcomes, shuttingDown, 0)
  {
  }

  lemma OneMoreRetry(retry: RetryConfig, waits: seq<U64>, outcomes: seq<Outcome>, shuttingDown: bool, delay: U64)
    requires |waits| < |outcomes| && FollowsBackoff(retry, waits, outcomes)
    requires AllRetried(outcomes, shuttingDown, |waits|)
    requires Retried(outcomes[|waits|], shuttingDown)
    requires delay == Jitter(Backoff(retry, |waits|), retry.jitterRatio, outcomes[|waits|].draw)
    ensures FollowsBackoff(retry, waits + [delay], outcomes) && AllRetried(outcomes, shuttingDown, |waits| + 1)
  {
    hide Jitter;
  }

  // ----- When the worker returns -----

  ghost predicate BlankTarget(cfg: Setup) {
    exists sink <- cfg.sinks :: Blank(DefaultDestination(cfg, sink))
  }

  ghost predicate BlankDelivery(cfg: Setup, item: Item) {
    exists sink <- SelectedSinks(cfg) :: Blank(Destination(cfg, sink, item))
  }

  /** Some destination that delivering the item with a store needs is blank. */
  ghost predicate Undeliverable(cfg: Setup, item: Item) {
    HasStore(cfg) && (BlankTarget(cfg) || BlankDelivery(cfg, item))
  }

  lemma BlankTargetIs(cfg: Setup)
    ensures BlankTarget(cfg) <==> BeforeBlank(cfg.sinks, cfg.databasePath, cfg.wakeSession) < |cfg.sinks|
  {
    hide Blank, TargetDestination;
    var n := BeforeBlank(cfg.sinks, cfg.databasePath, cfg.wakeSession);
    if n < |cfg.sinks| {
      assert Blank(DefaultDestination(cfg, cfg.sinks[n]));
    }
  }

  // ----- The object -----

  /** The runtime stores of all servers and their files, against memory and disk of a protocol state. */
  ghost predicate StoresLinked(runtimes: map<ServerKey, RuntimeStore>, stores: set<RuntimeStore>, disks: set<DiskCell>,
                               mem: map<ServerKey, RuntimeState>, disk: map<ServerKey, RuntimeFile>)
    reads stores, disks
  {
    && (forall k <- runtimes :: runtimes[k] in stores && runtimes[k].disk in disks)
    && mem.Keys == runtimes.Keys
    && forall k <- runtimes :: runtimes[k].View() == mem[k] && runtimes[k].disk.file == StoredFile(disk, k)
  }

  ghost predicate Apart(runtimes: map<ServerKey, RuntimeStore>) {
    forall a, b :: a in runtimes && b in runtimes && a != b ==>
      runtimes[a] != runtimes[b] && runtimes[a].disk != runtimes[b].disk
  }

  /** The database, the queue and what was sent and answered are those of a protocol state. */
  ghost predicate Agree(cfg: Setup, db: Database, queue: seq<Item>, sent: seq<Job>, answered: seq<Job>, s: State) {
    && db == s.db
    && queue == s.queue
    && (forall item <- queue :: item.server in cfg.servers)
    && s.hist.processed.Keys == cfg.servers
    && multiset(sent) == s.hist.calls
    && multiset(answered) == s.hist.oks
  }

  /** Memory, disk and the processed ids are as they were. */
  ghost predicate SameStores(s: State, t: State) {
    t.mem == s.mem && t.disk == s.disk && t.hist.processed == s.hist.processed
  }

  lemma GoesOn(cfg: Setup, a: State, b: State, c: State)
    requires Follows(cfg, a, b) && SameStores(a, b) && Follows(cfg, b, c) && SameStores(b, c)
    ensures Follows(cfg, a, c) && SameStores(a, c)
  {
    FollowsThrough(cfg, a, b, c);
  }

  lemma StaysPut(cfg: Setup, s: State)
    ensures Follows(cfg, s, s) && SameStores(s, s)
  {
    FollowsItself(cfg, s);
  }

  lemma InterruptedKeepsSent(cfg: Setup, worker: Worker, hist: History)
    ensures var next := Interrupted(cfg, worker, hist);
      next.calls == hist.calls && next.oks == hist.oks && next.processed == hist.processed
  {
    hide SelectedSinks;
  }

  /** Every server has its attention layer, and each works or refuses. */
  ghost predicate AllLayersOk(cfg: Setup, layers: map<ServerKey, AttentionLayer>)
    reads layers.Values
  {
    layers.Keys == cfg.servers && forall k <- layers :: LayerOk(layers[k].View())
  }

  class WakeWorker {
    const cfg: Setup
    const retry: RetryConfig
    const store: DeliveryStore
    const layers: map<ServerKey, AttentionLayer>
    const score: Score
    const runtimes: map<ServerKey, RuntimeStore>
    const stores: set<RuntimeStore>
    const disks: set<DiskCell>
    var queue: seq<Item>
    var outcomes: seq<Outcome>
    var shuttingDown: bool
    var sent: seq<Job>
    var answered: seq<Job>
    var waits: seq<U64>                // the delays between the attempts at the last wake
    ghost var m: State

    ghost predicate Fixed()
      reads layers.Values
    {
      && store.databasePath == cfg.databasePath
      && runtimes.Keys == cfg.servers
      && Apart(runtimes)
      && AllLayersOk(cfg, layers)
    }

    ghost predicate Outside()
      reads `queue, `sent, `answered, `m, store
    {
      Agree(cfg, store.View(), queue, sent, answered, m)
    }

    /** A worker for a process life that starts in a state of the protocol; `sent` and `answered` list what was
        sent and answered before. */
    constructor (cfg: Setup, retry: RetryConfig, store: DeliveryStore, layers: map<ServerKey, AttentionLayer>,
                 score: Score,
                 runtimes: map<ServerKey, RuntimeStore>, stores: set<RuntimeStore>, disks: set<DiskCell>,
                 queue: seq<Item>, outcomes: seq<Outcome>,
                 sent: seq<Job>, answered: seq<Job>, ghost s: State)
      requires store.databasePath == cfg.databasePath && runtimes.Keys == cfg.servers && Apart(runtimes)
      requires AllLayersOk(cfg, layers)
      requires store.View() == s.db && queue == s.queue && StoresLinked(runtimes, stores, disks, s.mem, s.disk)
      requires forall item <- queue :: item.server in cfg.servers
      requires s.hist.processed.Keys == cfg.servers
      requires multiset(sent) == s.hist.calls && multiset(answered) == s.hist.oks
      ensures Fixed() && Outside() && StoresLinked(runtimes, stores, disks, m.mem, m.disk)
      ensures m == s && !shuttingDown
      ensures this.cfg == cfg && this.retry == retry && this.store == store && this.layers == layers
      ensures this.runtimes == runtimes && this.stores == stores && this.disks == disks
      ensures this.queue == queue && this.outcomes == outcomes && this.sent == sent && this.answered == answered
    {
      hide StoresLinked, Apart, AllLayersOk;
      this.cfg, this.retry, this.store, this.layers := cfg, retry, store, layers;
      this.score, this.runtimes := score, runtimes;
      this.stores, this.disks := stores, disks;
      this.queue, this.outcomes, this.sent, this.answered := queue, outcomes, sent, answered;
      shuttingDown, waits, m := false, [], s;
    }

    /** The worker returns, and with it its end of the queue. */
    method Stop()
      requires Outside() && !m.worker.Halted?
      modifies `queue, `m
      ensures Outside() && Follows(cfg, old(m), m) && SameStores(old(m), m)
      ensures m.worker == Halted
    {
      hide Follows, Interrupted;
      HaltFollows(cfg, m);
      InterruptedKeepsSent(cfg, m.worker, m.hist);
      queue := [];
      m := m.(worker := Halted, queue := [], hist := HaltedHistory(cfg, m));
    }

    method MarkAttempted(item: Item, ghost result: AttentionResult, i: nat, wake: Option<RowId>)
      requires Outside() && i < |SelectedSinks(cfg)| && m.worker == AtSink(item, result, i, Attempt(wake))
      modifies store, `m
      ensures Outside() && Follows(cfg, old(m), m) && SameStores(old(m), m)
      ensures m.worker == AtSink(item, result, i, Sending(wake))
    {
      hide Follows, SelectedSinks, MarkStatus;
      if wake.Some? {
        store.MarkDeliveryAttempted(wake.value);
      }
      AttemptFollows(cfg, m, wake);
      m := AtStage(m, Marked(m.db, wake, Attempted), Sending(wake));
    }

    method Send(item: Item, ghost result: AttentionResult, i: nat, sink: SinkKey, wake: Option<RowId>)
      requires Outside() && i < |SelectedSinks(cfg)| && sink == SelectedSinks(cfg)[i].key
      requires m.worker == AtSink(item, result, i, Sending(wake))
      modifies `sent, `m
      ensures Outside() && Follows(cfg, old(m), m) && SameStores(old(m), m)
      ensures m.worker == AtSink(item, result, i, Waiting(wake))
      ensures sent == old(sent) + [Job(item.server, item.id, sink)]
    {
      hide Follows, SelectedSinks;
      SendingFollows(cfg, m, wake);
      sent := sent + [Job(item.server, item.id, sink)];
      m := AtStage(m, m.db, Waiting(wake)).(hist := m.hist.(calls := m.hist.calls + multiset{JobOf(cfg, m)}));
    }

    /** One attempt at one wake: mark it attempted, send, and mark what came of it. */
    method AttemptOnce(item: Item, ghost result: AttentionResult, i: nat, sink: SinkKey, wake: Option<RowId>,
                       outcome: Outcome)
      returns (verdict: Verdict)
      requires Outside() && i < |SelectedSinks(cfg)| && sink == SelectedSinks(cfg)[i].key
      requires m.worker == AtSink(item, result, i, Attempt(wake))
      modifies store, `sent, `answered, `m
      ensures Outside() && Follows(cfg, old(m), m) && SameStores(old(m), m)
      ensures verdict == Sent <==> Through(outcome, shuttingDown)
      ensures verdict == Expired <==> shuttingDown && outcome.expiredBefore
      ensures verdict == TryAgain ==> outcome.reply == Some(false)
      ensures verdict == Unanswered ==> outcome.reply.None?
      ensures verdict == Sent ==> m.worker == StartSink(cfg, item, result, i + 1)
      ensures verdict == TryAgain ==> m.worker == AtSink(item, result, i, Attempt(wake))
      ensures verdict == Unanswered ==> m.worker == AtSink(item, result, i, Waiting(wake))
      ensures verdict == Expired ==> m.worker == AtSink(item, result, i, Sending(wake))
    {
      hide Follows, StartSink, SelectedSinks, Outside;
      ghost var start := m;
      MarkAttempted(item, result, i, wake);
      if shuttingDown && outcome.expiredBefore {
        return Expired;
      }
      ghost var sending := m;
      Send(item, result, i, sink, wake);
      FollowsThrough(cfg, start, sending, m);
      if outcome.reply.None? {
        return Unanswered;
      }
      ghost var waiting := m;
      verdict := Answered(item, result, i, sink, wake, outcome.reply.value);
      FollowsThrough(cfg, start, waiting, m);
    }

    method Answered(item: Item, ghost result: AttentionResult, i: nat, sink: SinkKey, wake: Option<RowId>, ok: bool)
      returns (verdict: Verdict)
      requires Outside() && i < |SelectedSinks(cfg)| && sink == SelectedSinks(cfg)[i].key
      requires m.worker == AtSink(item, result, i, Waiting(wake))
      modifies store, `answered, `m
      ensures Outside() && Follows(cfg, old(m), m) && SameStores(old(m), m)
      ensures verdict == if ok then Sent else TryAgain
      ensures ok ==> m.worker == StartSink(cfg, item, result, i + 1)
      ensures !ok ==> m.worker == AtSink(item, result, i, Attempt(wake))
    {
      hide Follows, StartSink, SelectedSinks, MarkStatus;
      if ok {
        answered := answered + [Job(item.server, item.id, sink)];
        if wake.Some? {
          store.MarkDeliveryDelivered(wake.value);
        }
        AcceptedReplyFollows(cfg, m, wake);
        m := m.(db := Marked(m.db, wake, Delivered), worker := StartSink(cfg, item, result, i + 1),
                hist := m.hist.(oks := m.hist.oks + multiset{JobOf(cfg, m)}));
        return Sent;
      }
      if wake.Some? {
        store.MarkDeliveryFailed(wake.value);
      }
      RejectedReplyFollows(cfg, m, wake);
      m := AtStage(m, Marked(m.db, wake, Status.Failed), Attempt(wake));
      return TryAgain;
    }

    /** The wake is attempted until it is answered Ok, after delays that double up to the maximum; it succeeds
        exactly when some attempt gets through after attempts that were all retried. */
    method SendUntilAnswered(item: Item, ghost result: AttentionResult, i: nat, sink: SinkKey, wake: Option<RowId>)
      returns (exit: Exit)
      requires Outside() && i < |SelectedSinks(cfg)| && sink == SelectedSinks(cfg)[i].key
      requires m.worker == AtSink(item, result, i, Attempt(wake))
      modifies store, `queue, `sent, `answered, `waits, `outcomes, `m
      ensures Outside() && Follows(cfg, old(m), m) && SameStores(old(m), m)
      ensures exit.Finished? ==> queue == old(queue) && m.worker == StartSink(cfg, item, result, i + 1)
      ensures exit.Returned? ==> shuttingDown && m.worker == Halted
      ensures exit.Blocked? ==> m.worker.AtSink?
      ensures exit.Finished? ==> SucceedsAt(old(outcomes), shuttingDown, |waits|)
      ensures !exit.Finished? ==> forall n: nat :: !SucceedsAt(old(outcomes), shuttingDown, n)
      ensures FollowsBackoff(retry, waits, old(outcomes)) && AllRetried(old(outcomes), shuttingDown, |waits|)
      ensures exit.Returned? <==> !exit.Finished? && shuttingDown && |waits| < |old(outcomes)|
    {
      hide Follows, StartSink, SelectedSinks, Outside, Jitter, FollowsBackoff, AllRetried, SucceedsAt, SameStores;
      assert FollowsBackoff(retry, [], outcomes) && AllRetried(outcomes, shuttingDown, 0) by {
        NothingWaited(retry, outcomes, shuttingDown);
      }
      StaysPut(cfg, m);
      var backoff := retry.baseMs;
      waits := [];
      while true
        invariant Outside() && Follows(cfg, old(m), m) && SameStores(old(m), m)
        invariant queue == old(queue) && m.worker == AtSink(item, result, i, Attempt(wake))
        invariant |waits| <= |old(outcomes)| && outcomes == old(outcomes)[|waits|..]
        invariant backoff == Backoff(retry, |waits|)
        invariant FollowsBackoff(retry, waits, old(outcomes)) && AllRetried(old(outcomes), shuttingDown, |waits|)
        decreases |outcomes|
      {
        if outcomes == [] {
          NoSuccess(old(outcomes), shuttingDown, |waits|);
          return Blocked;
        }
        var outcome := outcomes[0];
        outcomes := outcomes[1..];
        ghost var before := m;
        var verdict := AttemptOnce(item, result, i, sink, wake, outcome);
        GoesOn(cfg, old(m), before, m);
        if verdict == Sent {
          FirstSuccess(old(outcomes), shuttingDown, |waits|);
          return Finished;
        }
        var delay := Jitter(backoff, retry.jitterRatio, outcome.draw);
        if verdict == Expired || (shuttingDown && (verdict == Unanswered || outcome.expiredAfter)) {
          NoSuccess(old(outcomes), shuttingDown, |waits|);
          before := m;
          Stop();
          GoesOn(cfg, old(m), before, m);
          return Returned(None);
        }
        if verdict == Unanswered {
          NoSuccess(old(outcomes), shuttingDown, |waits|);
          return Blocked;
        }
        OneMoreRetry(retry, waits, old(outcomes), shuttingDown, delay);
        waits := waits + [delay];
        backoff := Min(SaturatingDouble(backoff), retry.maxMs);
      }
    }

    // ----- One sink -----

    /** Queueing failed: the event and its matches may be there, and the worker returns. */
    method FailQueueing(item: Item, result: AttentionResult, i: nat, error: string) returns (exit: Exit)
      requires i < |SelectedSinks(cfg)| && m.worker == AtSink(item, result, i, Guard) && ReceptorAccepted(result)
      requires store.View() == CanonicalEvent(m.db, item.server, item.id, result)
      requires queue == m.queue && m.hist.processed.Keys == cfg.servers
      requires multiset(sent) == m.hist.calls && multiset(answered) == m.hist.oks
      modifies `queue, `m
      ensures Outside() && Follows(cfg, old(m), m) && SameStores(old(m), m)
      ensures exit == Returned(Some(error)) && m.worker == Halted
    {
      hide Follows, CanonicalEvent, EventFor, ReceptorAccepted, SelectedSinks;
      CanonicalEventFollows(cfg, m);
      ghost var start := m;
      m := AtStage(m, store.View(), Matching(EventFor(m.db, item.server, item.id), |result.matches|));
      ghost var failed := m;
      queue := [];
      HaltFollows(cfg, m);
      InterruptedKeepsSent(cfg, m.worker, m.hist);
      m := m.(worker := Halted, queue := [], hist := HaltedHistory(cfg, m));
      FollowsThrough(cfg, start, failed, m);
      exit := Returned(Some(error));
    }

    method DeliverToDb(item: Item, result: AttentionResult, sink: SinkConfig) returns (exit: Exit)
      requires Fixed() && Outside() && ReceptorAccepted(result)
      requires SelectedSinks(cfg) != [] && sink == SelectedSinks(cfg)[0] && sink.kind == Db
      requires m.worker == AtSink(item, result, 0, Guard)
      modifies store, `queue, `m
      ensures Outside() && Follows(cfg, old(m), m) && SameStores(old(m), m)
      ensures exit.Finished? ==> queue == old(queue) && m.worker == StartSink(cfg, item, result, 1)
      ensures exit.Returned? ==> m.worker == Halted
      ensures !exit.Blocked? && (exit.Returned? <==> Blank(Destination(cfg, sink, item)))
    {
      hide Follows, CanonicalEvent, EventFor, WithDelivery, DeliveryId, MarkStatus, SelectedSinks, StartSink, Blank,
           ReceptorAccepted, AllLayersOk;
      var event := store.RecordDbSinkDelivery(item.server, item.id, result, sink);
      if event.Err? {
        exit := FailQueueing(item, result, 0, event.error);
        return;
      }
      ghost var start := m;
      QueueCallFollows(cfg, m);
      m := TicketedState(cfg, m, DeliveryId(QueuedRows(cfg, m), event.value, sink.key).value);
      TicketFollows(cfg, m);
      ghost var ticketed := m;
      m := AfterTicket(cfg, m);
      FollowsThrough(cfg, start, ticketed, m);
      exit := Finished;
    }

    /** Queue a wake; without a row to send for, it failed or was already delivered. */
    method QueueWake(item: Item, result: AttentionResult, i: nat, sink: SinkConfig)
      returns (exit: Exit, wake: Option<RowId>)
      requires Fixed() && Outside() && ReceptorAccepted(result)
      requires i < |SelectedSinks(cfg)| && sink == SelectedSinks(cfg)[i] && sink.kind == AgentSessionWake
      requires m.worker == AtSink(item, result, i, Guard)
      modifies store, `queue, `m
      ensures Outside() && Follows(cfg, old(m), m) && SameStores(old(m), m)
      ensures !exit.Blocked? && (exit.Returned? ==> m.worker == Halted)
      ensures exit.Returned? <==> Blank(Destination(cfg, sink, item))
      ensures exit.Finished? ==> queue == old(queue)
      ensures exit.Finished? && wake.None? ==> m.worker == StartSink(cfg, item, result, i + 1)
      ensures exit.Finished? && wake.Some? ==> m.worker == AtSink(item, result, i, Attempt(wake))
    {
      hide Follows, SelectedSinks, Blank, ReceptorAccepted, AllLayersOk, Destination,
        CanonicalEvent, EventFor, WithDelivery, DeliveryId, MarkStatus, DeliveredById, StartSink;
      var session := Destination(cfg, sink, item);
      var ticket := store.QueueWakeSinkDelivery(item.server, item.id, result, sink.key, session);
      if ticket.Err? {
        exit := FailQueueing(item, result, i, ticket.error);
        return exit, None;
      }
      ghost var start := m;
      QueueCallFollows(cfg, m);
      m := TicketedState(cfg, m, ticket.value.delivery);
      TicketFollows(cfg, m);
      ghost var ticketed := m;
      m := AfterTicket(cfg, m);
      FollowsThrough(cfg, start, ticketed, m);
      return Finished, if ticket.value.alreadyDelivered then None else Some(ticket.value.delivery);
    }

    method DeliverWake(item: Item, result: AttentionResult, i: nat, sink: SinkConfig) returns (exit: Exit)
      requires Fixed() && Outside() && ReceptorAccepted(result)
      requires i < |SelectedSinks(cfg)| && sink == SelectedSinks(cfg)[i] && sink.kind == AgentSessionWake
      requires m.worker == StartSink(cfg, item, result, i)
      modifies store, `queue, `sent, `answered, `waits, `outcomes, `m
      ensures Outside() && Follows(cfg, old(m), m) && SameStores(old(m), m)
      ensures exit.Finished? ==> queue == old(queue) && m.worker == StartSink(cfg, item, result, i + 1)
      ensures exit.Returned? ==> m.worker == Halted
      ensures exit.Blocked? ==> m.worker.AtSink?
      ensures exit.Returned? ==> shuttingDown || (HasStore(cfg) && Blank(Destination(cfg, sink, item)))
      ensures exit.Finished? && HasStore(cfg) ==> !Blank(Destination(cfg, sink, item))
    {
      hide Follows, SelectedSinks, ReceptorAccepted, AllLayersOk, Outside, FollowsBackoff, AllRetried, Blank,
           Destination;
      if !HasStore(cfg) {
        exit := SendUntilAnswered(item, result, i, sink.key, None);
        return;
      }
      ghost var start := m;
      var wake;
      exit, wake := QueueWake(item, result, i, sink);
      if exit.Finished? && wake.Some? {
        hide StartSink;
        ghost var attempting := m;
        exit := SendUntilAnswered(item, result, i, sink.key, wake);
        FollowsThrough(cfg, start, attempting, m);
      }
    }

    /** The database sink, then the wake sinks one after another. */
    method DeliverAll(item: Item, result: AttentionResult) returns (exit: Exit)
      requires Fixed() && Outside() && ReceptorAccepted(result)
      requires m.worker == StartSink(cfg, item, result, 0)
      modifies store, `queue, `sent, `answered, `waits, `outcomes, `m
      ensures Outside() && Follows(cfg, old(m), m) && SameStores(old(m), m)
      ensures exit.Finished? ==> queue == old(queue) && m.worker == Marking(item)
      ensures exit.Returned? ==> m.worker == Halted
      ensures exit.Blocked? ==> m.worker.AtSink?
      ensures exit.Returned? ==> shuttingDown || (HasStore(cfg) && BlankDelivery(cfg, item))
      ensures exit.Finished? && HasStore(cfg) ==> !BlankDelivery(cfg, item)
    {
      hide Follows, ReceptorAccepted, AllLayersOk, Outside, Blank, Destination;
      ghost var start := m;
      var databases, wakes := FirstDbSink(cfg.sinks), WakeSinks(cfg.sinks);
      DbSinkIsEnabled(cfg.sinks);
      WakeSinksAreEnabled(cfg.sinks);
      SelectedInOrder(cfg);
      hide FirstDbSink, WakeSinks, SelectedSinks;
      FollowsItself(cfg, m);
      if databases != [] {
        exit := DeliverToDb(item, result, databases[0]);
        if !exit.Finished? {
          return;
        }
      }
      hide StartSink;
      for k := 0 to |wakes|
        invariant Outside() && Follows(cfg, start, m) && SameStores(start, m)
        invariant queue == old(queue) && m.worker == StartSink(cfg, item, result, |databases| + k)
        invariant HasStore(cfg) ==>
          forall sink <- databases + wakes[..k] :: !Blank(Destination(cfg, sink, item))
      {
        assert wakes[..k + 1] == wakes[..k] + [wakes[k]];
        ghost var before := m;
        exit := DeliverWake(item, result, |databases| + k, wakes[k]);
        FollowsThrough(cfg, start, before, m);
        if !exit.Finished? {
          return;
        }
      }
      AfterTheLastSink(cfg, item, result);
      assert databases + wakes[..|wakes|] == SelectedSinks(cfg);
      exit := Finished;
    }

    // ----- One message -----

    /** The message leaves the pending ids for the recent ones, and the runtime file is written. */
    method UpdateRuntime(item: Item, ghost mem: map<ServerKey, RuntimeState>, ghost disk: map<ServerKey, RuntimeFile>)
      requires Apart(runtimes) && item.server in runtimes && StoresLinked(runtimes, stores, disks, mem, disk)
      modifies stores, disks
      ensures var r := MarkProcessed(mem[item.server], item.id, item.stamp);
        StoresLinked(runtimes, stores, disks, mem[item.server := r], disk[item.server := Flushed(r)])
    {
      hide MarkProcessed;
      var runtime := runtimes[item.server];
      runtime.Process(item.id, item.stamp);
      runtime.Flush();
      ghost var r := MarkProcessed(mem[item.server], item.id, item.stamp);
      forall k | k in runtimes
        ensures runtimes[k].View() == mem[item.server := r][k]
        ensures runtimes[k].disk.file == StoredFile(disk[item.server := Flushed(r)], k)
      {
        if k != item.server {
          assert runtimes[k] != runtime && runtimes[k].disk != runtime.disk;
        }
      }
    }

    ghost method NoteMark(item: Item)
      requires Outside() && m.worker == Marking(item) && item.server in m.mem && item.server in cfg.servers
      modifies `m
      ensures Outside() && Follows(cfg, old(m), m) && m.worker.Idle? && m.queue == old(m.queue)
      ensures var r := MarkProcessed(old(m).mem[item.server], item.id, item.stamp);
        m.mem == old(m).mem[item.server := r] && m.disk == old(m).disk[item.server := Flushed(r)]
    {
      hide Follows, MarkProcessed;
      MarkFollows(cfg, m);
      var r, start := MarkProcessed(m.mem[item.server], item.id, item.stamp), m;
      m := m.(mem := m.mem[item.server := r], disk := m.disk[item.server := Flushed(r)],
              hist := MarkedHistory(m.hist, item), worker := Idle);
      assert m.hist.processed.Keys == start.hist.processed.Keys;
    }

    method MarkDone(item: Item)
      requires Fixed() && Outside() && StoresLinked(runtimes, stores, disks, m.mem, m.disk)
      requires m.worker == Marking(item) && item.server in cfg.servers
      modifies stores, disks, `m
      ensures Outside() && StoresLinked(runtimes, stores, disks, m.mem, m.disk)
      ensures Follows(cfg, old(m), m) && m.worker.Idle?
    {
      hide AllLayersOk;
      assert item.server in m.mem && Apart(runtimes) && item.server in runtimes;
      hide Follows, MarkProcessed, Fixed, Apart, Agree, StoresLinked;
      UpdateRuntime(item, m.mem, m.disk);
      NoteMark(item);
    }

    method Reconcile(item: Item, result: AttentionResult) returns (exit: Exit)
      requires Fixed() && Outside() && m.worker == Reconciling(item, result, 0, false)
      modifies store, `queue, `m
      ensures Outside() && Follows(cfg, old(m), m) && SameStores(old(m), m)
      ensures exit.Finished? ==> queue == old(queue) && m.worker == StartSink(cfg, item, result, 0)
      ensures exit.Returned? ==> m.worker == Halted
      ensures !exit.Blocked? && (exit.Returned? <==> BlankTarget(cfg))
    {
      BlankTargetIs(cfg);
      hide Follows, ReconcileSinks, DisableMissing, StartSink, AllLayersOk, BlankTarget;
      ghost var start := m;
      var done := store.ReconcileSinkTargets(cfg.sinks, cfg.wakeSession);
      if done.Err? {
        ghost var n := BeforeBlank(cfg.sinks, cfg.databasePath, cfg.wakeSession);
        ReconcilingFollows(cfg, m, n);
        m := ReconciledUpTo(cfg, m, n);
        ghost var failed := m;
        Stop();
        FollowsThrough(cfg, start, failed, m);
        return Returned(Some(done.error));
      }
      ReconcileCallFollows(cfg, m);
      m := m.(db := DisableMissing(ReconcileSinks(m.db, cfg.sinks, cfg.databasePath, cfg.wakeSession), cfg.sinks),
              worker := StartSink(cfg, item, result, 0));
      return Finished;
    }

    method Record(item: Item, result: AttentionResult)
      requires Outside() && HasStore(cfg) && m.worker == Recording(item, result)
      modifies store, `m
      ensures Outside() && Follows(cfg, old(m), m) && SameStores(old(m), m) && m.queue == old(m.queue)
      ensures m.worker == Route(cfg, item, result)
    {
      hide Follows, Route, WithDecision;
      DecisionCallFollows(cfg, m);
      store.RecordAttentionDecision(item.server, item.id, result);
      m := m.(db := WithDecision(m.db, item.server, item.id, result), worker := Route(cfg, item, result),
              hist := Recorded(m.hist, item, result));
    }

    method Take() returns (item: Item)
      requires Outside() && queue != [] && m.worker.Idle?
      modifies `queue, `m
      ensures Outside() && Follows(cfg, old(m), m) && SameStores(old(m), m)
      ensures item == old(queue)[0] && queue == old(queue)[1..] && item.server in cfg.servers
      ensures m.worker == Evaluating(item)
    {
      hide Follows;
      item := queue[0];
      queue := queue[1..];
      TakeFollows(cfg, m);
      m := m.(worker := Evaluating(item), queue := m.queue[1..]);
    }

    method Decide(item: Item) returns (result: AttentionResult)
      requires Fixed() && Outside() && m.worker == Evaluating(item) && item.server in cfg.servers
      modifies `m
      ensures Outside() && Follows(cfg, old(m), m) && SameStores(old(m), m)
      ensures item.server in layers
      ensures result == Evaluate(layers[item.server].View(),
                                 if item.embeddings == [] then None else Some(item.embeddings), score)
      ensures WellFormed(result)
      ensures HasStore(cfg) ==> m.worker == Recording(item, result)
      ensures !HasStore(cfg) ==> m.worker == Route(cfg, item, result)
    {
      hide Follows, LayerOk, WellFormed, Route;
      var supplied := if item.embeddings == [] then None else Some(item.embeddings);
      result := layers[item.server].EvaluateWithEmbeddings(supplied, score);
      LayerOkIsWellFormed(layers[item.server].View(), supplied, score);
      DecideFollows(cfg, m, result);
      m := m.(worker := if HasStore(cfg) then Recording(item, result) else Route(cfg, item, result),
              hist := DecidedHistory(m.hist, item, result));
    }

    /** The next item is evaluated, its decision recorded when there is a store. */
    method TakeAndDecide() returns (item: Item, result: AttentionResult)
      requires Fixed() && Outside() && queue != [] && m.worker.Idle?
      modifies store, `queue, `m
      ensures Outside() && Follows(cfg, old(m), m) && SameStores(old(m), m)
      ensures item == old(queue)[0] && queue == old(queue)[1..] && item.server in cfg.servers
      ensures item.server in layers
      ensures result == Evaluate(layers[item.server].View(),
                                 if item.embeddings == [] then None else Some(item.embeddings), score)
      ensures m.worker == Route(cfg, item, result) && WellFormed(result)
    {
      hide Follows, Fixed, WellFormed, Route;
      ghost var start := m;
      item := Take();
      ghost var taken := m;
      result := Decide(item);
      FollowsThrough(cfg, start, taken, m);
      if HasStore(cfg) {
        ghost var decided := m;
        Record(item, result);
        FollowsThrough(cfg, start, decided, m);
      }
    }

    /** From the decision to the mark: nothing to deliver, or targets reconciled and every sink served. */
    method Deliver(item: Item, result: AttentionResult) returns (exit: Exit)
      requires Fixed() && Outside() && m.worker == Route(cfg, item, result) && WellFormed(result)
      modifies store, `queue, `sent, `answered, `waits, `outcomes, `m
      ensures Outside() && Follows(cfg, old(m), m) && SameStores(old(m), m)
      ensures exit.Finished? ==> queue == old(queue) && m.worker == Marking(item)
      ensures exit.Returned? ==> m.worker == Halted
      ensures exit.Blocked? ==> m.worker.AtSink?
      ensures !result.deliver || !AnyEnabled(cfg) ==> exit.Finished? && m == old(m)
      ensures exit.Returned? ==> shuttingDown || Undeliverable(cfg, item)
      ensures exit.Finished? && result.deliver ==> !(AnyEnabled(cfg) && Undeliverable(cfg, item))
    {
      hide Follows, Outside, Fixed, BlankTarget, BlankDelivery;
      FollowsItself(cfg, m);
      if !result.deliver || !AnyEnabled(cfg) {
        return Finished;
      }
      assert ReceptorAccepted(result);
      hide ReceptorAccepted, WellFormed, StartSink;
      ghost var start := m;
      if HasStore(cfg) {
        exit := Reconcile(item, result);
        if exit.Returned? {
          return;
        }
      }
      ghost var reconciled := m;
      exit := DeliverAll(item, result);
      FollowsThrough(cfg, start, reconciled, m);
    }

    method TakeAndDeliver() returns (item: Item, exit: Exit)
      requires Fixed() && Outside() && queue != [] && m.worker.Idle?
      modifies store, `queue, `sent, `answered, `waits, `outcomes, `m
      ensures Outside() && Follows(cfg, old(m), m) && SameStores(old(m), m)
      ensures exit.Finished? ==> m.worker == Marking(item) && item.server in cfg.servers && |queue| < |old(queue)|
      ensures exit.Returned? ==> m.worker == Halted
      ensures exit.Blocked? ==> m.worker.AtSink?
      ensures exit.Returned? ==> shuttingDown || Undeliverable(cfg, item)
      ensures item == old(queue)[0] && (exit.Finished? ==> queue == old(queue)[1..])
    {
      hide Follows, Outside, Fixed, Undeliverable, Route, WellFormed, Evaluate, ReceptorAccepted, AllLayersOk;
      ghost var start := m;
      var result;
      item, result := TakeAndDecide();
      ghost var routed := m;
      exit := Deliver(item, result);
      FollowsThrough(cfg, start, routed, m);
    }

    /** One message, from the queue to the runtime file. */
    method ProcessNext() returns (exit: Exit)
      requires Fixed() && Outside() && StoresLinked(runtimes, stores, disks, m.mem, m.disk)
      requires queue != [] && m.worker.Idle?
      modifies store, `queue, `sent, `answered, `waits, `outcomes, `m, stores, disks
      ensures Outside() && StoresLinked(runtimes, stores, disks, m.mem, m.disk)
      ensures Follows(cfg, old(m), m)
      ensures exit.Finished? ==> m.worker.Idle? && |queue| < |old(queue)|
      ensures exit.Returned? ==> m.worker == Halted
      ensures exit.Blocked? ==> m.worker.AtSink?
      ensures exit.Finished? ==> queue == old(queue)[1..]
      ensures exit.Returned? ==> shuttingDown || Undeliverable(cfg, old(queue)[0])
    {
      hide Follows, Outside, Fixed, StoresLinked, Undeliverable;
      ghost var start := m;
      var item;
      item, exit := TakeAndDeliver();
      if exit.Finished? {
        ghost var delivered := m;
        MarkDone(item);
        FollowsThrough(cfg, start, delivered, m);
      }
    }

    /** The worker loop. The shutdown signal, if it comes, is seen before the item numbered `stopAfter` is taken;
        the queue is then drained. From a state the system can reach, whatever the gateway says: what was
        delivered stays delivered and is not sent again, Ok replies to a message and sink exceed one only by
        lost marks, and every recent id is justified. */
    method ProcessWakeQueue(stopAfter: Option<nat>) returns (exit: Exit)
      requires Fixed() && Outside() && StoresLinked(runtimes, stores, disks, m.mem, m.disk)
      requires m.worker.Idle? && Reachable(cfg, m)
      modifies store, `queue, `sent, `answered, `waits, `outcomes, `shuttingDown, `m, stores, disks
      ensures Outside() && StoresLinked(runtimes, stores, disks, m.mem, m.disk)
      ensures Reachable(cfg, m) && Follows(cfg, old(m), m)
      ensures exit.Returned? ==> m.worker == Halted
      ensures exit.Returned? ==> shuttingDown || exists item <- old(queue) :: Undeliverable(cfg, item)
      ensures exit.Blocked? ==> (m.worker.Idle? && queue == [] && !shuttingDown) || m.worker.AtSink?
      ensures shuttingDown ==> old(shuttingDown) || stopAfter.Some?
      ensures !exit.Finished?
      ensures HasStore(cfg) ==> forall job :: Settled(old(store.View()), old(sent), store.View(), sent, job)
      ensures HasStore(cfg) ==> forall job :: multiset(answered)[job] <= 1 + m.hist.lost[job]
      ensures forall k, id :: k in runtimes && id in runtimes[k].seen ==> Justified(cfg, store.View(), m.hist, k, id)
    {
      ghost var start := m;
      exit := Work(stopAfter);
      FollowedIsReachable(cfg, start, m);
      FollowedKeepsSettled(cfg, start, old(sent), m, sent);
      RepliesAreBounded(cfg, m);
      forall k, id | k in runtimes && id in runtimes[k].seen ensures Justified(cfg, store.View(), m.hist, k, id) {
        assert runtimes[k].View() == m.mem[k];
        ProcessedIsJustified(cfg, m, k, id);
      }
    }

    method Work(stopAfter: Option<nat>) returns (exit: Exit)
      requires Fixed() && Outside() && StoresLinked(runtimes, stores, disks, m.mem, m.disk)
      requires m.worker.Idle?
      modifies store, `queue, `sent, `answered, `waits, `outcomes, `shuttingDown, `m, stores, disks
      ensures Outside() && StoresLinked(runtimes, stores, disks, m.mem, m.disk)
      ensures Follows(cfg, old(m), m)
      ensures exit.Returned? ==> m.worker == Halted
      ensures exit.Returned? ==> shuttingDown || exists item <- old(queue) :: Undeliverable(cfg, item)
      ensures exit.Blocked? ==> (m.worker.Idle? && queue == [] && !shuttingDown) || m.worker.AtSink?
      ensures shuttingDown ==> old(shuttingDown) || stopAfter.Some?
      ensures !exit.Finished?
    {
      hide Follows, Outside, Fixed, StoresLinked, Undeliverable;
      ghost var start := m;
      FollowsItself(cfg, m);
      var taken := 0;
      while true
        invariant Outside() && StoresLinked(runtimes, stores, disks, m.mem, m.disk)
        invariant Follows(cfg, start, m) && m.worker.Idle?
        invariant forall item <- queue :: item in old(queue)
        invariant shuttingDown ==> old(shuttingDown) || stopAfter.Some?
        decreases |queue|, if shuttingDown then 0 else 1
      {
        if !shuttingDown && stopAfter == Some(taken) {
          shuttingDown := true;
          continue;
        }
        ghost var before := m;
        if queue == [] {
          if shuttingDown {
            Stop();
            FollowsThrough(cfg, start, before, m);
            return Returned(None);
          }
          return Blocked;
        }
        exit := ProcessNext();
        FollowsThrough(cfg, start, before, m);
        if !exit.Finished? {
          return;
        }
        taken := taken + 1;
      }
    }
  }

  /** What was delivered is still delivered, and nothing more was sent for it. */
  ghost predicate Settled(was: Database, wasSent: seq<Job>, db: Database, sent: seq<Job>, job: Job) {
    IsDelivered(was, job.server, job.id, job.sink) ==>
      IsDelivered(db, job.server, job.id, job.sink) && multiset(sent)[job] == multiset(wasSent)[job]
  }

  lemma FollowedIsReachable(cfg: Setup, s: State, t: State)
    requires Reachable(cfg, s) && Follows(cfg, s, t)
    ensures Reachable(cfg, t)
  {
    hide Leads, Initial;
    var now: int, actions :| Leads(cfg, Initial(cfg, now), actions, s);
    assert Follows(cfg, Initial(cfg, now), s);
    FollowsThrough(cfg, Initial(cfg, now), s, t);
  }

  lemma FollowedKeepsSettled(cfg: Setup, s: State, wasSent: seq<Job>, t: State, sent: seq<Job>)
    requires Reachable(cfg, s) && Follows(cfg, s, t)
    requires multiset(wasSent) == s.hist.calls && multiset(sent) == t.hist.calls
    ensures HasStore(cfg) ==> forall job :: Settled(s.db, wasSent, t.db, sent, job)
  {
    hide Leads, Reachable, IsDelivered;
    var actions :| Leads(cfg, s, actions, t);
    if HasStore(cfg) {
      forall job ensures Settled(s.db, wasSent, t.db, sent, job) {
        if IsDelivered(s.db, job.server, job.id, job.sink) {
          DeliveredIsFinal(cfg, s, actions, t, job);
        }
      }
    }
  }

  lemma RepliesAreBounded(cfg: Setup, s: State)
    requires Reachable(cfg, s)
    ensures HasStore(cfg) ==> forall job :: s.hist.oks[job] <= 1 + s.hist.lost[job]
  {
    hide Reachable, IsDelivered;
    if HasStore(cfg) {
      forall job ensures s.hist.oks[job] <= 1 + s.hist.lost[job] {
        OkRepliesAreBounded(cfg, s, job);
      }
    }
  }

  lemma SelectedInOrder(cfg: Setup)
    ensures SelectedSinks(cfg) == FirstDbSink(cfg.sinks) + WakeSinks(cfg.sinks)
    ensures |FirstDbSink(cfg.sinks)| <= 1
  {
    AtMostOneDbSink(cfg.sinks);
  }

  lemma {:induction false} AtMostOneDbSink(sinks: seq<SinkConfig>)
    ensures |FirstDbSink(sinks)| <= 1
  {
    if sinks != [] {
      AtMostOneDbSink(sinks[1..]);
    }
  }

  lemma AfterTheLastSink(cfg: Setup, item: Item, result: AttentionResult)
    ensures StartSink(cfg, item, result, |SelectedSinks(cfg)|) == Marking(item)
  {
  }
}
