/** The inbound arm of a server connection: filtering a frame, asking for admission, offering it to the wake queue
    and undoing the admission when the queue refuses it. */
module Inbound {
  import opened Attention
  import opened DedupeWindow
  import opened Protocol
  import opened Runtime
  import opened Storage
  import opened StoreCalls
  import opened Wrappers

  datatype Frame = Frame(author: string, id: MessageId, stamp: Stamp, embeddings: seq<Embedding>)

  datatype Receipt =
    | Skipped                    // own message, malformed, or not admitted
    | Enqueued
    | Refused                    // the queue is full or closed; the connection ends

  /** The sending half of the bounded wake queue. */
  class WakeQueue {
    const capacity: nat
    var items: seq<Item>
    var open: bool

    constructor (capacity: nat)
      ensures this.capacity == capacity && items == [] && open
    {
      this.capacity := capacity;
      items, open := [], true;
    }

    method TrySend(item: Item) returns (taken: bool)
      modifies `items
      ensures taken <==> open && |old(items)| < capacity
      ensures items == if taken then old(items) + [item] else old(items)
    {
      taken := open && |items| < capacity;
      if taken {
        items := items + [item];
      }
    }
  }

  class Connection {
    const server: ServerKey
    const agent: string
    const wakeOverride: Option<string>
    const runtime: RuntimeStore
    const queue: WakeQueue

    constructor (server: ServerKey, agent: string, wakeOverride: Option<string>, runtime: RuntimeStore,
                 queue: WakeQueue)
      ensures this.server == server && this.agent == agent && this.wakeOverride == wakeOverride
      ensures this.runtime == runtime && this.queue == queue
    {
      this.server, this.agent, this.wakeOverride, this.runtime, this.queue := server, agent, wakeOverride, runtime,
        queue;
    }

    /** A frame ends in the queue and among the pending ids, or nowhere: a refused one leaves the store as it was,
        so that a replay of it is judged the same again. */
    method Receive(frame: Frame) returns (receipt: Receipt)
      modifies runtime, queue
      ensures receipt.Skipped? <==>
        || frame.author == agent || frame.id == "" || frame.stamp.text == ""
        || !Accepts(old(runtime.View()), frame.id, frame.stamp)
      ensures receipt.Enqueued? <==> !receipt.Skipped? && queue.open && |old(queue.items)| < queue.capacity
      ensures receipt.Enqueued? ==>
        && runtime.View() == ShouldEnqueue(old(runtime.View()), frame.id, frame.stamp)
        && queue.items == old(queue.items) + [Item(server, frame.id, frame.stamp, frame.embeddings, wakeOverride)]
      ensures !receipt.Enqueued? ==> runtime.View() == old(runtime.View()) && queue.items == old(queue.items)
      ensures queue.open == old(queue.open)
    {
      if frame.author == agent || frame.id == "" || frame.stamp.text == "" {
        return Skipped;
      }
      ghost var before := runtime.View();
      var admitted := runtime.ShouldAccept(frame.id, frame.stamp);
      if !admitted {
        return Skipped;
      }
      var taken := queue.TrySend(Item(server, frame.id, frame.stamp, frame.embeddings, wakeOverride));
      if taken {
        return Enqueued;
      }
      runtime.Fail(frame.id);
      BouncedIdIsAcceptedAgain(before, frame.id, frame.stamp);
      return Refused;
    }
  }

  // ----- In the protocol -----

  /** What one frame does to the state when nothing comes between its steps. */
  function Received(cfg: Setup, s: State, item: Item): State
    requires item.server in s.mem
  {
    if Accepts(s.mem[item.server], item.id, item.stamp) && !s.worker.Halted? && |s.queue| < cfg.capacity then
      s.(mem := s.mem[item.server := ShouldEnqueue(s.mem[item.server], item.id, item.stamp)], queue := s.queue + [item])
    else s
  }

  /** A frame received without interruption is a run of the protocol: arrival, offer, and the bounce of a refusal. */
  lemma ReceiptFollows(cfg: Setup, s: State, item: Item)
    requires item.server in s.mem && item.server in s.tasks && s.tasks[item.server].Listening?
    ensures Follows(cfg, s, Received(cfg, s, item))
  {
    hide Follows, MarkFailed, ShouldEnqueue, Accepts;
    var r, server := s.mem[item.server], item.server;
    if !Accepts(r, item.id, item.stamp) {
      StepFollows(cfg, s, Arrive(item), s);
    } else {
      var admitted := ShouldEnqueue(r, item.id, item.stamp);
      var arrived := s.(mem := s.mem[server := admitted], tasks := s.tasks[server := Offering(item)]);
      StepFollows(cfg, s, Arrive(item), arrived);
      BackToListening(s.tasks, server, Offering(item));
      if !s.worker.Halted? && |s.queue| < cfg.capacity {
        var queued := arrived.(tasks := s.tasks, queue := s.queue + [item]);
        StepFollows(cfg, arrived, Offer(server), queued);
        FollowsThrough(cfg, s, arrived, queued);
      } else {
        RefusedFollows(cfg, s, item, arrived);
        FollowsThrough(cfg, s, arrived, s);
      }
    }
  }

  lemma BackToListening(tasks: map<ServerKey, Task>, server: ServerKey, task: Task)
    requires server in tasks && tasks[server].Listening?
    ensures tasks[server := task][server := Listening] == tasks
  {
  }

  lemma RefusedFollows(cfg: Setup, s: State, item: Item, arrived: State)
    requires item.server in s.mem && item.server in s.tasks && s.tasks[item.server].Listening?
    requires Accepts(s.mem[item.server], item.id, item.stamp)
    requires s.worker.Halted? || |s.queue| >= cfg.capacity
    requires arrived == s.(mem := s.mem[item.server := ShouldEnqueue(s.mem[item.server], item.id, item.stamp)],
                           tasks := s.tasks[item.server := Offering(item)])
    ensures Follows(cfg, arrived, s)
  {
    hide Follows;
    var r, server := s.mem[item.server], item.server;
    BouncedIdIsAcceptedAgain(r, item.id, item.stamp);
    hide Accepts, ShouldEnqueue, MarkFailed;
    BackToListening(s.tasks, server, Bounced(item));
    var bounced := arrived.(tasks := s.tasks[server := Bounced(item)]);
    assert arrived.tasks[server := Bounced(item)] == bounced.tasks;
    StepFollows(cfg, arrived, Offer(server), bounced);
    assert bounced.mem[server := r] == s.mem;
    StepFollows(cfg, bounced, Bounce(server), s);
    FollowsThrough(cfg, arrived, bounced, s);
  }
}
