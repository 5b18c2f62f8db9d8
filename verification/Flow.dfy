/** What moves through the system: the items of the queue in their order, and what the history says of each step. */
module Flow {
  import opened Accounting
  import Attention
  import opened Decisions
  import opened Delivery
  import opened Frames
  import opened Protocol
  import RowContents
  import opened Runtime
  import opened Storage
  import opened WorkerInvariant
  import opened Wrappers

  // ----- First in, first out -----

  /** The item an action puts in the queue: the one its server offers, when the worker runs and there is room. */
  ghost function QueuedBy(cfg: Setup, s: State, a: Action): seq<Item> {
    if a.Offer? && a.server in s.tasks && s.tasks[a.server].Offering? && !s.worker.Halted? && |s.queue| < cfg.capacity
    then [s.tasks[a.server].item]
    else []
  }

  /** The item an action puts in the hands of the worker. */
  ghost function TakenBy(cfg: Setup, s: State, a: Action): seq<Item> {
    if a.Take? && Next(cfg, s, a).Some? && Next(cfg, s, a).value.worker.Evaluating? then
      [Next(cfg, s, a).value.worker.item]
    else []
  }

  ghost function AllQueued(cfg: Setup, s: State, actions: seq<Action>): seq<Item>
    decreases |actions|
  {
    if actions == [] || Run(cfg, s, actions[..|actions| - 1]).None? then []
    else
      AllQueued(cfg, s, actions[..|actions| - 1])
      + QueuedBy(cfg, Run(cfg, s, actions[..|actions| - 1]).value, actions[|actions| - 1])
  }

  ghost function AllTaken(cfg: Setup, s: State, actions: seq<Action>): seq<Item>
    decreases |actions|
  {
    if actions == [] || Run(cfg, s, actions[..|actions| - 1]).None? then []
    else
      AllTaken(cfg, s, actions[..|actions| - 1])
      + TakenBy(cfg, Run(cfg, s, actions[..|actions| - 1]).value, actions[|actions| - 1])
  }

  lemma StepIsInOrder(cfg: Setup, s: State, a: Action)
    requires Next(cfg, s, a).Some? && !a.Halt? && !a.Crash?
    ensures s.queue + QueuedBy(cfg, s, a) == TakenBy(cfg, s, a) + Next(cfg, s, a).value.queue
  {
    if a.Advance? {
      RowContents.AdvanceLeavesQueue(cfg, s);
    }
    hide StepAdvance, Route, SelectedSinks;
  }

  /** Between stops the worker takes items in the order in which they were put in the queue, and takes all of them:
      what was queued at first and since is what was taken and then what is queued now. */
  lemma {:induction false} FirstInFirstOut(cfg: Setup, s: State, actions: seq<Action>, t: State)
    requires Leads(cfg, s, actions, t) && forall a <- actions :: !a.Halt? && !a.Crash?
    ensures s.queue + AllQueued(cfg, s, actions) == AllTaken(cfg, s, actions) + t.queue
    decreases |actions|
  {
    hide Next, QueuedBy, TakenBy;
    if actions != [] {
      LastStep(cfg, s, actions, t);
      var front, last := actions[..|actions| - 1], actions[|actions| - 1];
      var before := Run(cfg, s, front).value;
      assert last in actions && forall a <- front :: a in actions;
      hide Leads, Run;
      FirstInFirstOut(cfg, s, front, before);
      StepIsInOrder(cfg, before, last);
      InOrderOn(s.queue, AllQueued(cfg, s, front), AllTaken(cfg, s, front), before.queue,
                QueuedBy(cfg, before, last), TakenBy(cfg, before, last), t.queue);
    }
  }

  lemma InOrderOn<T>(start: seq<T>, queued: seq<T>, taken: seq<T>, before: seq<T>, into: seq<T>, out: seq<T>,
                     after: seq<T>)
    requires start + queued == taken + before && before + into == out + after
    ensures start + (queued + into) == (taken + out) + after
  {
    assert start + (queued + into) == (start + queued) + into;
    assert (taken + before) + into == taken + (before + into);
    assert taken + (out + after) == (taken + out) + after;
  }

  // ----- The history of one step -----

  ghost function JobInHand(cfg: Setup, worker: Worker): Job
    requires worker.AtSink? && worker.index < |SelectedSinks(cfg)|
  {
    Job(worker.item.server, worker.item.id, SelectedSinks(cfg)[worker.index].key)
  }

  /** A step counts a chat request exactly when it sends one, an Ok reply exactly when it observes one, each for the
      message and sink in hand. */
  ghost predicate CountsRequests(cfg: Setup, s: State, a: Action, next: State)
    requires s.worker.AtSink? ==> s.worker.index < |SelectedSinks(cfg)|
  {
    && next.hist.calls == (if a.Advance? && s.worker.AtSink? && s.worker.stage.Sending?
                           then s.hist.calls + multiset{JobInHand(cfg, s.worker)} else s.hist.calls)
    && next.hist.oks == (if a == GatewayReply(true) && s.worker.AtSink?
                         then s.hist.oks + multiset{JobInHand(cfg, s.worker)} else s.hist.oks)
  }

  /** A stop loses a mark exactly when the reply was in and the mark was not, and an idempotency row exactly when the
      event was in and the row was not. */
  ghost predicate CountsLosses(cfg: Setup, s: State, a: Action, next: State)
    requires s.worker.AtSink? ==> s.worker.index < |SelectedSinks(cfg)|
  {
    && next.hist.lost == (if (a.Halt? || a.Crash?) && s.worker.AtSink? && s.worker.stage.Confirm?
                          then s.hist.lost + multiset{JobInHand(cfg, s.worker)} else s.hist.lost)
    && next.hist.orphans == (if (a.Halt? || a.Crash?) && s.worker.AtSink? && s.worker.stage.Inserted?
                             then s.hist.orphans + multiset{(s.worker.item.server, s.worker.item.id)}
                             else s.hist.orphans)
  }

  /** A message is noted as refused exactly when its decision is not to deliver it. */
  ghost predicate NotesRefusals(s: State, a: Action, next: State) {
    next.hist.refused == if a.Decide? && s.worker.Evaluating? && !a.result.deliver
                         then s.hist.refused + {(s.worker.item.server, s.worker.item.id)} else s.hist.refused
  }

  lemma SendingCounts(cfg: Setup, s: State)
    requires s.worker.AtSink? && s.worker.index < |SelectedSinks(cfg)| && StepSend(cfg, s).Some?
    ensures CountsRequests(cfg, s, Advance, StepSend(cfg, s).value)
    ensures CountsLosses(cfg, s, Advance, StepSend(cfg, s).value)
    ensures NotesRefusals(s, Advance, StepSend(cfg, s).value)
  {
    hide SelectedSinks, MarkStatus, DeliveredById, StartSink;
  }

  lemma RowsLeaveHistory(cfg: Setup, s: State)
    requires s.worker.AtSink? && s.worker.index < |SelectedSinks(cfg)| && StepRows(cfg, s).Some?
    ensures StepRows(cfg, s).value.hist == s.hist.(cut := StepRows(cfg, s).value.hist.cut)
    ensures !s.worker.stage.Sending?
  {
    hide SelectedSinks, UpsertSource, UpsertTarget, UpsertDelivery, UpsertMatch, InsertEvent, InsertIdempotency,
         ReceptorAccepted, Destination, Key;
  }

  lemma RowsCount(cfg: Setup, s: State)
    requires s.worker.AtSink? && s.worker.index < |SelectedSinks(cfg)| && StepRows(cfg, s).Some?
    ensures CountsRequests(cfg, s, Advance, StepRows(cfg, s).value)
    ensures CountsLosses(cfg, s, Advance, StepRows(cfg, s).value)
    ensures NotesRefusals(s, Advance, StepRows(cfg, s).value)
  {
    RowsLeaveHistory(cfg, s);
    hide StepRows, SelectedSinks, JobInHand;
  }

  lemma AdvanceCounts(cfg: Setup, s: State)
    requires StepAdvance(cfg, s).Some?
    requires s.worker.AtSink? ==> s.worker.index < |SelectedSinks(cfg)|
    ensures CountsRequests(cfg, s, Advance, StepAdvance(cfg, s).value)
    ensures CountsLosses(cfg, s, Advance, StepAdvance(cfg, s).value)
    ensures NotesRefusals(s, Advance, StepAdvance(cfg, s).value)
  {
    hide StepRows, StepSend, StepReconcile, SelectedSinks;
    if s.worker.AtSink? {
      hide CountsRequests, CountsLosses, NotesRefusals;
      if StepAdvance(cfg, s) == StepRows(cfg, s) {
        RowsCount(cfg, s);
      } else {
        SendingCounts(cfg, s);
      }
    } else if s.worker.Reconciling? {
      ReconcileFrame(cfg, s);
    } else {
      hide Route, UpsertSource, UpsertDecision, MarkProcessed;
    }
  }

  lemma MarkIsLost(cfg: Setup, worker: Worker, hist: History)
    requires worker.AtSink? && worker.index < |SelectedSinks(cfg)| && worker.stage.Confirm?
    ensures Interrupted(cfg, worker, hist) == hist.(lost := hist.lost + multiset{JobInHand(cfg, worker)})
  {
    hide SelectedSinks;
  }

  lemma RowIsLost(cfg: Setup, worker: Worker, hist: History)
    requires worker.AtSink? && worker.index < |SelectedSinks(cfg)| && worker.stage.Inserted?
    ensures Interrupted(cfg, worker, hist)
         == hist.(orphans := hist.orphans + multiset{(worker.item.server, worker.item.id)})
  {
    hide SelectedSinks;
  }

  lemma NothingIsLost(cfg: Setup, worker: Worker, hist: History)
    requires worker.AtSink? ==> !worker.stage.Confirm? && !worker.stage.Inserted?
    ensures Interrupted(cfg, worker, hist) == hist.(cut := Interrupted(cfg, worker, hist).cut)
  {
    hide SelectedSinks;
  }

  lemma InterruptionCounts(cfg: Setup, worker: Worker, hist: History)
    requires worker.AtSink? ==> worker.index < |SelectedSinks(cfg)|
    ensures var next := Interrupted(cfg, worker, hist);
      && next.calls == hist.calls && next.oks == hist.oks && next.refused == hist.refused
      && next.lost == (if worker.AtSink? && worker.stage.Confirm? then hist.lost + multiset{JobInHand(cfg, worker)}
                       else hist.lost)
      && next.orphans == (if worker.AtSink? && worker.stage.Inserted?
                          then hist.orphans + multiset{(worker.item.server, worker.item.id)} else hist.orphans)
  {
    hide SelectedSinks, JobInHand, Interrupted;
    if worker.AtSink? && worker.stage.Confirm? {
      MarkIsLost(cfg, worker, hist);
    } else if worker.AtSink? && worker.stage.Inserted? {
      RowIsLost(cfg, worker, hist);
    } else {
      NothingIsLost(cfg, worker, hist);
    }
  }

  lemma StopHistory(cfg: Setup, s: State, a: Action)
    requires (a.Halt? || a.Crash?) && Next(cfg, s, a).Some?
    ensures var next, hist := Next(cfg, s, a).value, Interrupted(cfg, s.worker, s.hist);
      next.hist == hist.(left := next.hist.left, processed := next.hist.processed)
  {
    hide Interrupted, Reloaded;
  }

  lemma StopCounts(cfg: Setup, s: State, a: Action)
    requires (a.Halt? || a.Crash?) && Next(cfg, s, a).Some?
    requires s.worker.AtSink? ==> s.worker.index < |SelectedSinks(cfg)|
    ensures CountsRequests(cfg, s, a, Next(cfg, s, a).value) && CountsLosses(cfg, s, a, Next(cfg, s, a).value)
    ensures NotesRefusals(s, a, Next(cfg, s, a).value)
  {
    InterruptionCounts(cfg, s.worker, s.hist);
    StopHistory(cfg, s, a);
    hide SelectedSinks, Interrupted, JobInHand, Next;
  }

  lemma ReplyCounts(cfg: Setup, s: State, ok: bool)
    requires StepReply(cfg, s, ok).Some? && s.worker.AtSink? && s.worker.index < |SelectedSinks(cfg)|
    ensures var next, a := StepReply(cfg, s, ok).value, GatewayReply(ok);
      CountsRequests(cfg, s, a, next) && CountsLosses(cfg, s, a, next) && NotesRefusals(s, a, next)
  {
    hide SelectedSinks;
  }

  lemma DecidingCounts(cfg: Setup, s: State, result: Attention.AttentionResult)
    requires StepDecide(cfg, s, result).Some?
    ensures var next, a := StepDecide(cfg, s, result).value, Decide(result);
      && next.hist == s.hist.(refused := next.hist.refused) && NotesRefusals(s, a, next)
  {
    hide Route, HasStore;
  }

  lemma OthersLeaveHistory(cfg: Setup, s: State, a: Action)
    requires a.Arrive? || a.Offer? || a.Bounce? || a.Take? || a.ManageStorm?
    requires Next(cfg, s, a).Some?
    ensures Next(cfg, s, a).value.hist == s.hist
  {
    hide Accepts, ShouldEnqueue, MarkFailed;
  }

  lemma OthersCount(cfg: Setup, s: State, a: Action)
    requires !a.Halt? && !a.Crash? && !a.Advance? && Next(cfg, s, a).Some?
    requires s.worker.AtSink? ==> s.worker.index < |SelectedSinks(cfg)|
    ensures CountsRequests(cfg, s, a, Next(cfg, s, a).value) && CountsLosses(cfg, s, a, Next(cfg, s, a).value)
    ensures NotesRefusals(s, a, Next(cfg, s, a).value)
  {
    hide SelectedSinks, JobInHand, StepReply, StepDecide, StepArrive, StepOffer, StepBounce, StepTake,
         StepManageStorm;
    if a.GatewayReply? {
      hide CountsRequests, CountsLosses, NotesRefusals;
      if s.worker.AtSink? {
        ReplyCounts(cfg, s, a.ok);
      } else {
        NoReplyWithoutSink(cfg, s, a.ok);
      }
    } else if a.Decide? {
      DecidingCounts(cfg, s, a.result);
    } else {
      OthersLeaveHistory(cfg, s, a);
      hide Next;
    }
  }

  lemma NoReplyWithoutSink(cfg: Setup, s: State, ok: bool)
    requires StepReply(cfg, s, ok).Some?
    ensures s.worker.AtSink?
  {
  }

  /** What the history notes of a step is what the step does. */
  lemma HistoryIsOfTheStep(cfg: Setup, s: State, a: Action, t: State)
    requires Reachable(cfg, s) && Next(cfg, s, a) == Some(t)
    ensures s.worker.AtSink? ==> s.worker.index < |SelectedSinks(cfg)|
    ensures CountsRequests(cfg, s, a, t) && CountsLosses(cfg, s, a, t) && NotesRefusals(s, a, t)
  {
    hide *;
    ReachableIsOk(cfg, s);
    TablesOfInv(cfg, s);
    if s.worker.AtSink? {
      InHandIsSelected(cfg, s);
    }
    if a.Halt? || a.Crash? {
      StopCounts(cfg, s, a);
    } else if a.Advance? {
      AdvanceIsAStep(cfg, s);
      AdvanceCounts(cfg, s);
    } else {
      OthersCount(cfg, s, a);
    }
  }
}
