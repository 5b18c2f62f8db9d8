/** Which tables each statement leaves alone, and what the sending steps of the worker touch. */
module Frames {
  import opened Attention
  import opened Protocol
  import opened Storage
  import opened Wrappers

  lemma SourceFrame(db: Database, server: ServerKey)
    ensures var next := UpsertSource(db, server); next == db.(sources := next.sources, nextId := next.nextId)
  {
  }

  lemma DecisionFrame(db: Database, source: RowId, message: MessageId, result: AttentionResult)
    ensures var next := UpsertDecision(db, source, message, result); next == db.(decisions := next.decisions)
  {
  }

  lemma MatchFrame(db: Database, event: RowId, m: ReceptorMatch)
    ensures var next := UpsertMatch(db, event, m); next == db.(matches := next.matches)
  {
  }

  lemma TargetFrame(db: Database, sink: SinkKey, kind: SinkKind, destination: string)
    ensures var next := UpsertTarget(db, sink, kind, destination);
      next == db.(targets := next.targets, nextId := next.nextId)
  {
  }

  lemma ClearFrame(db: Database, id: RowId)
    ensures var next := ClearDisabled(db, id); next == db.(targets := next.targets)
  {
  }

  lemma DisableFrame(db: Database, id: RowId, reason: string)
    ensures var next := SoftDisable(db, id, reason); next == db.(targets := next.targets)
  {
  }

  lemma MissingFrame(db: Database, sinks: seq<SinkConfig>)
    ensures var next := DisableMissing(db, sinks); next == db.(targets := next.targets)
  {
  }

  lemma DeliveryFrame(db: Database, event: RowId, target: RowId)
    ensures var next := UpsertDelivery(db, event, target);
      next == db.(deliveries := next.deliveries, nextId := next.nextId)
  {
  }

  lemma MarkFrame(db: Database, id: RowId, status: Status)
    ensures var next := MarkStatus(db, id, status);
      next == db.(deliveries := next.deliveries) && next.deliveries.Keys == db.deliveries.Keys
  {
  }

  /** A wake without a row is marked nowhere. */
  lemma WakeMarkFrame(db: Database, wake: Option<RowId>, status: Status)
    ensures wake.Some? ==>
      var next := MarkStatus(db, wake.value, status);
      next == db.(deliveries := next.deliveries) && next.deliveries.Keys == db.deliveries.Keys
  {
    if wake.Some? {
      MarkFrame(db, wake.value, status);
    }
  }

  // ----- Sending -----

  /** From the ticket on, only delivery rows and the counts of calls and replies change. */
  lemma SendTouchesDeliveries(cfg: Setup, s: State)
    requires s.worker.AtSink? && s.worker.index < |SelectedSinks(cfg)| && StepSend(cfg, s).Some?
    ensures var next := StepSend(cfg, s).value;
      next.db == s.db.(deliveries := next.db.deliveries) && next.hist == s.hist.(calls := next.hist.calls)
  {
    hide DeliveredById, StartSink, SelectedSinks, MarkStatus;
    match s.worker.stage
    case Ticketed(event, ticket) => MarkFrame(s.db, ticket, Delivered);
    case Attempt(wake) => WakeMarkFrame(s.db, wake, Attempted);
    case Confirm(wake) => WakeMarkFrame(s.db, wake, Delivered);
    case Rejected(wake) => WakeMarkFrame(s.db, wake, Failed);
    case _ =>
  }

  lemma SendGoesOn(cfg: Setup, s: State)
    requires s.worker.AtSink? && s.worker.index < |SelectedSinks(cfg)| && StepSend(cfg, s).Some?
    ensures var next := StepSend(cfg, s).value;
      || next.worker == StartSink(cfg, s.worker.item, s.worker.result, s.worker.index + 1)
      || (next.worker.AtSink? && next.worker.item == s.worker.item && next.worker.result == s.worker.result)
  {
    hide DeliveredById, StartSink, SelectedSinks, MarkStatus;
  }
}
