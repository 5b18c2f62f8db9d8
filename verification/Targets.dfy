/** Sink targets: reconciling them leaves exactly the enabled configured keys un-disabled, and the deliveries of
    the message that follow keep it so. */
module Targets {
  import opened Frames
  import opened Protocol
  import opened Storage
  import opened Tables
  import opened WorkerInvariant
  import opened Wrappers

  predicate EnabledKey(sinks: seq<SinkConfig>, key: SinkKey) {
    exists sink <- sinks :: sink.key == key && sink.enabled
  }

  /** Every configured sink has a target, and the targets not disabled are those of the enabled sinks. */
  ghost predicate Reconciled(sinks: seq<SinkConfig>, targets: map<SinkKey, TargetRow>) {
    && (forall sink <- sinks :: sink.key in targets)
    && (forall k <- targets :: targets[k].disabled.None? <==> EnabledKey(sinks, k))
  }

  /** The first `n` sinks are reconciled. */
  ghost predicate PrefixReconciled(sinks: seq<SinkConfig>, targets: map<SinkKey, TargetRow>, n: nat)
    requires n <= |sinks|
  {
    forall j :: 0 <= j < n ==>
      sinks[j].key in targets && (targets[sinks[j].key].disabled.None? <==> sinks[j].enabled)
  }

  /** Nothing but the row of one key differs. */
  ghost predicate OnlyChanges(was: map<SinkKey, TargetRow>, targets: map<SinkKey, TargetRow>, key: SinkKey) {
    && key in targets
    && forall k :: k != key ==> (k in targets <==> k in was) && (k in was ==> targets[k] == was[k])
  }

  lemma UpsertTargetChanges(db: Database, key: SinkKey, kind: SinkKind, destination: string)
    ensures var next := UpsertTarget(db, key, kind, destination);
      OnlyChanges(db.targets, next.targets, key) && next.targets[key].disabled.None?
  {
    if key in db.targets {
      RowUpdateChanges(db.targets, key, TargetRow(db.targets[key].id, kind, destination, None));
    } else {
      RowUpdateChanges(db.targets, key, TargetRow(db.nextId, kind, destination, None));
    }
    hide OnlyChanges;
  }

  lemma RowUpdateChanges(targets: map<SinkKey, TargetRow>, key: SinkKey, row: TargetRow)
    ensures OnlyChanges(targets, targets[key := row], key)
  {
  }

  lemma FlagChanges(db: Database, key: SinkKey, reason: string)
    requires TargetIdsOk(db.targets, db.nextId) && key in db.targets
    ensures var next := ClearDisabled(db, db.targets[key].id);
      OnlyChanges(db.targets, next.targets, key) && next.targets[key].disabled.None?
    ensures var next := SoftDisable(db, db.targets[key].id, reason);
      OnlyChanges(db.targets, next.targets, key) && next.targets[key].disabled.Some?
  {
  }

  lemma PrefixStays(sinks: seq<SinkConfig>, was: map<SinkKey, TargetRow>, targets: map<SinkKey, TargetRow>, n: nat)
    requires UniqueSinkKeys(sinks) && n < |sinks|
    requires PrefixReconciled(sinks, was, n) && OnlyChanges(was, targets, sinks[n].key)
    ensures PrefixReconciled(sinks, targets, n)
    ensures (targets[sinks[n].key].disabled.None? <==> sinks[n].enabled) ==> PrefixReconciled(sinks, targets, n + 1)
  {
  }

  /** Once every configured sink is reconciled, disabling the unknown targets completes the work. */
  lemma DisablingCompletes(db: Database, sinks: seq<SinkConfig>)
    requires UniqueSinkKeys(sinks) && PrefixReconciled(sinks, db.targets, |sinks|)
    ensures Reconciled(sinks, DisableMissing(db, sinks).targets)
  {
    var next := DisableMissing(db, sinks);
    forall sink | sink in sinks ensures sink.key in next.targets {
      var j :| 0 <= j < |sinks| && sinks[j] == sink;
      assert sinks[j].key in db.targets;
    }
    forall k | k in next.targets ensures next.targets[k].disabled.None? <==> EnabledKey(sinks, k) {
      if Configured(sinks, k) {
        var sink :| sink in sinks && sink.key == k;
        var j :| 0 <= j < |sinks| && sinks[j] == sink;
        assert db.targets[sinks[j].key].disabled.None? <==> sink.enabled;
        if EnabledKey(sinks, k) {
          var other :| other in sinks && other.key == k && other.enabled;
          var i :| 0 <= i < |sinks| && sinks[i] == other;
          assert i == j;
        }
      }
    }
  }

  /** The upsert of a delivery enables its target whatever it was, and that target is of an enabled sink. */
  lemma EnablingKeeps(sinks: seq<SinkConfig>, was: map<SinkKey, TargetRow>, targets: map<SinkKey, TargetRow>,
                      key: SinkKey)
    requires Reconciled(sinks, was) && EnabledKey(sinks, key)
    requires OnlyChanges(was, targets, key) && targets[key].disabled.None?
    ensures Reconciled(sinks, targets)
  {
  }

  // ----- In the protocol -----

  ghost predicate TargetsOk(cfg: Setup, s: State) {
    UniqueSinkKeys(cfg.sinks) ==>
      match s.worker
      case Reconciling(_, _, k, upserted) => k <= |cfg.sinks| && PrefixReconciled(cfg.sinks, s.db.targets, k)
      case AtSink(_, _, _, _) => HasStore(cfg) ==> Reconciled(cfg.sinks, s.db.targets)
      case _ => true
  }

  lemma ReconcileStepKeepsTargets(cfg: Setup, s: State)
    requires TablesOk(cfg, s) && TargetsOk(cfg, s) && s.worker.Reconciling? && StepReconcile(cfg, s).Some?
    ensures TargetsOk(cfg, StepReconcile(cfg, s).value)
  {
    hide EnabledKey, SourceIdsOk, EventIdsOk, DeliveryIdsOk, ReferencesHold, WellFormed;
    if UniqueSinkKeys(cfg.sinks) {
      var Reconciling(item, result, k, upserted) := s.worker;
      if k >= |cfg.sinks| {
        hide TablesOk, UniqueSinkKeys, DisableMissing, PrefixReconciled;
        DisablingCompletes(s.db, cfg.sinks);
      } else {
        var sink := cfg.sinks[k];
        var next := StepReconcile(cfg, s).value;
        if !upserted {
          UpsertTargetChanges(s.db, sink.key, sink.kind, DefaultDestination(cfg, sink));
        } else {
          FlagChanges(s.db, sink.key, "sink disabled in config");
        }
        hide UpsertTarget, ClearDisabled, SoftDisable, TablesOk;
        assert OnlyChanges(s.db.targets, next.db.targets, sink.key);
        assert upserted ==> (next.db.targets[sink.key].disabled.None? <==> sink.enabled);
        hide UniqueSinkKeys, OnlyChanges, PrefixReconciled;
        PrefixStays(cfg.sinks, s.db.targets, next.db.targets, k);
      }
    }
  }

  lemma SelectedKeyIsEnabled(cfg: Setup, i: nat)
    requires i < |SelectedSinks(cfg)|
    ensures EnabledKey(cfg.sinks, SelectedSinks(cfg)[i].key)
  {
    SelectedMeaning(cfg);
    assert SelectedSinks(cfg)[i] in SelectedSinks(cfg);
  }

  /** Outside a reconciliation every step leaves reconciled targets reconciled. */
  lemma ReconciledStays(cfg: Setup, s: State, a: Action)
    requires Reconciled(cfg.sinks, s.db.targets) && !s.worker.Reconciling? && Next(cfg, s, a).Some?
    ensures Reconciled(cfg.sinks, Next(cfg, s, a).value.db.targets)
  {
    hide Reconciled, StepAdvance, Interrupted, Route, Reloaded;
    if a.Advance? {
      if s.worker.AtSink? && s.worker.stage.Matching? && s.worker.stage.done >= |s.worker.result.matches| {
        DeliveryKeepsReconciled(cfg, s);
      } else {
        AdvanceLeavesTargets(cfg, s);
      }
    }
  }

  lemma DeliveryKeepsReconciled(cfg: Setup, s: State)
    requires Reconciled(cfg.sinks, s.db.targets) && s.worker.AtSink? && s.worker.stage.Matching?
    requires s.worker.stage.done >= |s.worker.result.matches| && StepAdvance(cfg, s).Some?
    ensures Reconciled(cfg.sinks, StepAdvance(cfg, s).value.db.targets)
  {
    hide Reconciled, EnabledKey, SelectedSinks, UpsertTarget, OnlyChanges;
    var item, sink := s.worker.item, SelectedSinks(cfg)[s.worker.index];
    SelectedKeyIsEnabled(cfg, s.worker.index);
    UpsertTargetChanges(s.db, sink.key, sink.kind, Destination(cfg, sink, item));
    EnablingKeeps(cfg.sinks, s.db.targets, StepAdvance(cfg, s).value.db.targets, sink.key);
  }

  lemma RowsLeaveTargets(cfg: Setup, s: State)
    requires s.worker.AtSink? && s.worker.index < |SelectedSinks(cfg)|
    requires s.worker.stage.Matching? ==> s.worker.stage.done < |s.worker.result.matches|
    requires StepRows(cfg, s).Some?
    ensures StepRows(cfg, s).value.db.targets == s.db.targets
  {
    hide ReceptorAccepted, UpsertTarget, SelectedSinks, Destination;
    if s.worker.stage.Source? {
    } else if s.worker.stage.Lookup? {
      hide UpsertSource, UpsertDelivery, UpsertMatch;
    } else if s.worker.stage.Targeted? {
      hide UpsertSource, UpsertMatch, InsertEvent, InsertIdempotency;
    } else {
      hide UpsertSource, UpsertDelivery;
    }
  }

  lemma SendLeavesTargets(cfg: Setup, s: State)
    requires s.worker.AtSink? && s.worker.index < |SelectedSinks(cfg)| && StepSend(cfg, s).Some?
    ensures StepSend(cfg, s).value.db.targets == s.db.targets
  {
    SendTouchesDeliveries(cfg, s);
    hide StepSend;
  }

  lemma AdvanceLeavesTargets(cfg: Setup, s: State)
    requires !s.worker.Reconciling? && StepAdvance(cfg, s).Some?
    requires s.worker.AtSink? && s.worker.stage.Matching? ==> s.worker.stage.done < |s.worker.result.matches|
    ensures StepAdvance(cfg, s).value.db.targets == s.db.targets
  {
    if s.worker.AtSink? {
      hide StepRows, StepSend;
      if StepAdvance(cfg, s) == StepRows(cfg, s) {
        RowsLeaveTargets(cfg, s);
      } else {
        SendLeavesTargets(cfg, s);
      }
    } else {
      hide StepRows, StepSend, StepReconcile, Route, Runtime.MarkProcessed;
    }
  }

  /** Every step keeps the targets in order; in particular the enabled configured keys are exactly those not
      disabled while the deliveries of a message run. */
  lemma StepKeepsTargets(cfg: Setup, s: State, a: Action)
    requires TablesOk(cfg, s) && TargetsOk(cfg, s) && Next(cfg, s, a).Some?
    ensures TargetsOk(cfg, Next(cfg, s, a).value)
  {
    if a.Advance? && s.worker.Reconciling? {
      hide TablesOk, TargetsOk, StepReconcile;
      ReconcileStepKeepsTargets(cfg, s);
    } else if UniqueSinkKeys(cfg.sinks) {
      StepStartsNoSinkWork(cfg, s, a);
      hide UniqueSinkKeys, TablesOk, Reconciled, Next, PrefixReconciled;
      if s.worker.AtSink? && HasStore(cfg) {
        ReconciledStays(cfg, s, a);
      }
      assert PrefixReconciled(cfg.sinks, Next(cfg, s, a).value.db.targets, 0) by {
        NoSinksToReconcile(cfg.sinks, Next(cfg, s, a).value.db.targets);
      }
    }
  }

  lemma NoSinksToReconcile(sinks: seq<SinkConfig>, targets: map<SinkKey, TargetRow>)
    ensures PrefixReconciled(sinks, targets, 0)
  {
  }

  /** With a store, sink work starts only by reconciling, and a reconciliation starts from its beginning. */
  lemma StepStartsNoSinkWork(cfg: Setup, s: State, a: Action)
    requires TablesOk(cfg, s) && Next(cfg, s, a).Some? && !(a.Advance? && s.worker.Reconciling?)
    ensures var next := Next(cfg, s, a).value;
      && (next.worker.AtSink? && HasStore(cfg) ==> s.worker.AtSink?)
      && (next.worker.Reconciling? ==> next.worker.index == 0 || (next.worker == s.worker && next.db == s.db))
  {
    hide TablesOk, Interrupted, Runtime.MarkProcessed, Reloaded, StepRows;
    if a.Advance? && s.worker.AtSink? {
      AtSinkGoesOn(cfg, s);
    } else {
      hide StepSend, StepReconcile, UpsertSource, UpsertDecision;
    }
  }

  lemma AtSinkGoesOn(cfg: Setup, s: State)
    requires s.worker.AtSink? && StepAdvance(cfg, s).Some?
    ensures !StepAdvance(cfg, s).value.worker.Reconciling?
  {
    hide ReceptorAccepted, UpsertSource, UpsertMatch, UpsertTarget, UpsertDelivery, InsertEvent, InsertIdempotency,
         MarkStatus, DeliveredById, SelectedSinks;
  }
}
