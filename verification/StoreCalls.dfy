/** Each call the worker makes on the delivery store is a run of the single statements of the protocol, so a stop
    between any two of them is among the behaviours covered there. */
module StoreCalls {
  import opened Delivery
  import opened Protocol
  import opened Receptors
  import opened Storage
  import opened Tables
  import opened Targets
  import opened WorkerInvariant
  import opened Wrappers

  /** Some run of the system fed by the evaluator leads from one state to the other. */
  ghost predicate Follows(cfg: Setup, s: State, t: State) {
    exists actions :: Leads(cfg, s, actions, t)
  }

  lemma FollowsItself(cfg: Setup, s: State)
    ensures Follows(cfg, s, s)
  {
    assert Leads(cfg, s, [], s);
  }

  lemma {:induction false} RunAppend(cfg: Setup, s: State, a: seq<Action>, b: seq<Action>)
    requires Run(cfg, s, a).Some?
    ensures Run(cfg, s, a + b) == Run(cfg, Run(cfg, s, a).value, b)
    decreases |b|
  {
    if b == [] {
      assert a + b == a;
    } else {
      RunAppend(cfg, s, a, b[..|b| - 1]);
      assert (a + b)[..|a + b| - 1] == a + b[..|b| - 1];
      hide Next;
    }
  }

  lemma FollowsThrough(cfg: Setup, a: State, b: State, c: State)
    requires Follows(cfg, a, b) && Follows(cfg, b, c)
    ensures Follows(cfg, a, c)
  {
    hide WellFormed, Next;
    var x :| Leads(cfg, a, x, b);
    var y :| Leads(cfg, b, y, c);
    RunAppend(cfg, a, x, y);
    hide Run;
    assert FromEvaluator(x + y);
    assert Leads(cfg, a, x + y, c);
  }

  lemma StepFollows(cfg: Setup, s: State, a: Action, t: State)
    requires Next(cfg, s, a) == Some(t)
    requires a.Decide? ==> WellFormed(a.result)
    ensures Follows(cfg, s, t)
  {
    hide Next, WellFormed;
    assert [a][..0] == [];
    assert Run(cfg, s, [a][..0]) == Some(s);
    assert Run(cfg, s, [a]) == Some(t);
    hide Run;
    assert Leads(cfg, s, [a], t);
  }

  lemma AdvanceFollows(cfg: Setup, s: State, t: State)
    requires StepAdvance(cfg, s) == Some(t)
    ensures Follows(cfg, s, t)
  {
    hide StepAdvance, Follows;
    StepFollows(cfg, s, Advance, t);
  }

  // ----- The decision -----

  lemma DecisionCallFollows(cfg: Setup, s: State)
    requires s.worker.Recording?
    ensures Follows(cfg, s, s.(
      db := WithDecision(s.db, s.worker.item.server, s.worker.item.id, s.worker.result),
      worker := Route(cfg, s.worker.item, s.worker.result),
      hist := Recorded(s.hist, s.worker.item, s.worker.result)))
  {
    hide Follows, Route, UpsertDecision, Recorded;
    var item, result := s.worker.item, s.worker.result;
    var middle := s.(db := UpsertSource(s.db, item.server), worker := Deciding(item, result));
    AdvanceFollows(cfg, s, middle);
    var last := middle.(db := UpsertDecision(middle.db, middle.db.sources[item.server], item.id, result),
                        worker := Route(cfg, item, result), hist := Recorded(s.hist, item, result));
    AdvanceFollows(cfg, middle, last);
    FollowsThrough(cfg, s, middle, last);
  }

  // ----- The event and its matches -----

  ghost function AtStage(s: State, db: Database, stage: Stage): State
    requires s.worker.AtSink?
  {
    s.(db := db, worker := AtSink(s.worker.item, s.worker.result, s.worker.index, stage))
  }

  lemma {:induction false} MatchesFollow(cfg: Setup, s: State, event: RowId, n: nat)
    requires s.worker.AtSink? && s.worker.index < |SelectedSinks(cfg)| && s.worker.stage == Matching(event, 0)
    requires n <= |s.worker.result.matches|
    ensures Follows(cfg, s, AtStage(s, UpsertMatches(s.db, event, s.worker.result.matches[..n]), Matching(event, n)))
  {
    hide Follows, UpsertMatch;
    var ms := s.worker.result.matches;
    if n == 0 {
      FollowsItself(cfg, s);
      assert UpsertMatches(s.db, event, ms[..0]) == s.db;
    } else {
      MatchesFollow(cfg, s, event, n - 1);
      assert ms[..n][..n - 1] == ms[..n - 1];
      var before := AtStage(s, UpsertMatches(s.db, event, ms[..n - 1]), Matching(event, n - 1));
      var after := AtStage(s, UpsertMatches(s.db, event, ms[..n]), Matching(event, n));
      assert after.db == UpsertMatch(before.db, event, ms[n - 1]);
      hide UpsertMatches, SelectedSinks;
      AdvanceFollows(cfg, before, after);
      FollowsThrough(cfg, s, before, after);
    }
  }

  /** Guard, source, lookup, and the event with its idempotency row when there is none. */
  lemma EventFollows(cfg: Setup, s: State)
    requires s.worker.AtSink? && s.worker.index < |SelectedSinks(cfg)| && s.worker.stage.Guard?
    requires ReceptorAccepted(s.worker.result)
    ensures var item := s.worker.item;
      Follows(cfg, s, AtStage(s, EnsureEvent(s.db, item.server, item.id),
                              Matching(EventFor(s.db, item.server, item.id), 0)))
  {
    hide Follows, ReceptorAccepted, SelectedSinks;
    var item := s.worker.item;
    var guarded := AtStage(s, s.db, Source);
    AdvanceFollows(cfg, s, guarded);
    var sourced := AtStage(s, UpsertSource(s.db, item.server), Lookup);
    AdvanceFollows(cfg, guarded, sourced);
    FollowsThrough(cfg, s, guarded, sourced);
    LookupFollows(cfg, sourced);
    assert EnsureEvent(s.db, item.server, item.id) == EnsureEvent(sourced.db, item.server, item.id);
    FollowsThrough(cfg, s, sourced,
      AtStage(s, EnsureEvent(s.db, item.server, item.id), Matching(EventFor(s.db, item.server, item.id), 0)));
  }

  lemma LookupFollows(cfg: Setup, s: State)
    requires s.worker.AtSink? && s.worker.index < |SelectedSinks(cfg)| && s.worker.stage.Lookup?
    requires s.worker.item.server in s.db.sources
    ensures var item := s.worker.item;
      Follows(cfg, s, AtStage(s, EnsureEvent(s.db, item.server, item.id),
                              Matching(EventFor(s.db, item.server, item.id), 0)))
  {
    hide Follows, SelectedSinks;
    var item := s.worker.item;
    var key := Key(s.db, item.server, item.id);
    if key in s.db.idempotency {
      AdvanceFollows(cfg, s, AtStage(s, s.db, Matching(s.db.idempotency[key], 0)));
    } else {
      var inserted := AtStage(s, InsertEvent(s.db, s.db.sources[item.server], item.id), Inserted(s.db.nextId));
      AdvanceFollows(cfg, s, inserted);
      var mapped := AtStage(s, InsertIdempotency(inserted.db, key, s.db.nextId), Matching(s.db.nextId, 0));
      AdvanceFollows(cfg, inserted, mapped);
      FollowsThrough(cfg, s, inserted, mapped);
    }
  }

  lemma CanonicalEventFollows(cfg: Setup, s: State)
    requires s.worker.AtSink? && s.worker.index < |SelectedSinks(cfg)| && s.worker.stage.Guard?
    requires ReceptorAccepted(s.worker.result)
    ensures var item, result := s.worker.item, s.worker.result;
      Follows(cfg, s, AtStage(s, CanonicalEvent(s.db, item.server, item.id, result),
                              Matching(EventFor(s.db, item.server, item.id), |result.matches|)))
  {
    hide Follows, EnsureEvent, EventFor, UpsertMatches;
    var item, result := s.worker.item, s.worker.result;
    var event := EventFor(s.db, item.server, item.id);
    EventFollows(cfg, s);
    var mapped := AtStage(s, EnsureEvent(s.db, item.server, item.id), Matching(event, 0));
    MatchesFollow(cfg, mapped, event, |result.matches|);
    assert result.matches[..|result.matches|] == result.matches;
    FollowsThrough(cfg, s, mapped,
      AtStage(mapped, CanonicalEvent(s.db, item.server, item.id, result), Matching(event, |result.matches|)));
  }

  // ----- Target and ticket -----

  /** From the last match on: the target and the delivery row. */
  lemma DeliveryFollows(cfg: Setup, s: State, event: RowId)
    requires s.worker.AtSink? && s.worker.index < |SelectedSinks(cfg)|
    requires s.worker.stage == Matching(event, |s.worker.result.matches|)
    requires !Blank(Destination(cfg, SelectedSinks(cfg)[s.worker.index], s.worker.item))
    ensures var sink := SelectedSinks(cfg)[s.worker.index];
      var db := WithDelivery(s.db, event, sink.key, sink.kind, Destination(cfg, sink, s.worker.item));
      && DeliveryId(db, event, sink.key).Some?
      && Follows(cfg, s, AtStage(s, db, Ticketed(event, DeliveryId(db, event, sink.key).value)).(
           hist := s.hist.(cut := s.hist.cut - {event})))
  {
    hide Follows, SelectedSinks, Destination, Blank;
    var item, result, i := s.worker.item, s.worker.result, s.worker.index;
    var sink := SelectedSinks(cfg)[i];
    var destination := Destination(cfg, sink, item);
    var hist := s.hist.(cut := s.hist.cut - {event});
    var targeted := AtStage(s, UpsertTarget(s.db, sink.key, sink.kind, destination), Targeted(event)).(hist := hist);
    AdvanceFollows(cfg, s, targeted);
    var db := UpsertDelivery(targeted.db, event, targeted.db.targets[sink.key].id);
    TargetInPlace(s.db, sink.key, sink.kind, destination);
    DeliveryInPlace(targeted.db, event, sink.key);
    hide UpsertTarget, UpsertDelivery;
    var ticketed := AtStage(targeted, db, Ticketed(event, DeliveryId(db, event, sink.key).value));
    AdvanceFollows(cfg, targeted, ticketed);
    FollowsThrough(cfg, s, targeted, ticketed);
  }

  lemma TargetInPlace(db: Database, sink: SinkKey, kind: SinkKind, destination: string)
    ensures sink in UpsertTarget(db, sink, kind, destination).targets
  {
  }

  lemma DeliveryInPlace(db: Database, event: RowId, sink: SinkKey)
    requires sink in db.targets
    ensures var next := UpsertDelivery(db, event, db.targets[sink].id);
      && DeliveryKey(event, db.targets[sink].id) in next.deliveries
      && next.targets == db.targets
      && DeliveryId(next, event, sink) == Some(next.deliveries[DeliveryKey(event, db.targets[sink].id)].id)
  {
  }

  ghost function QueuedRows(cfg: Setup, s: State): Database
    requires s.worker.AtSink? && s.worker.index < |SelectedSinks(cfg)|
  {
    var item, sink := s.worker.item, SelectedSinks(cfg)[s.worker.index];
    WithDelivery(CanonicalEvent(s.db, item.server, item.id, s.worker.result), EventFor(s.db, item.server, item.id),
                 sink.key, sink.kind, Destination(cfg, sink, item))
  }

  ghost function TicketedState(cfg: Setup, s: State, ticket: RowId): State
    requires s.worker.AtSink? && s.worker.index < |SelectedSinks(cfg)|
  {
    var event := EventFor(s.db, s.worker.item.server, s.worker.item.id);
    AtStage(s, QueuedRows(cfg, s), Ticketed(event, ticket)).(hist := s.hist.(cut := s.hist.cut - {event}))
  }

  /** The whole of queueing a delivery. */
  lemma QueueCallFollows(cfg: Setup, s: State)
    requires s.worker.AtSink? && s.worker.index < |SelectedSinks(cfg)| && s.worker.stage.Guard?
    requires ReceptorAccepted(s.worker.result)
    requires !Blank(Destination(cfg, SelectedSinks(cfg)[s.worker.index], s.worker.item))
    ensures var item, sink := s.worker.item, SelectedSinks(cfg)[s.worker.index];
      var ticket := DeliveryId(QueuedRows(cfg, s), EventFor(s.db, item.server, item.id), sink.key);
      ticket.Some? && Follows(cfg, s, TicketedState(cfg, s, ticket.value))
  {
    hide Follows, SelectedSinks, Destination, Blank, ReceptorAccepted, CanonicalEvent, EventFor, WithDelivery,
         DeliveryId;
    var item, result := s.worker.item, s.worker.result;
    var event := EventFor(s.db, item.server, item.id);
    CanonicalEventFollows(cfg, s);
    var matched := AtStage(s, CanonicalEvent(s.db, item.server, item.id, result), Matching(event, |result.matches|));
    DeliveryFollows(cfg, matched, event);
    var ticket := DeliveryId(QueuedRows(cfg, s), event, SelectedSinks(cfg)[s.worker.index].key);
    FollowsThrough(cfg, s, matched, TicketedState(cfg, s, ticket.value));
  }

  // ----- Reconciliation -----

  ghost function ReconciledUpTo(cfg: Setup, s: State, n: nat): State
    requires s.worker.Reconciling? && n <= |cfg.sinks|
  {
    s.(db := ReconcileSinks(s.db, cfg.sinks[..n], cfg.databasePath, cfg.wakeSession),
       worker := Reconciling(s.worker.item, s.worker.result, n, false))
  }

  lemma {:induction false} ReconcilingFollows(cfg: Setup, s: State, n: nat)
    requires s.worker.Reconciling? && s.worker.index == 0 && !s.worker.upserted
    requires n <= BeforeBlank(cfg.sinks, cfg.databasePath, cfg.wakeSession)
    ensures Follows(cfg, s, ReconciledUpTo(cfg, s, n))
  {
    hide Follows, Blank, TargetDestination, BeforeBlank;
    if n == 0 {
      FollowsItself(cfg, s);
      assert ReconcileSinks(s.db, cfg.sinks[..0], cfg.databasePath, cfg.wakeSession) == s.db;
    } else {
      ReconcilingFollows(cfg, s, n - 1);
      assert cfg.sinks[..n][..n - 1] == cfg.sinks[..n - 1];
      var before, after := ReconciledUpTo(cfg, s, n - 1), ReconciledUpTo(cfg, s, n);
      assert after.db == ReconcileSink(before.db, cfg.sinks[n - 1], DefaultDestination(cfg, cfg.sinks[n - 1]));
      hide ReconcileSinks;
      ReconcileSinkFollows(cfg, before);
      FollowsThrough(cfg, s, before, after);
    }
  }

  lemma ReconcileSinkFollows(cfg: Setup, s: State)
    requires s.worker.Reconciling? && s.worker.index < |cfg.sinks| && !s.worker.upserted
    requires !Blank(DefaultDestination(cfg, cfg.sinks[s.worker.index]))
    ensures var sink := cfg.sinks[s.worker.index];
      Follows(cfg, s, s.(db := ReconcileSink(s.db, sink, DefaultDestination(cfg, sink)),
                         worker := Reconciling(s.worker.item, s.worker.result, s.worker.index + 1, false)))
  {
    hide Follows, Blank, DefaultDestination, ClearDisabled, SoftDisable;
    var sink := cfg.sinks[s.worker.index];
    TargetInPlace(s.db, sink.key, sink.kind, DefaultDestination(cfg, sink));
    hide UpsertTarget;
    var upserted := s.(db := UpsertTarget(s.db, sink.key, sink.kind, DefaultDestination(cfg, sink)),
                       worker := s.worker.(upserted := true));
    AdvanceFollows(cfg, s, upserted);
    var next := s.(db := ReconcileSink(s.db, sink, DefaultDestination(cfg, sink)),
                   worker := Reconciling(s.worker.item, s.worker.result, s.worker.index + 1, false));
    AdvanceFollows(cfg, upserted, next);
    FollowsThrough(cfg, s, upserted, next);
  }

  lemma ReconcileCallFollows(cfg: Setup, s: State)
    requires s.worker.Reconciling? && s.worker.index == 0 && !s.worker.upserted
    requires BeforeBlank(cfg.sinks, cfg.databasePath, cfg.wakeSession) == |cfg.sinks|
    ensures Follows(cfg, s, s.(
      db := DisableMissing(ReconcileSinks(s.db, cfg.sinks, cfg.databasePath, cfg.wakeSession), cfg.sinks),
      worker := StartSink(cfg, s.worker.item, s.worker.result, 0)))
  {
    hide Follows, StartSink, DisableMissing, ReconcileSinks;
    ReconcilingFollows(cfg, s, |cfg.sinks|);
    assert cfg.sinks[..|cfg.sinks|] == cfg.sinks;
    var middle := ReconciledUpTo(cfg, s, |cfg.sinks|);
    var last := middle.(db := DisableMissing(middle.db, cfg.sinks),
                        worker := StartSink(cfg, s.worker.item, s.worker.result, 0));
    AdvanceFollows(cfg, middle, last);
    FollowsThrough(cfg, s, middle, last);
  }

  // ----- What reconciling does -----

  lemma {:induction false} ReconcileSinksPrefix(db: Database, sinks: seq<SinkConfig>, databasePath: string,
                                                wakeSession: string, n: nat)
    requires DbOk(db) && UniqueSinkKeys(sinks) && n <= |sinks|
    ensures var next := ReconcileSinks(db, sinks[..n], databasePath, wakeSession);
      DbOk(next) && Extends(db, next) && PrefixReconciled(sinks, next.targets, n)
  {
    hide DbOk, Extends, UniqueSinkKeys, ReconcileSink, TargetDestination, PrefixReconciled;
    if n == 0 {
      ExtendsItself(db);
      NoSinksToReconcile(sinks, db.targets);
      assert ReconcileSinks(db, sinks[..0], databasePath, wakeSession) == db;
    } else {
      ReconcileSinksPrefix(db, sinks, databasePath, wakeSession, n - 1);
      assert sinks[..n][..n - 1] == sinks[..n - 1];
      var before := ReconcileSinks(db, sinks[..n - 1], databasePath, wakeSession);
      var sink := sinks[n - 1];
      ReconcileSinkKeeps(before, sink, TargetDestination(sink, databasePath, wakeSession));
      var next := ReconcileSinks(db, sinks[..n], databasePath, wakeSession);
      assert next == ReconcileSink(before, sink, TargetDestination(sink, databasePath, wakeSession));
      hide ReconcileSinks;
      ExtendsIsTransitive(db, before, next);
      PrefixStays(sinks, before.targets, next.targets, n - 1);
    }
  }

  lemma ReconcileSinkKeeps(db: Database, sink: SinkConfig, destination: string)
    requires DbOk(db)
    ensures var next := ReconcileSink(db, sink, destination);
      && DbOk(next) && Extends(db, next)
      && OnlyChanges(db.targets, next.targets, sink.key) && (next.targets[sink.key].disabled.None? <==> sink.enabled)
  {
    var upserted := UpsertTarget(db, sink.key, sink.kind, destination);
    UpsertTargetKeeps(db, sink.key, sink.kind, destination);
    UpsertTargetChanges(db, sink.key, sink.kind, destination);
    assert sink.key in upserted.targets;
    hide UpsertTarget, DbOk, Extends, OnlyChanges;
    var next := ReconcileSink(db, sink, destination);
    SetFlagKeeps(upserted, sink);
    hide ClearDisabled, SoftDisable;
    ExtendsIsTransitive(db, upserted, next);
    OnlyChangesThrough(db.targets, upserted.targets, next.targets, sink.key);
  }

  lemma OnlyChangesThrough(a: map<SinkKey, TargetRow>, b: map<SinkKey, TargetRow>, c: map<SinkKey, TargetRow>,
                           key: SinkKey)
    requires OnlyChanges(a, b, key) && OnlyChanges(b, c, key)
    ensures key in c && OnlyChanges(a, c, key)
  {
  }

  lemma SetFlagKeeps(db: Database, sink: SinkConfig)
    requires DbOk(db) && sink.key in db.targets
    ensures var id := db.targets[sink.key].id;
      var next := if sink.enabled then ClearDisabled(db, id) else SoftDisable(db, id, "sink disabled in config");
      && DbOk(next) && Extends(db, next)
      && OnlyChanges(db.targets, next.targets, sink.key) && (next.targets[sink.key].disabled.None? <==> sink.enabled)
  {
    hide ReferencesHold, SourceIdsOk, EventIdsOk, DeliveryIdsOk;
    FlagChanges(db, sink.key, "sink disabled in config");
    hide OnlyChanges, Extends, TargetIdsOk;
    if sink.enabled {
      FlagsKeep(db, ClearDisabled(db, db.targets[sink.key].id));
    } else {
      FlagsKeep(db, SoftDisable(db, db.targets[sink.key].id, "sink disabled in config"));
    }
  }

  /** The row of a reconciled sink: enabled or disabled as configured, and leading to the configured destination, or
      else to the database or to the wake session. */
  ghost predicate SinkSays(sink: SinkConfig, row: TargetRow, databasePath: string, wakeSession: string) {
    && row.kind == sink.kind
    && row.disabled == (if sink.enabled then None else Some("sink disabled in config"))
    && (sink.destination.Some? ==> row.destination == sink.destination.value)
    && (sink.destination.None? && sink.kind == Db ==> row.destination == databasePath)
    && (sink.destination.None? && sink.kind == AgentSessionWake ==> row.destination == wakeSession)
  }

  ghost predicate SinksSay(sinks: seq<SinkConfig>, targets: map<SinkKey, TargetRow>, n: nat, databasePath: string,
                           wakeSession: string)
    requires n <= |sinks|
  {
    forall j :: 0 <= j < n ==>
      sinks[j].key in targets && SinkSays(sinks[j], targets[sinks[j].key], databasePath, wakeSession)
  }

  /** The rows of keys that no sink has. */
  ghost predicate OthersStay(sinks: seq<SinkConfig>, was: map<SinkKey, TargetRow>, targets: map<SinkKey, TargetRow>) {
    forall k :: !Configured(sinks, k) ==> (k in targets <==> k in was) && (k in was ==> targets[k] == was[k])
  }

  lemma ReconciledSinkSays(db: Database, sink: SinkConfig, databasePath: string, wakeSession: string)
    ensures var next := ReconcileSink(db, sink, TargetDestination(sink, databasePath, wakeSession));
      sink.key in next.targets && SinkSays(sink, next.targets[sink.key], databasePath, wakeSession)
  {
  }

  lemma SinksSayOn(sinks: seq<SinkConfig>, was: map<SinkKey, TargetRow>, targets: map<SinkKey, TargetRow>, n: nat,
                   databasePath: string, wakeSession: string)
    requires UniqueSinkKeys(sinks) && n < |sinks| && OnlyChanges(was, targets, sinks[n].key)
    requires SinksSay(sinks, was, n, databasePath, wakeSession)
    requires SinkSays(sinks[n], targets[sinks[n].key], databasePath, wakeSession)
    ensures SinksSay(sinks, targets, n + 1, databasePath, wakeSession)
  {
    hide SinkSays;
  }

  lemma OthersStayOn(sinks: seq<SinkConfig>, start: map<SinkKey, TargetRow>, was: map<SinkKey, TargetRow>,
                     targets: map<SinkKey, TargetRow>, n: nat)
    requires n < |sinks| && OthersStay(sinks, start, was) && OnlyChanges(was, targets, sinks[n].key)
    ensures OthersStay(sinks, start, targets)
  {
    assert Configured(sinks, sinks[n].key);
  }

  lemma {:induction false} ReconcilingSays(db: Database, sinks: seq<SinkConfig>, databasePath: string,
                                           wakeSession: string, n: nat)
    requires DbOk(db) && UniqueSinkKeys(sinks) && n <= |sinks|
    ensures var next := ReconcileSinks(db, sinks[..n], databasePath, wakeSession);
      SinksSay(sinks, next.targets, n, databasePath, wakeSession) && OthersStay(sinks, db.targets, next.targets)
  {
    if n == 0 {
      assert ReconcileSinks(db, sinks[..0], databasePath, wakeSession) == db;
    } else {
      hide DbOk, UniqueSinkKeys, ReconcileSink, TargetDestination, SinksSay, OthersStay, SinkSays;
      ReconcilingSays(db, sinks, databasePath, wakeSession, n - 1);
      ReconcileSinksPrefix(db, sinks, databasePath, wakeSession, n - 1);
      assert sinks[..n][..n - 1] == sinks[..n - 1];
      var before, sink := ReconcileSinks(db, sinks[..n - 1], databasePath, wakeSession), sinks[n - 1];
      ReconcileSinkKeeps(before, sink, TargetDestination(sink, databasePath, wakeSession));
      ReconciledSinkSays(before, sink, databasePath, wakeSession);
      var next := ReconcileSinks(db, sinks[..n], databasePath, wakeSession);
      assert next == ReconcileSink(before, sink, TargetDestination(sink, databasePath, wakeSession));
      hide ReconcileSinks, OnlyChanges;
      SinksSayOn(sinks, before.targets, next.targets, n - 1, databasePath, wakeSession);
      OthersStayOn(sinks, db.targets, before.targets, next.targets, n - 1);
    }
  }

  /** After a reconciliation the row of every configured sink says what its configuration says, and that of any other
      key only has a reason for being disabled, its old one or that it was removed. */
  lemma ReconciledRowsMeaning(db: Database, sinks: seq<SinkConfig>, databasePath: string, wakeSession: string,
                              k: SinkKey)
    requires DbOk(db) && UniqueSinkKeys(sinks)
    ensures var next := DisableMissing(ReconcileSinks(db, sinks, databasePath, wakeSession), sinks).targets;
      && (forall sink <- sinks ::
            sink.key in next && SinkSays(sink, next[sink.key], databasePath, wakeSession))
      && (!Configured(sinks, k) ==> (k in next <==> k in db.targets))
      && (!Configured(sinks, k) && k in next ==>
            next[k] == db.targets[k].(disabled := Some(
              if db.targets[k].disabled.Some? then db.targets[k].disabled.value else "sink removed from config")))
  {
    ReconcilingSays(db, sinks, databasePath, wakeSession, |sinks|);
    assert sinks[..|sinks|] == sinks;
    var reconciled := ReconcileSinks(db, sinks, databasePath, wakeSession);
    hide ReconcileSinks, DbOk, UniqueSinkKeys, SinkSays;
    forall sink | sink in sinks
      ensures sink.key in reconciled.targets
      ensures SinkSays(sink, reconciled.targets[sink.key], databasePath, wakeSession)
      ensures Configured(sinks, sink.key)
    {
      var j :| 0 <= j < |sinks| && sinks[j] == sink;
      assert sinks[j].key in reconciled.targets;
    }
  }

  /** Reconciling deletes no target, keeps every id, and leaves un-disabled exactly the enabled configured keys. */
  lemma ReconcileMeaning(db: Database, sinks: seq<SinkConfig>, databasePath: string, wakeSession: string)
    requires DbOk(db) && UniqueSinkKeys(sinks)
    ensures var next := DisableMissing(ReconcileSinks(db, sinks, databasePath, wakeSession), sinks);
      && Reconciled(sinks, next.targets)
      && forall k <- db.targets :: k in next.targets && next.targets[k].id == db.targets[k].id
  {
    ReconcileSinksPrefix(db, sinks, databasePath, wakeSession, |sinks|);
    assert sinks[..|sinks|] == sinks;
    var reconciled := ReconcileSinks(db, sinks, databasePath, wakeSession);
    hide ReconcileSinks, DbOk, PrefixReconciled;
    DisablingCompletes(reconciled, sinks);
  }
}
