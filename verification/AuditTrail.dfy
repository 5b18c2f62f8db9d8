/** Every delivery row stands on an accepted receptor match, except while and after a rewrite of the match rows
    is cut short; and what exactly such a cut leaves. */
module AuditTrail {
  import opened Attention
  import opened Accounting
  import opened Frames
  import opened Protocol
  import Receptors
  import opened Storage
  import opened Tables
  import opened WorkerInvariant
  import opened Wrappers

  /** Some match of the event is rewritten and more are to come, or its target is about to be upserted. */
  predicate Rewriting(worker: Worker, event: RowId) {
    worker.AtSink? && worker.stage.Matching? && worker.stage.event == event && 0 < worker.stage.done
  }

  ghost predicate Backed(s: State, event: RowId) {
    Accepted(s.db, event) || event in s.hist.cut || Rewriting(s.worker, event)
  }

  /** What a stop let a rewrite write still stands. */
  ghost predicate CutStands(s: State, event: RowId)
    requires event in s.hist.cut
  {
    Rewriting(s.worker, event) || MatchesWritten(s.db, event, s.hist.cut[event], |s.hist.cut[event]|)
  }

  ghost predicate AuditOk(s: State) {
    && (forall k <- s.db.deliveries :: Backed(s, k.event))
    && (forall e <- s.hist.cut :: CutStands(s, e))
  }

  ghost predicate SameMatchTables(was: Database, db: Database) {
    db.matches == was.matches && db.deliveries.Keys == was.deliveries.Keys
  }

  /** The step touches nothing the trail depends on. */
  ghost predicate Quiet(s: State, next: State) {
    && SameMatchTables(s.db, next.db) && next.hist.cut == s.hist.cut
    && forall e :: Rewriting(s.worker, e) <==> Rewriting(next.worker, e)
  }

  lemma SameMatchesSameTrail(was: Database, db: Database, event: RowId, ms: seq<ReceptorMatch>)
    requires db.matches == was.matches
    ensures Accepted(db, event) <==> Accepted(was, event)
    ensures MatchesWritten(db, event, ms, |ms|) <==> MatchesWritten(was, event, ms, |ms|)
  {
  }

  lemma AuditStays(s: State, next: State)
    requires AuditOk(s) && Quiet(s, next)
    ensures AuditOk(next)
  {
    hide Rewriting, Accepted, MatchesWritten;
    forall k | k in next.db.deliveries ensures Backed(next, k.event) {
      assert Backed(s, k.event);
      SameMatchesSameTrail(s.db, next.db, k.event, []);
    }
    forall e | e in next.hist.cut ensures CutStands(next, e) {
      assert CutStands(s, e);
      SameMatchesSameTrail(s.db, next.db, e, s.hist.cut[e]);
    }
  }

  /** Writing matches of one event leaves the acceptance of the others alone. */
  lemma OtherEventsKeepAcceptance(db: Database, event: RowId, m: ReceptorMatch, other: RowId)
    requires other != event
    ensures Accepted(UpsertMatch(db, event, m), other) <==> Accepted(db, other)
  {
    var next := UpsertMatch(db, event, m);
    if Accepted(db, other) {
      var k :| k in db.matches && k.event == other && k.cls != Receptors.Veto && db.matches[k].above;
      assert next.matches[k] == db.matches[k];
    }
    if Accepted(next, other) {
      var k :| k in next.matches && k.event == other && k.cls != Receptors.Veto && next.matches[k].above;
      assert next.matches[k] == db.matches[k];
    }
  }

  lemma OtherEventsKeepWritten(db: Database, event: RowId, m: ReceptorMatch, other: RowId, ms: seq<ReceptorMatch>)
    requires other != event && MatchesWritten(db, other, ms, |ms|)
    ensures MatchesWritten(UpsertMatch(db, event, m), other, ms, |ms|)
  {
  }

  lemma MatchWritingKeepsAudit(cfg: Setup, s: State)
    requires AuditOk(s) && s.worker.AtSink? && s.worker.index < |SelectedSinks(cfg)| && s.worker.stage.Matching?
    requires s.worker.stage.done < |s.worker.result.matches|
    ensures AuditOk(StepRows(cfg, s).value)
  {
    var event, done := s.worker.stage.event, s.worker.stage.done;
    var m := s.worker.result.matches[done];
    var next := StepRows(cfg, s).value;
    assert next == s.(db := UpsertMatch(s.db, event, m), worker := s.worker.(stage := Matching(event, done + 1)));
    MatchFrame(s.db, event, m);
    hide StepRows, Accepted, MatchesWritten, UpsertMatch;
    forall k | k in next.db.deliveries ensures Backed(next, k.event) {
      assert Backed(s, k.event);
      if k.event != event {
        OtherEventsKeepAcceptance(s.db, event, m, k.event);
      }
    }
    forall e | e in next.hist.cut ensures CutStands(next, e) {
      assert CutStands(s, e);
      if e != event {
        OtherEventsKeepWritten(s.db, event, m, e, s.hist.cut[e]);
      }
    }
  }

  /** Once every match is written, the event shows an accepted one. */
  lemma MatchedIsAccepted(cfg: Setup, s: State)
    requires TablesOk(cfg, s) && s.worker.AtSink? && s.worker.stage.Matching?
    requires s.worker.stage.done == |s.worker.result.matches|
    ensures Accepted(s.db, s.worker.stage.event)
  {
    hide DbOk, EventOf, Accepted;
    var event, result := s.worker.stage.event, s.worker.result;
    assert ReceptorAccepted(result) && MatchesWritten(s.db, event, result.matches, |result.matches|);
    WrittenIsAccepted(s.db, event, result);
  }

  lemma MatchingKeepsAudit(cfg: Setup, s: State)
    requires TablesOk(cfg, s) && AuditOk(s) && s.worker.AtSink? && s.worker.stage.Matching?
    requires s.worker.index < |SelectedSinks(cfg)| && StepRows(cfg, s).Some?
    ensures AuditOk(StepRows(cfg, s).value)
  {
    hide Accepted;
    MatchingIsWithin(cfg, s);
    if s.worker.stage.done < |s.worker.result.matches| {
      hide TablesOk, AuditOk, StepRows;
      MatchWritingKeepsAudit(cfg, s);
    } else {
      MatchedIsAccepted(cfg, s);
      hide TablesOk, AuditOk;
      var item, sink := s.worker.item, SelectedSinks(cfg)[s.worker.index];
      var next := StepRows(cfg, s).value;
      TargetFrame(s.db, sink.key, sink.kind, Destination(cfg, sink, item));
      assert next.db == UpsertTarget(s.db, sink.key, sink.kind, Destination(cfg, sink, item));
      hide UpsertTarget, StepRows;
      MatchedKeepsAudit(s, next);
    }
  }

  /** The event of a finished rewrite shows acceptance and is no longer cut. */
  lemma MatchedKeepsAudit(s: State, next: State)
    requires AuditOk(s) && s.worker.AtSink? && s.worker.stage.Matching? && Accepted(s.db, s.worker.stage.event)
    requires SameMatchTables(s.db, next.db) && next.hist.cut == s.hist.cut - {s.worker.stage.event}
    requires next.worker.AtSink? && next.worker.stage.Targeted?
    ensures AuditOk(next)
  {
    hide Accepted, MatchesWritten;
    forall k | k in next.db.deliveries ensures Backed(next, k.event) {
      assert Backed(s, k.event);
      SameMatchesSameTrail(s.db, next.db, k.event, []);
    }
    forall e | e in next.hist.cut ensures CutStands(next, e) {
      assert CutStands(s, e);
      SameMatchesSameTrail(s.db, next.db, e, s.hist.cut[e]);
    }
  }

  /** The one statement that adds a delivery row comes after the matches of its event were written. */
  lemma TargetedKeepsAudit(cfg: Setup, s: State)
    requires TablesOk(cfg, s) && AuditOk(s) && s.worker.AtSink? && s.worker.stage.Targeted?
    requires StepRows(cfg, s).Some?
    ensures AuditOk(StepRows(cfg, s).value)
  {
    hide DbOk, WellFormed, EventOf;
    var next := StepRows(cfg, s).value;
    var event, sink := s.worker.stage.event, SelectedSinks(cfg)[s.worker.index];
    DeliveriesGrowByOne(s.db, event, s.db.targets[sink.key].id);
    hide UpsertDelivery, Accepted, TablesOk, MatchesWritten;
    forall k | k in next.db.deliveries ensures Backed(next, k.event) {
      SameMatchesSameTrail(s.db, next.db, k.event, []);
      if k in s.db.deliveries {
        assert Backed(s, k.event);
      }
    }
    forall e | e in next.hist.cut ensures CutStands(next, e) {
      assert CutStands(s, e);
      SameMatchesSameTrail(s.db, next.db, e, s.hist.cut[e]);
    }
  }

  lemma DeliveriesGrowByOne(db: Database, event: RowId, target: RowId)
    ensures UpsertDelivery(db, event, target).matches == db.matches
    ensures forall k <- UpsertDelivery(db, event, target).deliveries :: k in db.deliveries || k.event == event
  {
    var key := DeliveryKey(event, target);
    if key !in db.deliveries {
      OneMoreKey(db.deliveries, key, DeliveryRow(db.nextId, Queued));
    } else if db.deliveries[key].status != Delivered {
      OneMoreKey(db.deliveries, key, DeliveryRow(db.deliveries[key].id, Queued));
    }
  }

  lemma OneMoreKey(deliveries: map<DeliveryKey, DeliveryRow>, key: DeliveryKey, row: DeliveryRow)
    ensures forall k <- deliveries[key := row] :: k in deliveries || k == key
  {
  }

  lemma RowsKeepAudit(cfg: Setup, s: State)
    requires TablesOk(cfg, s) && AuditOk(s) && s.worker.AtSink? && s.worker.index < |SelectedSinks(cfg)|
    requires StepRows(cfg, s).Some?
    ensures AuditOk(StepRows(cfg, s).value)
  {
    if s.worker.stage.Matching? {
      hide TablesOk, AuditOk, StepRows;
      MatchingKeepsAudit(cfg, s);
    } else if s.worker.stage.Targeted? {
      hide TablesOk, AuditOk, StepRows;
      TargetedKeepsAudit(cfg, s);
    } else {
      hide TablesOk, AuditOk, StepRows;
      EventRowsKeepAudit(cfg, s);
    }
  }

  lemma EventRowsKeepAudit(cfg: Setup, s: State)
    requires AuditOk(s) && s.worker.AtSink? && s.worker.index < |SelectedSinks(cfg)| && StepRows(cfg, s).Some?
    requires !s.worker.stage.Matching? && !s.worker.stage.Targeted?
    ensures AuditOk(StepRows(cfg, s).value)
  {
    EventRowsAreQuiet(cfg, s);
    hide AuditOk, StepRows, Accepted;
    AuditStays(s, StepRows(cfg, s).value);
  }

  lemma EventRowsAreQuiet(cfg: Setup, s: State)
    requires s.worker.AtSink? && s.worker.index < |SelectedSinks(cfg)| && StepRows(cfg, s).Some?
    requires !s.worker.stage.Matching? && !s.worker.stage.Targeted?
    ensures SameMatchTables(s.db, StepRows(cfg, s).value.db) && StepRows(cfg, s).value.hist == s.hist
  {
    hide ReceptorAccepted, UpsertSource, UpsertMatch, UpsertTarget, UpsertDelivery, SelectedSinks, Destination;
    if s.worker.stage.Source? {
      SourceFrame(s.db, s.worker.item.server);
    } else if s.worker.stage.Lookup? {
    } else if s.worker.stage.Inserted? {
    }
  }

  lemma SendKeepsAudit(cfg: Setup, s: State)
    requires AuditOk(s) && s.worker.AtSink? && s.worker.index < |SelectedSinks(cfg)| && StepSend(cfg, s).Some?
    ensures AuditOk(StepSend(cfg, s).value)
  {
    hide MarkStatus, DeliveredById, StartSink, AuditOk, SelectedSinks;
    match s.worker.stage {
      case Ticketed(event, ticket) => MarkFrame(s.db, ticket, Delivered);
      case Attempt(wake) => WakeMarkFrame(s.db, wake, Attempted);
      case Confirm(wake) => WakeMarkFrame(s.db, wake, Delivered);
      case Rejected(wake) => WakeMarkFrame(s.db, wake, Failed);
      case _ =>
    }
    NextSinkIsQuiet(cfg, s.worker.item, s.worker.result, s.worker.index + 1);
    AuditStays(s, StepSend(cfg, s).value);
  }

  lemma NextSinkIsQuiet(cfg: Setup, item: Item, result: AttentionResult, i: nat)
    ensures forall e :: !Rewriting(StartSink(cfg, item, result, i), e) && !Rewriting(Route(cfg, item, result), e)
  {
  }

  lemma EarlyKeepsAudit(cfg: Setup, s: State)
    requires AuditOk(s) && StepAdvance(cfg, s).Some?
    requires s.worker.Recording? || s.worker.Deciding? || s.worker.Reconciling?
    ensures AuditOk(StepAdvance(cfg, s).value)
  {
    hide StartSink, Route, UpsertSource, UpsertDecision, UpsertTarget, ClearDisabled, SoftDisable, DisableMissing,
         AuditOk;
    NextSinkIsQuiet(cfg, s.worker.item, s.worker.result, 0);
    if s.worker.Recording? {
      SourceFrame(s.db, s.worker.item.server);
    } else if s.worker.Deciding? {
      DecisionFrame(s.db, s.db.sources[s.worker.item.server], s.worker.item.id, s.worker.result);
    } else {
      ReconcileFrame(cfg, s);
    }
    AuditStays(s, StepAdvance(cfg, s).value);
  }

  lemma AdvanceKeepsAudit(cfg: Setup, s: State)
    requires TablesOk(cfg, s) && AuditOk(s) && StepAdvance(cfg, s).Some?
    ensures AuditOk(StepAdvance(cfg, s).value)
  {
    hide TablesOk, StepRows, StepSend, StepRecord, StepReconcile, StepMark, AuditOk;
    if s.worker.AtSink? {
      if StepAdvance(cfg, s) == StepRows(cfg, s) {
        RowsKeepAudit(cfg, s);
      } else {
        SendKeepsAudit(cfg, s);
      }
    } else if s.worker.Marking? || s.worker.Flushing? {
      MarkKeepsAudit(s);
    } else {
      EarlyKeepsAudit(cfg, s);
    }
  }

  lemma MarkKeepsAudit(s: State)
    requires AuditOk(s) && (s.worker.Marking? || s.worker.Flushing?) && StepMark(s).Some?
    ensures AuditOk(StepMark(s).value)
  {
    hide AuditOk, Runtime.MarkProcessed;
    AuditStays(s, StepMark(s).value);
  }

  lemma StepKeepsAudit(cfg: Setup, s: State, a: Action)
    requires TablesOk(cfg, s) && AuditOk(s) && Next(cfg, s, a).Some?
    ensures AuditOk(Next(cfg, s, a).value)
  {
    hide TablesOk, StepAdvance, AuditOk, Route;
    match a
    case Advance => AdvanceKeepsAudit(cfg, s);
    case _ => AuditElsewhere(cfg, s, a);
  }

  lemma AuditElsewhere(cfg: Setup, s: State, a: Action)
    requires TablesOk(cfg, s) && AuditOk(s) && !a.Advance? && Next(cfg, s, a).Some?
    ensures AuditOk(Next(cfg, s, a).value)
  {
    hide StepAdvance, AuditOk, Route, TablesOk, Interrupted;
    if a.Halt? || a.Crash? {
      StopKeepsAudit(cfg, s, Next(cfg, s, a).value);
    } else {
      OthersKeepAudit(cfg, s, a);
    }
  }

  lemma OthersKeepAudit(cfg: Setup, s: State, a: Action)
    requires AuditOk(s) && !a.Advance? && !a.Halt? && !a.Crash? && Next(cfg, s, a).Some?
    ensures AuditOk(Next(cfg, s, a).value)
  {
    OthersAreQuiet(cfg, s, a);
    hide AuditOk, Next, Quiet;
    AuditStays(s, Next(cfg, s, a).value);
  }

  lemma OthersAreQuiet(cfg: Setup, s: State, a: Action)
    requires !a.Advance? && !a.Halt? && !a.Crash? && Next(cfg, s, a).Some?
    ensures Quiet(s, Next(cfg, s, a).value)
  {
    hide StepAdvance, Route, StepHalt, StepCrash;
    if a.Decide? {
      NextSinkIsQuiet(cfg, s.worker.item, a.result, 0);
    } else if a.GatewayReply? {
      hide SelectedSinks;
    }
  }

  /** A stop inside a rewrite records what was written of it. */
  lemma StopKeepsAudit(cfg: Setup, s: State, next: State)
    requires TablesOk(cfg, s) && AuditOk(s)
    requires next.db == s.db && !next.worker.AtSink? && next.hist.cut == Interrupted(cfg, s.worker, s.hist).cut
    ensures AuditOk(next)
  {
    if s.worker.AtSink? && s.worker.stage.Matching? && 0 < s.worker.stage.done {
      var event, done, ms := s.worker.stage.event, s.worker.stage.done, s.worker.result.matches;
      MatchingIsWritten(cfg, s);
      hide TablesOk, Accepted, MatchesWritten;
      assert next.hist.cut == s.hist.cut[event := ms[..done]];
      hide Interrupted;
      forall k | k in next.db.deliveries ensures Backed(next, k.event) {
        assert Backed(s, k.event);
      }
      forall e | e in next.hist.cut ensures CutStands(next, e) {
        if e != event {
          assert CutStands(s, e);
        }
      }
    } else {
      hide TablesOk;
      assert next.hist.cut == s.hist.cut;
      hide Interrupted, AuditOk;
      AuditStays(s, next);
    }
  }

  /** The matches written so far stand. */
  lemma MatchingIsWritten(cfg: Setup, s: State)
    requires TablesOk(cfg, s) && s.worker.AtSink? && s.worker.stage.Matching?
    ensures s.worker.index < |SelectedSinks(cfg)| && s.worker.stage.done <= |s.worker.result.matches|
    ensures var ms := s.worker.result.matches[..s.worker.stage.done];
      MatchesWritten(s.db, s.worker.stage.event, ms, |ms|)
  {
    hide DbOk, EventOf, WellFormed;
  }

  // ----- What a cut rewrite leaves -----

  ghost predicate DistinctMatches(ms: seq<ReceptorMatch>) {
    forall i, j :: 0 <= i < j < |ms| ==> KeyOfMatch(0, ms[i]) != KeyOfMatch(0, ms[j])
  }

  /** An accepted row of the event that the rewrite does not touch. */
  ghost predicate KeptAcceptance(db: Database, event: RowId, ms: seq<ReceptorMatch>) {
    exists k <- db.matches ::
      && k.event == event && k.cls != Receptors.Veto && db.matches[k].above
      && Untouched(event, ms, k)
  }

  ghost predicate Untouched(event: RowId, ms: seq<ReceptorMatch>, k: MatchKey) {
    forall j :: 0 <= j < |ms| ==> KeyOfMatch(event, ms[j]) != k
  }

  lemma {:induction false} RowsAfterRewrite(db: Database, event: RowId, ms: seq<ReceptorMatch>)
    requires DistinctMatches(ms)
    ensures MatchesWritten(UpsertMatches(db, event, ms), event, ms, |ms|)
    decreases |ms|
  {
    if ms != [] {
      var front, last := ms[..|ms| - 1], ms[|ms| - 1];
      RowsAfterRewrite(db, event, front);
      forall j | 0 <= j < |front| ensures KeyOfMatch(event, front[j]) != KeyOfMatch(event, last) {
        assert KeyOfMatch(0, ms[j]) != KeyOfMatch(0, ms[|ms| - 1]);
      }
    }
  }

  lemma {:induction false} RewriteLeavesTheRest(db: Database, event: RowId, ms: seq<ReceptorMatch>, k: MatchKey)
    requires Untouched(event, ms, k)
    ensures k in UpsertMatches(db, event, ms).matches <==> k in db.matches
    ensures k in db.matches ==> UpsertMatches(db, event, ms).matches[k] == db.matches[k]
    decreases |ms|
  {
    if ms != [] {
      var front := ms[..|ms| - 1];
      assert Untouched(event, front, k) by {
        assert forall j :: 0 <= j < |front| ==> front[j] == ms[j];
      }
      assert KeyOfMatch(event, ms[|ms| - 1]) != k;
      hide Untouched;
      RewriteLeavesTheRest(db, event, front, k);
    }
  }

  ghost predicate WrittenAccepted(ms: seq<ReceptorMatch>) {
    exists m <- ms :: m.above && m.cls != Receptors.Veto
  }

  lemma AcceptedAfterRewrite(db: Database, event: RowId, ms: seq<ReceptorMatch>)
    requires DistinctMatches(ms) && Accepted(UpsertMatches(db, event, ms), event)
    ensures WrittenAccepted(ms) || KeptAcceptance(db, event, ms)
  {
    RowsAfterRewrite(db, event, ms);
    hide DistinctMatches;
    var next := UpsertMatches(db, event, ms);
    hide UpsertMatches;
    var k :| k in next.matches && k.event == event && k.cls != Receptors.Veto && next.matches[k].above;
    if j :| 0 <= j < |ms| && KeyOfMatch(event, ms[j]) == k {
      assert ms[j] in ms && ms[j].above && ms[j].cls != Receptors.Veto;
    } else {
      assert Untouched(event, ms, k);
      RewriteLeavesTheRest(db, event, ms, k);
    }
  }

  lemma RewriteAccepts(db: Database, event: RowId, ms: seq<ReceptorMatch>)
    requires DistinctMatches(ms) && (WrittenAccepted(ms) || KeptAcceptance(db, event, ms))
    ensures Accepted(UpsertMatches(db, event, ms), event)
  {
    var next := UpsertMatches(db, event, ms);
    if WrittenAccepted(ms) {
      RowsAfterRewrite(db, event, ms);
      hide UpsertMatches, DistinctMatches;
      var m :| m in ms && m.above && m.cls != Receptors.Veto;
      var j :| 0 <= j < |ms| && ms[j] == m;
      assert next.matches[KeyOfMatch(event, ms[j])].above;
    } else {
      hide UpsertMatches, DistinctMatches;
      var k :| k in db.matches && k.event == event && k.cls != Receptors.Veto && db.matches[k].above
        && Untouched(event, ms, k);
      RewriteLeavesTheRest(db, event, ms, k);
      assert next.matches[k].above;
    }
  }

  /** After any number of the rewrite's statements the event shows an accepted match exactly when one of those
      written is accepted, or an accepted row from before is not among those written. */
  lemma AcceptanceAfterStop(db: Database, event: RowId, ms: seq<ReceptorMatch>, done: nat)
    requires DistinctMatches(ms) && done <= |ms|
    ensures Accepted(UpsertMatches(db, event, ms[..done]), event) <==>
      WrittenAccepted(ms[..done]) || KeptAcceptance(db, event, ms[..done])
  {
    assert DistinctMatches(ms[..done]);
    hide DistinctMatches, UpsertMatches, Accepted, WrittenAccepted, KeptAcceptance;
    if Accepted(UpsertMatches(db, event, ms[..done]), event) {
      AcceptedAfterRewrite(db, event, ms[..done]);
    }
    if WrittenAccepted(ms[..done]) || KeptAcceptance(db, event, ms[..done]) {
      RewriteAccepts(db, event, ms[..done]);
    }
  }

  /** While rows of some matches stand as written, the event shows an accepted match exactly when one of them is
      accepted, or an accepted row is not among them. */
  lemma WrittenShows(db: Database, event: RowId, ms: seq<ReceptorMatch>)
    requires MatchesWritten(db, event, ms, |ms|)
    ensures Accepted(db, event) <==> WrittenAccepted(ms) || KeptAcceptance(db, event, ms)
  {
    if Accepted(db, event) {
      var k :| k in db.matches && k.event == event && k.cls != Receptors.Veto && db.matches[k].above;
      if j :| 0 <= j < |ms| && KeyOfMatch(event, ms[j]) == k {
        assert ms[j] in ms && ms[j].above && ms[j].cls != Receptors.Veto;
      } else {
        assert Untouched(event, ms, k);
      }
    }
    if WrittenAccepted(ms) {
      var m :| m in ms && m.above && m.cls != Receptors.Veto;
      var j :| 0 <= j < |ms| && ms[j] == m;
      assert db.matches[KeyOfMatch(event, ms[j])].above;
    }
  }

  /** The match rows of the event that its last rewrite wrote, if that rewrite is going on or was cut short. */
  function LastWritten(s: State, event: RowId): Option<seq<ReceptorMatch>> {
    if Rewriting(s.worker, event) then
      var ms, done := s.worker.result.matches, s.worker.stage.done;
      if done <= |ms| then Some(ms[..done]) else None
    else if event in s.hist.cut then Some(s.hist.cut[event])
    else None
  }

  /** An event whose rewrites all ended shows acceptance as soon as it has a delivery; the others show it exactly
      when what was written, or a row left from before, is accepted. */
  ghost predicate Shows(s: State, event: RowId) {
    var ms := LastWritten(s, event);
    ms.Some? ==> WrittenAccepted(ms.value) || KeptAcceptance(s.db, event, ms.value)
  }

  lemma TrailIsExact(cfg: Setup, s: State, event: RowId)
    requires TablesOk(cfg, s) && AuditOk(s)
    ensures LastWritten(s, event).Some? ==> (Accepted(s.db, event) <==> Shows(s, event))
    ensures (exists k <- s.db.deliveries :: k.event == event) ==> (Accepted(s.db, event) <==> Shows(s, event))
  {
    hide Accepted, MatchesWritten, WrittenAccepted, KeptAcceptance;
    if Rewriting(s.worker, event) {
      MatchingIsWritten(cfg, s);
      hide TablesOk;
      WrittenShows(s.db, event, s.worker.result.matches[..s.worker.stage.done]);
    } else if event in s.hist.cut {
      hide TablesOk;
      assert CutStands(s, event);
      WrittenShows(s.db, event, s.hist.cut[event]);
    } else {
      hide TablesOk;
      if k :| k in s.db.deliveries && k.event == event {
        assert Backed(s, k.event);
      }
    }
  }
}
