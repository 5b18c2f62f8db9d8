/** The delivery guard of storage agrees with the evaluator, and the matches of a result fall on different rows. */
module GuardAgreement {
  import opened Attention
  import opened AttentionLaws
  import Protocol
  import opened Receptors
  import Storage
  import opened Wrappers

  lemma WildcardIsAccepted(ms: seq<ReceptorMatch>, r: Receptor)
    requires r.IsWildcard() && WildcardMatch(r) in ms
    ensures exists m <- SortByScore(ms) :: m.above && m.cls != Veto
  {
    SortIsASortedPermutation(ms);
    assert WildcardMatch(r) in SortByScore(ms);
  }

  lemma InterestIsAccepted(layer: Layer, message: Embedding, score: Score)
    requires AnyAbove(Scored(layer.receptors, false, message, score))
    ensures exists m <- SortByScore(AllScored(layer, message, score)) :: m.above && m.cls != Veto
  {
    var ms := AllScored(layer, message, score);
    var m :| m in Scored(layer.receptors, false, message, score) && m.above;
    ScoredMembers(layer.receptors, false, message, score);
    assert m in ms;
    SortIsASortedPermutation(ms);
    assert m in SortByScore(ms);
  }

  /** Storage lets a result feed a sink exactly when the evaluator said deliver, for any layer whatever. */
  lemma GuardAcceptsExactlyDeliver(layer: Layer, supplied: Option<seq<Embedding>>, score: Score)
    ensures Storage.ReceptorAccepted(Evaluate(layer, supplied, score)) <==> Evaluate(layer, supplied, score).deliver
  {
    if Evaluate(layer, supplied, score).deliver {
      var message := Selected(layer, supplied);
      var wildcard := FirstWildcard(layer.receptors);
      if message.None? {
        WildcardIsAccepted([WildcardMatch(wildcard.value)], wildcard.value);
        hide SortByScore, Scored, FirstWildcard;
      } else {
        if wildcard.Some? {
          assert WildcardMatch(wildcard.value) in AllScored(layer, message.value, score);
          WildcardIsAccepted(AllScored(layer, message.value, score), wildcard.value);
        } else {
          InterestIsAccepted(layer, message.value, score);
        }
        hide SortByScore, AllScored, Scored, AnyAbove, FirstWildcard;
      }
    }
  }

  // ----- One match per receptor -----

  ghost predicate DistinctReceptors(rs: seq<Receptor>) {
    forall i, j :: 0 <= i < j < |rs| ==> rs[i].id != rs[j].id
  }

  ghost predicate DistinctIds(ms: seq<ReceptorMatch>) {
    forall i, j :: 0 <= i < j < |ms| ==> ms[i].id != ms[j].id
  }

  ghost predicate NoSharedId(a: seq<ReceptorMatch>, b: seq<ReceptorMatch>) {
    forall x <- a, y <- b :: x.id != y.id
  }

  lemma {:induction false} ScoredAreDistinct(rs: seq<Receptor>, vetoes: bool, message: Embedding, score: Score)
    requires DistinctReceptors(rs)
    ensures DistinctIds(Scored(rs, vetoes, message, score))
    decreases |rs|
  {
    if rs != [] {
      var front, last := rs[..|rs| - 1], rs[|rs| - 1];
      ScoredAreDistinct(front, vetoes, message, score);
      ScoredMembers(front, vetoes, message, score);
      forall m | m in Scored(front, vetoes, message, score) ensures m.id != last.id {
        var r :| r in front && r.IsVeto() == vetoes && r.Comparable(message.space) && m == Matched(r, message, score);
        var i :| 0 <= i < |front| && rs[i] == r;
        assert rs[i].id != rs[|rs| - 1].id;
      }
    }
  }

  lemma SameIdSameReceptor(rs: seq<Receptor>, a: Receptor, b: Receptor)
    requires DistinctReceptors(rs) && a in rs && b in rs && a.id == b.id
    ensures a == b
  {
  }

  lemma VetoesAndInterestsAreApart(rs: seq<Receptor>, message: Embedding, score: Score)
    requires DistinctReceptors(rs)
    ensures NoSharedId(Scored(rs, true, message, score), Scored(rs, false, message, score))
  {
    ScoredMembers(rs, true, message, score);
    ScoredMembers(rs, false, message, score);
    forall x, y | x in Scored(rs, true, message, score) && y in Scored(rs, false, message, score) ensures x.id != y.id {
      var a :| a in rs && a.IsVeto() && a.Comparable(message.space) && x == Matched(a, message, score);
      var b :| b in rs && !b.IsVeto() && b.Comparable(message.space) && y == Matched(b, message, score);
      if a.id == b.id {
        SameIdSameReceptor(rs, a, b);
        assert false;
      }
    }
  }

  /** A wildcard has no vector, so it is never scored besides. */
  lemma WildcardIsApart(rs: seq<Receptor>, vetoes: bool, message: Embedding, score: Score, wildcard: Receptor)
    requires DistinctReceptors(rs) && wildcard in rs && wildcard.vector.None?
    ensures NoSharedId(Scored(rs, vetoes, message, score), [WildcardMatch(wildcard)])
  {
    ScoredMembers(rs, vetoes, message, score);
    forall x | x in Scored(rs, vetoes, message, score) ensures x.id != wildcard.id {
      var a :| a in rs && a.IsVeto() == vetoes && a.Comparable(message.space) && x == Matched(a, message, score);
      if a.id == wildcard.id {
        SameIdSameReceptor(rs, a, wildcard);
        assert false;
      }
    }
  }

  lemma DistinctTogether(a: seq<ReceptorMatch>, b: seq<ReceptorMatch>)
    requires DistinctIds(a) && DistinctIds(b) && NoSharedId(a, b)
    ensures DistinctIds(a + b)
  {
  }

  lemma AllScoredAreDistinct(layer: Layer, message: Embedding, score: Score)
    requires Ready(layer)
    ensures DistinctIds(AllScored(layer, message, score))
  {
    var rs := layer.receptors;
    var vetoes, interests := Scored(rs, true, message, score), Scored(rs, false, message, score);
    ScoredAreDistinct(rs, true, message, score);
    ScoredAreDistinct(rs, false, message, score);
    VetoesAndInterestsAreApart(rs, message, score);
    DistinctTogether(vetoes, interests);
    var wildcard := FirstWildcard(rs);
    if wildcard.Some? {
      WildcardIsApart(rs, true, message, score, wildcard.value);
      WildcardIsApart(rs, false, message, score, wildcard.value);
      DistinctTogether(vetoes + interests, [WildcardMatch(wildcard.value)]);
    } else {
      assert AllScored(layer, message, score) == vetoes + interests;
    }
  }

  lemma {:induction false} InsertKeepsDistinct(m: ReceptorMatch, sorted: seq<ReceptorMatch>)
    requires DistinctIds(sorted) && NoSharedId([m], sorted)
    ensures DistinctIds(InsertByScore(m, sorted))
  {
    if sorted != [] && m.score < sorted[0].score {
      var rest := InsertByScore(m, sorted[1..]);
      InsertKeepsDistinct(m, sorted[1..]);
      InsertMembers(m, sorted[1..]);
      forall x | x in rest ensures x.id != sorted[0].id {
        assert m in [m];
      }
    }
  }

  lemma {:induction false} InsertMembers(m: ReceptorMatch, sorted: seq<ReceptorMatch>)
    ensures forall x :: x in InsertByScore(m, sorted) <==> x == m || x in sorted
  {
    if sorted != [] {
      InsertMembers(m, sorted[1..]);
      assert sorted == [sorted[0]] + sorted[1..];
    }
  }

  lemma {:induction false} SortKeepsDistinct(ms: seq<ReceptorMatch>)
    requires DistinctIds(ms)
    ensures DistinctIds(SortByScore(ms))
  {
    if ms != [] {
      SortKeepsDistinct(ms[1..]);
      SortIsASortedPermutation(ms[1..]);
      InsertKeepsDistinct(ms[0], SortByScore(ms[1..]));
    }
  }

  lemma ReadyLayerMatchesOnce(layer: Layer, supplied: Option<seq<Embedding>>, score: Score)
    requires LayerOk(layer)
    ensures DistinctIds(Evaluate(layer, supplied, score).matches)
  {
    var message := Selected(layer, supplied);
    if !layer.degraded && !layer.vetoUnavailable && layer.receptors != [] {
      if message.None? {
        var wildcard := FirstWildcard(layer.receptors);
        if wildcard.Some? {
          SortKeepsDistinct([WildcardMatch(wildcard.value)]);
        }
      } else {
        WithVectorMatchesOnce(layer, message.value, score);
      }
    }
  }

  lemma WithVectorMatchesOnce(layer: Layer, message: Embedding, score: Score)
    requires Ready(layer)
    ensures DistinctIds(WithVector(layer, message, score).matches)
  {
    var veto := FirstVeto(layer.receptors, message, score);
    FirstVetoBounds(layer.receptors, message, score);
    if veto.Some? {
      var scanned := layer.receptors[..veto.value];
      assert DistinctReceptors(scanned);
      ScoredAreDistinct(scanned, true, message, score);
      SortKeepsDistinct(Scored(scanned, true, message, score));
    } else if !HasInterest(layer.receptors) {
      ScoredAreDistinct(layer.receptors, true, message, score);
      SortKeepsDistinct(Scored(layer.receptors, true, message, score));
    } else {
      AllScoredAreDistinct(layer, message, score);
      SortKeepsDistinct(AllScored(layer, message, score));
    }
  }

  /** What evaluation needs of a layer that works; every built layer has it. */
  ghost predicate LayerOk(layer: Layer) {
    !layer.degraded && !layer.vetoUnavailable ==> Ready(layer)
  }

  lemma LayerOkIsWellFormed(layer: Layer, supplied: Option<seq<Embedding>>, score: Score)
    requires LayerOk(layer)
    ensures Protocol.WellFormed(Evaluate(layer, supplied, score))
  {
    GuardAcceptsExactlyDeliver(layer, supplied, score);
    ReadyLayerMatchesOnce(layer, supplied, score);
    var ms := Evaluate(layer, supplied, score).matches;
    forall i, j | 0 <= i < j < |ms| ensures Storage.KeyOfMatch(0, ms[i]) != Storage.KeyOfMatch(0, ms[j]) {
      assert ms[i].id != ms[j].id;
    }
  }

  lemma BuiltLayerIsOk(config: Config, embed: Embedder)
    requires config.packs.Some? && config.packs.value.Ok? ==> UniqueIds(config.packs.value.value)
    ensures LayerOk(Build(config, embed))
  {
    if !Build(config, embed).degraded && !Build(config, embed).vetoUnavailable {
      BuiltLayerIsReady(config, embed);
    }
  }

  /** Every result of a layer built from loaded packs passes the guard exactly when it delivers and lists every
      receptor once: what the delivery protocol asks of its evaluator. */
  lemma BuiltLayersAreWellFormed(config: Config, embed: Embedder, supplied: Option<seq<Embedding>>, score: Score)
    requires config.packs.Some? && config.packs.value.Ok? ==> UniqueIds(config.packs.value.value)
    ensures Protocol.WellFormed(Evaluate(Build(config, embed), supplied, score))
  {
    BuiltLayerIsOk(config, embed);
    LayerOkIsWellFormed(Build(config, embed), supplied, score);
  }

  // ----- Runs fed by real layers -----

  /** The result came from evaluating some message with some layer built from packs with unique ids. */
  ghost predicate Evaluated(result: AttentionResult) {
    exists config: Config, embed: Embedder, supplied, score: Score ::
      && (config.packs.Some? && config.packs.value.Ok? ==> UniqueIds(config.packs.value.value))
      && result == Evaluate(Build(config, embed), supplied, score)
  }

  /** Hence runs whose decisions were made by built layers are runs the delivery theorems speak of. */
  lemma BuiltLayersFeedTheProtocol(actions: seq<Protocol.Action>)
    requires forall a <- actions :: a.Decide? ==> Evaluated(a.result)
    ensures Protocol.FromEvaluator(actions)
  {
    hide Protocol.WellFormed;
    forall a | a in actions && a.Decide? ensures Protocol.WellFormed(a.result) {
      var config: Config, embed: Embedder, supplied, score: Score :|
        && (config.packs.Some? && config.packs.value.Ok? ==> UniqueIds(config.packs.value.value))
        && a.result == Evaluate(Build(config, embed), supplied, score);
      BuiltLayersAreWellFormed(config, embed, supplied, score);
    }
  }
}
