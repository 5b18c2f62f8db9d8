/** What attention decisions mean: the declarative reading of evaluation, its independence of receptor order,
    its monotonicity, and what construction adds to it. */
module AttentionLaws {
  import opened Attention
  import opened Receptors
  import opened Wrappers
  import Text

  // ----- Scans as statements about membership -----

  ghost predicate VetoHit(rs: seq<Receptor>, message: Embedding, score: Score) {
    exists r <- rs :: r.IsVeto() && Hits(r, message, score)
  }

  ghost predicate InterestHit(rs: seq<Receptor>, message: Embedding, score: Score) {
    exists r <- rs :: !r.IsVeto() && Hits(r, message, score)
  }

  predicate HasWildcard(rs: seq<Receptor>) {
    exists r <- rs :: r.IsWildcard()
  }

  lemma SplitLast(rs: seq<Receptor>)
    requires rs != []
    ensures forall r :: r in rs <==> r in rs[..|rs| - 1] || r == rs[|rs| - 1]
  {
    assert rs == rs[..|rs| - 1] + [rs[|rs| - 1]];
  }

  lemma {:induction false} FirstVetoIffHit(rs: seq<Receptor>, message: Embedding, score: Score)
    ensures FirstVeto(rs, message, score).Some? <==> VetoHit(rs, message, score)
    decreases |rs|
  {
    if rs != [] {
      FirstVetoIffHit(rs[..|rs| - 1], message, score);
      SplitLast(rs);
    }
  }

  /** A match is scored exactly when its receptor is of the kind asked for and comparable. */
  lemma {:induction false} ScoredMembers(rs: seq<Receptor>, vetoes: bool, message: Embedding, score: Score)
    ensures forall m :: m in Scored(rs, vetoes, message, score) <==>
      (exists r <- rs :: r.IsVeto() == vetoes && r.Comparable(message.space) && m == Matched(r, message, score))
    decreases |rs|
  {
    if rs != [] {
      var front, last := rs[..|rs| - 1], rs[|rs| - 1];
      ScoredMembers(front, vetoes, message, score);
      SplitLast(rs);
      forall m ensures m in Scored(rs, vetoes, message, score) <==>
        (exists r <- rs :: r.IsVeto() == vetoes && r.Comparable(message.space) && m == Matched(r, message, score))
      {
        if m in Scored(front, vetoes, message, score) {
          var r :| r in front && r.IsVeto() == vetoes && r.Comparable(message.space) && m == Matched(r, message, score);
          assert r in rs;
        }
        if last.IsVeto() == vetoes && last.Comparable(message.space) && m == Matched(last, message, score) {
          assert last in rs;
        }
      }
    }
  }

  lemma AboveIffInterestHit(rs: seq<Receptor>, message: Embedding, score: Score)
    ensures AnyAbove(Scored(rs, false, message, score)) <==> InterestHit(rs, message, score)
  {
    ScoredMembers(rs, false, message, score);
    if InterestHit(rs, message, score) {
      var r :| r in rs && !r.IsVeto() && Hits(r, message, score);
      assert Matched(r, message, score) in Scored(rs, false, message, score);
    }
  }

  lemma WildcardIffFound(rs: seq<Receptor>)
    ensures FirstWildcard(rs).Some? <==> HasWildcard(rs)
  {
  }

  lemma {:induction false} FoundInSpace(embeddings: seq<Embedding>, space: string)
    ensures FindSpace(embeddings, space).Some? <==> exists e <- embeddings :: e.space == space
    ensures FindSpace(embeddings, space).Some? ==>
      FindSpace(embeddings, space).value in embeddings && FindSpace(embeddings, space).value.space == space
  {
    if embeddings != [] && embeddings[0].space != space {
      FoundInSpace(embeddings[1..], space);
    }
  }

  // ----- The decision -----

  /** Everything about the receptors that a decision depends on. */
  datatype Facts = Facts(any: bool, veto: bool, interest: bool, wildcard: bool, vetoHit: bool, interestHit: bool)

  ghost function FactsOf(rs: seq<Receptor>, message: Option<Embedding>, score: Score): Facts {
    Facts(rs != [], HasVeto(rs), HasInterest(rs), HasWildcard(rs),
          message.Some? && VetoHit(rs, message.value, score),
          message.Some? && InterestHit(rs, message.value, score))
  }

  ghost predicate MayDeliver(layer: Layer, message: Option<Embedding>, score: Score) {
    && !layer.vetoUnavailable
    && !layer.degraded
    && (HasVeto(layer.receptors) ==> message.Some?)
    && (message.Some? ==> !VetoHit(layer.receptors, message.value, score))
    && (HasWildcard(layer.receptors) || (message.Some? && InterestHit(layer.receptors, message.value, score)))
  }

  /** A message is delivered exactly when the layer works, vetoes could be and were all cleared, and a wildcard
      or an interest receptor accepts it. */
  lemma DeliverMeaning(layer: Layer, supplied: Option<seq<Embedding>>, score: Score)
    ensures Evaluate(layer, supplied, score).deliver <==> MayDeliver(layer, Selected(layer, supplied), score)
    ensures Evaluate(layer, supplied, score).deliver <==> Evaluate(layer, supplied, score).disposition == Deliver
    ensures Evaluate(layer, supplied, score).vetoNotEvaluated <==>
      && !layer.vetoUnavailable && !layer.degraded && HasVeto(layer.receptors) && Selected(layer, supplied).None?
    ensures Evaluate(layer, supplied, score).disposition == Vetoed <==>
      && !layer.vetoUnavailable && !layer.degraded && Selected(layer, supplied).Some?
      && VetoHit(layer.receptors, Selected(layer, supplied).value, score)
  {
    var message := Selected(layer, supplied);
    WildcardIffFound(layer.receptors);
    if message.Some? {
      FirstVetoIffHit(layer.receptors, message.value, score);
      AboveIffInterestHit(layer.receptors, message.value, score);
    }
  }

  ghost predicate SameReceptors(a: Layer, b: Layer) {
    && a == b.(receptors := a.receptors)
    && forall r :: r in a.receptors <==> r in b.receptors
  }

  lemma SameFacts(a: Layer, b: Layer, message: Option<Embedding>, score: Score)
    requires SameReceptors(a, b)
    ensures FactsOf(a.receptors, message, score) == FactsOf(b.receptors, message, score)
  {
    assert a.receptors != [] ==> a.receptors[0] in b.receptors;
    assert b.receptors != [] ==> b.receptors[0] in a.receptors;
  }

  lemma DecisionDependsOnFacts(a: Layer, b: Layer, supplied: Option<seq<Embedding>>, score: Score)
    requires a == b.(receptors := a.receptors)
    requires FactsOf(a.receptors, Selected(a, supplied), score) == FactsOf(b.receptors, Selected(a, supplied), score)
    ensures Evaluate(a, supplied, score).(matches := []) == Evaluate(b, supplied, score).(matches := [])
  {
    var message := Selected(a, supplied);
    WildcardIffFound(a.receptors);
    WildcardIffFound(b.receptors);
    assert a.receptors == [] <==> b.receptors == [] by {
      assert FactsOf(a.receptors, message, score).any == FactsOf(b.receptors, message, score).any;
    }
    if message.Some? {
      FirstVetoIffHit(a.receptors, message.value, score);
      FirstVetoIffHit(b.receptors, message.value, score);
      AboveIffInterestHit(a.receptors, message.value, score);
      AboveIffInterestHit(b.receptors, message.value, score);
    }
  }

  /** Loading the same receptors in another order changes nothing but the listed matches: not the decision, its
      disposition, the space reported, the fallback flag or the unevaluated-veto flag. */
  lemma OrderDoesNotMatter(a: Layer, b: Layer, supplied: Option<seq<Embedding>>, score: Score)
    requires SameReceptors(a, b)
    ensures Evaluate(a, supplied, score).(matches := []) == Evaluate(b, supplied, score).(matches := [])
  {
    SameFacts(a, b, Selected(a, supplied), score);
    DecisionDependsOnFacts(a, b, supplied, score);
  }

  /** `b` has the receptors of `a` and one more, wherever it stands. */
  ghost predicate OneMore(a: Layer, b: Layer, extra: Receptor) {
    && a == b.(receptors := a.receptors)
    && forall r :: r in b.receptors <==> r in a.receptors || r == extra
  }

  lemma AddingAVetoNeverDelivers(a: Layer, b: Layer, veto: Receptor, supplied: Option<seq<Embedding>>, score: Score)
    requires OneMore(a, b, veto) && veto.IsVeto()
    ensures Evaluate(b, supplied, score).deliver ==> Evaluate(a, supplied, score).deliver
  {
    DeliverMeaning(a, supplied, score);
    DeliverMeaning(b, supplied, score);
  }

  lemma AddingAnInterestNeverRefuses(a: Layer, b: Layer, interest: Receptor, supplied: Option<seq<Embedding>>,
                                     score: Score)
    requires OneMore(a, b, interest) && !interest.IsVeto()
    ensures Evaluate(a, supplied, score).deliver ==> Evaluate(b, supplied, score).deliver
  {
    DeliverMeaning(a, supplied, score);
    DeliverMeaning(b, supplied, score);
    if Evaluate(a, supplied, score).deliver {
      if HasVeto(b.receptors) {
        var r :| r in b.receptors && r.IsVeto();
        assert r in a.receptors;
      }
    }
  }

  // ----- Sorting -----

  ghost predicate Descending(ms: seq<ReceptorMatch>) {
    forall i, j :: 0 <= i < j < |ms| ==> ms[j].score <= ms[i].score
  }

  lemma {:induction false} InsertIsAPermutation(m: ReceptorMatch, sorted: seq<ReceptorMatch>)
    ensures multiset(InsertByScore(m, sorted)) == multiset(sorted) + multiset{m}
  {
    if sorted != [] && m.score < sorted[0].score {
      InsertIsAPermutation(m, sorted[1..]);
      assert sorted == [sorted[0]] + sorted[1..];
    }
  }

  lemma {:induction false} InsertKeepsDescending(m: ReceptorMatch, sorted: seq<ReceptorMatch>)
    requires Descending(sorted)
    ensures Descending(InsertByScore(m, sorted))
  {
    if sorted != [] && m.score < sorted[0].score {
      var rest := InsertByScore(m, sorted[1..]);
      InsertKeepsDescending(m, sorted[1..]);
      InsertIsAPermutation(m, sorted[1..]);
      forall j | 0 <= j < |rest| ensures rest[j].score <= sorted[0].score {
        assert rest[j] in multiset(rest);
        if rest[j] != m {
          assert rest[j] in multiset(sorted[1..]);
          assert rest[j] in sorted[1..];
        }
      }
    }
  }

  /** The matches reported are those collected, best score first. */
  lemma {:induction false} SortIsASortedPermutation(ms: seq<ReceptorMatch>)
    ensures Descending(SortByScore(ms))
    ensures multiset(SortByScore(ms)) == multiset(ms)
    ensures forall m :: m in SortByScore(ms) <==> m in ms
  {
    if ms != [] {
      SortIsASortedPermutation(ms[1..]);
      InsertKeepsDescending(ms[0], SortByScore(ms[1..]));
      InsertIsAPermutation(ms[0], SortByScore(ms[1..]));
      assert ms == [ms[0]] + ms[1..];
    }
    forall m ensures m in SortByScore(ms) <==> m in ms {
      assert m in multiset(SortByScore(ms)) <==> m in multiset(ms);
    }
  }

  // ----- What construction guarantees -----

  /** What a layer built from valid definitions satisfies while it is neither degraded nor without its vetoes. */
  ghost predicate Ready(layer: Layer) {
    && (forall r <- layer.receptors :: r.IsWildcard() <==> r.vector.None?)
    && (forall r <- layer.receptors :: !r.IsWildcard() ==> layer.space.Some? && r.Comparable(layer.space.value))
    && (forall i, j :: 0 <= i < j < |layer.receptors| ==> layer.receptors[i].id != layer.receptors[j].id)
  }

  lemma {:induction false} MaterializedFollowsDefinitions(defs: seq<Definition>, space: string, embed: Embedder)
    requires MaterializedAll(defs, space, embed).ok
    ensures |MaterializedAll(defs, space, embed).receptors| == |defs|
    ensures forall i :: 0 <= i < |defs| ==>
      Materialized(defs[i], space, embed) == Ok(MaterializedAll(defs, space, embed).receptors[i])
    decreases |defs|
  {
    if defs != [] {
      MaterializedFollowsDefinitions(defs[..|defs| - 1], space, embed);
    }
  }

  /** A layer that is neither degraded nor missing its vetoes turned every definition into a receptor, in
      order, with the class and threshold asked for and a vector in the layer's own space. */
  lemma BuiltLayerIsReady(config: Config, embed: Embedder)
    requires config.packs.Some? && config.packs.value.Ok? ==> UniqueIds(config.packs.value.value)
    requires !Build(config, embed).degraded && !Build(config, embed).vetoUnavailable
    ensures Ready(Build(config, embed))
    ensures config.packs.None? ==> Build(config, embed).receptors == []
    ensures config.packs.Some? ==>
      && config.packs.value.Ok?
      && Build(config, embed).space.Some?
      && |Build(config, embed).receptors| == |config.packs.value.value|
      && forall i :: 0 <= i < |config.packs.value.value| ==>
           Materialized(config.packs.value.value[i], Build(config, embed).space.value, embed)
           == Ok(Build(config, embed).receptors[i])
  {
    if config.packs.Some? && config.packs.value.Ok? {
      var defs := config.packs.value.value;
      var plugin := Plugin(config);
      MaterializedFollowsDefinitions(defs, plugin.value.space, embed);
      var layer := Build(config, embed);
      forall i, j | 0 <= i < j < |layer.receptors| ensures layer.receptors[i].id != layer.receptors[j].id {
        assert layer.receptors[i].id == defs[i].id && layer.receptors[j].id == defs[j].id;
      }
    }
  }

  /** The vector a definition is judged by: the last one embedded from its trimmed query. */
  ghost predicate JudgedBy(def: Definition, vector: Vector, embed: Embedder) {
    var vectors := embed(Text.Trim(def.query));
    vectors.Ok? && vectors.value != [] && vector == vectors.value[|vectors.value| - 1]
  }

  /** A delivered message had a vector in the layer's space whenever any veto was loaded, and scored below the
      threshold of every loaded veto definition. */
  lemma DeliveredClearsEveryVeto(config: Config, embed: Embedder, supplied: Option<seq<Embedding>>, score: Score,
                                 def: Definition)
    requires config.packs.Some? && config.packs.value.Ok?
    requires UniqueIds(config.packs.value.value) && AllValid(config.packs.value.value)
    requires def in config.packs.value.value && def.cls == Veto
    requires Evaluate(Build(config, embed), supplied, score).deliver
    ensures Selected(Build(config, embed), supplied).Some?
    ensures exists vector: Vector ::
      && JudgedBy(def, vector, embed)
      && score(Selected(Build(config, embed), supplied).value.vector, vector) < def.threshold.value
  {
    var layer := Build(config, embed);
    DeliverMeaning(layer, supplied, score);
    BuiltLayerIsReady(config, embed);
    var i :| 0 <= i < |config.packs.value.value| && config.packs.value.value[i] == def;
    var r := layer.receptors[i];
    assert r in layer.receptors && r.IsVeto();
    var message := Selected(layer, supplied).value;
    FoundInSpace(supplied.value, layer.space.value);
    assert r.Comparable(message.space);
    assert !Hits(r, message, score);
    assert JudgedBy(def, r.vector.value, embed);
  }
}
