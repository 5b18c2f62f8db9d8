/** What each result of an evaluation says: its disposition, its space and flags, and the matches it lists. */
module ResultMeaning {
  import opened Attention
  import opened AttentionLaws
  import opened Receptors
  import opened Wrappers

  ghost predicate Works(layer: Layer) {
    !layer.vetoUnavailable && !layer.degraded
  }

  ghost predicate VetoedBy(layer: Layer, message: Option<Embedding>, score: Score) {
    message.Some? && exists r <- layer.receptors :: r.cls == Veto && Hits(r, message.value, score)
  }

  ghost predicate AnyInterest(layer: Layer) {
    exists r <- layer.receptors :: r.cls != Veto
  }

  ghost predicate AnyVeto(layer: Layer) {
    exists r <- layer.receptors :: r.cls == Veto
  }

  ghost predicate AcceptedBy(layer: Layer, message: Option<Embedding>, score: Score) {
    || (exists r <- layer.receptors :: r.cls == Wildcard)
    || (message.Some? && exists r <- layer.receptors :: r.cls != Veto && Hits(r, message.value, score))
  }

  /** The disposition, in the order in which the reasons count. */
  ghost function Reason(layer: Layer, message: Option<Embedding>, score: Score): Disposition {
    if layer.vetoUnavailable then VetoEnforcementUnavailable
    else if layer.degraded then EvaluationUnavailable
    else if VetoedBy(layer, message, score) then Vetoed
    else if !AnyInterest(layer) then NoActiveReceptor
    else if message.None? && AnyVeto(layer) then EvaluationUnavailable
    else if AcceptedBy(layer, message, score) then Deliver
    else Filtered
  }

  /** Each message gets the disposition its receptors call for; the fallback flag marks a layer that works but has
      no receptor to accept anything, and the space is the layer's when it cannot judge, the message's when it can. */
  lemma DispositionMeans(layer: Layer, supplied: Option<seq<Embedding>>, score: Score)
    ensures var result, message := Evaluate(layer, supplied, score), Selected(layer, supplied);
      && result.disposition == Reason(layer, message, score)
      && (result.deliver <==> result.disposition == Deliver)
      && (result.fallback <==> result.disposition == NoActiveReceptor)
      && (result.vetoNotEvaluated <==> Works(layer) && AnyVeto(layer) && message.None?)
      && result.space == (if !Works(layer) then layer.space
                          else if layer.receptors != [] && message.Some? then Some(message.value.space) else None)
  {
    DeliverMeaning(layer, supplied, score);
    var message := Selected(layer, supplied);
    WildcardIffFound(layer.receptors);
    if message.Some? {
      FirstVetoIffHit(layer.receptors, message.value, score);
      AboveIffInterestHit(layer.receptors, message.value, score);
    }
    hide SortByScore, Scored, FirstVeto, FirstWildcard;
  }

  // ----- Matches -----

  /** The match of a receptor with the message: its id, class and threshold, the score of the two vectors, and whether
      that is at the threshold. */
  ghost predicate IsMatchOf(m: ReceptorMatch, r: Receptor, message: Embedding, score: Score) {
    && r.vector.Some? && r.space == Some(message.space)
    && m.id == r.id && m.cls == r.cls && m.threshold == r.threshold
    && m.score == score(message.vector, r.vector.value)
    && (m.above <==> r.threshold <= m.score)
  }

  ghost predicate IsFirstWildcard(rs: seq<Receptor>, i: int) {
    0 <= i < |rs| && rs[i].cls == Wildcard && forall j :: 0 <= j < i ==> rs[j].cls != Wildcard
  }

  ghost predicate IsWildcardMatch(m: ReceptorMatch, rs: seq<Receptor>) {
    exists i :: IsFirstWildcard(rs, i) && m == ReceptorMatch(rs[i].id, Wildcard, 1.0, rs[i].threshold, true)
  }

  lemma MatchedIsMatch(m: ReceptorMatch, r: Receptor, message: Embedding, score: Score)
    ensures r.Comparable(message.space) ==> (m == Matched(r, message, score) <==> IsMatchOf(m, r, message, score))
    ensures IsMatchOf(m, r, message, score) ==> r.Comparable(message.space)
  {
  }

  lemma {:induction false} FirstWildcardIsFirst(rs: seq<Receptor>)
    ensures FirstWildcard(rs).Some? ==> exists i :: IsFirstWildcard(rs, i) && rs[i] == FirstWildcard(rs).value
  {
    if rs != [] && rs[0].IsWildcard() {
      assert IsFirstWildcard(rs, 0);
    } else if rs != [] {
      var rest := rs[1..];
      FirstWildcardIsFirst(rest);
      if FirstWildcard(rest).Some? {
        var i :| IsFirstWildcard(rest, i) && rest[i] == FirstWildcard(rest).value;
        assert rs[i + 1] == rest[i];
        forall j | 0 <= j < i + 1 ensures rs[j].cls != Wildcard {
          assert j == 0 || rs[j] == rest[j - 1];
        }
        assert IsFirstWildcard(rs, i + 1);
      }
    }
  }

  lemma WildcardMatchIs(rs: seq<Receptor>, m: ReceptorMatch)
    ensures IsWildcardMatch(m, rs) <==> FirstWildcard(rs).Some? && m == WildcardMatch(FirstWildcard(rs).value)
  {
    FirstWildcardIsFirst(rs);
    if FirstWildcard(rs).Some? {
      var i :| IsFirstWildcard(rs, i) && rs[i] == FirstWildcard(rs).value;
      if IsWildcardMatch(m, rs) {
        var k :| IsFirstWildcard(rs, k) && m == ReceptorMatch(rs[k].id, Wildcard, 1.0, rs[k].threshold, true);
        assert i == k;
      }
    }
  }

  /** The veto receptors up to and including the first that hits. */
  ghost predicate UpToFirstVeto(rs: seq<Receptor>, message: Embedding, score: Score, n: nat) {
    && 0 < n <= |rs| && rs[n - 1].cls == Veto && Hits(rs[n - 1], message, score)
    && forall i :: 0 <= i < n - 1 && rs[i].cls == Veto ==> !Hits(rs[i], message, score)
  }

  lemma {:induction false} FirstVetoIsUpTo(rs: seq<Receptor>, message: Embedding, score: Score)
    ensures FirstVeto(rs, message, score).Some? ==> UpToFirstVeto(rs, message, score, FirstVeto(rs, message,
        score).value)
    ensures FirstVeto(rs, message, score).None? ==> forall r <- rs :: r.cls == Veto ==> !Hits(r, message, score)
    decreases |rs|
  {
    if rs != [] {
      FirstVetoIsUpTo(rs[..|rs| - 1], message, score);
      SplitLast(rs);
      hide Hits;
    }
  }

  /** Whether the evaluation lists a match, when the layer works, has receptors and did not veto. */
  ghost predicate Listed(layer: Layer, message: Option<Embedding>, score: Score, m: ReceptorMatch) {
    || (message.Some? && exists r <- layer.receptors :: IsMatchOf(m, r, message.value, score))
    || (AnyInterest(layer) && !(message.None? && AnyVeto(layer)) && IsWildcardMatch(m, layer.receptors))
  }

  /** The matches listed are exactly those of the receptors that were scored, and of the first wildcard: none when the
      layer cannot judge; of the vetoes up to the first that hits when one does; of all receptors otherwise. They
      stand in descending order of score. */
  lemma MatchesMean(layer: Layer, supplied: Option<seq<Embedding>>, score: Score, m: ReceptorMatch)
    ensures var result, message := Evaluate(layer, supplied, score), Selected(layer, supplied);
      && Descending(result.matches)
      && (!Works(layer) ==> result.matches == [])
      && (Works(layer) && !VetoedBy(layer, message, score) ==> (m in result.matches <==> Listed(layer, message, score,
          m)))
      && (Works(layer) && VetoedBy(layer, message, score) ==>
            exists n: nat :: UpToFirstVeto(layer.receptors, message.value, score, n)
              && (m in result.matches <==>
                    exists r <- layer.receptors[..n] :: r.cls == Veto && IsMatchOf(m, r, message.value, score)))
  {
    var message := Selected(layer, supplied);
    if Works(layer) && layer.receptors != [] {
      if message.None? {
        WithoutVectorMatches(layer, m);
      } else {
        FirstVetoIsUpTo(layer.receptors, message.value, score);
        FirstVetoIffHit(layer.receptors, message.value, score);
        if VetoedBy(layer, message, score) {
          VetoedMatches(layer, message.value, score, m);
        } else {
          WithVectorMatches(layer, message.value, score, m);
        }
      }
    }
    hide Selected, UpToFirstVeto, Listed, IsMatchOf, SortByScore, Scored, FirstVeto;
  }

  lemma WithoutVectorMatches(layer: Layer, m: ReceptorMatch)
    ensures Descending(WithoutVector(layer).matches)
    ensures m in WithoutVector(layer).matches
      <==> AnyInterest(layer) && !AnyVeto(layer) && IsWildcardMatch(m, layer.receptors)
  {
    WildcardMatchIs(layer.receptors, m);
    var wildcard := FirstWildcard(layer.receptors);
    if wildcard.Some? {
      SortIsASortedPermutation([WildcardMatch(wildcard.value)]);
    }
    hide FirstWildcard, IsWildcardMatch, SortByScore;
  }

  lemma ScoredAreMatches(rs: seq<Receptor>, vetoes: bool, message: Embedding, score: Score, m: ReceptorMatch)
    ensures m in Scored(rs, vetoes, message, score)
      <==> exists r <- rs :: (r.cls == Veto) == vetoes && IsMatchOf(m, r, message, score)
  {
    ScoredMembers(rs, vetoes, message, score);
    forall r: Receptor
      ensures r.Comparable(message.space) && m == Matched(r, message, score) <==> IsMatchOf(m, r, message, score)
    {
      MatchedIsMatch(m, r, message, score);
    }
    hide IsMatchOf, Scored;
  }

  lemma VetoedMatches(layer: Layer, message: Embedding, score: Score, m: ReceptorMatch)
    requires FirstVeto(layer.receptors, message, score).Some?
    ensures Descending(WithVector(layer, message, score).matches)
    ensures var n := FirstVeto(layer.receptors, message, score).value;
      && UpToFirstVeto(layer.receptors, message, score, n)
      && (m in WithVector(layer, message, score).matches
          <==> exists r <- layer.receptors[..n] :: r.cls == Veto && IsMatchOf(m, r, message, score))
  {
    FirstVetoIsUpTo(layer.receptors, message, score);
    var scanned := layer.receptors[..FirstVeto(layer.receptors, message, score).value];
    SortIsASortedPermutation(Scored(scanned, true, message, score));
    ScoredAreMatches(scanned, true, message, score, m);
    hide IsMatchOf, Scored, FirstVeto, SortByScore;
  }

  lemma WithVectorMatches(layer: Layer, message: Embedding, score: Score, m: ReceptorMatch)
    requires FirstVeto(layer.receptors, message, score).None? && layer.receptors != []
    ensures Descending(WithVector(layer, message, score).matches)
    ensures m in WithVector(layer, message, score).matches <==> Listed(layer, Some(message), score, m)
  {
    ScoredAreMatches(layer.receptors, true, message, score, m);
    ScoredAreMatches(layer.receptors, false, message, score, m);
    WildcardMatchIs(layer.receptors, m);
    SortIsASortedPermutation(Scored(layer.receptors, true, message, score));
    SortIsASortedPermutation(AllScored(layer, message, score));
    hide IsMatchOf, Scored, FirstVeto, SortByScore, IsWildcardMatch, FirstWildcard;
  }
}
