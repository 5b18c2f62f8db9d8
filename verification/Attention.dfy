/** The attention layer: building receptors from definitions and deciding whether a message may be delivered.

    Functions say what construction and evaluation compute; `AttentionLayer` is the object that does it with
    loops. The embedding backend and the similarity score are parameters. */
module Attention {
  import opened Receptors
  import opened Wrappers
  import Text

  type Vector = seq<real>
  type Score = (Vector, Vector) -> real

  /** One call of the embedding plugin on one query: the vectors it returned, or its failure. */
  type Embedder = string -> Result<seq<Vector>>

  datatype Backend = Backend(enabled: bool, available: bool, space: string)

  /** `packs` is what loading the configured pack paths gave, and absent when none are configured;
      `filesNameVeto` is the textual search of those files for a veto receptor. */
  datatype Config = Config(
    backends: seq<Backend>,
    packs: Option<Result<seq<Definition>>>,
    filesNameVeto: bool)

  datatype Embedding = Embedding(space: string, vector: Vector)

  datatype Disposition =
    | Deliver
    | Filtered
    | NoActiveReceptor
    | Vetoed
    | EvaluationUnavailable
    | VetoEnforcementUnavailable

  datatype ReceptorMatch = ReceptorMatch(
    id: string,
    cls: ReceptorClass,
    score: real,
    threshold: real,
    above: bool)

  datatype AttentionResult = AttentionResult(
    deliver: bool,
    matches: seq<ReceptorMatch>,
    space: Option<string>,
    fallback: bool,
    disposition: Disposition,
    vetoNotEvaluated: bool)

  datatype Receptor = Receptor(
    id: string,
    cls: ReceptorClass,
    threshold: real,
    vector: Option<Vector>,
    space: Option<string>)
  {
    predicate IsVeto() { cls == Veto }

    predicate IsWildcard() { cls == Wildcard }

    predicate Comparable(messageSpace: string) {
      vector.Some? && space == Some(messageSpace)
    }
  }

  datatype Layer = Layer(
    receptors: seq<Receptor>,
    space: Option<string>,
    degraded: bool,
    vetoUnavailable: bool)

  // ----- Construction -----

  function FirstEnabled(backends: seq<Backend>): Option<Backend> {
    if backends == [] then None
    else if backends[0].enabled then Some(backends[0])
    else FirstEnabled(backends[1..])
  }

  function Plugin(config: Config): Option<Backend> {
    var backend := FirstEnabled(config.backends);
    if backend.Some? && backend.value.available then backend else None
  }

  predicate HasVetoDefinition(defs: seq<Definition>) {
    exists def <- defs :: def.cls == Veto
  }

  function ThresholdOrOne(def: Definition): real {
    if def.threshold.Some? then def.threshold.value else 1.0
  }

  function Bare(def: Definition): Receptor {
    Receptor(def.id, def.cls, ThresholdOrOne(def), None, None)
  }

  function Bares(defs: seq<Definition>): seq<Receptor>
    decreases |defs|
  {
    if defs == [] then [] else Bares(defs[..|defs| - 1]) + [Bare(defs[|defs| - 1])]
  }

  /** The receptor of one definition, given the plugin's space; the embedding used is the last one returned. */
  function Materialized(def: Definition, space: string, embed: Embedder): Result<Receptor> {
    if def.cls == Wildcard then Ok(Bare(def))
    else if def.space.Some? && def.space.value != space then Err("no enabled embedding backend for receptor")
    else
      var vectors := embed(Text.Trim(def.query));
      if vectors.Err? then Err(vectors.error)
      else if vectors.value == [] then Err("embedding backend returned no receptor vector")
      else Ok(Receptor(def.id, def.cls, ThresholdOrOne(def), Some(vectors.value[|vectors.value| - 1]), Some(space)))
  }

  datatype Progress = Progress(receptors: seq<Receptor>, ok: bool)

  /** Receptors are added one by one; the first failure ends the work and keeps what was added. */
  function MaterializedAll(defs: seq<Definition>, space: string, embed: Embedder): Progress
    decreases |defs|
  {
    if defs == [] then Progress([], true)
    else
      var before := MaterializedAll(defs[..|defs| - 1], space, embed);
      var next := Materialized(defs[|defs| - 1], space, embed);
      if !before.ok then before
      else if next.Err? then Progress(before.receptors, false)
      else Progress(before.receptors + [next.value], true)
  }

  function WithBackend(config: Config): Layer {
    var backend := FirstEnabled(config.backends);
    var plugin := Plugin(config);
    Layer([],
          if plugin.Some? then Some(plugin.value.space) else None,
          if backend.Some? then plugin.None? else config.packs.Some?,
          false)
  }

  function Build(config: Config, embed: Embedder): Layer {
    var layer := WithBackend(config);
    match config.packs
    case None => layer
    case Some(Err(_)) => layer.(degraded := true, vetoUnavailable := config.filesNameVeto)
    case Some(Ok(defs)) =>
      var plugin := Plugin(config);
      if plugin.None? then layer.(receptors := Bares(defs), vetoUnavailable := HasVetoDefinition(defs))
      else
        var made := MaterializedAll(defs, plugin.value.space, embed);
        layer.(receptors := made.receptors,
               degraded := layer.degraded || !made.ok,
               vetoUnavailable := !made.ok && HasVetoDefinition(defs))
  }

  // ----- Evaluation -----

  function FindSpace(embeddings: seq<Embedding>, space: string): Option<Embedding> {
    if embeddings == [] then None
    else if embeddings[0].space == space then Some(embeddings[0])
    else FindSpace(embeddings[1..], space)
  }

  /** The sender's vector in the layer's own space, if there is one. */
  function Selected(layer: Layer, supplied: Option<seq<Embedding>>): Option<Embedding> {
    if layer.space.Some? && supplied.Some? then FindSpace(supplied.value, layer.space.value) else None
  }

  function Matched(r: Receptor, message: Embedding, score: Score): ReceptorMatch
    requires r.vector.Some?
  {
    var s := score(message.vector, r.vector.value);
    ReceptorMatch(r.id, r.cls, s, r.threshold, s >= r.threshold)
  }

  /** The matches of the veto receptors, or of the others, that live in the message's space. */
  function Scored(rs: seq<Receptor>, vetoes: bool, message: Embedding, score: Score): seq<ReceptorMatch>
    decreases |rs|
  {
    if rs == [] then []
    else
      var r := rs[|rs| - 1];
      Scored(rs[..|rs| - 1], vetoes, message, score)
      + (if r.IsVeto() == vetoes && r.Comparable(message.space) then [Matched(r, message, score)] else [])
  }

  predicate Hits(r: Receptor, message: Embedding, score: Score) {
    r.Comparable(message.space) && score(message.vector, r.vector.value) >= r.threshold
  }

  /** The number of receptors scanned up to and including the first veto at its threshold. */
  function FirstVeto(rs: seq<Receptor>, message: Embedding, score: Score): Option<nat>
    decreases |rs|
  {
    if rs == [] then None
    else
      var before := FirstVeto(rs[..|rs| - 1], message, score);
      if before.Some? then before
      else if rs[|rs| - 1].IsVeto() && Hits(rs[|rs| - 1], message, score) then Some(|rs|)
      else None
  }

  function FirstWildcard(rs: seq<Receptor>): Option<Receptor>
    ensures FirstWildcard(rs).Some? ==> FirstWildcard(rs).value in rs && FirstWildcard(rs).value.IsWildcard()
    ensures FirstWildcard(rs).None? ==> forall r <- rs :: !r.IsWildcard()
  {
    if rs == [] then None
    else if rs[0].IsWildcard() then Some(rs[0])
    else FirstWildcard(rs[1..])
  }

  function WildcardMatch(r: Receptor): ReceptorMatch {
    ReceptorMatch(r.id, r.cls, 1.0, r.threshold, true)
  }

  /** Stable insertion into a list sorted by descending score, in front of the equal ones. */
  function InsertByScore(m: ReceptorMatch, sorted: seq<ReceptorMatch>): seq<ReceptorMatch> {
    if sorted == [] || sorted[0].score <= m.score then [m] + sorted
    else [sorted[0]] + InsertByScore(m, sorted[1..])
  }

  function SortByScore(ms: seq<ReceptorMatch>): seq<ReceptorMatch> {
    if ms == [] then [] else InsertByScore(ms[0], SortByScore(ms[1..]))
  }

  predicate HasVeto(rs: seq<Receptor>) {
    exists r <- rs :: r.IsVeto()
  }

  predicate HasInterest(rs: seq<Receptor>) {
    exists r <- rs :: !r.IsVeto()
  }

  predicate AnyAbove(ms: seq<ReceptorMatch>) {
    exists m <- ms :: m.above
  }

  function Refused(matches: seq<ReceptorMatch>, space: Option<string>, fallback: bool, why: Disposition,
                   vetoNotEvaluated: bool): AttentionResult {
    AttentionResult(false, matches, space, fallback, why, vetoNotEvaluated)
  }

  function WithoutVector(layer: Layer): AttentionResult {
    var vetoNotEvaluated := HasVeto(layer.receptors);
    if !HasInterest(layer.receptors) then Refused([], None, true, NoActiveReceptor, vetoNotEvaluated)
    else if vetoNotEvaluated then Refused([], None, false, EvaluationUnavailable, true)
    else
      var wildcard := FirstWildcard(layer.receptors);
      if wildcard.Some? then
        AttentionResult(true, SortByScore([WildcardMatch(wildcard.value)]), None, false, Deliver, false)
      else Refused([], None, false, Filtered, false)
  }

  function AllScored(layer: Layer, message: Embedding, score: Score): seq<ReceptorMatch> {
    var wildcard := FirstWildcard(layer.receptors);
    Scored(layer.receptors, true, message, score)
    + Scored(layer.receptors, false, message, score)
    + (if wildcard.Some? then [WildcardMatch(wildcard.value)] else [])
  }

  function WithVector(layer: Layer, message: Embedding, score: Score): AttentionResult {
    var veto := FirstVeto(layer.receptors, message, score);
    FirstVetoBounds(layer.receptors, message, score);
    if veto.Some? then
      Refused(SortByScore(Scored(layer.receptors[..veto.value], true, message, score)),
              Some(message.space), false, Vetoed, false)
    else if !HasInterest(layer.receptors) then
      Refused(SortByScore(Scored(layer.receptors, true, message, score)), Some(message.space), true, NoActiveReceptor,
              false)
    else
      var accepted := AnyAbove(Scored(layer.receptors, false, message, score)) || FirstWildcard(layer.receptors).Some?;
      AttentionResult(accepted, SortByScore(AllScored(layer, message, score)), Some(message.space), false,
                      if accepted then Deliver else Filtered, false)
  }

  function Evaluate(layer: Layer, supplied: Option<seq<Embedding>>, score: Score): AttentionResult {
    if layer.vetoUnavailable then Refused([], layer.space, false, VetoEnforcementUnavailable, false)
    else if layer.degraded then Refused([], layer.space, false, EvaluationUnavailable, false)
    else if layer.receptors == [] then Refused([], None, true, NoActiveReceptor, false)
    else
      var message := Selected(layer, supplied);
      if message.None? then WithoutVector(layer) else WithVector(layer, message.value, score)
  }

  lemma {:induction false} FirstVetoBounds(rs: seq<Receptor>, message: Embedding, score: Score)
    ensures FirstVeto(rs, message, score).Some? ==> 0 < FirstVeto(rs, message, score).value <= |rs|
    decreases |rs|
  {
    if rs != [] {
      FirstVetoBounds(rs[..|rs| - 1], message, score);
    }
  }

  // ----- The object -----

  class AttentionLayer {
    var receptors: seq<Receptor>
    var plugin: Option<Backend>
    var space: Option<string>
    var degraded: bool
    var vetoUnavailable: bool

    function View(): Layer
      reads this
    {
      Layer(receptors, space, degraded, vetoUnavailable)
    }

    constructor (config: Config, embed: Embedder)
      ensures View() == Build(config, embed)
    {
      receptors, plugin, space, degraded, vetoUnavailable := [], None, None, false, false;
      new;
      var backend := FirstEnabled(config.backends);
      if backend.Some? {
        if backend.value.available {
          plugin := backend;
          space := Some(backend.value.space);
        } else {
          degraded := true;
        }
      } else if config.packs.Some? {
        degraded := true;
      }
      if config.packs.Some? {
        if config.packs.value.Ok? {
          var defs := config.packs.value.value;
          var ok := ComputeReceptors(defs, embed);
          if !ok {
            degraded := true;
            if HasVetoDefinition(defs) {
              vetoUnavailable := true;
            }
          }
        } else {
          degraded := true;
          if config.filesNameVeto {
            vetoUnavailable := true;
          }
        }
      }
    }

    method ComputeReceptors(defs: seq<Definition>, embed: Embedder) returns (ok: bool)
      requires receptors == [] && !vetoUnavailable
      modifies this`receptors, this`vetoUnavailable
      ensures plugin.None? ==> ok && receptors == Bares(defs) && vetoUnavailable == HasVetoDefinition(defs)
      ensures plugin.Some? ==>
        Progress(receptors, ok) == MaterializedAll(defs, plugin.value.space, embed) && !vetoUnavailable
    {
      if plugin.None? {
        for i := 0 to |defs|
          invariant receptors == Bares(defs[..i]) && !vetoUnavailable
        {
          assert defs[..i + 1][..i] == defs[..i];
          receptors := receptors + [Bare(defs[i])];
        }
        assert defs[..|defs|] == defs;
        if HasVetoDefinition(defs) {
          vetoUnavailable := true;
        }
        return true;
      }
      var space := plugin.value.space;
      for i := 0 to |defs|
        invariant Progress(receptors, true) == MaterializedAll(defs[..i], space, embed) && !vetoUnavailable
      {
        assert defs[..i + 1][..i] == defs[..i];
        var made := Materialized(defs[i], space, embed);
        if made.Err? {
          FailureIsFinal(defs, i + 1, space, embed);
          return false;
        }
        receptors := receptors + [made.value];
      }
      assert defs[..|defs|] == defs;
      return true;
    }

    /** The veto receptors come first; the first one at its threshold ends the scan. */
    method ScanVetoes(message: Embedding, score: Score) returns (matches: seq<ReceptorMatch>, vetoed: bool)
      ensures vetoed == FirstVeto(receptors, message, score).Some?
      ensures vetoed ==> 0 < FirstVeto(receptors, message, score).value <= |receptors|
      ensures matches == Scored(
        if vetoed then receptors[..FirstVeto(receptors, message, score).value] else receptors, true, message, score)
    {
      matches := [];
      for i := 0 to |receptors|
        invariant matches == Scored(receptors[..i], true, message, score)
        invariant FirstVeto(receptors[..i], message, score).None?
      {
        assert receptors[..i + 1][..i] == receptors[..i];
        var r := receptors[i];
        if !r.IsVeto() || r.vector.None? || r.space != Some(message.space) {
          continue;
        }
        var s := score(message.vector, r.vector.value);
        var above := s >= r.threshold;
        matches := matches + [ReceptorMatch(r.id, r.cls, s, r.threshold, above)];
        if above {
          FirstVetoIsFirst(receptors, i + 1, message, score);
          return matches, true;
        }
      }
      assert receptors[..|receptors|] == receptors;
      vetoed := false;
    }

    method ScoreInterest(message: Embedding, score: Score) returns (matches: seq<ReceptorMatch>, anyAbove: bool)
      ensures matches == Scored(receptors, false, message, score)
      ensures anyAbove == AnyAbove(matches)
    {
      matches, anyAbove := [], false;
      for i := 0 to |receptors|
        invariant matches == Scored(receptors[..i], false, message, score)
        invariant anyAbove == AnyAbove(matches)
      {
        assert receptors[..i + 1][..i] == receptors[..i];
        var r := receptors[i];
        if r.IsVeto() || r.vector.None? || r.space != Some(message.space) {
          continue;
        }
        var s := score(message.vector, r.vector.value);
        var above := s >= r.threshold;
        AnyAboveAppend(matches, ReceptorMatch(r.id, r.cls, s, r.threshold, above));
        if above {
          anyAbove := true;
        }
        matches := matches + [ReceptorMatch(r.id, r.cls, s, r.threshold, above)];
      }
      assert receptors[..|receptors|] == receptors;
    }

    method EvaluateWithEmbeddings(supplied: Option<seq<Embedding>>, score: Score) returns (result: AttentionResult)
      ensures result == Evaluate(View(), supplied, score)
    {
      if vetoUnavailable {
        return AttentionResult(false, [], space, false, VetoEnforcementUnavailable, false);
      }
      if degraded {
        return AttentionResult(false, [], space, false, EvaluationUnavailable, false);
      }
      if receptors == [] {
        return AttentionResult(false, [], None, true, NoActiveReceptor, false);
      }
      var hasInterest := HasInterest(receptors);
      var selected := Selected(Layer(receptors, space, degraded, vetoUnavailable), supplied);
      var vetoNotEvaluated := HasVeto(receptors) && selected.None?;
      var matches: seq<ReceptorMatch> := [];
      if selected.Some? {
        var vetoed;
        matches, vetoed := ScanVetoes(selected.value, score);
        if vetoed {
          return AttentionResult(false, SortByScore(matches), Some(selected.value.space), false, Vetoed, false);
        }
      }
      if !hasInterest {
        var space := if selected.Some? then Some(selected.value.space) else None;
        return AttentionResult(false, SortByScore(matches), space, true, NoActiveReceptor, vetoNotEvaluated);
      }
      var wildcard := FirstWildcard(receptors);
      if selected.None? {
        if vetoNotEvaluated {
          return AttentionResult(false, matches, None, false, EvaluationUnavailable, vetoNotEvaluated);
        }
        if wildcard.Some? {
          matches := [WildcardMatch(wildcard.value)];
          return AttentionResult(true, SortByScore(matches), None, false, Deliver, vetoNotEvaluated);
        }
        return AttentionResult(false, matches, None, false, Filtered, vetoNotEvaluated);
      }
      var scored, anyAbove := ScoreInterest(selected.value, score);
      matches := matches + scored;
      if wildcard.Some? {
        matches := matches + [WildcardMatch(wildcard.value)];
        anyAbove := true;
      }
      assert matches == AllScored(View(), selected.value, score);
      var disposition := if anyAbove then Deliver else Filtered;
      return AttentionResult(anyAbove, SortByScore(matches), Some(selected.value.space), false, disposition, false);
    }
  }

  lemma AnyAboveAppend(ms: seq<ReceptorMatch>, m: ReceptorMatch)
    ensures AnyAbove(ms + [m]) <==> AnyAbove(ms) || m.above
  {
    if AnyAbove(ms) {
      var x :| x in ms && x.above;
      assert x in ms + [m];
    }
    assert (ms + [m])[|ms|] == m;
  }

  lemma {:induction false} FailureIsFinal(defs: seq<Definition>, n: nat, space: string, embed: Embedder)
    requires n <= |defs| && !MaterializedAll(defs[..n], space, embed).ok
    ensures MaterializedAll(defs, space, embed) == MaterializedAll(defs[..n], space, embed)
    decreases |defs|
  {
    if n < |defs| {
      assert defs[..|defs| - 1][..n] == defs[..n];
      FailureIsFinal(defs[..|defs| - 1], n, space, embed);
    } else {
      assert defs[..n] == defs;
    }
  }

  lemma {:induction false} FirstVetoIsFirst(rs: seq<Receptor>, n: nat, message: Embedding, score: Score)
    requires n <= |rs| && FirstVeto(rs[..n], message, score).Some?
    ensures FirstVeto(rs, message, score) == FirstVeto(rs[..n], message, score)
    decreases |rs|
  {
    if n < |rs| {
      assert rs[..|rs| - 1][..n] == rs[..n];
      FirstVetoIsFirst(rs[..|rs| - 1], n, message, score);
    } else {
      assert rs[..n] == rs;
    }
  }
}
