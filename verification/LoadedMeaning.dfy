/** When a layer built from definitions delivers, said of the definitions, the embeddings and the scores alone; and
    what every other result means. */
module LoadedMeaning {
  import opened Attention
  import opened AttentionLaws
  import opened LoadingLaws
  import opened Receptors
  import opened Wrappers

  /** The first enabled backend, and it is available: the plugin, with its space. */
  ghost predicate PluginSpace(config: Config, space: string) {
    exists i :: IsFirstEnabled(config.backends, i) && config.backends[i].available && config.backends[i].space == space
  }

  ghost predicate IsFirstEnabled(backends: seq<Backend>, i: int) {
    0 <= i < |backends| && backends[i].enabled && forall j :: 0 <= j < i ==> !backends[j].enabled
  }

  lemma {:induction false} FirstEnabledIsFirst(backends: seq<Backend>)
    ensures FirstEnabled(backends).Some? <==> exists backend <- backends :: backend.enabled
    ensures FirstEnabled(backends).Some? ==>
      exists i :: IsFirstEnabled(backends, i) && backends[i] == FirstEnabled(backends).value
  {
    if backends != [] && backends[0].enabled {
      assert IsFirstEnabled(backends, 0);
    } else if backends != [] {
      var rest := backends[1..];
      FirstEnabledIsFirst(rest);
      assert backends == [backends[0]] + rest;
      if FirstEnabled(rest).Some? {
        var i :| IsFirstEnabled(rest, i) && rest[i] == FirstEnabled(rest).value;
        assert backends[i + 1] == rest[i];
        forall j | 0 <= j < i + 1 ensures !backends[j].enabled {
          assert j == 0 || backends[j] == rest[j - 1];
        }
        assert IsFirstEnabled(backends, i + 1);
      }
    }
  }

  lemma PluginSpaceIff(config: Config, space: string)
    ensures PluginSpace(config, space) <==> Plugin(config).Some? && Plugin(config).value.space == space
  {
    FirstEnabledIsFirst(config.backends);
    if PluginSpace(config, space) {
      var i :| IsFirstEnabled(config.backends, i) && config.backends[i].available && config.backends[i].space == space;
      var k :| IsFirstEnabled(config.backends, k) && config.backends[k] == FirstEnabled(config.backends).value;
      assert i == k;
    }
  }

  ghost predicate IsFirstIn(embeddings: seq<Embedding>, space: string, i: int) {
    0 <= i < |embeddings| && embeddings[i].space == space && forall j :: 0 <= j < i ==> embeddings[j].space != space
  }

  /** The sender's first vector in a space. */
  ghost predicate Sent(supplied: Option<seq<Embedding>>, space: string, vector: Vector) {
    && supplied.Some?
    && exists i :: IsFirstIn(supplied.value, space, i) && supplied.value[i].vector == vector
  }

  lemma {:induction false} FoundIsFirst(embeddings: seq<Embedding>, space: string)
    ensures FindSpace(embeddings, space).Some? ==>
      exists i :: IsFirstIn(embeddings, space, i) && embeddings[i] == FindSpace(embeddings, space).value
    ensures FindSpace(embeddings, space).None? ==> forall e <- embeddings :: e.space != space
  {
    if embeddings != [] && embeddings[0].space == space {
      assert IsFirstIn(embeddings, space, 0);
    } else if embeddings != [] {
      var rest := embeddings[1..];
      FoundIsFirst(rest, space);
      assert embeddings == [embeddings[0]] + rest;
      if FindSpace(rest, space).Some? {
        var i :| IsFirstIn(rest, space, i) && rest[i] == FindSpace(rest, space).value;
        assert embeddings[i + 1] == rest[i];
        forall j | 0 <= j < i + 1 ensures embeddings[j].space != space {
          assert j == 0 || embeddings[j] == rest[j - 1];
        }
        assert IsFirstIn(embeddings, space, i + 1);
      }
    }
  }

  lemma SentIff(supplied: Option<seq<Embedding>>, space: string, vector: Vector)
    ensures Sent(supplied, space, vector) <==>
      supplied.Some? && FindSpace(supplied.value, space) == Some(Embedding(space, vector))
  {
    if supplied.Some? {
      FoundIsFirst(supplied.value, space);
      var found := FindSpace(supplied.value, space);
      if Sent(supplied, space, vector) {
        var i :| IsFirstIn(supplied.value, space, i) && supplied.value[i].vector == vector;
        assert supplied.value[i] in supplied.value;
        var k :| IsFirstIn(supplied.value, space, k) && supplied.value[k] == found.value;
        assert i == k;
      }
    }
  }

  /** The definition can be made into a receptor: it needs no vector, or names no foreign space and gets a vector. */
  ghost predicate CanBeMade(def: Definition, space: string, embed: Embedder) {
    || def.cls == Wildcard
    || ((def.space.Some? ==> def.space.value == space) && exists vector: Vector :: JudgedBy(def, vector, embed))
  }

  /** The message's vector scores against the definition's; on a veto below its threshold, else at it. */
  ghost predicate Clears(def: Definition, space: string, embed: Embedder, supplied: Option<seq<Embedding>>,
                         score: Score)
    requires def.threshold.Some?
  {
    exists m: Vector, v: Vector :: Sent(supplied, space, m) && JudgedBy(def, v, embed)
      && score(m, v) < def.threshold.value
  }

  ghost predicate Reaches(def: Definition, space: string, embed: Embedder, supplied: Option<seq<Embedding>>,
                          score: Score)
    requires def.threshold.Some?
  {
    exists m: Vector, v: Vector :: Sent(supplied, space, m) && JudgedBy(def, v, embed)
      && def.threshold.value <= score(m, v)
  }

  /** The declarative reading of a loaded pack. */
  ghost predicate PackDelivers(defs: seq<Definition>, space: string, embed: Embedder, supplied: Option<seq<Embedding>>,
                               score: Score)
    requires AllValid(defs)
  {
    && (forall def <- defs :: CanBeMade(def, space, embed))
    && (forall def <- defs :: def.cls == Veto ==> Clears(def, space, embed, supplied, score))
    && ((exists def <- defs :: def.cls == Wildcard)
        || exists def <- defs :: def.cls != Wildcard && def.cls != Veto && Reaches(def, space, embed, supplied, score))
  }

  /** The receptor of a definition carries its id, class, threshold and vector, in the plugin's space. */
  lemma ReceptorOfDefinition(def: Definition, space: string, embed: Embedder)
    requires ValidDefinition(def) && CanBeMade(def, space, embed)
    ensures Materialized(def, space, embed).Ok?
    ensures var r := Materialized(def, space, embed).value;
      && r.id == def.id && r.cls == def.cls
      && r.threshold == (if def.threshold.Some? then def.threshold.value else 1.0)
      && (def.cls == Wildcard ==> r.vector.None?)
      && (def.cls != Wildcard ==>
            && r.threshold == def.threshold.value && r.space == Some(space)
            && r.vector.Some? && JudgedBy(def, r.vector.value, embed))
  {
    MaterializesIff(def, space, embed);
  }

  /** A receptor hits exactly as its definition reads. */
  lemma HitsAsDefined(def: Definition, space: string, embed: Embedder, supplied: Option<seq<Embedding>>, score: Score)
    requires ValidDefinition(def) && CanBeMade(def, space, embed) && def.cls != Wildcard
    ensures Materialized(def, space, embed).Ok?
    ensures var r := Materialized(def, space, embed).value;
      var message := if supplied.Some? then FindSpace(supplied.value, space) else None;
      && (Reaches(def, space, embed, supplied, score) <==> message.Some? && Hits(r, message.value, score))
      && (Clears(def, space, embed, supplied, score) <==> message.Some? && !Hits(r, message.value, score))
  {
    ReceptorOfDefinition(def, space, embed);
    var r := Materialized(def, space, embed).value;
    var message := if supplied.Some? then FindSpace(supplied.value, space) else None;
    if message.Some? {
      FoundInSpace(supplied.value, space);
      SentIff(supplied, space, message.value.vector);
      assert message.value == Embedding(space, message.value.vector);
      var m, v := message.value.vector, r.vector.value;
      assert Sent(supplied, space, m) && JudgedBy(def, v, embed);
      assert Hits(r, message.value, score) <==> def.threshold.value <= score(m, v);
    }
    forall m: Vector | Sent(supplied, space, m) ensures message == Some(Embedding(space, m)) {
      SentIff(supplied, space, m);
    }
    hide FindSpace, Materialized, Sent;
  }

  /** Where every definition can be made, the layer's receptors are theirs. */
  lemma MadeLayer(config: Config, defs: seq<Definition>, space: string, embed: Embedder)
    requires PluginSpace(config, space) && forall def <- defs :: CanBeMade(def, space, embed)
    ensures var layer := Build(With(config, defs), embed);
      && !layer.degraded && !layer.vetoUnavailable && layer.space == Some(space)
      && forall r :: r in layer.receptors <==> exists def <- defs :: Materialized(def, space, embed) == Ok(r)
  {
    PluginSpaceIff(config, space);
    WorksIff(config, defs, embed);
    forall def | def in defs ensures Materializes(def, space, embed) {
      MaterializesIff(def, space, embed);
    }
    MaterializedIsOkIff(defs, space, embed);
    forall r ensures r in MaterializedAll(defs, space, embed).receptors <==>
      exists def <- defs :: Materialized(def, space, embed) == Ok(r)
    {
      MaterializedMembers(defs, space, embed, r);
    }
    hide Build, MaterializedAll;
  }

  lemma DeliversWhenMade(config: Config, defs: seq<Definition>, space: string, embed: Embedder,
                         supplied: Option<seq<Embedding>>, score: Score)
    requires AllValid(defs) && PluginSpace(config, space) && forall def <- defs :: CanBeMade(def, space, embed)
    ensures Evaluate(Build(With(config, defs), embed), supplied, score).deliver
      <==> PackDelivers(defs, space, embed, supplied, score)
  {
    MadeLayer(config, defs, space, embed);
    var layer := Build(With(config, defs), embed);
    hide Build, CanBeMade, PluginSpace;
    DeliverMeaning(layer, supplied, score);
    var message := Selected(layer, supplied);
    assert message == if supplied.Some? then FindSpace(supplied.value, space) else None;
    forall def | def in defs
      ensures Materialized(def, space, embed).Ok? && Materialized(def, space, embed).value in layer.receptors
      ensures Materialized(def, space, embed).value.cls == def.cls
    {
      ReceptorOfDefinition(def, space, embed);
    }
    forall def | def in defs && def.cls != Wildcard
      ensures Reaches(def, space, embed, supplied, score)
        <==> message.Some? && Hits(Materialized(def, space, embed).value, message.value, score)
      ensures Clears(def, space, embed, supplied, score)
        <==> message.Some? && !Hits(Materialized(def, space, embed).value, message.value, score)
    {
      HitsAsDefined(def, space, embed, supplied, score);
    }
    hide Materialized, Evaluate, Reaches, Clears, Selected, FindSpace;
    MayDeliverAsDefined(layer, defs, space, embed, supplied, score, message);
  }

  /** The receptors of the layer are those of the definitions, and hit as their definitions read. */
  ghost predicate Represents(layer: Layer, defs: seq<Definition>, space: string, embed: Embedder,
                             supplied: Option<seq<Embedding>>, score: Score, message: Option<Embedding>)
    requires AllValid(defs)
  {
    && (forall r :: r in layer.receptors <==> exists def <- defs :: Materialized(def, space, embed) == Ok(r))
    && (forall def <- defs ::
          Materialized(def, space, embed).Ok? && Materialized(def, space, embed).value.cls == def.cls)
    && (forall def <- defs :: def.cls != Wildcard ==>
          && (Reaches(def, space, embed, supplied, score)
              <==> message.Some? && Hits(Materialized(def, space, embed).value, message.value, score))
          && (Clears(def, space, embed, supplied, score)
              <==> message.Some? && !Hits(Materialized(def, space, embed).value, message.value, score)))
  }

  lemma MayDeliverAsDefined(layer: Layer, defs: seq<Definition>, space: string, embed: Embedder,
                            supplied: Option<seq<Embedding>>, score: Score, message: Option<Embedding>)
    requires AllValid(defs) && forall def <- defs :: CanBeMade(def, space, embed)
    requires !layer.degraded && !layer.vetoUnavailable
    requires Represents(layer, defs, space, embed, supplied, score, message)
    ensures MayDeliver(layer, message, score) <==> PackDelivers(defs, space, embed, supplied, score)
  {
    hide Materialized, Reaches, Clears, CanBeMade;
    forall def | def in defs ensures Materialized(def, space, embed).value in layer.receptors {}
    if MayDeliver(layer, message, score) {
      PackDeliversFrom(layer, defs, space, embed, supplied, score, message);
    }
    if PackDelivers(defs, space, embed, supplied, score) {
      MayDeliverFrom(layer, defs, space, embed, supplied, score, message);
    }
  }

  lemma PackDeliversFrom(layer: Layer, defs: seq<Definition>, space: string, embed: Embedder,
                         supplied: Option<seq<Embedding>>, score: Score, message: Option<Embedding>)
    requires AllValid(defs) && forall def <- defs :: CanBeMade(def, space, embed)
    requires Represents(layer, defs, space, embed, supplied, score, message)
    requires MayDeliver(layer, message, score)
    ensures PackDelivers(defs, space, embed, supplied, score)
  {
    hide Materialized, Reaches, Clears, CanBeMade;
    forall def | def in defs && def.cls == Veto ensures Clears(def, space, embed, supplied, score) {
      var r := Materialized(def, space, embed).value;
      assert r in layer.receptors && r.IsVeto();
    }
    if HasWildcard(layer.receptors) {
      var r :| r in layer.receptors && r.IsWildcard();
      var def :| def in defs && Materialized(def, space, embed) == Ok(r);
      assert def.cls == Wildcard;
    } else {
      var r :| r in layer.receptors && !r.IsVeto() && Hits(r, message.value, score);
      var def :| def in defs && Materialized(def, space, embed) == Ok(r);
      assert def.cls != Wildcard && Reaches(def, space, embed, supplied, score);
    }
  }

  lemma MayDeliverFrom(layer: Layer, defs: seq<Definition>, space: string, embed: Embedder,
                       supplied: Option<seq<Embedding>>, score: Score, message: Option<Embedding>)
    requires AllValid(defs) && !layer.degraded && !layer.vetoUnavailable
    requires Represents(layer, defs, space, embed, supplied, score, message)
    requires PackDelivers(defs, space, embed, supplied, score)
    ensures MayDeliver(layer, message, score)
  {
    hide Materialized, Reaches, Clears, CanBeMade;
    forall r | r in layer.receptors && r.IsVeto() ensures message.Some? && !Hits(r, message.value, score) {
      var def :| def in defs && Materialized(def, space, embed) == Ok(r);
      assert def.cls == Veto;
    }
    if def :| def in defs && def.cls == Wildcard {
      assert Materialized(def, space, embed).value in layer.receptors;
    } else {
      var def :| def in defs && def.cls != Wildcard && def.cls != Veto && Reaches(def, space, embed, supplied, score);
      assert Materialized(def, space, embed).value in layer.receptors;
    }
  }

  /** A layer built from valid definitions delivers exactly when there is a plugin, every definition can be made, every
      veto definition scores below its threshold against a vector that must be there, and a wildcard is loaded or some
      other definition that is no veto reaches its threshold. */
  lemma DeliversIff(config: Config, defs: seq<Definition>, embed: Embedder, supplied: Option<seq<Embedding>>,
                    score: Score)
    requires AllValid(defs)
    ensures Evaluate(Build(With(config, defs), embed), supplied, score).deliver
      <==> exists space: string :: PluginSpace(config, space) && PackDelivers(defs, space, embed, supplied, score)
  {
    var delivers := Evaluate(Build(With(config, defs), embed), supplied, score).deliver;
    if delivers {
      DeliveringWorks(config, defs, embed, supplied, score);
      var space := Plugin(config).value.space;
      PluginSpaceIff(config, space);
      forall def | def in defs ensures CanBeMade(def, space, embed) {
        assert Materializes(def, space, embed);
        MaterializesIff(def, space, embed);
      }
      hide CanBeMade, Evaluate, Build, PluginSpace;
      DeliversWhenMade(config, defs, space, embed, supplied, score);
    }
    if space: string :| PluginSpace(config, space) && PackDelivers(defs, space, embed, supplied, score) {
      hide CanBeMade, Evaluate, Build, PluginSpace;
      DeliversWhenMade(config, defs, space, embed, supplied, score);
    }
  }

  /** Without packs, and with packs that cannot be loaded, nothing is delivered. */
  lemma NothingDeliversUnloaded(config: Config, embed: Embedder, supplied: Option<seq<Embedding>>, score: Score)
    requires config.packs.None? || config.packs.value.Err?
    ensures !Evaluate(Build(config, embed), supplied, score).deliver
  {
  }

  // ----- What keeps a layer from judging -----

  ghost predicate NoPlugin(config: Config) {
    forall space :: !PluginSpace(config, space)
  }

  ghost predicate SomeEnabled(config: Config) {
    exists backend <- config.backends :: backend.enabled
  }

  /** The pack has a definition that cannot be made. */
  ghost predicate Breaks(config: Config, defs: seq<Definition>, embed: Embedder) {
    exists space: string, def: Definition :: PluginSpace(config, space) && def in defs && !CanBeMade(def, space, embed)
  }

  /** A layer lives in the space of its plugin. It is degraded when an enabled backend is not available, when packs are
      configured and no backend is enabled, and when packs do not load or hold a definition that cannot be made; it
      cannot enforce vetoes when packs name one and do not load, cannot all be made, or have no plugin. */
  lemma BuildMeans(config: Config, embed: Embedder)
    ensures forall space :: Build(config, embed).space == Some(space) <==> PluginSpace(config, space)
    ensures Build(config, embed).degraded <==>
      || (NoPlugin(config) && (SomeEnabled(config) || config.packs.Some?))
      || (config.packs.Some? && config.packs.value.Err?)
      || (config.packs.Some? && config.packs.value.Ok? && Breaks(config, config.packs.value.value, embed))
    ensures Build(config, embed).vetoUnavailable <==>
      || (config.packs.Some? && config.packs.value.Err? && config.filesNameVeto)
      || (config.packs.Some? && config.packs.value.Ok? && (exists def <- config.packs.value.value :: def.cls == Veto)
          && (NoPlugin(config) || Breaks(config, config.packs.value.value, embed)))
  {
    FirstEnabledIsFirst(config.backends);
    forall space ensures PluginSpace(config, space) <==> Plugin(config).Some? && Plugin(config).value.space == space {
      PluginSpaceIff(config, space);
    }
    if Plugin(config).Some? {
      assert PluginSpace(config, Plugin(config).value.space);
      if config.packs.Some? && config.packs.value.Ok? {
        BreaksIff(config, config.packs.value.value, Plugin(config).value.space, embed);
      }
    }
    hide PluginSpace, Breaks, MaterializedAll, FirstEnabled;
  }

  lemma BreaksIff(config: Config, defs: seq<Definition>, space: string, embed: Embedder)
    requires PluginSpace(config, space)
    ensures Breaks(config, defs, embed) <==> !MaterializedAll(defs, space, embed).ok
  {
    MaterializedIsOkIff(defs, space, embed);
    PluginSpaceIff(config, space);
    forall other: string | PluginSpace(config, other) ensures other == space {
      PluginSpaceIff(config, other);
    }
    forall def ensures Materializes(def, space, embed) <==> CanBeMade(def, space, embed) {
      MaterializesIff(def, space, embed);
    }
    hide PluginSpace, Materializes, CanBeMade, MaterializedAll;
  }
}
