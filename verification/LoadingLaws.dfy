/** What the order of loading and one more definition do to decisions, failing definitions included. */
module LoadingLaws {
  import opened Attention
  import opened AttentionLaws
  import opened Receptors
  import Text
  import opened Wrappers

  // ----- The order of files in a directory -----

  /** The same path, or a directory that lists the same files in another order. */
  ghost predicate Alike(p: PackPath, q: PackPath) {
    || p == q
    || (p.Directory? && q.Directory? && p.packs.Ok? && q.packs.Ok?
        && multiset(p.packs.value) == multiset(q.packs.value))
  }

  ghost predicate AlikePaths(ps: seq<PackPath>, qs: seq<PackPath>) {
    |ps| == |qs| && forall i :: 0 <= i < |ps| ==> Alike(ps[i], qs[i])
  }

  function Without<T>(s: seq<T>, i: nat): seq<T>
    requires i < |s|
  {
    s[..i] + s[i + 1..]
  }

  lemma WithoutOne<T>(s: seq<T>, i: nat)
    requires i < |s|
    ensures multiset(s) == multiset(Without(s, i)) + multiset{s[i]}
    ensures forall x :: x in s <==> x in Without(s, i) || x == s[i]
  {
    assert s == s[..i] + [s[i]] + s[i + 1..];
  }

  /** Where the last element of one list stands in a reordering of it. */
  lemma FindLast<T>(a: seq<T>, b: seq<T>) returns (i: nat)
    requires a != [] && multiset(a) == multiset(b)
    ensures i < |b| && b[i] == a[|a| - 1]
    ensures multiset(a[..|a| - 1]) == multiset(Without(b, i))
  {
    var last := a[|a| - 1];
    assert a == a[..|a| - 1] + [last];
    assert multiset(a) == multiset(a[..|a| - 1]) + multiset{last};
    assert last in multiset(b);
    i :| 0 <= i < |b| && b[i] == last;
    WithoutOne(b, i);
    assert multiset(a[..|a| - 1]) + multiset{last} - multiset{last} == multiset(a[..|a| - 1]);
    assert multiset(Without(b, i)) + multiset{last} - multiset{last} == multiset(Without(b, i));
  }

  lemma SplitMembers<T>(s: seq<T>)
    requires s != []
    ensures forall x :: x in s <==> x in s[..|s| - 1] || x == s[|s| - 1]
  {
    assert s == s[..|s| - 1] + [s[|s| - 1]];
  }

  lemma {:induction false} ConcatenatedIsOkIff(packs: seq<PackFile>)
    ensures Concatenated(packs).Ok? <==> forall pack <- packs :: pack.Ok?
    decreases |packs|
  {
    if packs != [] {
      ConcatenatedIsOkIff(packs[..|packs| - 1]);
      SplitMembers(packs);
    }
  }

  lemma OneMorePack(front: seq<PackFile>, last: PackFile)
    ensures Concatenated(front + [last]) == Join(Concatenated(front), last)
  {
    assert (front + [last])[..|front|] == front;
  }

  lemma JoinAdds(a: PackFile, b: PackFile)
    requires Join(a, b).Ok?
    ensures a.Ok? && b.Ok? && multiset(Join(a, b).value) == multiset(a.value) + multiset(b.value)
  {
  }

  lemma {:induction false} ConcatenatedWithout(packs: seq<PackFile>, i: nat)
    requires i < |packs| && Concatenated(packs).Ok?
    ensures Concatenated(Without(packs, i)).Ok? && packs[i].Ok?
    ensures multiset(Concatenated(packs).value) == multiset(Concatenated(Without(packs,
        i)).value) + multiset(packs[i].value)
    decreases |packs|
  {
    hide Concatenated, Join;
    var n := |packs| - 1;
    var front, last := packs[..n], packs[n];
    assert packs == front + [last];
    OneMorePack(front, last);
    JoinAdds(Concatenated(front), last);
    if i == n {
      assert Without(packs, i) == front;
    } else {
      ConcatenatedWithout(front, i);
      assert Without(packs, i) == Without(front, i) + [last];
      OneMorePack(Without(front, i), last);
      OkJoinsOk(Concatenated(Without(front, i)), last);
      JoinAdds(Concatenated(Without(front, i)), last);
    }
  }

  lemma OkJoinsOk(a: PackFile, b: PackFile)
    requires a.Ok? && b.Ok?
    ensures Join(a, b).Ok?
  {
  }

  lemma {:induction false} ConcatenatedInAnyOrder(a: seq<PackFile>, b: seq<PackFile>)
    requires multiset(a) == multiset(b) && Concatenated(a).Ok?
    ensures Concatenated(b).Ok? && multiset(Concatenated(a).value) == multiset(Concatenated(b).value)
    decreases |a|
  {
    SameMembers(a, b);
    ConcatenatedIsOkIff(a);
    ConcatenatedIsOkIff(b);
    if a != [] {
      var i := FindLast(a, b);
      ConcatenatedWithout(b, i);
      ConcatenatedInAnyOrder(a[..|a| - 1], Without(b, i));
    } else {
      assert |multiset(b)| == 0;
    }
  }

  lemma SameMembers<T>(a: seq<T>, b: seq<T>)
    requires multiset(a) == multiset(b)
    ensures forall x :: x in a <==> x in b
  {
    forall x ensures x in a <==> x in b {
      assert x in multiset(a) <==> x in multiset(b);
    }
  }

  lemma {:induction false} CollectedInAnyOrder(ps: seq<PackPath>, qs: seq<PackPath>)
    requires AlikePaths(ps, qs) && Collected(ps).Ok?
    ensures Collected(qs).Ok? && multiset(Collected(ps).value) == multiset(Collected(qs).value)
    decreases |ps|
  {
    if ps != [] {
      var n := |ps| - 1;
      CollectedInAnyOrder(ps[..n], qs[..n]);
      assert Alike(ps[n], qs[n]);
      if ps[n] != qs[n] {
        ConcatenatedInAnyOrder(ps[n].packs.value, qs[n].packs.value);
      }
    }
  }

  lemma UniqueWithout(defs: seq<Definition>, i: nat)
    requires i < |defs|
    ensures UniqueIds(defs) <==> UniqueIds(Without(defs, i)) && forall def <- Without(defs, i) :: def.id != defs[i].id
  {
    var rest := Without(defs, i);
    assert forall k :: 0 <= k < |rest| ==> rest[k] == if k < i then defs[k] else defs[k + 1];
    if UniqueIds(rest) && forall def <- rest :: def.id != defs[i].id {
      forall j, k | 0 <= j < k < |defs| ensures defs[j].id != defs[k].id {
        if j == i {
          assert rest[k - 1] == defs[k];
        } else if k == i {
          assert rest[j] == defs[j];
        } else {
          assert rest[if j < i then j else j - 1] == defs[j] && rest[if k < i then k else k - 1] == defs[k];
        }
      }
    }
    if UniqueIds(defs) {
      forall def | def in rest ensures def.id != defs[i].id {
        var k :| 0 <= k < |rest| && rest[k] == def;
      }
    }
  }

  lemma {:induction false} UniqueInAnyOrder(a: seq<Definition>, b: seq<Definition>)
    requires multiset(a) == multiset(b)
    ensures UniqueIds(a) <==> UniqueIds(b)
    decreases |a|
  {
    if a == [] {
      assert |multiset(b)| == 0;
    } else {
      var i := FindLast(a, b);
      var front := a[..|a| - 1];
      UniqueInAnyOrder(front, Without(b, i));
      SameMembers(front, Without(b, i));
      UniqueWithout(b, i);
      UniqueWithout(a, |a| - 1);
      assert Without(a, |a| - 1) == front;
      hide UniqueIds;
    }
  }

  /** What loading pack paths gives, as `LoadReceptorPacks` does it. */
  ghost predicate Loads(paths: seq<PackPath>) {
    Collected(paths).Ok? && UniqueIds(Collected(paths).value) && AllValid(Collected(paths).value)
  }

  /** The order in which directories list their files decides neither whether loading succeeds nor what it gives
      but for its order. */
  lemma FilesInAnyOrder(ps: seq<PackPath>, qs: seq<PackPath>)
    requires AlikePaths(ps, qs)
    ensures Loads(ps) <==> Loads(qs)
    ensures Loads(ps) ==> multiset(Collected(ps).value) == multiset(Collected(qs).value)
    ensures Loads(ps) ==> forall def :: def in Collected(ps).value <==> def in Collected(qs).value
  {
    forall i | 0 <= i < |qs| ensures Alike(qs[i], ps[i]) {
      assert Alike(ps[i], qs[i]);
    }
    if Collected(ps).Ok? {
      CollectedInAnyOrder(ps, qs);
    }
    if Collected(qs).Ok? {
      CollectedInAnyOrder(qs, ps);
    }
    hide Alike;
    if Collected(ps).Ok? {
      UniqueInAnyOrder(Collected(ps).value, Collected(qs).value);
      SameMembers(Collected(ps).value, Collected(qs).value);
      hide UniqueIds;
    }
  }

  // ----- What loading gives -----

  ghost predicate InFile(pack: PackFile, def: Definition) {
    pack.Ok? && def in pack.value
  }

  /** Everything at the path can be read: a missing path gives nothing, a directory needs all its files. */
  ghost predicate Readable(path: PackPath) {
    match path
    case Nothing => true
    case File(pack) => pack.Ok?
    case Directory(packs) => packs.Ok? && forall pack <- packs.value :: pack.Ok?
  }

  ghost predicate Holds(path: PackPath, def: Definition) {
    match path
    case Nothing => false
    case File(pack) => InFile(pack, def)
    case Directory(packs) => packs.Ok? && exists pack <- packs.value :: InFile(pack, def)
  }

  lemma {:induction false} ConcatenatedMembers(packs: seq<PackFile>, def: Definition)
    requires Concatenated(packs).Ok?
    ensures def in Concatenated(packs).value <==> exists pack <- packs :: InFile(pack, def)
    decreases |packs|
  {
    if packs != [] {
      ConcatenatedMembers(packs[..|packs| - 1], def);
      SplitMembers(packs);
      assert InFile(packs[|packs| - 1], def) <==> def in packs[|packs| - 1].value;
    }
  }

  lemma ContentsMeaning(path: PackPath, def: Definition)
    ensures Contents(path).Ok? <==> Readable(path)
    ensures Readable(path) ==> (def in Contents(path).value <==> Holds(path, def))
  {
    if path.Directory? && path.packs.Ok? {
      ConcatenatedIsOkIff(path.packs.value);
      if Readable(path) {
        ConcatenatedMembers(path.packs.value, def);
      }
    }
  }

  /** Paths give definitions exactly when all of them can be read, and then exactly the definitions in their files. */
  lemma {:induction false} CollectedMeaning(paths: seq<PackPath>, def: Definition)
    ensures Collected(paths).Ok? <==> forall path <- paths :: Readable(path)
    ensures Collected(paths).Ok? ==> (def in Collected(paths).value <==> exists path <- paths :: Holds(path, def))
    decreases |paths|
  {
    if paths != [] {
      CollectedMeaning(paths[..|paths| - 1], def);
      ContentsMeaning(paths[|paths| - 1], def);
      SplitMembers(paths);
      hide Contents, Readable, Holds;
    }
  }

  /** A definition is valid exactly when its id has some character other than white space, and, unless it is a
      wildcard, so has its query, it has a threshold, and its space, if it names one, has such a character too. */
  lemma ValidMeaning(def: Definition)
    ensures ValidDefinition(def) <==>
      && !Text.AllSpace(def.id)
      && (def.cls == Wildcard
          || (&& !Text.AllSpace(def.query) && def.threshold.Some?
              && (def.space.Some? ==> !Text.AllSpace(def.space.value))))
  {
    Text.TrimMeaning(def.id);
    Text.TrimMeaning(def.query);
    if def.space.Some? {
      Text.TrimMeaning(def.space.value);
    }
    hide Text.Trim;
  }

  // ----- Receptors of definitions -----

  ghost predicate Materializes(def: Definition, space: string, embed: Embedder) {
    Materialized(def, space, embed).Ok?
  }

  lemma {:induction false} MaterializedIsOkIff(defs: seq<Definition>, space: string, embed: Embedder)
    ensures MaterializedAll(defs, space, embed).ok <==> forall def <- defs :: Materializes(def, space, embed)
    decreases |defs|
  {
    if defs != [] {
      MaterializedIsOkIff(defs[..|defs| - 1], space, embed);
      SplitMembers(defs);
      assert Materializes(defs[|defs| - 1], space, embed) <==> Materialized(defs[|defs| - 1], space, embed).Ok?;
    }
  }

  /** The receptors made are those of the definitions. */
  lemma MaterializedMembers(defs: seq<Definition>, space: string, embed: Embedder, r: Receptor)
    requires MaterializedAll(defs, space, embed).ok
    ensures r in MaterializedAll(defs, space, embed).receptors
      <==> exists def <- defs :: Materialized(def, space, embed) == Ok(r)
  {
    MaterializedFollowsDefinitions(defs, space, embed);
    var rs := MaterializedAll(defs, space, embed).receptors;
    if r in rs {
      var i :| 0 <= i < |rs| && rs[i] == r;
      assert Materialized(defs[i], space, embed) == Ok(r);
    }
    if def :| def in defs && Materialized(def, space, embed) == Ok(r) {
      var i :| 0 <= i < |defs| && defs[i] == def;
      assert rs[i] == r;
    }
  }

  function With(config: Config, defs: seq<Definition>): Config {
    config.(packs := Some(Ok(defs)))
  }

  /** The layer works: every definition could be materialized by an available plugin. */
  lemma WorksIff(config: Config, defs: seq<Definition>, embed: Embedder)
    ensures var layer := Build(With(config, defs), embed);
      && (!layer.degraded && !layer.vetoUnavailable
          <==> Plugin(config).Some? && forall def <- defs :: Materializes(def, Plugin(config).value.space, embed))
      && layer.space == (if Plugin(config).Some? then Some(Plugin(config).value.space) else None)
      && (Plugin(config).Some? && !layer.degraded ==>
            layer.receptors == MaterializedAll(defs, Plugin(config).value.space, embed).receptors)
      && (layer.degraded || layer.vetoUnavailable ==>
            layer.degraded && (layer.vetoUnavailable <==> HasVetoDefinition(defs)))
  {
    if Plugin(config).Some? {
      MaterializedIsOkIff(defs, Plugin(config).value.space, embed);
    }
  }

  // ----- The laws, from definitions to decisions -----

  ghost predicate SameDefinitions(a: seq<Definition>, b: seq<Definition>) {
    forall def :: def in a <==> def in b
  }

  /** Loading the same definitions in another order changes nothing but the listed matches, even when some
      definition fails and the receptors made before it differ. */
  lemma LoadingOrderDoesNotMatter(config: Config, a: seq<Definition>, b: seq<Definition>, embed: Embedder,
                                  supplied: Option<seq<Embedding>>, score: Score)
    requires SameDefinitions(a, b)
    ensures Evaluate(Build(With(config, a), embed), supplied, score).(matches := [])
         == Evaluate(Build(With(config, b), embed), supplied, score).(matches := [])
  {
    WorksIff(config, a, embed);
    WorksIff(config, b, embed);
    var x, y := Build(With(config, a), embed), Build(With(config, b), embed);
    hide Build;
    if !x.degraded && !x.vetoUnavailable {
      var space := Plugin(config).value.space;
      MaterializedIsOkIff(a, space, embed);
      MaterializedIsOkIff(b, space, embed);
      forall r ensures r in x.receptors <==> r in y.receptors {
        MaterializedMembers(a, space, embed, r);
        MaterializedMembers(b, space, embed, r);
      }
      hide MaterializedAll;
      OrderDoesNotMatter(x, y, supplied, score);
    }
  }

  /** The packs of some paths, as construction receives them. */
  ghost function PacksOf(paths: seq<PackPath>): Result<seq<Definition>> {
    if Loads(paths) then Collected(paths) else Err("receptor packs could not be loaded")
  }

  /** Hence the order of files in a directory changes nothing but the listed matches either, whether the packs load
      or not. */
  lemma FileOrderDoesNotMatter(config: Config, ps: seq<PackPath>, qs: seq<PackPath>, embed: Embedder,
                               supplied: Option<seq<Embedding>>, score: Score)
    requires AlikePaths(ps, qs)
    ensures Evaluate(Build(config.(packs := Some(PacksOf(ps))), embed), supplied, score).(matches := [])
         == Evaluate(Build(config.(packs := Some(PacksOf(qs))), embed), supplied, score).(matches := [])
  {
    FilesInAnyOrder(ps, qs);
    if Loads(ps) {
      hide Loads, AlikePaths;
      LoadingOrderDoesNotMatter(config, Collected(ps).value, Collected(qs).value, embed, supplied, score);
    }
  }

  /** `b` has the definitions of `a` and one more, wherever it stands. */
  ghost predicate OneMoreDefinition(a: seq<Definition>, b: seq<Definition>, extra: Definition) {
    forall def :: def in b <==> def in a || def == extra
  }

  /** Two working layers of which one has one more definition differ by its receptor. */
  lemma OneMoreReceptor(config: Config, a: seq<Definition>, b: seq<Definition>, extra: Definition, embed: Embedder)
    requires OneMoreDefinition(a, b, extra) && Plugin(config).Some?
    requires forall def <- b :: Materializes(def, Plugin(config).value.space, embed)
    ensures Materialized(extra, Plugin(config).value.space, embed).Ok?
    ensures OneMore(Build(With(config, a), embed), Build(With(config, b), embed),
                    Materialized(extra, Plugin(config).value.space, embed).value)
  {
    assert extra in b && Materializes(extra, Plugin(config).value.space, embed);
    WorksIff(config, a, embed);
    WorksIff(config, b, embed);
    var x, y := Build(With(config, a), embed), Build(With(config, b), embed);
    hide Build;
    var space := Plugin(config).value.space;
    MaterializedIsOkIff(a, space, embed);
    MaterializedIsOkIff(b, space, embed);
    forall r ensures r in y.receptors <==> r in x.receptors || r == Materialized(extra, space, embed).value {
      MaterializedMembers(a, space, embed, r);
      MaterializedMembers(b, space, embed, r);
    }
  }

  /** What a delivering layer is made of. */
  lemma DeliveringWorks(config: Config, defs: seq<Definition>, embed: Embedder, supplied: Option<seq<Embedding>>,
                        score: Score)
    requires Evaluate(Build(With(config, defs), embed), supplied, score).deliver
    ensures Plugin(config).Some? && forall def <- defs :: Materializes(def, Plugin(config).value.space, embed)
  {
    WorksIff(config, defs, embed);
    hide Build;
    DeliverMeaning(Build(With(config, defs), embed), supplied, score);
  }

  /** One more veto definition never delivers what was refused. */
  lemma LoadingAVetoNeverDelivers(config: Config, a: seq<Definition>, b: seq<Definition>, veto: Definition,
                                  embed: Embedder, supplied: Option<seq<Embedding>>, score: Score)
    requires OneMoreDefinition(a, b, veto) && veto.cls == Veto
    ensures Evaluate(Build(With(config, b), embed), supplied, score).deliver ==>
      Evaluate(Build(With(config, a), embed), supplied, score).deliver
  {
    if Evaluate(Build(With(config, b), embed), supplied, score).deliver {
      DeliveringWorks(config, b, embed, supplied, score);
      OneMoreReceptor(config, a, b, veto, embed);
      assert veto in b && Materializes(veto, Plugin(config).value.space, embed);
      hide Build, Evaluate;
      AddingAVetoNeverDelivers(Build(With(config, a), embed), Build(With(config, b), embed),
        Materialized(veto, Plugin(config).value.space, embed).value, supplied, score);
    }
  }

  /** One more definition that is no veto keeps a delivery exactly when it can be materialized: a foreign space or a
      failing embedding degrades the whole layer and turns every delivery into a refusal. */
  lemma LoadingAnInterestRefusesIff(config: Config, a: seq<Definition>, b: seq<Definition>, interest: Definition,
                                    embed: Embedder, supplied: Option<seq<Embedding>>, score: Score)
    requires OneMoreDefinition(a, b, interest) && interest.cls != Veto
    requires Evaluate(Build(With(config, a), embed), supplied, score).deliver
    ensures Plugin(config).Some?
    ensures Evaluate(Build(With(config, b), embed), supplied, score).deliver
      <==> Materialized(interest, Plugin(config).value.space, embed).Ok?
  {
    DeliveringWorks(config, a, embed, supplied, score);
    var space := Plugin(config).value.space;
    assert interest in b;
    if Evaluate(Build(With(config, b), embed), supplied, score).deliver {
      DeliveringWorks(config, b, embed, supplied, score);
      assert Materializes(interest, space, embed);
    }
    if Materialized(interest, space, embed).Ok? {
      assert Materializes(interest, space, embed);
      OneMoreReceptor(config, a, b, interest, embed);
      hide Build, Evaluate;
      AddingAnInterestNeverRefuses(Build(With(config, a), embed), Build(With(config, b), embed),
        Materialized(interest, space, embed).value, supplied, score);
    }
  }

  /** When a definition can be materialized: a wildcard always, any other exactly when it names no foreign space and
      its embedding returns some vector. */
  lemma MaterializesIff(def: Definition, space: string, embed: Embedder)
    ensures Materialized(def, space, embed).Ok? <==>
      || def.cls == Wildcard
      || ((def.space.Some? ==> def.space.value == space) && exists vector: Vector :: JudgedBy(def, vector, embed))
  {
    var vectors := embed(Text.Trim(def.query));
    if vectors.Ok? && vectors.value != [] {
      assert JudgedBy(def, vectors.value[|vectors.value| - 1], embed);
    }
  }
}
