/** Receptor definitions and the loading of receptor packs. */
module Receptors {
  import opened Wrappers
  import Text

  datatype ReceptorClass = Broad | Intersection | Project | Wildcard | Veto

  datatype Definition = Definition(
    id: string,
    cls: ReceptorClass,
    query: string,
    threshold: Option<real>,
    space: Option<string>)

  /** A pack file, read and parsed; an error stands for either step failing. */
  type PackFile = Result<seq<Definition>>

  /** What a configured pack path turns out to be. A directory lists its JSON files in no particular order. */
  datatype PackPath =
    | Nothing
    | File(pack: PackFile)
    | Directory(packs: Result<seq<PackFile>>)

  function Join(a: PackFile, b: PackFile): PackFile {
    if a.Err? then a else if b.Err? then b else Ok(a.value + b.value)
  }

  function Concatenated(packs: seq<PackFile>): PackFile
    decreases |packs|
  {
    if packs == [] then Ok([]) else Join(Concatenated(packs[..|packs| - 1]), packs[|packs| - 1])
  }

  function Contents(path: PackPath): PackFile {
    match path
    case Nothing => Ok([])
    case File(pack) => pack
    case Directory(packs) => if packs.Err? then Err(packs.error) else Concatenated(packs.value)
  }

  function Collected(paths: seq<PackPath>): PackFile
    decreases |paths|
  {
    if paths == [] then Ok([]) else Join(Collected(paths[..|paths| - 1]), Contents(paths[|paths| - 1]))
  }

  predicate Blank(s: string) {
    Text.Trim(s) == []
  }

  predicate ValidDefinition(def: Definition) {
    && !Blank(def.id)
    && (def.cls != Wildcard ==>
          && !Blank(def.query)
          && def.threshold.Some?
          && (def.space.Some? ==> !Blank(def.space.value)))
  }

  function ValidationError(def: Definition): (error: Option<string>)
    ensures error.None? <==> ValidDefinition(def)
  {
    if Blank(def.id) then Some("receptor_id must not be empty")
    else if def.cls == Wildcard then None
    else if Blank(def.query) then Some("receptor requires query")
    else if def.threshold.None? then Some("receptor requires threshold")
    else if def.space.Some? && Blank(def.space.value) then Some("receptor has empty space_id")
    else None
  }

  ghost predicate UniqueIds(defs: seq<Definition>) {
    forall i, j :: 0 <= i < j < |defs| ==> defs[i].id != defs[j].id
  }

  ghost predicate AllValid(defs: seq<Definition>) {
    forall def <- defs :: ValidDefinition(def)
  }

  /** Loading succeeds exactly when every pack does, no id is used twice and every definition is valid; it then
      yields all definitions in the order they were found. */
  method LoadReceptorPacks(paths: seq<PackPath>) returns (loaded: Result<seq<Definition>>)
    ensures loaded.Ok? <==>
      Collected(paths).Ok? && UniqueIds(Collected(paths).value) && AllValid(Collected(paths).value)
    ensures loaded.Ok? ==> loaded.value == Collected(paths).value
  {
    var all: seq<Definition> := [];
    for i := 0 to |paths|
      invariant Collected(paths[..i]) == Ok(all)
    {
      assert paths[..i + 1][..i] == paths[..i];
      CollectedGrowsOrFails(paths, i + 1);
      ghost var before := all;
      match paths[i] {
      case Nothing =>
      case File(pack) =>
        if pack.Err? {
          return Err(pack.error);
        }
        all := all + pack.value;
      case Directory(packs) =>
        if packs.Err? {
          return Err(packs.error);
        }
        for k := 0 to |packs.value|
          invariant Concatenated(packs.value[..k]).Ok?
          invariant all == before + Concatenated(packs.value[..k]).value
        {
          assert packs.value[..k + 1][..k] == packs.value[..k];
          ConcatenatedFailsWithPart(packs.value, k + 1);
          if packs.value[k].Err? {
            return Err(packs.value[k].error);
          }
          all := all + packs.value[k].value;
        }
        assert packs.value[..|packs.value|] == packs.value;
      }
      assert all == before + Contents(paths[i]).value;
    }
    assert paths[..|paths|] == paths;

    var seen: set<string> := {};
    for i := 0 to |all|
      invariant seen == set def | def in all[..i] :: def.id
      invariant UniqueIds(all[..i]) && AllValid(all[..i])
    {
      assert all[..i + 1] == all[..i] + [all[i]];
      if all[i].id in seen {
        var j :| 0 <= j < i && all[j].id == all[i].id;
        return Err("duplicate receptor_id");
      }
      seen := seen + {all[i].id};
      var error := ValidationError(all[i]);
      if error.Some? {
        assert all[i] in all;
        return Err(error.value);
      }
    }
    assert all[..|all|] == all;
    return Ok(all);
  }

  lemma {:induction false} CollectedGrowsOrFails(paths: seq<PackPath>, n: nat)
    requires n <= |paths|
    ensures Collected(paths[..n]).Err? ==> Collected(paths).Err?
    decreases |paths|
  {
    if n < |paths| {
      var front := paths[..|paths| - 1];
      assert front[..n] == paths[..n];
      CollectedGrowsOrFails(front, n);
    } else {
      assert paths[..n] == paths;
    }
  }

  lemma {:induction false} ConcatenatedFailsWithPart(packs: seq<PackFile>, n: nat)
    requires n <= |packs|
    ensures Concatenated(packs[..n]).Err? ==> Concatenated(packs).Err?
    decreases |packs|
  {
    if n < |packs| {
      var front := packs[..|packs| - 1];
      assert front[..n] == packs[..n];
      ConcatenatedFailsWithPart(front, n);
    } else {
      assert packs[..n] == packs;
    }
  }
}
