/** Embeddings of an outgoing message: those the caller supplied and those generated on request. */
module Outbound {
  import opened Attention
  import opened SortedList
  import opened Wrappers
  import Text

  datatype Request = Request(supplied: seq<Embedding>, generateFor: seq<string>, override: bool)

  function SpaceOf(): Embedding -> string {
    (e: Embedding) => e.space
  }

  function Itself(): string -> string {
    (s: string) => s
  }

  function TrimmedAll(spaces: seq<string>): seq<string>
    decreases |spaces|
  {
    if spaces == [] then []
    else
      var space := Text.Trim(spaces[|spaces| - 1]);
      TrimmedAll(spaces[..|spaces| - 1]) + (if space == [] then [] else [space])
  }

  /** The requested spaces: trimmed, without the empty ones, sorted and without repetition. */
  function Requested(request: Request): seq<string> {
    SortedList.InsertAll([], TrimmedAll(request.generateFor), Itself())
  }

  predicate Supplies(supplied: seq<Embedding>, space: string) {
    exists e <- supplied :: e.space == space
  }

  /** What the configured client of a space makes of the text: its first vector, unless it fails or is missing. */
  function Generate(text: string, space: string, clients: map<string, Embedder>): seq<Embedding> {
    if space !in clients then []
    else
      var vectors := clients[space](text);
      if vectors.Err? || vectors.value == [] then [] else [Embedding(space, vectors.value[0])]
  }

  function GenerateAll(text: string, spaces: seq<string>, clients: map<string, Embedder>): seq<Embedding>
    decreases |spaces|
  {
    if spaces == [] then []
    else GenerateAll(text, spaces[..|spaces| - 1], clients) + Generate(text, spaces[|spaces| - 1], clients)
  }

  function Unsupplied(spaces: seq<string>, request: Request): seq<string>
    decreases |spaces|
  {
    if spaces == [] then []
    else
      var space := spaces[|spaces| - 1];
      Unsupplied(spaces[..|spaces| - 1], request)
      + (if !request.override && Supplies(request.supplied, space) then [] else [space])
  }

  function Merge(supplied: seq<Embedding>, generated: seq<Embedding>, override: bool): seq<Embedding> {
    SortedList.InsertAll([], if override then supplied + generated else generated + supplied, SpaceOf())
  }

  /** The embeddings sent: spaces already supplied are not even generated when they could not win. */
  function Compose(text: string, request: Request, clients: map<string, Embedder>): seq<Embedding> {
    Merge(request.supplied, GenerateAll(text, Unsupplied(Requested(request), request), clients), request.override)
  }

  lemma InsertOneMore(before: seq<Embedding>, es: seq<Embedding>, i: nat)
    requires i < |es|
    ensures SortedList.InsertAll([], before + es[..i + 1], SpaceOf())
         == Insert(SortedList.InsertAll([], before + es[..i], SpaceOf()), es[i], SpaceOf())
  {
    var all := before + es[..i + 1];
    assert all[..|all| - 1] == before + es[..i];
  }

  /** The embeddings that lose come first, so that those that win overwrite them. */
  method MergeOutboundEmbeddings(supplied: seq<Embedding>, generated: seq<Embedding>, override: bool)
    returns (merged: seq<Embedding>)
    ensures merged == Merge(supplied, generated, override)
  {
    var first, second := generated, supplied;
    if override {
      first, second := supplied, generated;
    }
    assert Merge(supplied, generated, override) == SortedList.InsertAll([], first + second, SpaceOf());
    merged := [];
    assert SortedList.InsertAll([], [] + first[..0], SpaceOf()) == [];
    hide SortedList.InsertAll, Insert, SpaceOf, Merge;
    for i := 0 to |first|
      invariant merged == SortedList.InsertAll([], [] + first[..i], SpaceOf())
    {
      InsertOneMore([], first, i);
      merged := Insert(merged, first[i], SpaceOf());
    }
    assert [] + first[..|first|] == first + second[..0];
    for i := 0 to |second|
      invariant merged == SortedList.InsertAll([], first + second[..i], SpaceOf())
    {
      InsertOneMore(first, second, i);
      merged := Insert(merged, second[i], SpaceOf());
    }
    assert second[..|second|] == second;
  }

  method RequestedSpaces(request: Request) returns (spaces: seq<string>)
    ensures spaces == Requested(request)
  {
    spaces := [];
    var trimmed := TrimmedAll(request.generateFor);
    for i := 0 to |trimmed|
      invariant spaces == SortedList.InsertAll([], trimmed[..i], Itself())
    {
      assert trimmed[..i + 1][..i] == trimmed[..i];
      spaces := Insert(spaces, trimmed[i], Itself());
    }
    assert trimmed[..|trimmed|] == trimmed;
  }

  method ComposeOutboundEmbeddings(text: string, request: Request, clients: map<string, Embedder>)
    returns (sent: seq<Embedding>)
    ensures sent == Compose(text, request, clients)
  {
    hide Requested, Merge;
    var spaces := RequestedSpaces(request);
    var generated: seq<Embedding> := [];
    for i := 0 to |spaces|
      invariant generated == GenerateAll(text, Unsupplied(spaces[..i], request), clients)
    {
      assert spaces[..i + 1][..i] == spaces[..i];
      ghost var before := Unsupplied(spaces[..i], request);
      if !request.override && Supplies(request.supplied, spaces[i]) {
        assert before + [] == before;
        continue;
      }
      assert (before + [spaces[i]])[..|before|] == before;
      generated := generated + Generate(text, spaces[i], clients);
    }
    assert spaces[..|spaces|] == spaces;
    sent := MergeOutboundEmbeddings(request.supplied, generated, request.override);
  }

  // ----- What is sent -----

  function FirstOf(generated: seq<Embedding>): Option<Embedding> {
    if generated == [] then None else Some(generated[0])
  }

  lemma {:induction false} GeneratedOf(text: string, spaces: seq<string>, clients: map<string, Embedder>, space: string)
    ensures Last(GenerateAll(text, spaces, clients), space, SpaceOf())
         == if space in spaces then FirstOf(Generate(text, space, clients)) else None
    decreases |spaces|
  {
    if spaces != [] {
      var front, last := spaces[..|spaces| - 1], spaces[|spaces| - 1];
      assert spaces == front + [last];
      GeneratedOf(text, front, clients, space);
      LastOfConcat(GenerateAll(text, front, clients), Generate(text, last, clients), space, SpaceOf());
      var made := Generate(text, last, clients);
      if made != [] {
        assert made[..|made| - 1] == [];
      }
    }
  }

  lemma {:induction false} UnsuppliedMembers(spaces: seq<string>, request: Request)
    ensures forall space :: space in Unsupplied(spaces, request) <==>
      space in spaces && !(!request.override && Supplies(request.supplied, space))
    decreases |spaces|
  {
    if spaces != [] {
      assert spaces == spaces[..|spaces| - 1] + [spaces[|spaces| - 1]];
      UnsuppliedMembers(spaces[..|spaces| - 1], request);
    }
  }

  /** Skipping the spaces already supplied is invisible: the result is that of generating every requested
      space and merging. */
  lemma SkippingIsSound(text: string, request: Request, clients: map<string, Embedder>)
    ensures Compose(text, request, clients)
         == Merge(request.supplied, GenerateAll(text, Requested(request), clients), request.override)
  {
    var all := Requested(request);
    var some := Unsupplied(all, request);
    if request.override {
      UnsuppliedAll(all, request);
    } else {
      var short := GenerateAll(text, some, clients) + request.supplied;
      var long := GenerateAll(text, all, clients) + request.supplied;
      InsertAllMeaning(short, SpaceOf());
      InsertAllMeaning(long, SpaceOf());
      UnsuppliedMembers(all, request);
      forall space ensures Last(short, space, SpaceOf()) == Last(long, space, SpaceOf()) {
        LastOfConcat(GenerateAll(text, some, clients), request.supplied, space, SpaceOf());
        LastOfConcat(GenerateAll(text, all, clients), request.supplied, space, SpaceOf());
        GeneratedOf(text, some, clients, space);
        GeneratedOf(text, all, clients, space);
        LastHasTheKey(request.supplied, space, SpaceOf());
      }
      SortedListsAreEqual(
        SortedList.InsertAll([], short, SpaceOf()), SortedList.InsertAll([], long, SpaceOf()), SpaceOf());
    }
  }

  lemma {:induction false} UnsuppliedAll(spaces: seq<string>, request: Request)
    requires request.override
    ensures Unsupplied(spaces, request) == spaces
    decreases |spaces|
  {
    if spaces != [] {
      UnsuppliedAll(spaces[..|spaces| - 1], request);
    }
  }

  /** The embeddings sent are strictly sorted by space, and each space holds the generated vector or the last
      supplied one: the generated one wins under the override flag, the supplied one otherwise. */
  lemma ComposeMeaning(text: string, request: Request, clients: map<string, Embedder>, e: Embedding)
    ensures Sorted(Compose(text, request, clients), SpaceOf())
    ensures e in Compose(text, request, clients) <==>
      var supplied := Last(request.supplied, e.space, SpaceOf());
      var generated := if e.space in Requested(request) then FirstOf(Generate(text, e.space, clients)) else None;
      Some(e) == if request.override then (if generated.Some? then generated else supplied)
                 else (if supplied.Some? then supplied else generated)
  {
    SkippingIsSound(text, request, clients);
    var generated := GenerateAll(text, Requested(request), clients);
    var list := if request.override then request.supplied + generated else generated + request.supplied;
    InsertAllMeaning(list, SpaceOf());
    LastOfConcat(request.supplied, generated, e.space, SpaceOf());
    LastOfConcat(generated, request.supplied, e.space, SpaceOf());
    GeneratedOf(text, Requested(request), clients, e.space);
  }

  /** Which spaces are requested: the trimmed names that are not empty. */
  lemma RequestedMembers(request: Request, space: string)
    ensures Sorted(Requested(request), Itself())
    ensures space in Requested(request) <==> space != [] && exists raw <- request.generateFor :: Text.Trim(raw) == space
  {
    InsertAllMeaning(TrimmedAll(request.generateFor), Itself());
    LastHasTheKey(TrimmedAll(request.generateFor), space, Itself());
    TrimmedMembers(request.generateFor, space);
  }

  /** The daemon makes this vector for a space that was asked for: the first its client returns. */
  ghost predicate Generates(text: string, request: Request, clients: map<string, Embedder>, e: Embedding) {
    && e.space != [] && (exists raw <- request.generateFor :: Text.Trim(raw) == e.space)
    && e.space in clients && clients[e.space](text).Ok? && clients[e.space](text).value != []
    && e.vector == clients[e.space](text).value[0]
  }

  /** The caller's last embedding for its space. */
  ghost predicate SuppliedLast(supplied: seq<Embedding>, e: Embedding) {
    exists i :: 0 <= i < |supplied| && supplied[i] == e && forall j :: i < j < |supplied| ==>
      supplied[j].space != e.space
  }

  lemma {:induction false} LastIsLast(supplied: seq<Embedding>, e: Embedding)
    ensures Last(supplied, e.space, SpaceOf()) == Some(e) <==> SuppliedLast(supplied, e)
    ensures Last(supplied, e.space, SpaceOf()).None? <==> !Supplies(supplied, e.space)
    decreases |supplied|
  {
    if supplied != [] {
      var front, last := supplied[..|supplied| - 1], supplied[|supplied| - 1];
      assert supplied == front + [last];
      LastIsLast(front, e);
      if last.space != e.space && SuppliedLast(front, e) {
        var i :| 0 <= i < |front| && front[i] == e && forall j :: i < j < |front| ==> front[j].space != e.space;
        assert supplied[i] == e;
      }
      if last.space != e.space && SuppliedLast(supplied, e) {
        var i :| && 0 <= i < |supplied| && supplied[i] == e
                 && forall j :: i < j < |supplied| ==> supplied[j].space != e.space;
        assert front[i] == e && forall j :: i < j < |front| ==> front[j] == supplied[j];
      }
      if last == e {
        assert supplied[|front|] == e;
      }
    }
  }

  /** An embedding is sent exactly when it is the one generated for its space and the caller wants it to override or
      supplied none, or it is the caller's last for its space and none is generated to override it. */
  lemma SentMeaning(text: string, request: Request, clients: map<string, Embedder>, e: Embedding)
    ensures e in Compose(text, request, clients) <==>
      || (Generates(text, request, clients, e) && (request.override || !Supplies(request.supplied, e.space)))
      || (SuppliedLast(request.supplied, e)
          && !(request.override && exists v: Vector :: Generates(text, request, clients, Embedding(e.space, v))))
  {
    ComposeMeaning(text, request, clients, e);
    RequestedMembers(request, e.space);
    LastIsLast(request.supplied, e);
    var generated := if e.space in Requested(request) then FirstOf(Generate(text, e.space, clients)) else None;
    assert generated == Some(e) <==> Generates(text, request, clients, e);
    if generated.Some? {
      assert generated.value.space == e.space;
      assert Generates(text, request, clients, Embedding(e.space, generated.value.vector));
    }
    hide Compose, Requested, SuppliedLast, Supplies;
  }

  lemma {:induction false} TrimmedMembers(spaces: seq<string>, space: string)
    ensures space in TrimmedAll(spaces) <==> space != [] && exists raw <- spaces :: Text.Trim(raw) == space
    decreases |spaces|
  {
    if spaces != [] {
      assert spaces == spaces[..|spaces| - 1] + [spaces[|spaces| - 1]];
      TrimmedMembers(spaces[..|spaces| - 1], space);
    }
  }
}
