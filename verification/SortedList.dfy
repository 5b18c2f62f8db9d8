/** A `BTreeMap` whose values carry their own key (and a `BTreeSet`, when the value is the key): the values in
    strictly ascending key order, at most one for each key. */
module SortedList {
  import opened Wrappers
  import Text

  function Insert<T>(m: seq<T>, x: T, key: T -> string): seq<T> {
    if m == [] then [x]
    else if Text.Less(key(x), key(m[0])) then [x] + m
    else if key(x) == key(m[0]) then [x] + m[1..]
    else [m[0]] + Insert(m[1..], x, key)
  }

  function InsertAll<T>(m: seq<T>, xs: seq<T>, key: T -> string): seq<T>
    decreases |xs|
  {
    if xs == [] then m else Insert(InsertAll(m, xs[..|xs| - 1], key), xs[|xs| - 1], key)
  }

  /** The last value under a key in a list of insertions. */
  function Last<T>(xs: seq<T>, k: string, key: T -> string): Option<T>
    decreases |xs|
  {
    if xs == [] then None
    else if key(xs[|xs| - 1]) == k then Some(xs[|xs| - 1])
    else Last(xs[..|xs| - 1], k, key)
  }

  ghost predicate Sorted<T>(m: seq<T>, key: T -> string) {
    forall i, j :: 0 <= i < j < |m| ==> Text.Less(key(m[i]), key(m[j]))
  }

  /** Inserting keeps the order, puts the value in and takes out the one it replaces. */
  lemma {:induction false} InsertMeaning<T>(m: seq<T>, x: T, key: T -> string)
    requires Sorted(m, key)
    ensures Sorted(Insert(m, x, key), key)
    ensures forall y :: y in Insert(m, x, key) <==> y == x || (y in m && key(y) != key(x))
  {
    if m != [] {
      var rest := m[1..];
      assert m == [m[0]] + rest;
      forall y | y in rest ensures Text.Less(key(m[0]), key(y)) && key(y) != key(m[0]) {
        var i :| 0 <= i < |rest| && rest[i] == y;
        assert Text.Less(key(m[0]), key(m[i + 1]));
        Text.LessIrreflexive(key(y));
      }
      if Text.Less(key(x), key(m[0])) {
        forall y | y in rest ensures Text.Less(key(x), key(y)) {
          Text.LessTransitive(key(x), key(m[0]), key(y));
        }
        NotLessThanItself(m, x, key);
      } else if key(x) != key(m[0]) {
        Text.LessConnected(key(x), key(m[0]));
        assert Text.Less(key(m[0]), key(x));
        InsertMeaning(rest, x, key);
        var inserted := Insert(rest, x, key);
        forall y | y in inserted ensures Text.Less(key(m[0]), key(y)) {
          InsertedMember(rest, x, key, y);
        }
        PrependSmallest(m[0], inserted, key);
      }
    }
  }

  lemma {:induction false} InsertedMember<T>(m: seq<T>, x: T, key: T -> string, y: T)
    requires y in Insert(m, x, key)
    ensures y == x || y in m
  {
    if m != [] {
      assert m == [m[0]] + m[1..];
      if !Text.Less(key(x), key(m[0])) && key(x) != key(m[0]) && y != m[0] {
        InsertedMember(m[1..], x, key, y);
      }
    }
  }

  lemma PrependSmallest<T>(x: T, m: seq<T>, key: T -> string)
    requires Sorted(m, key)
    requires forall y :: y in m ==> Text.Less(key(x), key(y))
    ensures Sorted([x] + m, key)
  {
    var all := [x] + m;
    forall i, j | 0 <= i < j < |all| ensures Text.Less(key(all[i]), key(all[j])) {
      assert all[j] == m[j - 1];
      assert m[j - 1] in m;
    }
  }

  lemma NotLessThanItself<T>(m: seq<T>, x: T, key: T -> string)
    requires forall y <- m :: Text.Less(key(x), key(y))
    ensures forall y <- m :: key(y) != key(x)
  {
    Text.LessIrreflexive(key(x));
  }

  /** After a list of insertions each key holds the value inserted last. */
  lemma {:induction false} InsertAllMeaning<T>(xs: seq<T>, key: T -> string)
    ensures Sorted(InsertAll([], xs, key), key)
    ensures forall y :: y in InsertAll([], xs, key) <==> Last(xs, key(y), key) == Some(y)
    decreases |xs|
  {
    if xs != [] {
      InsertAllMeaning(xs[..|xs| - 1], key);
      InsertMeaning(InsertAll([], xs[..|xs| - 1], key), xs[|xs| - 1], key);
    }
  }

  /** A sorted list is determined by its members. */
  lemma {:induction false} SortedListsAreEqual<T>(a: seq<T>, b: seq<T>, key: T -> string)
    requires Sorted(a, key) && Sorted(b, key)
    requires forall y :: y in a <==> y in b
    ensures a == b
  {
    assert b != [] ==> b[0] in b;
    assert a != [] ==> a[0] in a;
    if a != [] {
      HeadIsLeast(a, b[0], key);
      HeadIsLeast(b, a[0], key);
      if a[0] != b[0] {
        Text.LessTransitive(key(a[0]), key(b[0]), key(a[0]));
        Text.LessIrreflexive(key(a[0]));
      }
      assert a == [a[0]] + a[1..] && b == [b[0]] + b[1..];
      TailMembers(a, key);
      TailMembers(b, key);
      SortedListsAreEqual(a[1..], b[1..], key);
    }
  }

  lemma HeadIsLeast<T>(m: seq<T>, y: T, key: T -> string)
    requires Sorted(m, key) && y in m
    ensures y == m[0] || Text.Less(key(m[0]), key(y))
  {
  }

  lemma TailMembers<T>(m: seq<T>, key: T -> string)
    requires Sorted(m, key) && m != []
    ensures forall y :: y in m[1..] <==> y in m && y != m[0]
  {
    Text.LessIrreflexive(key(m[0]));
    assert m == [m[0]] + m[1..];
    forall y | y in m[1..] ensures y != m[0] {
      var i :| 0 <= i < |m[1..]| && m[1..][i] == y;
      assert Text.Less(key(m[0]), key(m[i + 1]));
    }
  }

  lemma {:induction false} LastOfConcat<T>(a: seq<T>, b: seq<T>, k: string, key: T -> string)
    ensures Last(a + b, k, key) == if Last(b, k, key).Some? then Last(b, k, key) else Last(a, k, key)
    decreases |b|
  {
    if b == [] {
      assert a + b == a;
    } else {
      assert (a + b)[..|a + b| - 1] == a + b[..|b| - 1];
      LastOfConcat(a, b[..|b| - 1], k, key);
    }
  }

  lemma {:induction false} LastHasTheKey<T>(xs: seq<T>, k: string, key: T -> string)
    ensures Last(xs, k, key).Some? ==> Last(xs, k, key).value in xs && key(Last(xs, k, key).value) == k
    ensures Last(xs, k, key).Some? <==> exists x <- xs :: key(x) == k
    decreases |xs|
  {
    if xs != [] {
      assert xs == xs[..|xs| - 1] + [xs[|xs| - 1]];
      LastHasTheKey(xs[..|xs| - 1], k, key);
    }
  }
}
