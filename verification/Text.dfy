/** Text as the daemon compares it: byte-wise (code point) order, and trimming of Unicode white space. */
module Text {

  /** Strict lexicographic order, the order of `str` in the source. */
  predicate Less(a: string, b: string) {
    if b == [] then false
    else if a == [] then true
    else if a[0] != b[0] then a[0] < b[0]
    else Less(a[1..], b[1..])
  }

  lemma {:induction false} LessIrreflexive(a: string)
    ensures !Less(a, a)
  {
    if a != [] {
      LessIrreflexive(a[1..]);
    }
  }

  lemma {:induction false} LessTransitive(a: string, b: string, c: string)
    requires Less(a, b) && Less(b, c)
    ensures Less(a, c)
  {
    if a != [] && a[0] == b[0] && b[0] == c[0] {
      LessTransitive(a[1..], b[1..], c[1..]);
    }
  }

  lemma {:induction false} LessConnected(a: string, b: string)
    requires a != b
    ensures Less(a, b) || Less(b, a)
  {
    if a != [] && b != [] && a[0] == b[0] {
      assert a == [a[0]] + a[1..];
      assert b == [b[0]] + b[1..];
      LessConnected(a[1..], b[1..]);
    }
  }

  /** The texts agree on their first n characters. */
  ghost predicate Agree(a: string, b: string, n: nat) {
    n <= |a| && n <= |b| && a[..n] == b[..n]
  }

  /** The order of texts: the first difference decides, and a proper prefix comes first. */
  lemma {:induction false} LessMeaning(a: string, b: string)
    ensures Less(a, b) <==>
      exists n: nat :: Agree(a, b, n) && n < |b| && (n == |a| || a[n] < b[n])
  {
    if a == [] {
      assert b != [] ==> Agree(a, b, 0);
    } else if b != [] {
      if a[0] != b[0] {
        assert Agree(a, b, 0);
        forall n: nat | n > 0 ensures !Agree(a, b, n) {
          if n <= |a| && n <= |b| {
            assert a[..n][0] == a[0] && b[..n][0] == b[0];
          }
        }
      } else {
        LessMeaning(a[1..], b[1..]);
        forall n: nat ensures Agree(a[1..], b[1..], n) <==> Agree(a, b, n + 1) {
          AgreeFurther(a, b, n);
        }
        if n: nat :| Agree(a[1..], b[1..], n) && n < |b[1..]| && (n == |a[1..]| || a[1..][n] < b[1..][n]) {
          assert Agree(a, b, n + 1);
        }
        if n: nat :| Agree(a, b, n) && n < |b| && (n == |a| || a[n] < b[n]) {
          assert n > 0;
          assert Agree(a[1..], b[1..], n - 1) <==> Agree(a, b, n - 1 + 1);
        }
      }
    }
  }

  lemma AgreeFurther(a: string, b: string, n: nat)
    requires a != [] && b != [] && a[0] == b[0]
    ensures Agree(a[1..], b[1..], n) <==> Agree(a, b, n + 1)
  {
    if n + 1 <= |a| && n + 1 <= |b| {
      assert a[..n + 1] == [a[0]] + a[1..][..n];
      assert b[..n + 1] == [b[0]] + b[1..][..n];
      if a[..n + 1] == b[..n + 1] {
        assert a[..n + 1][1..] == a[1..][..n] && b[..n + 1][1..] == b[1..][..n];
      }
    }
  }

  /** The Unicode White_Space property, which `str::trim` strips. */
  predicate IsSpace(c: char) {
    || '\U{0009}' <= c <= '\U{000D}'
    || c == ' '
    || c == '\U{0085}'
    || c == '\U{00A0}'
    || c == '\U{1680}'
    || '\U{2000}' <= c <= '\U{200A}'
    || c == '\U{2028}'
    || c == '\U{2029}'
    || c == '\U{202F}'
    || c == '\U{205F}'
    || c == '\U{3000}'
  }

  function TrimStart(s: string): string {
    if s != [] && IsSpace(s[0]) then TrimStart(s[1..]) else s
  }

  function TrimEnd(s: string): string {
    if s != [] && IsSpace(s[|s| - 1]) then TrimEnd(s[..|s| - 1]) else s
  }

  function Trim(s: string): string {
    TrimEnd(TrimStart(s))
  }

  ghost predicate AllSpace(s: string) {
    forall c <- s :: IsSpace(c)
  }

  lemma SpaceInFront(s: string, k: nat)
    requires s != [] && IsSpace(s[0]) && k <= |s[1..]| && AllSpace(s[1..][..k])
    ensures AllSpace(s[..k + 1]) && s[1..][k..] == s[k + 1..]
  {
    assert s[..k + 1] == [s[0]] + s[1..][..k];
  }

  lemma {:induction false} TrimStartMeaning(s: string) returns (i: nat)
    ensures i <= |s| && TrimStart(s) == s[i..] && AllSpace(s[..i])
    ensures i < |s| ==> !IsSpace(s[i])
  {
    hide IsSpace, AllSpace;
    if s != [] && IsSpace(s[0]) {
      var k := TrimStartMeaning(s[1..]);
      SpaceInFront(s, k);
      i := k + 1;
    } else {
      i := 0;
      assert AllSpace(s[..0]) by {
        NoCharacters(s[..0]);
      }
    }
  }

  lemma NoCharacters(s: string)
    requires s == []
    ensures AllSpace(s)
  {
  }

  lemma SpaceBehind(s: string, j: nat)
    requires s != [] && IsSpace(s[|s| - 1]) && j < |s| && AllSpace(s[..|s| - 1][j..])
    ensures AllSpace(s[j..]) && s[..|s| - 1][..j] == s[..j]
  {
    assert s[j..] == s[..|s| - 1][j..] + [s[|s| - 1]];
  }

  lemma {:induction false} TrimEndMeaning(s: string) returns (j: nat)
    ensures j <= |s| && TrimEnd(s) == s[..j] && AllSpace(s[j..])
    ensures j > 0 ==> !IsSpace(s[j - 1])
    decreases |s|
  {
    hide IsSpace, AllSpace;
    if s != [] && IsSpace(s[|s| - 1]) {
      j := TrimEndMeaning(s[..|s| - 1]);
      SpaceBehind(s, j);
    } else {
      j := |s|;
      NoCharacters(s[j..]);
    }
  }

  ghost predicate TrimmedTo(s: string, t: string, i: nat, j: nat) {
    i <= j <= |s| && t == s[i..j] && AllSpace(s[..i]) && AllSpace(s[j..])
  }

  lemma TrimmedParts(s: string, i: nat, k: nat)
    requires i <= |s| && k <= |s[i..]| && AllSpace(s[..i]) && AllSpace(s[i..][k..])
    ensures TrimmedTo(s, s[i..][..k], i, i + k)
  {
    assert s[i..][..k] == s[i..i + k] && s[i..][k..] == s[i + k..];
  }

  lemma NothingLeft(s: string, i: nat, j: nat)
    requires TrimmedTo(s, [], i, j)
    ensures AllSpace(s)
  {
    assert s == s[..i] + s[j..];
  }

  /** Where the trimmed text stands: between white space, and neither begins nor ends with any. */
  lemma TrimParts(s: string) returns (i: nat, j: nat)
    ensures TrimmedTo(s, Trim(s), i, j)
    ensures i < j ==> !IsSpace(s[i]) && !IsSpace(s[j - 1])
  {
    hide IsSpace, TrimStart, TrimEnd, AllSpace, TrimmedTo;
    i := TrimStartMeaning(s);
    var k := TrimEndMeaning(TrimStart(s));
    TrimmedParts(s, i, k);
    j := i + k;
    assert TrimmedTo(s, Trim(s), i, j);
    assert j <= |s| && (k > 0 ==> s[i..][k - 1] == s[j - 1]);
  }

  lemma SomethingLeft(s: string, t: string, i: nat, j: nat)
    requires TrimmedTo(s, t, i, j) && t != [] && !IsSpace(s[i])
    ensures !AllSpace(s)
  {
  }

  lemma EndsOf(s: string, t: string, i: nat, j: nat)
    requires TrimmedTo(s, t, i, j)
    ensures i <= j <= |s| && |t| == j - i
    ensures t != [] ==> t[0] == s[i] && t[|t| - 1] == s[j - 1]
  {
  }

  /** Trimming takes away white space at both ends, all of it and nothing else. */
  lemma TrimMeaning(s: string)
    ensures exists i: nat, j: nat :: TrimmedTo(s, Trim(s), i, j)
    ensures Trim(s) != [] ==> !IsSpace(Trim(s)[0]) && !IsSpace(Trim(s)[|Trim(s)| - 1])
    ensures Trim(s) == [] <==> AllSpace(s)
  {
    hide *;
    var i, j := TrimParts(s);
    EndsOf(s, Trim(s), i, j);
    if Trim(s) == [] {
      NothingLeft(s, i, j);
    } else {
      SomethingLeft(s, Trim(s), i, j);
    }
  }
}
