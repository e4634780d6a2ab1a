/** The few Python string operations the import wizard relies on, over `seq<char>`. */
module Text {

  /** `s.startswith(prefix)`. */
  predicate StartsWith(s: string, prefix: string) {
    |prefix| <= |s| && s[..|prefix|] == prefix
  }

  /** The slice `s[:k]` for a non-negative `k`: the first `k` characters, or all of `s` when it is shorter. */
  function Take(s: string, k: nat): (r: string)
    ensures |r| == if |s| < k then |s| else k
    ensures StartsWith(s, r)
  {
    if |s| <= k then s else s[..k]
  }

  /** The slice `s[k:]` for a non-negative `k`: what follows the first `k` characters, empty when `s` is shorter. */
  function Drop(s: string, k: nat): (r: string)
    ensures |r| == if |s| < k then 0 else |s| - k
    ensures forall i :: 0 <= i < |r| ==> r[i] == s[k + i]
  {
    if |s| <= k then [] else s[k..]
  }

  /** Cutting a known prefix off and putting it back gives the string again. */
  lemma StripPrefix(s: string, prefix: string)
    requires StartsWith(s, prefix)
    ensures prefix + Drop(s, |prefix|) == s
  {
    assert s == s[..|prefix|] + s[|prefix|..];
  }

  /** Python's `<` on strings: lexicographic by code point, a proper prefix coming first. */
  predicate Less(a: string, b: string)
    decreases |a|
  {
    if |a| == 0 then |b| > 0
    else if |b| == 0 then false
    else if a[0] != b[0] then a[0] < b[0]
    else Less(a[1..], b[1..])
  }

  /** The textbook definition of lexicographic order, independent of `Less`. */
  ghost predicate Lexicographic(a: string, b: string) {
    || (|a| < |b| && a == b[..|a|])
    || exists i :: 0 <= i < |a| && i < |b| && a[..i] == b[..i] && a[i] < b[i]
  }

  lemma {:induction false} LessIsLexicographic(a: string, b: string)
    ensures Less(a, b) <==> Lexicographic(a, b)
    decreases |a|
  {
    if |a| == 0 || |b| == 0 {
      if |b| == 0 {
        assert !Lexicographic(a, b);
      } else {
        assert a == b[..|a|];
      }
    } else if a[0] != b[0] {
      if a[0] < b[0] {
        assert a[..0] == b[..0];
      } else {
        assert forall i :: 0 <= i < |a| && i < |b| && a[..i] == b[..i] ==> i == 0;
      }
    } else {
      LessIsLexicographic(a[1..], b[1..]);
      if Lexicographic(a[1..], b[1..]) {
        if |a[1..]| < |b[1..]| && a[1..] == b[1..][..|a[1..]|] {
          assert a == [a[0]] + a[1..];
          assert b[..|a|] == [b[0]] + b[1..][..|a[1..]|];
        } else {
          var i :| 0 <= i < |a[1..]| && i < |b[1..]| && a[1..][..i] == b[1..][..i] && a[1..][i] < b[1..][i];
          assert a[..i + 1] == [a[0]] + a[1..][..i];
          assert b[..i + 1] == [b[0]] + b[1..][..i];
          assert a[i + 1] < b[i + 1];
        }
      }
      if Lexicographic(a, b) {
        if |a| < |b| && a == b[..|a|] {
          assert a[1..] == b[..|a|][1..] == b[1..][..|a[1..]|];
        } else {
          var i :| 0 <= i < |a| && i < |b| && a[..i] == b[..i] && a[i] < b[i];
          assert i > 0;
          assert a[1..][..i - 1] == a[..i][1..] == b[..i][1..] == b[1..][..i - 1];
          assert a[1..][i - 1] < b[1..][i - 1];
        }
      }
    }
  }

  /** Not being before a date string means being that string or after it. */
  lemma {:induction false} NotLessMeansAtOrAfter(a: string, b: string)
    ensures !Less(a, b) <==> a == b || Less(b, a)
    decreases |a|
  {
    if |a| == 0 || |b| == 0 {
    } else if a[0] != b[0] {
    } else {
      NotLessMeansAtOrAfter(a[1..], b[1..]);
      assert a == [a[0]] + a[1..];
      assert b == [b[0]] + b[1..];
    }
  }
}
