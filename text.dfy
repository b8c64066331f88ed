/** String helpers standing for the few Python string operations the script uses. */
module Text {

  function Min(a: int, b: int): int
  {
    if a <= b then a else b
  }

  /** Python's `s[:n]` for a non-negative `n`: the first `n` characters, or all of `s` when it is shorter. */
  function Take(s: string, n: nat): (r: string)
    ensures |r| == Min(n, |s|)
    ensures r == s[..|r|]
  {
    if |s| <= n then s else s[..n]
  }

  /** `s.lower()`, one character at a time through the case mapping `fold`. */
  function Lower(fold: char -> char, s: string): string
  {
    seq(|s|, i requires 0 <= i < |s| => fold(s[i]))
  }

  /** Lowering a concatenation lowers each part. */
  lemma LowerAppend(fold: char -> char, a: string, b: string)
    ensures Lower(fold, a + b) == Lower(fold, a) + Lower(fold, b)
  {
    var l, r := Lower(fold, a + b), Lower(fold, a) + Lower(fold, b);
    forall k | 0 <= k < |l|
      ensures l[k] == r[k]
    {
      if k < |a| {
        assert (a + b)[k] == a[k];
      } else {
        assert (a + b)[k] == b[k - |a|];
      }
    }
  }

  /** Lowering a slice is slicing the lowered string. */
  lemma LowerSlice(fold: char -> char, s: string, i: int, j: int)
    requires 0 <= i <= j <= |s|
    ensures Lower(fold, s[i..j]) == Lower(fold, s)[i..j]
  {
    var l, r := Lower(fold, s[i..j]), Lower(fold, s)[i..j];
    forall k | 0 <= k < |l|
      ensures l[k] == r[k]
    {
      assert s[i..j][k] == s[i + k];
    }
  }

  /** `s.endswith(suffix)` */
  predicate EndsWith(s: string, suffix: string)
  {
    |suffix| <= |s| && s[|s| - |suffix|..] == suffix
  }

  /** `p` occurs in `s` as a contiguous substring (what `re.search` finds for a literal pattern). */
  predicate Contains(s: string, p: string)
  {
    exists i :: 0 <= i <= |s| - |p| && OccursAt(s, p, i)
  }

  /** `p` occurs in `s` starting at index `i`. */
  predicate OccursAt(s: string, p: string, i: int)
  {
    0 <= i <= |s| - |p| && s[i..i + |p|] == p
  }

  /** The pieces of `parts`, joined in order (`"".join(parts)`). */
  function Concat(parts: seq<string>): string
  {
    if parts == [] then "" else parts[0] + Concat(parts[1..])
  }

  lemma {:induction false} ConcatAppend(a: seq<string>, b: seq<string>)
    ensures Concat(a + b) == Concat(a) + Concat(b)
  {
    if a == [] {
      assert a + b == b;
    } else {
      assert (a + b)[1..] == a[1..] + b;
      ConcatAppend(a[1..], b);
    }
  }
}
