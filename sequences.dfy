/** Repetition of a sequence, the shape of a loop that runs the same inner
    loop several times, and the index arithmetic that goes with it. */
module Sequences {

  /** `s` repeated `n` times, one copy after the other. */
  function Repeat<T>(s: seq<T>, n: nat): (r: seq<T>)
    ensures |r| == n * |s|
  {
    if n == 0 then [] else Repeat(s, n - 1) + s
  }

  /** One more copy, appended after whatever came before the repetition. */
  lemma {:induction false} RepeatStep<T>(prefix: seq<T>, s: seq<T>, n: nat)
    ensures (prefix + Repeat(s, n)) + s == prefix + Repeat(s, n + 1)
  {
  }

  /** Concatenation regroups freely. */
  lemma {:induction false} AppendAssociative<T>(a: seq<T>, b: seq<T>, c: seq<T>)
    ensures (a + b) + c == a + (b + c)
  {
  }

  /** Extending a prefix of `s` that follows `before` by one more element. */
  lemma {:induction false} AppendSliceExtend<T>(before: seq<T>, s: seq<T>, j: nat)
    requires j < |s|
    ensures (before + s[..j]) + [s[j]] == before + s[..j + 1]
  {
  }

  /** `a` is a prefix of `b`. */
  ghost predicate IsPrefix<T>(a: seq<T>, b: seq<T>) {
    |a| <= |b| && a == b[..|a|]
  }

  /** Fewer copies are a prefix of more. */
  lemma {:induction false} RepeatPrefix<T>(s: seq<T>, n: nat, m: nat)
    requires n <= m
    ensures IsPrefix(Repeat(s, n), Repeat(s, m))
  {
    if n < m {
      RepeatPrefix(s, n, m - 1);
      assert Repeat(s, m) == Repeat(s, m - 1) + s;
      assert IsPrefix(Repeat(s, m - 1), Repeat(s, m));
      PrefixTransitive(Repeat(s, n), Repeat(s, m - 1), Repeat(s, m));
    }
  }

  /** A prefix of `b` after `a` is a prefix of `a + b`. */
  lemma {:induction false} PrefixOfAppend<T>(a: seq<T>, b: seq<T>, k: nat)
    requires k <= |b|
    ensures IsPrefix(a + b[..k], a + b)
  {
    assert (a + b)[..|a| + k] == a + b[..k];
  }

  lemma {:induction false} PrefixTransitive<T>(a: seq<T>, b: seq<T>, c: seq<T>)
    requires IsPrefix(a, b) && IsPrefix(b, c)
    ensures IsPrefix(a, c)
  {
    assert a == b[..|a|];
    assert b == c[..|b|];
    assert c[..|b|][..|a|] == c[..|a|];
  }

  /** The last element of `n` copies of `s` followed by a non-empty prefix
      of `s`, and the copy it belongs to. */
  lemma {:induction false} RepeatThenPrefixLast<T>(s: seq<T>, n: nat, k: nat)
    requires 0 < k <= |s|
    ensures var r := Repeat(s, n) + s[..k];
      && |r| - 1 == n * |s| + (k - 1)
      && (|r| - 1) / |s| == n
      && r[|r| - 1] == s[k - 1]
  {
    DivModOfRound(n, k - 1, |s|);
  }

  /** Element `j` of copy `i` sits at position `i * |s| + j`. */
  lemma {:induction false} RepeatAt<T>(s: seq<T>, n: nat, i: nat, j: nat)
    requires i < n && j < |s|
    ensures i * |s| + j < |Repeat(s, n)|
    ensures Repeat(s, n)[i * |s| + j] == s[j]
  {
    if i < n - 1 {
      RepeatAt(s, n - 1, i, j);
    }
  }

  lemma {:induction false} MulAtLeast(a: nat, m: nat)
    requires a >= 1
    ensures a * m >= m
  {
    if a > 1 {
      MulAtLeast(a - 1, m);
      assert a * m == (a - 1) * m + m;
    }
  }

  /** Position `i * m + j` with `j < m` is the `j`-th element of round `i`. */
  lemma {:induction false} DivModOfRound(i: nat, j: nat, m: nat)
    requires j < m
    ensures (i * m + j) / m == i
    ensures (i * m + j) % m == j
  {
    var k := i * m + j;
    var q, r := k / m, k % m;
    assert k == q * m + r && 0 <= r < m;
    if q < i {
      MulAtLeast(i - q, m);
    } else if q > i {
      MulAtLeast(q - i, m);
    }
  }

  /** Every position below `n * m` splits into a round and an offset in it. */
  lemma {:induction false} PositionInRound(k: nat, n: nat, m: nat)
    requires k < n * m
    ensures m > 0
    ensures k / m < n && k == (k / m) * m + k % m && k % m < m
  {
    if m == 0 {
      assert false;
    }
  }

  /** The prefix one element longer is the prefix plus that element. */
  lemma {:induction false} SliceExtend<T>(s: seq<T>, p: nat)
    requires p < |s|
    ensures s[..p + 1] == s[..p] + [s[p]]
  {
  }
}
