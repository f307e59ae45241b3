/** Python's `sep.join`, `s.split(sep)` and substring test, on single-character
    separators, with the facts the guided-choice pattern needs. */
module Strings {

  /** `sep.join(parts)`: the parts in order, one separator between neighbours. */
  function Join(sep: char, parts: seq<string>): string
    decreases |parts|
  {
    if |parts| == 0 then ""
    else if |parts| == 1 then parts[0]
    else parts[0] + [sep] + Join(sep, parts[1..])
  }

  /** `s.split(sep)`: the runs between separators, always at least one. */
  function Split(sep: char, s: string): (parts: seq<string>)
    ensures |parts| >= 1
    decreases |s|
  {
    if |s| == 0 then [""]
    else
      var rest := Split(sep, s[1..]);
      if s[0] == sep then [""] + rest
      else [[s[0]] + rest[0]] + rest[1..]
  }

  /** `t in s` for strings: `t` occurs as a contiguous piece of `s`. */
  predicate IsInfix(t: string, s: string)
    decreases |s|
  {
    t <= s || (|s| > 0 && IsInfix(t, s[1..]))
  }

  lemma {:induction false} SplitWithoutSeparator(sep: char, x: string)
    requires sep !in x
    ensures Split(sep, x) == [x]
    decreases |x|
  {
    if |x| > 0 {
      SplitWithoutSeparator(sep, x[1..]);
      assert [x[0]] + x[1..] == x;
    }
  }

  lemma {:induction false} SplitAfterPart(sep: char, x: string, y: string)
    requires sep !in x
    ensures Split(sep, x + [sep] + y) == [x] + Split(sep, y)
    decreases |x|
  {
    var s := x + [sep] + y;
    if |x| == 0 {
      assert s[1..] == y;
    } else {
      assert s[1..] == x[1..] + [sep] + y;
      SplitAfterPart(sep, x[1..], y);
      assert [x[0]] + x[1..] == x;
    }
  }

  /** Splitting a join on the same separator gives the parts back, provided no
      part contains the separator. */
  lemma {:induction false} SplitJoin(sep: char, parts: seq<string>)
    requires |parts| >= 1
    requires forall k :: 0 <= k < |parts| ==> sep !in parts[k]
    ensures Split(sep, Join(sep, parts)) == parts
    decreases |parts|
  {
    if |parts| == 1 {
      SplitWithoutSeparator(sep, parts[0]);
    } else {
      SplitJoin(sep, parts[1..]);
      SplitAfterPart(sep, parts[0], Join(sep, parts[1..]));
      assert [parts[0]] + parts[1..] == parts;
    }
  }

  lemma {:induction false} InfixOfAppendRight(t: string, s: string, b: string)
    requires IsInfix(t, s)
    ensures IsInfix(t, s + b)
    decreases |s|
  {
    if t <= s {
      assert t <= s + b;
    } else {
      assert (s + b)[1..] == s[1..] + b;
      InfixOfAppendRight(t, s[1..], b);
    }
  }

  lemma {:induction false} InfixOfAppend(t: string, a: string, s: string, b: string)
    requires IsInfix(t, s)
    ensures IsInfix(t, a + s + b)
    decreases |a|
  {
    if |a| == 0 {
      assert a + s + b == s + b;
      InfixOfAppendRight(t, s, b);
    } else {
      assert (a + s + b)[1..] == a[1..] + s + b;
      InfixOfAppend(t, a[1..], s, b);
    }
  }

  /** Every part occurs in the joined string. */
  lemma {:induction false} JoinContainsPart(sep: char, parts: seq<string>, k: nat)
    requires k < |parts|
    ensures IsInfix(parts[k], Join(sep, parts))
    decreases |parts|
  {
    if |parts| == 1 {
      assert IsInfix(parts[0], parts[0] + []) by {
        assert parts[0] <= parts[0];
      }
      assert parts[0] + [] == parts[0];
    } else if k == 0 {
      assert parts[0] <= Join(sep, parts);
    } else {
      JoinContainsPart(sep, parts[1..], k - 1);
      InfixOfAppend(parts[k], parts[0] + [sep], Join(sep, parts[1..]), "");
      assert parts[0] + [sep] + Join(sep, parts[1..]) + "" == Join(sep, parts);
    }
  }
}
