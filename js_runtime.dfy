/** The pieces of the JavaScript runtime that the extension's code relies on:
    `Number.isInteger`, `Math.floor`, `Array(n).keys()`, and
    `String.prototype.split` / `Array.prototype.join` with a one-character
    separator. Numbers are modelled as reals; NaN and the infinities are not. */
module JsRuntime {

  /** The largest length `Array(n)` accepts (2^32 - 1); larger or negative
      lengths make it throw a RangeError. */
  const MaxArrayLength: int := 0xFFFF_FFFF

  /** `Number.isInteger(x)`. */
  predicate IsInteger(x: real) {
    x.Floor as real == x
  }

  /** `Math.floor(x)`: the greatest integer not above x. */
  function Floor(x: real): (r: real)
    ensures IsInteger(r)
    ensures r <= x < r + 1.0
  {
    x.Floor as real
  }

  /** The keys of an array of length n, in the order `for ... in`,
      `Array.from` and spreading visit them. */
  function ArrayKeys(n: nat): (keys: seq<int>)
    ensures |keys| == n
    ensures forall i :: 0 <= i < n ==> keys[i] == i
  {
    if n == 0 then [] else ArrayKeys(n - 1) + [n - 1]
  }

  /** `s.split(sep)` for a one-character separator: the maximal runs of
      characters between separators, including empty ones. */
  function Split(s: string, sep: char): (parts: seq<string>)
    ensures |parts| >= 1
    ensures |parts| == 1 <==> sep !in s
    ensures |parts| == 1 ==> parts[0] == s
    decreases |s|
  {
    if s == [] then [""]
    else
      var rest := Split(s[1..], sep);
      if s[0] == sep then [""] + rest
      else [[s[0]] + rest[0]] + rest[1..]
  }

  /** `parts.join(sep)`. */
  function Join(parts: seq<string>, sep: char): string
    requires |parts| >= 1
    decreases |parts|
  {
    if |parts| == 1 then parts[0] else parts[0] + [sep] + Join(parts[1..], sep)
  }

  /** No part produced by `split` contains the separator. */
  lemma {:induction false} SplitPartsAvoidSeparator(s: string, sep: char)
    ensures forall i :: 0 <= i < |Split(s, sep)| ==> sep !in Split(s, sep)[i]
    decreases |s|
  {
    if s != [] {
      SplitPartsAvoidSeparator(s[1..], sep);
    }
  }

  /** Joining the parts of a split with the same separator gives back the string. */
  lemma {:induction false} JoinSplit(s: string, sep: char)
    ensures Join(Split(s, sep), sep) == s
    decreases |s|
  {
    if s != [] {
      var rest := Split(s[1..], sep);
      var parts := Split(s, sep);
      JoinSplit(s[1..], sep);
      if s[0] == sep {
        assert parts == [""] + rest;
        assert parts[1..] == rest;
        assert Join(parts, sep) == "" + [sep] + Join(rest, sep);
      } else if |rest| == 1 {
        assert parts == [[s[0]] + rest[0]];
        assert [s[0]] + s[1..] == s;
      } else {
        assert parts == [[s[0]] + rest[0]] + rest[1..];
        assert parts[1..] == rest[1..];
        assert Join(rest, sep) == rest[0] + [sep] + Join(rest[1..], sep);
        assert Join(parts, sep) == [s[0]] + rest[0] + [sep] + Join(rest[1..], sep);
        assert [s[0]] + s[1..] == s;
      }
    }
  }

  /** A separator splits the string in two: the parts of the left side,
      followed by the parts of the right side. */
  lemma {:induction false} SplitAtSeparator(a: string, sep: char, b: string)
    ensures Split(a + [sep] + b, sep) == Split(a, sep) + Split(b, sep)
    decreases |a|
  {
    if a == [] {
      assert [sep] + b == a + [sep] + b;
      assert ([sep] + b)[1..] == b;
    } else {
      assert (a + [sep] + b)[1..] == a[1..] + [sep] + b;
      SplitAtSeparator(a[1..], sep, b);
    }
  }

  /** Splitting the join of separator-free parts gives back the parts. */
  lemma {:induction false} SplitJoin(parts: seq<string>, sep: char)
    requires |parts| >= 1
    requires forall i :: 0 <= i < |parts| ==> sep !in parts[i]
    ensures Split(Join(parts, sep), sep) == parts
    decreases |parts|
  {
    if |parts| > 1 {
      SplitJoin(parts[1..], sep);
      SplitAtSeparator(parts[0], sep, Join(parts[1..], sep));
      assert parts == [parts[0]] + parts[1..];
    }
  }

  /** The first part of a split is the longest separator-free prefix. */
  lemma {:induction false} SplitFirstPart(s: string, sep: char)
    ensures var first := Split(s, sep)[0];
      && first <= s
      && sep !in first
      && (|first| == |s| || s[|first|] == sep)
    decreases |s|
  {
    if s != [] {
      SplitFirstPart(s[1..], sep);
    }
  }

  /** The last part of a split is the longest separator-free suffix. */
  lemma {:induction false} SplitLastPart(s: string, sep: char)
    ensures var parts := Split(s, sep);
      var last := parts[|parts| - 1];
      && |last| <= |s|
      && s[|s| - |last|..] == last
      && sep !in last
      && (|last| == |s| || s[|s| - |last| - 1] == sep)
    decreases |s|
  {
    if s != [] {
      var rest := Split(s[1..], sep);
      SplitLastPart(s[1..], sep);
      assert s[|s| - |rest[|rest| - 1]|..] == s[1..][|s| - 1 - |rest[|rest| - 1]|..];
    }
  }
}
