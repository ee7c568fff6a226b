/** The few pieces of Python's built-in behaviour the core relies on:
    `round(x, 2)`, the `str` methods `lower()`, `title()`, `strip()`, `split()`,
    `split(sep)`, `replace(c, '')`, `count(c)` and `sep.join(...)`, substring
    tests `p in s`, slices `s[:k]` and list comprehensions that filter. */
module Text {

  function Min(a: int, b: int): int { if a <= b then a else b }
  function Max(a: int, b: int): int { if a <= b then b else a }

  /** Python's `str.isspace()` for one character: the characters `str.split()`
      and `str.strip()` treat as whitespace. */
  predicate IsSpace(c: char) {
    var n := c as int;
    n == 32 || 9 <= n <= 13 || 28 <= n <= 31 || n == 0x85 || n == 0xA0 || n == 0x1680
    || 0x2000 <= n <= 0x200A || n == 0x2028 || n == 0x2029 || n == 0x202F || n == 0x205F || n == 0x3000
  }

  /** The upper-case letters of Basic Latin and Latin-1: `A`-`Z` and
      `À`-`Þ` without `×`. */
  predicate IsUpperLatin(c: char) { 'A' <= c <= 'Z' || ('\U{C0}' <= c <= '\U{DE}' && c != '\U{D7}') }

  /** The lower-case letters of Basic Latin and Latin-1: `a`-`z` and
      `ß`-`ÿ` without `÷`. */
  predicate IsLowerLatin(c: char) { 'a' <= c <= 'z' || ('\U{DF}' <= c <= '\U{FF}' && c != '\U{F7}') }

  /** Python's cased characters in Basic Latin and Latin-1: the letters
      above, `µ`, and the ordinal indicators `ª` and `º`. */
  predicate IsCased(c: char) {
    IsUpperLatin(c) || IsLowerLatin(c) || c == '\U{B5}' || c == '\U{AA}' || c == '\U{BA}'
  }

  /** `c.lower()` on Basic Latin and Latin-1, where it is one character. */
  function LowerChar(c: char): (r: char)
    ensures !IsUpperLatin(r)
    ensures IsUpperLatin(c) <==> r != c
  {
    if IsUpperLatin(c) then (c as int + 32) as char else c
  }

  /** The title-case form of one character on Basic Latin and Latin-1:
      `ÿ` becomes `Ÿ` and `µ` becomes Greek `Μ`; `ß`, whose title case is
      the two characters `Ss`, is kept. */
  function UpperChar(c: char): char {
    if 'a' <= c <= 'z' || ('\U{E0}' <= c <= '\U{FE}' && c != '\U{F7}') then (c as int - 32) as char
    else if c == '\U{FF}' then '\U{178}'
    else if c == '\U{B5}' then '\U{39C}'
    else c
  }

  /** Python's `round(y)` on an exact value: to the nearest integer, ties to even. */
  function RoundHalfEven(y: real): (n: int)
    ensures -0.5 <= n as real - y <= 0.5
    ensures y.Floor as real == y ==> n == y.Floor
  {
    var f := y.Floor;
    var d := y - f as real;
    if d < 0.5 then f
    else if d > 0.5 then f + 1
    else if f % 2 == 0 then f else f + 1
  }

  /** `round(x, 2)` on an exact value. */
  function Round2(x: real): real {
    RoundHalfEven(x * 100.0) as real / 100.0
  }

  /** Rounding to cents moves a value by at most half a cent, and leaves a
      whole number of cents alone. */
  lemma Round2Bounds(x: real)
    ensures -0.005 <= Round2(x) - x <= 0.005
    ensures (x * 100.0).Floor as real == x * 100.0 ==> Round2(x) == x
  {
    var n := RoundHalfEven(x * 100.0);
    assert -0.5 <= n as real - x * 100.0 <= 0.5;
  }

  /** `s.lower()`, with the case mapping of Basic Latin and Latin-1. */
  function Lower(s: string): (r: string)
    ensures |r| == |s|
    ensures forall i :: 0 <= i < |s| ==> r[i] == LowerChar(s[i])
  {
    seq(|s|, i requires 0 <= i < |s| => LowerChar(s[i]))
  }

  lemma LowerHasNoUpper(s: string)
    ensures forall i :: 0 <= i < |s| ==> !IsUpperLatin(Lower(s)[i])
  {
  }

  /** `s.title()`, with the case mapping of Basic Latin and Latin-1: a
      cased character is title-cased when the character before it is not
      cased, and lower-cased otherwise; other characters are kept. */
  function TitleFrom(s: string, afterLetter: bool): (r: string)
    ensures |r| == |s|
    decreases |s|
  {
    if s == [] then []
    else
      var c := s[0];
      var out := if !IsCased(c) then c else if afterLetter then LowerChar(c) else UpperChar(c);
      [out] + TitleFrom(s[1..], IsCased(c))
  }

  function TitleCase(s: string): string { TitleFrom(s, false) }

  /** `s.startswith(p)`. */
  predicate StartsWith(s: string, p: string) {
    |p| <= |s| && s[..|p|] == p
  }

  /** `p in s`: `p` occurs as a contiguous substring of `s`. */
  predicate Contains(s: string, p: string)
    decreases |s|
  {
    StartsWith(s, p) || (|s| > 0 && Contains(s[1..], p))
  }

  lemma {:induction false} ContainsAt(s: string, p: string, i: nat)
    requires i + |p| <= |s| && s[i..i + |p|] == p
    ensures Contains(s, p)
    decreases i
  {
    if i > 0 {
      assert s[1..][i - 1..i - 1 + |p|] == s[i..i + |p|];
      ContainsAt(s[1..], p, i - 1);
    }
  }

  lemma {:induction false} ContainsWitness(s: string, p: string) returns (i: nat)
    requires Contains(s, p)
    ensures i + |p| <= |s| && s[i..i + |p|] == p
    decreases |s|
  {
    if StartsWith(s, p) {
      i := 0;
    } else {
      var j := ContainsWitness(s[1..], p);
      assert s[1..][j..j + |p|] == s[j + 1..j + 1 + |p|];
      i := j + 1;
    }
  }

  /** `p` occurs in `s` starting at index `i`. */
  predicate OccursAt(s: string, p: string, i: nat) {
    i + |p| <= |s| && s[i..i + |p|] == p
  }

  /** The recursive `Contains` is exactly "some window of `s` equals `p`". */
  lemma ContainsIff(s: string, p: string)
    ensures Contains(s, p) <==> exists i: nat :: OccursAt(s, p, i)
  {
    if Contains(s, p) {
      var i := ContainsWitness(s, p);
      assert OccursAt(s, p, i);
    }
    if exists i: nat :: OccursAt(s, p, i) {
      var i: nat :| OccursAt(s, p, i);
      ContainsAt(s, p, i);
    }
  }

  /** Every character of a pattern that occurs in `s` is a character of `s`. */
  lemma ContainedCharsOccur(s: string, p: string, k: nat)
    requires k < |p| && Contains(s, p)
    ensures p[k] in s
  {
    var i := ContainsWitness(s, p);
    assert s[i + k] == p[k];
  }

  /** A pattern with a character that `s` lacks does not occur in `s`. */
  lemma NotContainedMissingChar(s: string, p: string, k: nat)
    requires k < |p| && p[k] !in s
    ensures !Contains(s, p)
  {
    if Contains(s, p) {
      ContainedCharsOccur(s, p, k);
    }
  }

  /** `s.count(c)`. */
  function CountChar(s: string, c: char): (n: nat)
    ensures n <= |s|
    ensures n == 0 <==> c !in s
  {
    if s == [] then 0 else (if s[0] == c then 1 else 0) + CountChar(s[1..], c)
  }

  /** `s.replace(c, '')`. */
  function RemoveChar(s: string, c: char): (r: string)
    ensures c !in r
    ensures |r| == |s| - CountChar(s, c)
    ensures forall x :: x != c ==> (x in r <==> x in s)
  {
    if s == [] then [] else (if s[0] == c then [] else [s[0]]) + RemoveChar(s[1..], c)
  }

  /** `s.split(sep)` for a one-character separator. */
  function SplitOn(s: string, sep: char): (parts: seq<string>)
    ensures |parts| >= 1
    ensures forall i :: 0 <= i < |parts| ==> sep !in parts[i]
    decreases |s|
  {
    if s == [] then [""]
    else
      var rest := SplitOn(s[1..], sep);
      if s[0] == sep then [""] + rest else [[s[0]] + rest[0]] + rest[1..]
  }

  /** `sep.join(parts)`. */
  function Join(parts: seq<string>, sep: string): string
  {
    if |parts| == 0 then ""
    else if |parts| == 1 then parts[0]
    else parts[0] + sep + Join(parts[1..], sep)
  }

  /** Splitting and re-joining with the same separator gives back the text. */
  lemma {:induction false} JoinSplit(s: string, sep: char)
    ensures Join(SplitOn(s, sep), [sep]) == s
    decreases |s|
  {
    if s != [] {
      var rest := SplitOn(s[1..], sep);
      JoinSplit(s[1..], sep);
      if s[0] == sep {
        assert SplitOn(s, sep) == [""] + rest;
        assert Join(SplitOn(s, sep), [sep]) == "" + [sep] + Join(rest, [sep]);
        assert s == [s[0]] + s[1..];
      } else if |rest| == 1 {
        assert SplitOn(s, sep) == [[s[0]] + rest[0]];
        assert s == [s[0]] + s[1..];
      } else {
        var parts := SplitOn(s, sep);
        assert parts == [[s[0]] + rest[0]] + rest[1..];
        assert parts[1..] == rest[1..];
        assert Join(rest, [sep]) == rest[0] + [sep] + Join(rest[1..], [sep]);
        assert s == [s[0]] + s[1..];
      }
    }
  }

  /** `s.split(sep)` has one more part than `s` has separators. */
  lemma {:induction false} SplitOnLength(s: string, sep: char)
    ensures |SplitOn(s, sep)| == CountChar(s, sep) + 1
    decreases |s|
  {
    if s != [] {
      SplitOnLength(s[1..], sep);
    }
  }

  /** Length of the leading run of non-whitespace characters. */
  function WordEnd(s: string): (k: nat)
    ensures k <= |s|
    ensures forall i :: 0 <= i < k ==> !IsSpace(s[i])
    ensures k < |s| ==> IsSpace(s[k])
    decreases |s|
  {
    if s == [] || IsSpace(s[0]) then 0 else 1 + WordEnd(s[1..])
  }

  /** `s.split()` with no argument: the maximal runs of non-whitespace characters. */
  function Words(s: string): (ws: seq<string>)
    ensures forall i :: 0 <= i < |ws| ==> ws[i] != []
    ensures forall i, j :: 0 <= i < |ws| && 0 <= j < |ws[i]| ==> !IsSpace(ws[i][j])
    decreases |s|
  {
    if s == [] then []
    else if IsSpace(s[0]) then Words(s[1..])
    else
      var k := WordEnd(s);
      [s[..k]] + Words(s[k..])
  }

  /** `s.lstrip()`. */
  function TrimStart(s: string): (r: string)
    ensures |r| <= |s| && r == s[|s| - |r|..]
    ensures r == [] || !IsSpace(r[0])
    ensures forall i :: 0 <= i < |s| - |r| ==> IsSpace(s[i])
    decreases |s|
  {
    if s != [] && IsSpace(s[0]) then TrimStart(s[1..]) else s
  }

  /** `s.rstrip()`. */
  function TrimEnd(s: string): (r: string)
    ensures |r| <= |s| && r == s[..|r|]
    ensures r == [] || !IsSpace(r[|r| - 1])
    ensures forall i :: |r| <= i < |s| ==> IsSpace(s[i])
    decreases |s|
  {
    if s != [] && IsSpace(s[|s| - 1]) then TrimEnd(s[..|s| - 1]) else s
  }

  /** `s.strip()`. */
  function Strip(s: string): (r: string)
    ensures |r| <= |s|
    ensures r == [] || (!IsSpace(r[0]) && !IsSpace(r[|r| - 1]))
  {
    TrimEnd(TrimStart(s))
  }

  /** `xs[:n]` for `n >= 0`: the first `n` elements, or all of them. */
  function Take<T>(xs: seq<T>, n: nat): (r: seq<T>)
    ensures |r| == Min(n, |xs|) && r == xs[..|r|]
  {
    if n <= |xs| then xs[..n] else xs
  }

  /** `xs[:k]` for any integer `k`; a negative `k` counts from the end. */
  function SliceTo<T>(xs: seq<T>, k: int): (r: seq<T>)
    ensures k >= 0 ==> r == Take(xs, k)
    ensures k < 0 ==> r == xs[..Max(0, |xs| + k)]
  {
    if k >= 0 then Take(xs, k) else xs[..Max(0, |xs| + k)]
  }

  /** `xs[-n:]` for `n > 0`: the last `n` elements, or all of them. */
  function LastN<T>(xs: seq<T>, n: nat): (r: seq<T>)
    ensures |r| == Min(n, |xs|) && r == xs[|xs| - |r|..]
  {
    if n <= |xs| then xs[|xs| - n..] else xs
  }

  /** No element occurs twice. */
  predicate Distinct<T(==)>(xs: seq<T>) {
    forall i, j :: 0 <= i < j < |xs| ==> xs[i] != xs[j]
  }

  /** `xs.index(x)` for an element that occurs. */
  function IndexOf<T(==)>(xs: seq<T>, x: T): (k: nat)
    requires x in xs
    ensures k < |xs| && xs[k] == x
    ensures forall i :: 0 <= i < k ==> xs[i] != x
  {
    if xs[0] == x then 0 else 1 + IndexOf(xs[1..], x)
  }

  /** `[x for x in xs if x in ys]`. */
  function FilterIn<T(==)>(xs: seq<T>, ys: seq<T>): (r: seq<T>)
    ensures |r| <= |xs|
  {
    if xs == [] then []
    else if xs[0] in ys then [xs[0]] + FilterIn(xs[1..], ys)
    else FilterIn(xs[1..], ys)
  }

  /** The filter keeps, at strictly increasing positions of `xs`, exactly
      the elements that were ys. */
  lemma {:induction false} FilterInPositions<T>(xs: seq<T>, ys: seq<T>) returns (idx: seq<nat>)
    ensures |idx| == |FilterIn(xs, ys)|
    ensures forall k :: 0 <= k < |idx| ==> idx[k] < |xs| && xs[idx[k]] == FilterIn(xs, ys)[k]
    ensures forall k, l :: 0 <= k < l < |idx| ==> idx[k] < idx[l]
    decreases |xs|
  {
    if xs == [] {
      idx := [];
    } else {
      var kept := FilterIn(xs[1..], ys);
      var rest := FilterInPositions(xs[1..], ys);
      var shifted := ShiftPositions(xs, kept, rest);
      if xs[0] in ys {
        idx := [0] + shifted;
        assert FilterIn(xs, ys) == [xs[0]] + kept;
        forall k | 1 <= k < |idx| ensures idx[k] == shifted[k - 1] && 0 < idx[k] {}
      } else {
        idx := shifted;
        assert FilterIn(xs, ys) == kept;
      }
    }
  }

  /** Positions in the tail of a list, moved one place on, are positions in the list. */
  lemma ShiftPositions<T>(xs: seq<T>, kept: seq<T>, rest: seq<nat>) returns (shifted: seq<nat>)
    requires xs != [] && |rest| == |kept|
    requires forall k :: 0 <= k < |rest| ==> rest[k] < |xs| - 1 && xs[1..][rest[k]] == kept[k]
    requires forall k, l :: 0 <= k < l < |rest| ==> rest[k] < rest[l]
    ensures |shifted| == |kept|
    ensures forall k :: 0 <= k < |shifted| ==> 0 < shifted[k] < |xs| && xs[shifted[k]] == kept[k]
    ensures forall k, l :: 0 <= k < l < |shifted| ==> shifted[k] < shifted[l]
  {
    shifted := seq(|rest|, k requires 0 <= k < |rest| => rest[k] + 1);
    forall k | 0 <= k < |rest| ensures xs[shifted[k]] == kept[k] {
      assert xs[1..][rest[k]] == xs[rest[k] + 1];
    }
  }

  /** The filter keeps exactly the ys elements of `xs`. */
  lemma FilterInMembers<T>(xs: seq<T>, ys: seq<T>)
    ensures forall c :: c in FilterIn(xs, ys) <==> c in xs && c in ys
  {
    var r := FilterIn(xs, ys);
    var idx := FilterInPositions(xs, ys);
    forall c | c in r ensures c in xs && c in ys {
      var k :| 0 <= k < |r| && r[k] == c;
      assert xs[idx[k]] == c;
      FilterInKeepsRequested(xs, ys, k);
    }
    forall c | c in xs && c in ys ensures c in r {
      var i :| 0 <= i < |xs| && xs[i] == c;
      FilterInKeepsAllRequested(xs, ys, i);
    }
  }

  /** Every ys element of `xs` is kept. */
  lemma {:induction false} FilterInKeepsAllRequested<T>(xs: seq<T>, ys: seq<T>, i: nat)
    requires i < |xs| && xs[i] in ys
    ensures xs[i] in FilterIn(xs, ys)
    decreases |xs|
  {
    if i > 0 {
      assert xs[1..][i - 1] == xs[i];
      FilterInKeepsAllRequested(xs[1..], ys, i - 1);
    }
  }

  /** Every kept element was ys. */
  lemma {:induction false} FilterInKeepsRequested<T>(xs: seq<T>, ys: seq<T>, k: nat)
    requires k < |FilterIn(xs, ys)|
    ensures FilterIn(xs, ys)[k] in ys
    decreases |xs|
  {
    if xs[0] in ys {
      if k > 0 { FilterInKeepsRequested(xs[1..], ys, k - 1); }
    } else {
      FilterInKeepsRequested(xs[1..], ys, k);
    }
  }

  /** In a list without repeats, the element at position `i` is first found at `i`. */
  lemma IndexOfDistinct<T>(xs: seq<T>, i: nat)
    requires Distinct(xs) && i < |xs|
    ensures IndexOf(xs, xs[i]) == i
  {
  }

  /** Filtering `xs + [x]` filters `xs` and then keeps or drops `x`. */
  lemma {:induction false} FilterInSnoc<T>(xs: seq<T>, x: T, ys: seq<T>)
    ensures FilterIn(xs + [x], ys) == FilterIn(xs, ys) + (if x in ys then [x] else [])
    decreases |xs|
  {
    if xs == [] {
      assert [x][1..] == [];
    } else {
      assert (xs + [x])[1..] == xs[1..] + [x];
      FilterInSnoc(xs[1..], x, ys);
    }
  }

  /** Filtering a list without repeats gives a list without repeats, in the
      same relative order. */
  lemma FilterInKeepsOrder<T>(xs: seq<T>, ys: seq<T>)
    requires Distinct(xs)
    ensures Distinct(FilterIn(xs, ys))
    ensures forall a, b :: 0 <= a < b < |FilterIn(xs, ys)| ==>
              FilterIn(xs, ys)[a] in xs && FilterIn(xs, ys)[b] in xs &&
              IndexOf(xs, FilterIn(xs, ys)[a]) < IndexOf(xs, FilterIn(xs, ys)[b])
  {
    var r := FilterIn(xs, ys);
    var idx := FilterInPositions(xs, ys);
    forall a, b | 0 <= a < b < |r|
      ensures r[a] in xs && r[b] in xs && IndexOf(xs, r[a]) < IndexOf(xs, r[b])
    {
      IndexOfDistinct(xs, idx[a]);
      IndexOfDistinct(xs, idx[b]);
    }
  }
}
