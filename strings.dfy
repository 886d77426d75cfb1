/**
 * The parts of Go's `strings` package the repository relies on. A string is a
 * sequence of code points (Go's runes); every input is taken to be valid UTF-8.
 */
module Strings {

  /** `unicode.IsSpace`: what `strings.TrimSpace` and `strings.Fields` treat as white space. */
  predicate IsSpace(c: char) {
    c == ' ' || ('\t' <= c <= '\r') || c == '\U{85}' || c == '\U{A0}' || c == '\U{1680}'
    || ('\U{2000}' <= c <= '\U{200A}') || c == '\U{2028}' || c == '\U{2029}'
    || c == '\U{202F}' || c == '\U{205F}' || c == '\U{3000}'
  }

  /** The `\s` class of Go's regular expressions: tab, line feed, form feed, carriage return, space. */
  predicate IsRegexSpace(c: char) {
    c == '\t' || c == '\n' || c == '\U{0C}' || c == '\r' || c == ' '
  }

  /** Drops the longest prefix whose characters all satisfy `p` (`strings.TrimLeftFunc`). */
  function TrimLeftBy(s: string, p: char -> bool): (r: string)
    ensures |r| <= |s| && r == s[|s| - |r|..]
    ensures r == [] || !p(r[0])
    ensures forall i :: 0 <= i < |s| - |r| ==> p(s[i])
    decreases |s|
  {
    if s != [] && p(s[0]) then TrimLeftBy(s[1..], p) else s
  }

  /** Drops the longest suffix whose characters all satisfy `p` (`strings.TrimRightFunc`). */
  function TrimRightBy(s: string, p: char -> bool): (r: string)
    ensures |r| <= |s| && r == s[..|r|]
    ensures r == [] || !p(r[|r| - 1])
    ensures forall i :: |r| <= i < |s| ==> p(s[i])
    decreases |s|
  {
    if s != [] && p(s[|s| - 1]) then TrimRightBy(s[..|s| - 1], p) else s
  }

  /** `strings.TrimSpace`. */
  function TrimSpace(s: string): string {
    TrimRightBy(TrimLeftBy(s, IsSpace), IsSpace)
  }

  /** `len(strings.TrimSpace(s)) == 0`. */
  predicate IsBlank(s: string) {
    TrimSpace(s) == []
  }

  lemma BlankIffAllSpace(s: string)
    ensures IsBlank(s) <==> forall i :: 0 <= i < |s| ==> IsSpace(s[i])
  {
    var l := TrimLeftBy(s, IsSpace);
    if IsBlank(s) {
      assert l == [];
    }
    if forall i :: 0 <= i < |s| ==> IsSpace(s[i]) {
      TrimLeftSkips(s, [], IsSpace);
      assert s + [] == s;
    }
  }

  /** Leading characters that `p` drops make no difference to `TrimLeftBy`. */
  lemma {:induction false} TrimLeftSkips(w: string, s: string, p: char -> bool)
    requires forall i :: 0 <= i < |w| ==> p(w[i])
    ensures TrimLeftBy(w + s, p) == TrimLeftBy(s, p)
    decreases |w|
  {
    if w == [] {
      assert w + s == s;
    } else {
      assert (w + s)[0] == w[0] && (w + s)[1..] == w[1..] + s;
      TrimLeftSkips(w[1..], s, p);
    }
  }

  /** Trailing characters that `p` drops make no difference to `TrimRightBy`. */
  lemma {:induction false} TrimRightSkips(s: string, w: string, p: char -> bool)
    requires forall i :: 0 <= i < |w| ==> p(w[i])
    ensures TrimRightBy(s + w, p) == TrimRightBy(s, p)
    decreases |w|
  {
    if w == [] {
      assert s + w == s;
    } else {
      assert (s + w)[|s + w| - 1] == w[|w| - 1] && (s + w)[..|s + w| - 1] == s + w[..|w| - 1];
      TrimRightSkips(s, w[..|w| - 1], p);
    }
  }

  /** Once `TrimLeftBy` stops inside `s`, whatever follows `s` is kept as it is. */
  lemma {:induction false} TrimLeftStopsEarly(s: string, t: string, p: char -> bool, k: nat)
    requires k < |s| && !p(s[k])
    ensures TrimLeftBy(s + t, p) == TrimLeftBy(s, p) + t
    decreases |s|
  {
    assert (s + t)[0] == s[0];
    if p(s[0]) {
      assert (s + t)[1..] == s[1..] + t;
      TrimLeftStopsEarly(s[1..], t, p, k - 1);
    }
  }

  /** White space around `s` makes no difference to `strings.TrimSpace`. */
  lemma TrimSpacePadding(w1: string, s: string, w2: string)
    requires forall i :: 0 <= i < |w1| ==> IsSpace(w1[i])
    requires forall i :: 0 <= i < |w2| ==> IsSpace(w2[i])
    ensures TrimSpace(w1 + s + w2) == TrimSpace(s)
  {
    assert w1 + s + w2 == w1 + (s + w2);
    TrimLeftSkips(w1, s + w2, IsSpace);
    if k :| 0 <= k < |s| && !IsSpace(s[k]) {
      TrimLeftStopsEarly(s, w2, IsSpace, k);
      TrimRightSkips(TrimLeftBy(s, IsSpace), w2, IsSpace);
    } else {
      TrimLeftSkips(s + w2, [], IsSpace);
      assert s + w2 + [] == s + w2;
      TrimLeftSkips(s, [], IsSpace);
      assert s + [] == s;
    }
  }

  /** `unicode.ToLower` on ASCII letters; every other code point is left alone. */
  function LowerChar(c: char): char {
    if 'A' <= c <= 'Z' then (c as int + 32) as char else c
  }

  /** `strings.ToLower`, ASCII only. */
  function ToLower(s: string): string {
    seq(|s|, i requires 0 <= i < |s| => LowerChar(s[i]))
  }

  /** `strings.Split` around every character satisfying `sep` (Go's `strings.Split` with a one-character separator). */
  function SplitBy(s: string, sep: char -> bool): (parts: seq<string>)
    ensures |parts| >= 1
    decreases |s|
  {
    if s == [] then [[]]
    else
      var rest := SplitBy(s[1..], sep);
      if sep(s[0]) then [[]] + rest else [[s[0]] + rest[0]] + rest[1..]
  }

  /** Number of characters of `s` that satisfy `p`. */
  function CountBy(s: string, p: char -> bool): nat
    decreases |s|
  {
    if s == [] then 0 else (if p(s[0]) then 1 else 0) + CountBy(s[1..], p)
  }

  /** Splitting yields one more part than there are separators, and no part holds a separator. */
  lemma {:induction false} SplitShape(s: string, sep: char -> bool)
    ensures |SplitBy(s, sep)| == CountBy(s, sep) + 1
    ensures forall k, i :: 0 <= k < |SplitBy(s, sep)| && 0 <= i < |SplitBy(s, sep)[k]| ==> !sep(SplitBy(s, sep)[k][i])
    decreases |s|
  {
    if s != [] {
      SplitShape(s[1..], sep);
    }
  }

  /** `strings.Join`. */
  function Join(xs: seq<string>, sep: string): string
    decreases |xs|
  {
    if xs == [] then [] else if |xs| == 1 then xs[0] else xs[0] + sep + Join(xs[1..], sep)
  }

  lemma {:induction false} JoinSnoc(xs: seq<string>, y: string, sep: string)
    requires xs != []
    ensures Join(xs + [y], sep) == Join(xs, sep) + sep + y
    decreases |xs|
  {
    if |xs| == 1 {
      assert xs + [y] == [xs[0], y];
    } else {
      assert (xs + [y])[1..] == xs[1..] + [y];
      JoinSnoc(xs[1..], y, sep);
    }
  }

  lemma {:induction false} SplitAfterPlain(a: string, t: string, sep: char -> bool)
    requires forall i :: 0 <= i < |a| ==> !sep(a[i])
    ensures SplitBy(a + t, sep) == [a + SplitBy(t, sep)[0]] + SplitBy(t, sep)[1..]
    decreases |a|
  {
    if a == [] {
      var x := SplitBy(t, sep);
      assert a + t == t && a + x[0] == x[0] && x == [x[0]] + x[1..];
    } else {
      assert (a + t)[0] == a[0] && (a + t)[1..] == a[1..] + t;
      SplitAfterPlain(a[1..], t, sep);
      var x := SplitBy(t, sep);
      var rest := SplitBy(a[1..] + t, sep);
      assert rest[0] == a[1..] + x[0] && rest[1..] == x[1..];
      assert [a[0]] + (a[1..] + x[0]) == a + x[0];
    }
  }

  /** Splitting a joined list gives the list back when no element holds the separator. */
  lemma {:induction false} SplitJoin(xs: seq<string>, c: char, sep: char -> bool)
    requires xs != [] && sep(c)
    requires forall x :: sep(x) ==> x == c
    requires forall k, i :: 0 <= k < |xs| && 0 <= i < |xs[k]| ==> !sep(xs[k][i])
    ensures SplitBy(Join(xs, [c]), sep) == xs
    decreases |xs|
  {
    if |xs| == 1 {
      SplitAfterPlain(xs[0], [], sep);
      assert xs[0] + [] == xs[0];
    } else {
      SplitJoin(xs[1..], c, sep);
      var t := Join(xs[1..], [c]);
      assert xs[0] + [c] + t == xs[0] + ([c] + t);
      SplitAfterPlain(xs[0], [c] + t, sep);
      assert ([c] + t)[0] == c && ([c] + t)[1..] == t;
      assert SplitBy([c] + t, sep) == [[]] + xs[1..];
      assert xs[0] + [] == xs[0];
      assert xs == [xs[0]] + xs[1..];
    }
  }

  /** The non-empty entries of `xs`, in order. */
  function NonEmpty(xs: seq<string>): (ys: seq<string>)
    ensures |ys| <= |xs|
    ensures forall k :: 0 <= k < |ys| ==> ys[k] != [] && ys[k] in xs
    decreases |xs|
  {
    if xs == [] then [] else if xs[0] == [] then NonEmpty(xs[1..]) else [xs[0]] + NonEmpty(xs[1..])
  }

  lemma {:induction false} NonEmptyKeepsAll(xs: seq<string>)
    requires forall k :: 0 <= k < |xs| ==> xs[k] != []
    ensures NonEmpty(xs) == xs
    decreases |xs|
  {
    if xs != [] {
      NonEmptyKeepsAll(xs[1..]);
    }
  }

  /** `strings.FieldsFunc`: the maximal runs of characters not satisfying `sep`. */
  function FieldsBy(s: string, sep: char -> bool): seq<string> {
    NonEmpty(SplitBy(s, sep))
  }

  /** Every field is non-empty and free of separators. */
  lemma FieldsShape(s: string, sep: char -> bool)
    ensures forall k :: 0 <= k < |FieldsBy(s, sep)| ==> FieldsBy(s, sep)[k] != []
    ensures forall k, i :: 0 <= k < |FieldsBy(s, sep)| && 0 <= i < |FieldsBy(s, sep)[k]| ==> !sep(FieldsBy(s, sep)[k][i])
  {
    SplitShape(s, sep);
    var parts := SplitBy(s, sep);
    forall k, i | 0 <= k < |FieldsBy(s, sep)| && 0 <= i < |FieldsBy(s, sep)[k]|
      ensures !sep(FieldsBy(s, sep)[k][i])
    {
      var f := FieldsBy(s, sep)[k];
      assert f in parts;
      var j :| 0 <= j < |parts| && parts[j] == f;
    }
  }

  /** `s` with every occurrence of `c` removed (`strings.ReplaceAll(s, c, "")`). */
  function Without(s: string, c: char): (r: string)
    ensures c !in r && |r| <= |s|
    ensures forall d :: d != c ==> multiset(r)[d] == multiset(s)[d]
    decreases |s|
  {
    if s == [] then []
    else
      assert s == [s[0]] + s[1..];
      if s[0] == c then Without(s[1..], c) else [s[0]] + Without(s[1..], c)
  }

  /** `strings.TrimSuffix`. */
  function TrimSuffix(s: string, suffix: string): string {
    if |suffix| <= |s| && s[|s| - |suffix|..] == suffix then s[..|s| - |suffix|] else s
  }
}
