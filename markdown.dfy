/**
 * `lhtoGitLabMarkdown`: Lighthouse's `@@@` code fences and `@code@` spans
 * rewritten into GitLab's triple and single backticks.
 */
module Markdown {
  import opened Wrappers
  import opened Strings

  // ---------------------------------------------------------------- fences

  /**
   * `strings.ReplaceAll(s, aaa, bbb)` for three copies of one character: left
   * to right, each non-overlapping `aaa` becomes `bbb`.
   */
  function ReplaceTriple(s: string, a: char, b: char): (r: string)
    ensures |r| == |s|
    decreases |s|
  {
    if |s| >= 3 && s[0] == a && s[1] == a && s[2] == a then [b, b, b] + ReplaceTriple(s[3..], a, b)
    else if s == [] then []
    else [s[0]] + ReplaceTriple(s[1..], a, b)
  }

  /** The first step of the rewrite: every `@@@` becomes a code fence. */
  function ReplaceFences(s: string): string {
    ReplaceTriple(s, '@', '`')
  }

  /** How many copies of `a` open `s`. */
  function Leading(s: string, a: char): (n: nat)
    ensures n <= |s|
    ensures forall j :: 0 <= j < n ==> s[j] == a
    ensures n < |s| ==> s[n] != a
  {
    if s != [] && s[0] == a then 1 + Leading(s[1..], a) else 0
  }

  /** `s` holds no three neighbouring copies of `a`. */
  predicate NoTriple(s: string, a: char) {
    forall j :: 0 <= j < |s| - 2 ==> !(s[j] == a && s[j + 1] == a && s[j + 2] == a)
  }

  /** No `@@@` survives the fence step: longer runs of `@` keep only their remainder modulo three. */
  lemma {:induction false} ReplaceTripleLeavesNone(s: string, a: char, b: char)
    requires a != b
    ensures NoTriple(ReplaceTriple(s, a, b), a)
    ensures Leading(ReplaceTriple(s, a, b), a) == if Leading(s, a) >= 3 then 0 else Leading(s, a)
    decreases |s|
  {
    var r := ReplaceTriple(s, a, b);
    if |s| >= 3 && s[0] == a && s[1] == a && s[2] == a {
      ReplaceTripleLeavesNone(s[3..], a, b);
      assert Leading(s, a) >= 3 by {
        assert Leading(s[1..], a) >= 2 by {
          assert s[1..][1..] == s[2..];
          assert Leading(s[2..], a) >= 1;
        }
      }
    } else if s != [] {
      ReplaceTripleLeavesNone(s[1..], a, b);
      var t := ReplaceTriple(s[1..], a, b);
      assert r == [s[0]] + t;
      if s[0] == a {
        assert Leading(s[1..], a) < 2;
        assert r[1..] == t;
        assert |t| >= 2 ==> !(t[0] == a && t[1] == a);
      } else {
        assert Leading(r, a) == 0;
      }
      assert NoTriple(r, a) by {
        forall j | 0 <= j < |r| - 2 ensures !(r[j] == a && r[j + 1] == a && r[j + 2] == a) {
          if j > 0 {
            assert r[j] == t[j - 1] && r[j + 1] == t[j] && r[j + 2] == t[j + 1];
          }
        }
      }
    }
  }

  /** Turning the fences back into `@@@` restores text that held no backquote. */
  lemma {:induction false} ReplaceTripleRoundTrip(s: string, a: char, b: char)
    requires a != b
    requires forall j :: 0 <= j < |s| ==> s[j] != b
    ensures ReplaceTriple(ReplaceTriple(s, a, b), b, a) == s
    decreases |s|
  {
    if |s| >= 3 && s[0] == a && s[1] == a && s[2] == a {
      ReplaceTripleRoundTrip(s[3..], a, b);
      var r := ReplaceTriple(s, a, b);
      assert r[3..] == ReplaceTriple(s[3..], a, b);
      assert s == [a, a, a] + s[3..];
    } else if s != [] {
      ReplaceTripleRoundTrip(s[1..], a, b);
      var r := ReplaceTriple(s, a, b);
      assert r[1..] == ReplaceTriple(s[1..], a, b);
      assert s == [s[0]] + s[1..];
    }
  }

  // ---------------------------------------------------------------- code spans

  /**
   * What may stand between the two `@` of a code span, the group of
   * `@([^@\s][^@\r\n]*[^@\s])@`: at least two characters, no `@`, no line
   * break, and no regular-expression space at either end.
   */
  predicate SpanContent(x: string) {
    |x| >= 2
    && x[0] != '@' && !IsRegexSpace(x[0])
    && x[|x| - 1] != '@' && !IsRegexSpace(x[|x| - 1])
    && forall j :: 0 < j < |x| - 1 ==> x[j] != '@' && x[j] != '\r' && x[j] != '\n'
  }

  /** The pattern matches `t[..k + 1]`: `@`, span content, `@`. */
  predicate SpanAt(t: string, k: int) {
    0 < k < |t| && t[0] == '@' && t[k] == '@' && SpanContent(t[1..k])
  }

  /** A character no code span may hold: `@` or a line break. */
  predicate Stop(c: char) {
    c == '@' || c == '\r' || c == '\n'
  }

  /** The index of the first `@` or line break in `t` at or after `j`. */
  function StopFrom(t: string, j: nat): (r: Option<nat>)
    ensures r.Some? ==> j <= r.value < |t| && Stop(t[r.value])
    decreases |t| - j
  {
    if j >= |t| then None
    else if Stop(t[j]) then Some(j)
    else StopFrom(t, j + 1)
  }

  /** `StopFrom` finds the first stop: none lies between `j` and what it reports, or after `j` when it reports nothing. */
  lemma {:induction false} StopFromFirst(t: string, j: nat)
    ensures StopFrom(t, j).Some? ==> forall i :: j <= i < StopFrom(t, j).value ==> !Stop(t[i])
    ensures StopFrom(t, j).None? ==> forall i :: j <= i < |t| ==> !Stop(t[i])
    decreases |t| - j
  {
    if j < |t| && !Stop(t[j]) {
      StopFromFirst(t, j + 1);
    }
  }

  /**
   * Where the code span opening `t` closes, if one does: its content holds
   * no `@` and no line break, so the only candidate is the first of those,
   * which must be an `@` with at least two characters before it and no
   * white space at either end of the content.
   */
  function Close(t: string): (r: Option<nat>)
    ensures r.Some? ==> 3 <= r.value < |t|
  {
    if t == [] || t[0] != '@' then None
    else match StopFrom(t, 1) {
      case None => None
      case Some(k) =>
        if t[k] == '@' && k >= 3 && !IsRegexSpace(t[1]) && !IsRegexSpace(t[k - 1]) then Some(k) else None
    }
  }

  /** What `Close` reports is a match of the pattern. */
  lemma CloseSound(t: string)
    requires Close(t).Some?
    ensures SpanAt(t, Close(t).value)
  {
    StopFromFirst(t, 1);
    var k := Close(t).value;
    var x := t[1..k];
    assert forall j :: 0 <= j < |x| ==> x[j] == t[j + 1];
  }

  /** `Close` finds every code span: when it reports none, the pattern does not match at the start of `t`. */
  lemma CloseComplete(t: string, k: int)
    requires SpanAt(t, k)
    ensures Close(t) == Some(k)
  {
    StopFromFirst(t, 1);
    var x := t[1..k];
    assert forall j :: 0 <= j < |x| ==> x[j] == t[j + 1];
    assert forall i :: 1 <= i < k ==> !Stop(t[i]) by {
      forall i | 1 <= i < k ensures !Stop(t[i]) {
        assert t[i] == x[i - 1];
      }
    }
  }

  /**
   * The reference rewrite: scanning left to right, a code span starting here
   * becomes the same content between backquotes, and any other character is
   * copied.
   */
  function Convert(t: string): (r: string)
    ensures |r| == |t|
    decreases |t|
  {
    if t == [] then []
    else if Close(t).Some? then
      var k := Close(t).value;
      "`" + t[1..k] + "`" + Convert(t[k + 1..])
    else [t[0]] + Convert(t[1..])
  }

  /** The rewrite changes nothing but some `@` into backquotes, and keeps every other character where it was. */
  lemma ConvertOnlySwaps(t: string)
    ensures forall j :: 0 <= j < |t| ==> Convert(t)[j] == t[j] || (t[j] == '@' && Convert(t)[j] == '`')
  {
    forall j | 0 <= j < |t| ensures Convert(t)[j] == t[j] || (t[j] == '@' && Convert(t)[j] == '`') {
      ConvertOnlySwapsAt(t, j);
    }
  }

  /** The `j`-th character of the rewrite is the `j`-th of the text, or a backquote where the text has `@`. */
  lemma {:induction false} ConvertOnlySwapsAt(t: string, j: nat)
    requires j < |t|
    ensures Convert(t)[j] == t[j] || (t[j] == '@' && Convert(t)[j] == '`')
    decreases |t|
  {
    match Close(t) {
      case Some(k) =>
        var code, rest := t[1..k], t[k + 1..];
        ConvertSpanStep(t, k);
        SpanIndex(code, Convert(rest), j);
        if k < j {
          ConvertOnlySwapsAt(rest, j - k - 1);
          assert t[j] == rest[j - k - 1];
        } else if 0 < j < k {
          assert t[j] == code[j - 1];
        }
      case None =>
        ConvertPlainStep(t);
        if 0 < j {
          ConvertOnlySwapsAt(t[1..], j - 1);
          assert Convert(t)[j] == Convert(t[1..])[j - 1] && t[j] == t[1..][j - 1];
        }
    }
  }

  /** The characters of a code span's rewrite followed by `rest`. */
  lemma SpanIndex(code: string, rest: string, j: nat)
    requires j < |code| + 2 + |rest|
    ensures var r := "`" + code + "`" + rest;
      && (j == 0 || j == |code| + 1 ==> r[j] == '`')
      && (0 < j <= |code| ==> r[j] == code[j - 1])
      && (|code| + 1 < j ==> r[j] == rest[j - |code| - 2])
  {
  }

  /** `lhtoGitLabMarkdown`: blank text as it is, otherwise fences and then code spans. */
  function ToGitLab(text: string): (r: string)
    ensures |r| == |text|
  {
    if IsBlank(text) then text else Convert(ReplaceFences(text))
  }

  /** White-space-only text comes back unchanged. */
  lemma ToGitLabBlank(text: string)
    requires forall j :: 0 <= j < |text| ==> IsSpace(text[j])
    ensures ToGitLab(text) == text
  {
    BlankIffAllSpace(text);
  }

  /** One step of the rewrite at a character that opens no code span. */
  lemma ConvertPlainStep(t: string)
    requires t != [] && Close(t).None?
    ensures Convert(t) == [t[0]] + Convert(t[1..])
  {
  }

  /** One step of the rewrite at a code span closing at `k`. */
  lemma ConvertSpanStep(t: string, k: nat)
    requires t != [] && Close(t) == Some(k)
    ensures Convert(t) == "`" + t[1..k] + "`" + Convert(t[k + 1..])
  {
  }

  /** Text between code spans is copied verbatim. */
  lemma {:induction false} ConvertCopies(a: string, rest: string)
    requires forall j :: 0 <= j < |a| ==> a[j] != '@'
    ensures Convert(a + rest) == a + Convert(rest)
    decreases |a|
  {
    if a != [] {
      var t := a + rest;
      assert t[0] == a[0];
      assert Close(t) == None;
      ConvertPlainStep(t);
      assert t[1..] == a[1..] + rest;
      ConvertCopies(a[1..], rest);
      assert a == [a[0]] + a[1..];
    } else {
      assert a + rest == rest;
    }
  }

  /** A code span becomes its content between single backquotes. */
  lemma ConvertSpan(x: string, rest: string)
    requires SpanContent(x)
    ensures Convert("@" + x + "@" + rest) == "`" + x + "`" + Convert(rest)
  {
    var t := "@" + x + "@" + rest;
    assert t[1..|x| + 1] == x;
    CloseComplete(t, |x| + 1);
    ConvertSpanStep(t, |x| + 1);
    assert t[|x| + 2..] == rest;
  }

  // ---------------------------------------------------------------- the matcher and the builder loop

  /** One element of `FindAllStringSubmatchIndex`: the whole match and the group, as indices into the text. */
  datatype Match = Match(start: nat, end: nat, groupStart: nat, groupEnd: nat)

  /** `m` is a match of the code-span pattern in `t`. */
  predicate MatchIn(t: string, m: Match) {
    && m.start < m.end <= |t|
    && m.groupStart == m.start + 1 && m.groupEnd + 1 == m.end
    && SpanAt(t[m.start..], m.groupEnd - m.start)
  }

  /**
   * `FindAllStringSubmatchIndex(t, -1)` from index `j` on: the leftmost
   * non-overlapping matches of the code-span pattern in `t[j..]`.
   */
  function FindAll(t: string, j: nat): seq<Match>
    requires j <= |t|
    decreases |t| - j
  {
    if j == |t| then []
    else if Close(t[j..]).Some? then
      var k := Close(t[j..]).value;
      [Match(j, j + k + 1, j + 1, j + k)] + FindAll(t, j + k + 1)
    else FindAll(t, j + 1)
  }

  lemma FindAllPlainStep(t: string, j: nat)
    requires j < |t| && Close(t[j..]).None?
    ensures FindAll(t, j) == FindAll(t, j + 1)
  {
  }

  lemma FindAllSpanStep(t: string, j: nat, k: nat)
    requires j < |t| && Close(t[j..]) == Some(k)
    ensures j + k + 1 <= |t|
    ensures FindAll(t, j) == [Match(j, j + k + 1, j + 1, j + k)] + FindAll(t, j + k + 1)
  {
  }

  /** Every reported match is a match of the pattern, and they come in order without overlapping. */
  lemma FindAllSound(t: string, j: nat)
    requires j <= |t|
    ensures var ms := FindAll(t, j);
      && (forall i :: 0 <= i < |ms| ==> j <= ms[i].start && MatchIn(t, ms[i]))
      && (forall i :: 0 <= i < |ms| - 1 ==> ms[i].end <= ms[i + 1].start)
  {
    forall i | 0 <= i < |FindAll(t, j)| ensures j <= FindAll(t, j)[i].start && MatchIn(t, FindAll(t, j)[i]) {
      FindAllFoundAt(t, j, i);
      FoundIsMatch(t, FindAll(t, j)[i]);
    }
    forall i | 0 <= i < |FindAll(t, j)| - 1 ensures FindAll(t, j)[i].end <= FindAll(t, j)[i + 1].start {
      FindAllOrderedAt(t, j, i);
    }
  }

  /** `m` is where the scan finds a code span in `t`. */
  predicate FoundIn(t: string, m: Match) {
    && m.start < m.end <= |t|
    && m.groupStart == m.start + 1 && m.groupEnd + 1 == m.end
    && Close(t[m.start..]) == Some(m.groupEnd - m.start)
  }

  lemma FoundIsMatch(t: string, m: Match)
    requires FoundIn(t, m)
    ensures MatchIn(t, m)
  {
    CloseSound(t[m.start..]);
  }

  /** The `i`-th reported match is where the scan finds a code span, at or after `j`. */
  lemma {:induction false} FindAllFoundAt(t: string, j: nat, i: nat)
    requires j <= |t| && i < |FindAll(t, j)|
    ensures j <= FindAll(t, j)[i].start && FoundIn(t, FindAll(t, j)[i])
    decreases |t| - j
  {
    if j == |t| {
      assert false;
    } else if Close(t[j..]).None? {
      FindAllPlainStep(t, j);
      FindAllFoundAt(t, j + 1, i);
    } else {
      var k := Close(t[j..]).value;
      FindAllSpanStep(t, j, k);
      if 0 < i {
        FindAllFoundAt(t, j + k + 1, i - 1);
      }
    }
  }

  /** The `i`-th reported match ends before the next one starts. */
  lemma {:induction false} FindAllOrderedAt(t: string, j: nat, i: nat)
    requires j <= |t| && i + 1 < |FindAll(t, j)|
    ensures FindAll(t, j)[i].end <= FindAll(t, j)[i + 1].start
    decreases |t| - j
  {
    if j == |t| {
      assert false;
    } else if Close(t[j..]).None? {
      FindAllPlainStep(t, j);
      FindAllOrderedAt(t, j + 1, i);
    } else {
      var k := Close(t[j..]).value;
      FindAllSpanStep(t, j, k);
      if i == 0 {
        FindAllFoundAt(t, j + k + 1, 0);
      } else {
        FindAllOrderedAt(t, j + k + 1, i - 1);
      }
    }
  }

  /** The rewrite of `t[i..]` at a character that opens no code span. */
  lemma ConvertPlainAt(t: string, i: nat)
    requires i < |t| && Close(t[i..]).None?
    ensures Convert(t[i..]) == [t[i]] + Convert(t[i + 1..])
  {
    SuffixAt(t, i, 1, i + 1);
    ConvertPlainStep(t[i..]);
  }

  /** The rewrite of `t[m.start..]` at a code span the scan found. */
  lemma ConvertMatchAt(t: string, m: Match)
    requires FoundIn(t, m)
    ensures Convert(t[m.start..]) == "`" + t[m.groupStart..m.groupEnd] + "`" + Convert(t[m.end..])
  {
    var k := m.groupEnd - m.start;
    SuffixAt(t, m.start, k + 1, m.end);
    SliceAt(t, m.start, 1, k, m.groupStart, m.groupEnd);
    ConvertSpanStep(t[m.start..], k);
  }

  /** A suffix of a suffix is a suffix. */
  lemma SuffixAt(t: string, i: nat, a: nat, e: nat)
    requires i + a == e <= |t|
    ensures t[i..][a..] == t[e..]
  {
  }

  /** A slice of a suffix is a slice. */
  lemma SliceAt(t: string, i: nat, a: nat, b: nat, s: nat, e: nat)
    requires a <= b && s == i + a && e == i + b <= |t|
    ensures t[i..][a..b] == t[s..e]
  {
  }

  /** Where the next code span at or after `i` starts, if there is one. */
  function NextSpan(t: string, i: nat): (r: Option<nat>)
    requires i <= |t|
    ensures r.Some? ==> i <= r.value < |t| && Close(t[r.value..]).Some?
    decreases |t| - i
  {
    if i == |t| then None
    else if Close(t[i..]).Some? then Some(i)
    else NextSpan(t, i + 1)
  }

  /** The scan from `i` finds nothing before the next code span. */
  lemma {:induction false} FindAllSkips(t: string, i: nat)
    requires i <= |t|
    ensures NextSpan(t, i).None? ==> FindAll(t, i) == []
    ensures NextSpan(t, i).Some? ==> FindAll(t, i) == FindAll(t, NextSpan(t, i).value) != []
    decreases |t| - i
  {
    if i < |t| {
      if Close(t[i..]).None? {
        FindAllPlainStep(t, i);
        FindAllSkips(t, i + 1);
      } else {
        FindAllSpanStep(t, i, Close(t[i..]).value);
      }
    }
  }

  /** The rewrite copies the text before the next code span, or all of it when there is none. */
  lemma {:induction false} ConvertSkips(t: string, i: nat)
    requires i <= |t|
    ensures var p := if NextSpan(t, i).Some? then NextSpan(t, i).value else |t|;
      Convert(t[i..]) == t[i..p] + Convert(t[p..])
    decreases |t| - i
  {
    if i < |t| && Close(t[i..]).None? {
      ConvertPlainAt(t, i);
      ConvertSkips(t, i + 1);
      var p := if NextSpan(t, i).Some? then NextSpan(t, i).value else |t|;
      Cons(t[i], t[i + 1..p], Convert(t[p..]));
      assert t[i..p] == [t[i]] + t[i + 1..p];
    } else if i == |t| {
      assert t[i..i] == [];
    } else {
      assert t[i..i] == [];
    }
  }

  /** `[c] + (a + b) == ([c] + a) + b`. */
  lemma Cons(c: char, a: string, b: string)
    ensures [c] + (a + b) == ([c] + a) + b
  {
  }

  /** Text before a code span, followed by the code span's rewrite. */
  lemma Prepend(gap: string, code: string, rest: string, conv: string)
    requires conv == "`" + code + "`" + rest
    ensures gap + conv == gap + "`" + code + "`" + rest
  {
  }

  /** The first match at or after position `i` is the next code span, and the scan resumes after it. */
  lemma FirstMatch(t: string, i: nat)
    requires i <= |t| && FindAll(t, i) != []
    ensures var m := FindAll(t, i)[0];
      && NextSpan(t, i) == Some(m.start)
      && FoundIn(t, m)
      && FindAll(t, m.end) == FindAll(t, i)[1..]
  {
    FindAllSkips(t, i);
    assert NextSpan(t, i).Some?;
    var p := NextSpan(t, i).value;
    var k := Close(t[p..]).value;
    FindAllSpanStep(t, p, k);
    var tail := FindAll(t, p + k + 1);
    assert ([Match(p, p + k + 1, p + 1, p + k)] + tail)[1..] == tail;
  }

  /** The first match at or after position `i` splits the rest of the reference rewrite in three. */
  lemma NextMatch(t: string, i: nat)
    requires i <= |t| && FindAll(t, i) != []
    ensures var m := FindAll(t, i)[0];
      && i <= m.start < m.groupStart <= m.groupEnd < m.end <= |t|
      && Convert(t[i..]) == t[i..m.start] + "`" + t[m.groupStart..m.groupEnd] + "`" + Convert(t[m.end..])
  {
    FirstMatch(t, i);
    var m := FindAll(t, i)[0];
    var gap, code, rest := t[i..m.start], t[m.groupStart..m.groupEnd], Convert(t[m.end..]);
    ConvertMatchAt(t, m);
    ConvertSkips(t, i);
    Prepend(gap, code, rest, Convert(t[m.start..]));
  }

  /** Past the last match the rewrite copies the rest. */
  lemma BuilderTail(t: string, i: nat)
    requires i <= |t| && FindAll(t, i) == []
    ensures Convert(t[i..]) == t[i..]
  {
    FindAllSkips(t, i);
    ConvertSkips(t, i);
    assert t[|t|..] == [];
  }

  /** Splitting the rest of the rewrite in three keeps "what is built, followed by the rest, is the whole". */
  lemma Regroup(buf: string, gap: string, code: string, rest: string, conv: string, whole: string)
    requires conv == gap + "`" + code + "`" + rest
    requires buf + conv == whole
    ensures buf + gap + "`" + code + "`" + rest == whole
  {
    assert buf + gap + "`" + code + "`" + rest == buf + (gap + "`" + code + "`" + rest);
  }

  /** One turn of the builder loop keeps "what is built, followed by the rewrite of the rest, is the whole rewrite". */
  lemma BuilderStep(t: string, prev: nat, ms: seq<Match>, buf: string, whole: string)
    requires prev <= |t| && ms == FindAll(t, prev) && ms != []
    requires buf + Convert(t[prev..]) == whole
    ensures prev <= ms[0].start < ms[0].groupStart <= ms[0].groupEnd < ms[0].end <= |t|
    ensures FindAll(t, ms[0].end) == ms[1..]
    ensures buf + t[prev..ms[0].start] + "`" + t[ms[0].groupStart..ms[0].groupEnd] + "`" + Convert(t[ms[0].end..]) == whole
  {
    NextMatch(t, prev);
    FirstMatch(t, prev);
    var m := ms[0];
    Regroup(buf, t[prev..m.start], t[m.groupStart..m.groupEnd], Convert(t[m.end..]), Convert(t[prev..]), whole);
  }

  /**
   * `lhtoGitLabMarkdown` as written: after the blank check and the fences it
   * walks the matches with a moving `prev`, copying the text before each match
   * and the group between backquotes, and the tail after the last one.
   */
  method LhToGitLabMarkdown(text: string) returns (r: string)
    ensures r == ToGitLab(text)
  {
    if |TrimSpace(text)| == 0 {
      return text;
    }
    var t := ReplaceFences(text);
    var matches := FindAll(t, 0);
    assert t[0..] == t;
    if matches == [] {
      BuilderTail(t, 0);
      return t;
    }
    var buf := "";
    var prev: nat := 0;
    for n := 0 to |matches|
      invariant prev <= |t|
      invariant n < |matches| ==> FindAll(t, prev) == matches[n..] && buf + Convert(t[prev..]) == Convert(t)
      invariant n == |matches| ==> buf == Convert(t)
    {
      var m := matches[n];
      BuilderStep(t, prev, matches[n..], buf, Convert(t));
      assert matches[n..][1..] == matches[n + 1..];
      buf := buf + t[prev..m.start];
      buf := buf + "`" + t[m.groupStart..m.groupEnd] + "`";
      if n == |matches| - 1 {
        BuilderTail(t, m.end);
        buf := buf + t[m.end..];
      }
      prev := m.end;
    }
    r := buf;
  }
}
