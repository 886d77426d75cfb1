/**
 * The migration's state-definition parser: each line of a project's open or
 * closed states text, such as `open/A30 # note`, becomes a GitLab label with a
 * scoped name, a `#RRGGBB` colour and a description.
 */
module StateLabels {
  import opened Wrappers
  import opened Strings
  import opened Seqs
  import Projects

  /** `gitlab.CreateLabelOptions`; the migration always sets all three fields. */
  datatype LabelOptions = LabelOptions(name: string, color: string, description: string)

  /** The three groups of the state-definition pattern, as captured. */
  datatype Captures = Captures(name: string, color: string, description: string)

  predicate IsHex(c: char) {
    ('0' <= c <= '9') || ('a' <= c <= 'f') || ('A' <= c <= 'F')
  }

  predicate NotSlash(c: char) {
    c != '/'
  }

  predicate IsNewline(c: char) {
    c == '\n'
  }

  /** The colour a label gets when its line gives none of a usable length. */
  const DefaultColor: string := "#428BCA"

  /** The comments Lighthouse puts in its default state text, which are not real descriptions. */
  const HelpTexts: seq<string> := [
    "You can add comments here",
    "if you want to.",
    "You can customize colors",
    "with 3 or 6 character hex codes",
    "'A30' expands to 'AA3300'"
  ]

  // ---------------------------------------------------------------- the pattern

  /** Length of the longest prefix of `s` made of characters satisfying `p`. */
  function RunLength(s: string, p: char -> bool): (n: nat)
    ensures n <= |s|
    ensures forall j :: 0 <= j < n ==> p(s[j])
    ensures n < |s| ==> !p(s[n])
  {
    if s != [] && p(s[0]) then 1 + RunLength(s[1..], p) else 0
  }

  /**
   * The name group of `^\s*([^/]+)/`, given the text `prefix` before the first
   * slash: the greedy `\s*` takes the leading spaces but must leave at least
   * one character to the group.
   */
  function NameCapture(prefix: string): (g: string)
    requires prefix != []
    ensures 0 < |g| <= |prefix| && g == prefix[|prefix| - |g|..]
  {
    var w := RunLength(prefix, IsRegexSpace);
    if w == |prefix| then prefix[|prefix| - 1..] else prefix[w..]
  }

  /**
   * `lhStateDefinitionRegexp.FindStringSubmatch(line)`, which is anchored at
   * both ends: a non-empty text without `/`, a slash, the longest run of hex
   * digits (at least one), spaces, and then either the end of the line or a
   * `#` after which everything, less its leading spaces, is the description.
   */
  function MatchLine(line: string): (m: Option<Captures>)
    ensures m.Some? ==> m.value.color != [] && forall j :: 0 <= j < |m.value.color| ==> IsHex(m.value.color[j])
  {
    var slash := RunLength(line, NotSlash);
    if slash == 0 || slash == |line| then None
    else
      var tail := MatchAfterSlash(line[slash + 1..]);
      if tail.None? then None
      else Some(Captures(NameCapture(line[..slash]), tail.value.0, tail.value.1))
  }

  /** The colour and description groups, matched against the text after the first slash. */
  function MatchAfterSlash(after: string): (m: Option<(string, string)>)
    ensures m.Some? ==> m.value.0 != [] && forall j :: 0 <= j < |m.value.0| ==> IsHex(m.value.0[j])
  {
    var n := RunLength(after, IsHex);
    var rest := TrimLeftBy(after[n..], IsRegexSpace);
    if n == 0 then None
    else if rest == [] then Some((after[..n], ""))
    else if rest[0] == '#' then Some((after[..n], TrimLeftBy(rest[1..], IsRegexSpace)))
    else None
  }

  /** A line the pattern accepts, taken apart: `prefix/color spaces tail`. */
  predicate Shaped(prefix: string, color: string, spaces: string, tail: string) {
    && prefix != [] && (forall j :: 0 <= j < |prefix| ==> prefix[j] != '/')
    && color != [] && (forall j :: 0 <= j < |color| ==> IsHex(color[j]))
    && (forall j :: 0 <= j < |spaces| ==> IsRegexSpace(spaces[j]))
    && (tail == [] || tail[0] == '#')
  }

  /** The description group of the text `tail` that follows the colour and its spaces. */
  function DescriptionGroup(tail: string): string {
    if tail == [] then "" else TrimLeftBy(tail[1..], IsRegexSpace)
  }

  /** The run of a class ends at the first character outside it. */
  lemma {:induction false} RunLengthStops(s: string, k: nat, p: char -> bool)
    requires k <= |s| && forall j :: 0 <= j < k ==> p(s[j])
    requires k < |s| ==> !p(s[k])
    ensures RunLength(s, p) == k
    decreases k
  {
    if k > 0 {
      RunLengthStops(s[1..], k - 1, p);
    }
  }

  /** The run of hex digits of a colour followed by a text that does not start with one. */
  lemma ColorRun(color: string, more: string)
    requires forall j :: 0 <= j < |color| ==> IsHex(color[j])
    requires more != [] ==> !IsHex(more[0])
    ensures RunLength(color + more, IsHex) == |color|
  {
    var after := color + more;
    assert forall j :: 0 <= j < |color| ==> IsHex(after[j]) by {
      forall j | 0 <= j < |color| ensures IsHex(after[j]) {
        assert after[j] == color[j];
      }
    }
    assert |color| < |after| ==> after[|color|] == more[0];
    RunLengthStops(after, |color|, IsHex);
  }

  /** The groups of a text after the slash, given where its colour ends and what follows the spaces. */
  lemma MatchAfterSlashOf(after: string, n: nat, rest: string)
    requires n == RunLength(after, IsHex) && rest == TrimLeftBy(after[n..], IsRegexSpace)
    requires n > 0 && (rest == [] || rest[0] == '#')
    ensures MatchAfterSlash(after) == Some((after[..n], DescriptionGroup(rest)))
  {
  }

  /** The text after the slash of a line of that shape yields its colour and description groups. */
  lemma MatchAfterSlashComplete(color: string, spaces: string, tail: string)
    requires color != [] && forall j :: 0 <= j < |color| ==> IsHex(color[j])
    requires forall j :: 0 <= j < |spaces| ==> IsRegexSpace(spaces[j])
    requires tail == [] || tail[0] == '#'
    ensures MatchAfterSlash(color + spaces + tail) == Some((color, DescriptionGroup(tail)))
  {
    ColorThenSpaces(color, spaces, tail);
    SpacesThenTail(spaces, tail);
    MatchAfterSlashOf(color + spaces + tail, |color|, tail);
  }

  /** The colour of a text shaped `color spaces tail` is its run of hex digits. */
  lemma ColorThenSpaces(color: string, spaces: string, tail: string)
    requires forall j :: 0 <= j < |color| ==> IsHex(color[j])
    requires forall j :: 0 <= j < |spaces| ==> IsRegexSpace(spaces[j])
    requires tail == [] || tail[0] == '#'
    ensures var after := color + spaces + tail;
      RunLength(after, IsHex) == |color| && after[..|color|] == color && after[|color|..] == spaces + tail
  {
    var more := spaces + tail;
    assert more != [] ==> !IsHex(more[0]) by {
      if spaces != [] {
        assert more[0] == spaces[0];
        assert IsRegexSpace(spaces[0]);
      } else if tail != [] {
        assert more[0] == tail[0];
      }
    }
    ColorRun(color, more);
    assert color + spaces + tail == color + more;
  }

  /** The spaces before a `#` or the end of the line are trimmed away. */
  lemma SpacesThenTail(spaces: string, tail: string)
    requires forall j :: 0 <= j < |spaces| ==> IsRegexSpace(spaces[j])
    requires tail == [] || tail[0] == '#'
    ensures TrimLeftBy(spaces + tail, IsRegexSpace) == tail
  {
    TrimLeftSkips(spaces, tail, IsRegexSpace);
    if tail != [] {
      assert !IsRegexSpace(tail[0]);
    }
  }

  /** Every line of that shape matches, with the groups it should have. */
  lemma MatchLineComplete(prefix: string, color: string, spaces: string, tail: string)
    requires Shaped(prefix, color, spaces, tail)
    ensures MatchLine(prefix + "/" + color + spaces + tail) ==
      Some(Captures(NameCapture(prefix), color, DescriptionGroup(tail)))
  {
    var after := color + spaces + tail;
    var line := prefix + "/" + color + spaces + tail;
    assert line == prefix + ("/" + after);
    assert RunLength(line, NotSlash) == |prefix| by {
      assert line[|prefix|] == '/';
      assert forall j :: 0 <= j < |prefix| ==> NotSlash(line[j]) by {
        forall j | 0 <= j < |prefix| ensures NotSlash(line[j]) {
          assert line[j] == prefix[j];
        }
      }
      RunLengthStops(line, |prefix|, NotSlash);
    }
    assert line[..|prefix|] == prefix;
    assert line[|prefix| + 1..] == after;
    MatchAfterSlashComplete(color, spaces, tail);
    MatchLineOf(line, prefix, after);
  }

  /** A line whose first slash follows `name` and whose text after that slash is `after`. */
  lemma MatchLineOf(line: string, name: string, after: string)
    requires 0 < |name| < |line| && RunLength(line, NotSlash) == |name|
    requires line[..|name|] == name && line[|name| + 1..] == after
    ensures MatchAfterSlash(after).None? ==> MatchLine(line).None?
    ensures MatchAfterSlash(after).Some? ==>
      MatchLine(line) == Some(Captures(NameCapture(name), MatchAfterSlash(after).value.0, MatchAfterSlash(after).value.1))
  {
  }

  /** What the text after the slash of a matching line starts with. */
  lemma MatchAfterSlashSome(after: string)
    requires MatchAfterSlash(after).Some?
    ensures var n := RunLength(after, IsHex); var rest := TrimLeftBy(after[n..], IsRegexSpace);
      n != 0 && (rest == [] || rest[0] == '#')
  {
  }

  /** Where the colour and the spaces end in the text after the slash, when it matches. */
  lemma AfterSlashShape(after: string) returns (n: nat, m: nat)
    requires MatchAfterSlash(after).Some?
    ensures n + m <= |after|
    ensures 0 < n && forall j :: 0 <= j < n ==> IsHex(after[j])
    ensures forall j :: n <= j < n + m ==> IsRegexSpace(after[j])
    ensures n + m == |after| || after[n + m] == '#'
  {
    MatchAfterSlashSome(after);
    n := RunLength(after, IsHex);
    var t := after[n..];
    m := SpacesThenHash(t);
    forall j | n <= j < n + m ensures IsRegexSpace(after[j]) {
      assert after[j] == t[j - n];
    }
    assert n + m < |after| ==> after[n + m] == t[m];
  }

  /** Where the spaces end in a text that is spaces, then nothing or a `#`. */
  lemma SpacesThenHash(t: string) returns (m: nat)
    requires TrimLeftBy(t, IsRegexSpace) == [] || TrimLeftBy(t, IsRegexSpace)[0] == '#'
    ensures m <= |t| && forall j :: 0 <= j < m ==> IsRegexSpace(t[j])
    ensures m == |t| || t[m] == '#'
  {
    m := |t| - |TrimLeftBy(t, IsRegexSpace)|;
  }

  /** A line cut at a slash and two more points, where the pieces have the pattern's shape. */
  lemma SplitLine(line: string, k: nat, n: nat, m: nat)
    requires k + 1 + n + m <= |line| && line[k] == '/'
    requires 0 < k && forall j :: 0 <= j < k ==> NotSlash(line[j])
    requires 0 < n && forall j :: k + 1 <= j < k + 1 + n ==> IsHex(line[j])
    requires forall j :: k + 1 + n <= j < k + 1 + n + m ==> IsRegexSpace(line[j])
    requires k + 1 + n + m == |line| || line[k + 1 + n + m] == '#'
    ensures var prefix, color, spaces, tail := line[..k], line[k + 1..k + 1 + n], line[k + 1 + n..k + 1 + n + m], line[k + 1 + n + m..];
      Shaped(prefix, color, spaces, tail) && line == prefix + "/" + color + spaces + tail
  {
    var prefix, color, spaces, tail := line[..k], line[k + 1..k + 1 + n], line[k + 1 + n..k + 1 + n + m], line[k + 1 + n + m..];
    assert |prefix + "/" + color + spaces + tail| == |line|;
    forall i | 0 <= i < |line| ensures (prefix + "/" + color + spaces + tail)[i] == line[i] {
    }
    assert forall j :: 0 <= j < n ==> IsHex(color[j]) by {
      forall j | 0 <= j < n ensures IsHex(color[j]) {
        assert color[j] == line[k + 1 + j];
      }
    }
    assert forall j :: 0 <= j < m ==> IsRegexSpace(spaces[j]) by {
      forall j | 0 <= j < m ensures IsRegexSpace(spaces[j]) {
        assert spaces[j] == line[k + 1 + n + j];
      }
    }
  }

  /** A line whose first slash is at `k` and whose text after it matches, cut where its groups begin and end. */
  lemma SplitAtSlash(line: string, k: nat) returns (prefix: string, color: string, spaces: string, tail: string)
    requires 0 < k < |line| && line[k] == '/' && forall j :: 0 <= j < k ==> NotSlash(line[j])
    requires MatchAfterSlash(line[k + 1..]).Some?
    ensures Shaped(prefix, color, spaces, tail) && line == prefix + "/" + color + spaces + tail
  {
    var after := line[k + 1..];
    var n, m := AfterSlashShape(after);
    forall j | k + 1 <= j < k + 1 + n ensures IsHex(line[j]) {
      assert line[j] == after[j - (k + 1)];
    }
    forall j | k + 1 + n <= j < k + 1 + n + m ensures IsRegexSpace(line[j]) {
      assert line[j] == after[j - (k + 1)];
    }
    assert k + 1 + n + m < |line| ==> line[k + 1 + n + m] == after[n + m];
    SplitLine(line, k, n, m);
    prefix, color, spaces, tail := line[..k], line[k + 1..k + 1 + n], line[k + 1 + n..k + 1 + n + m], line[k + 1 + n + m..];
  }

  /** A matching line has a slash after a non-empty text, and its text after the first slash matches. */
  lemma MatchLineSlash(line: string)
    requires MatchLine(line).Some?
    ensures var k := RunLength(line, NotSlash); 0 < k < |line| && line[k] == '/' && MatchAfterSlash(line[k + 1..]).Some?
  {
  }

  /** Every line that matches has that shape, cut where its groups begin and end; with `MatchLineComplete`, a line matches exactly when it has that shape. */
  lemma MatchLineSound(line: string) returns (prefix: string, color: string, spaces: string, tail: string)
    requires MatchLine(line).Some?
    ensures Shaped(prefix, color, spaces, tail) && line == prefix + "/" + color + spaces + tail
  {
    MatchLineSlash(line);
    var k := RunLength(line, NotSlash);
    prefix, color, spaces, tail := SplitAtSlash(line, k);
  }

  // ---------------------------------------------------------------- one label

  /** The colour group, widened to six digits when it has three, then prefixed with `#`; any other length gets the default. */
  function LabelColor(c: string): (color: string)
    ensures |c| == 3 ==> color == ['#', c[0], c[0], c[1], c[1], c[2], c[2]]
    ensures |c| == 6 ==> color == "#" + c
    ensures |c| != 3 && |c| != 6 ==> color == DefaultColor
  {
    var wide := if |c| == 3 then [c[0], c[0], c[1], c[1], c[2], c[2]] else c;
    if |wide| == 6 then "#" + wide else DefaultColor
  }

  /** A hex colour group always yields a well-formed `#RRGGBB` colour. */
  lemma LabelColorWellFormed(c: string)
    requires forall j :: 0 <= j < |c| ==> IsHex(c[j])
    ensures |LabelColor(c)| == 7 && LabelColor(c)[0] == '#'
    ensures forall j :: 1 <= j < 7 ==> IsHex(LabelColor(c)[j])
  {
  }

  /** The trimmed description, blank when it is one of Lighthouse's help comments. */
  function Description(group: string): (d: string)
    ensures d == [] || (d == TrimSpace(group) && d !in HelpTexts)
    ensures TrimSpace(group) != [] && TrimSpace(group) !in HelpTexts ==> d == TrimSpace(group)
  {
    var d := TrimSpace(group);
    if |d| > 0 && d !in HelpTexts then d else ""
  }

  /** The label one matching line yields. */
  function Label(stateKey: string, m: Captures): LabelOptions {
    LabelOptions(stateKey + TrimSpace(m.name), LabelColor(m.color), Description(m.description))
  }

  /** Dropping leading regular-expression spaces makes no difference once the text is trimmed. */
  lemma TrimSpaceAfterRegexTrim(x: string)
    ensures TrimSpace(TrimLeftBy(x, IsRegexSpace)) == TrimSpace(x)
  {
    var r := TrimLeftBy(x, IsRegexSpace);
    var w := x[..|x| - |r|];
    assert x == w + r + [];
    assert r + [] == r;
    TrimSpacePadding(w, r, []);
  }

  /** Trimming a class from the left drops exactly its leading run. */
  lemma {:induction false} TrimLeftIsRun(s: string, p: char -> bool)
    ensures TrimLeftBy(s, p) == s[RunLength(s, p)..]
    decreases |s|
  {
    if s != [] && p(s[0]) {
      TrimLeftIsRun(s[1..], p);
      assert s[1..][RunLength(s[1..], p)..] == s[RunLength(s, p)..];
    }
  }

  /** A text made only of spaces has a blank name group. */
  lemma NameTrimsBlank(prefix: string)
    requires prefix != [] && RunLength(prefix, IsRegexSpace) == |prefix|
    ensures TrimSpace(NameCapture(prefix)) == TrimSpace(prefix)
  {
    assert NameCapture(prefix) == prefix[|prefix| - 1..];
    SpacesTrimLikeLast(prefix);
  }

  /** A non-empty text of spaces trims like its last character alone. */
  lemma SpacesTrimLikeLast(s: string)
    requires s != [] && forall j :: 0 <= j < |s| ==> IsRegexSpace(s[j])
    ensures TrimSpace(s[|s| - 1..]) == TrimSpace(s)
  {
    var k := |s| - 1;
    var w, g := s[..k], s[k..];
    forall j | 0 <= j < |w| ensures IsSpace(w[j]) {
      assert w[j] == s[j];
    }
    assert w + g == s;
    assert w + g + [] == w + g;
    TrimSpacePadding(w, g, []);
  }

  /** The spaces the pattern leaves out of the name group make no difference once it is trimmed. */
  lemma NameTrims(prefix: string)
    requires prefix != []
    ensures TrimSpace(NameCapture(prefix)) == TrimSpace(prefix)
  {
    if RunLength(prefix, IsRegexSpace) == |prefix| {
      NameTrimsBlank(prefix);
    } else {
      TrimLeftIsRun(prefix, IsRegexSpace);
      TrimSpaceAfterRegexTrim(prefix);
    }
  }

  /** The label of the groups of a line of that shape. */
  lemma LabelOfGroups(stateKey: string, prefix: string, tail: string, color: string)
    requires prefix != []
    ensures Label(stateKey, Captures(NameCapture(prefix), color, DescriptionGroup(tail))) ==
      LabelOptions(stateKey + TrimSpace(prefix), LabelColor(color), if tail == [] then "" else Description(tail[1..]))
  {
    var name := TrimSpace(NameCapture(prefix));
    var d := Description(DescriptionGroup(tail));
    assert Label(stateKey, Captures(NameCapture(prefix), color, DescriptionGroup(tail))) ==
      LabelOptions(stateKey + name, LabelColor(color), d);
    NameTrims(prefix);
    assert d == if tail == [] then "" else Description(tail[1..]) by {
      if tail != [] {
        TrimSpaceAfterRegexTrim(tail[1..]);
      }
    }
  }

  /**
   * The label of a line of that shape: its name is the state key followed by
   * the trimmed text before the slash, and its description is the trimmed text
   * after the `#`, or blank.
   */
  lemma LabelOfShape(stateKey: string, prefix: string, color: string, spaces: string, tail: string)
    requires Shaped(prefix, color, spaces, tail)
    ensures MatchLine(prefix + "/" + color + spaces + tail).Some?
    ensures Label(stateKey, MatchLine(prefix + "/" + color + spaces + tail).value) ==
      LabelOptions(stateKey + TrimSpace(prefix), LabelColor(color), if tail == [] then "" else Description(tail[1..]))
  {
    MatchLineComplete(prefix, color, spaces, tail);
    LabelOfGroups(stateKey, prefix, tail, color);
  }

  // ---------------------------------------------------------------- the whole text

  /** The label one line yields, if it matches. */
  function LineLabel(stateKey: string, line: string): Option<LabelOptions> {
    var m := MatchLine(line);
    if m.None? then None else Some(Label(stateKey, m.value))
  }

  /** The values `f` yields on `xs`, in order, skipping the elements it yields none for. */
  function Keep<T, U>(xs: seq<T>, f: T -> Option<U>): (ys: seq<U>)
    ensures |ys| <= |xs|
    decreases |xs|
  {
    if xs == [] then []
    else
      var rest := Keep(xs[..|xs| - 1], f);
      var y := f(xs[|xs| - 1]);
      if y.None? then rest else rest + [y.value]
  }

  /** The labels of `lines`, in order: one per matching line, none for the others. */
  function LabelsOf(lines: seq<string>, stateKey: string): seq<LabelOptions> {
    Keep(lines, (line: string) => LineLabel(stateKey, line))
  }

  /** One more line adds its label, when it matches. */
  lemma LabelsOfSnoc(lines: seq<string>, line: string, stateKey: string)
    ensures LabelsOf(lines + [line], stateKey) ==
      LabelsOf(lines, stateKey) + (if MatchLine(line).None? then [] else [Label(stateKey, MatchLine(line).value)])
  {
    var all := lines + [line];
    assert all[..|all| - 1] == lines && all[|all| - 1] == line;
  }

  /** Elements are kept independently of one another. */
  lemma {:induction false} KeepConcat<T, U>(xs: seq<T>, ys: seq<T>, f: T -> Option<U>)
    ensures Keep(xs + ys, f) == Keep(xs, f) + Keep(ys, f)
    decreases |ys|
  {
    if ys == [] {
      assert xs + ys == xs;
    } else {
      var ys' := ys[..|ys| - 1];
      assert (xs + ys)[..|xs + ys| - 1] == xs + ys';
      assert (xs + ys)[|xs + ys| - 1] == ys[|ys| - 1];
      KeepConcat(xs, ys', f);
    }
  }

  /** Everything kept comes from an element, and every element that yields a value has it kept. */
  lemma {:induction false} KeepExact<T, U>(xs: seq<T>, f: T -> Option<U>)
    ensures forall y :: y in Keep(xs, f) ==> exists i :: 0 <= i < |xs| && f(xs[i]) == Some(y)
    ensures forall i :: 0 <= i < |xs| && f(xs[i]).Some? ==> f(xs[i]).value in Keep(xs, f)
    ensures |Keep(xs, f)| == |xs| <==> forall i :: 0 <= i < |xs| ==> f(xs[i]).Some?
    decreases |xs|
  {
    if xs != [] {
      var init := xs[..|xs| - 1];
      KeepExact(init, f);
      assert forall i :: 0 <= i < |init| ==> init[i] == xs[i];
      forall y | y in Keep(xs, f) ensures exists i :: 0 <= i < |xs| && f(xs[i]) == Some(y) {
        if y in Keep(init, f) {
          var i :| 0 <= i < |init| && f(init[i]) == Some(y);
          assert f(xs[i]) == Some(y);
        } else {
          assert f(xs[|xs| - 1]) == Some(y);
        }
      }
    }
  }

  /** The label of one line, in terms of the match. */
  lemma LineLabelOf(stateKey: string, line: string)
    ensures LineLabel(stateKey, line).Some? <==> MatchLine(line).Some?
    ensures MatchLine(line).Some? ==> LineLabel(stateKey, line).value == Label(stateKey, MatchLine(line).value)
  {
  }

  /** Every label is the label of some matching line. */
  lemma LabelsOfSound(lines: seq<string>, stateKey: string)
    ensures forall l :: l in LabelsOf(lines, stateKey) ==>
      exists i :: 0 <= i < |lines| && MatchLine(lines[i]).Some? && l == Label(stateKey, MatchLine(lines[i]).value)
  {
    var f := (line: string) => LineLabel(stateKey, line);
    KeepExact(lines, f);
    forall l | l in LabelsOf(lines, stateKey)
      ensures exists i :: 0 <= i < |lines| && MatchLine(lines[i]).Some? && l == Label(stateKey, MatchLine(lines[i]).value)
    {
      var i :| 0 <= i < |lines| && f(lines[i]) == Some(l);
      LineLabelOf(stateKey, lines[i]);
    }
  }

  /** Every matching line has its label in the result. */
  lemma LabelsOfComplete(lines: seq<string>, stateKey: string)
    ensures forall i :: 0 <= i < |lines| && MatchLine(lines[i]).Some? ==>
      Label(stateKey, MatchLine(lines[i]).value) in LabelsOf(lines, stateKey)
  {
    var f := (line: string) => LineLabel(stateKey, line);
    KeepExact(lines, f);
    forall i | 0 <= i < |lines| && MatchLine(lines[i]).Some?
      ensures Label(stateKey, MatchLine(lines[i]).value) in LabelsOf(lines, stateKey)
    {
      LineLabelOf(stateKey, lines[i]);
      assert f(lines[i]).Some?;
    }
  }

  /** There is one label per line exactly when every line matches. */
  lemma LabelsOfAll(lines: seq<string>, stateKey: string)
    ensures |LabelsOf(lines, stateKey)| == |lines| <==> forall i :: 0 <= i < |lines| ==> MatchLine(lines[i]).Some?
  {
    var f := (line: string) => LineLabel(stateKey, line);
    KeepExact(lines, f);
    forall i | 0 <= i < |lines| ensures f(lines[i]).Some? <==> MatchLine(lines[i]).Some? {
      LineLabelOf(stateKey, lines[i]);
    }
  }

  /**
   * `lhProjectStatesToCreateLabels`: every line of the text, split on line
   * feeds, that matches the pattern adds one label; the others are skipped.
   * It always reports success.
   */
  method ProjectStatesToCreateLabels(text: string, stateKey: string) returns (opts: seq<LabelOptions>, ok: bool)
    ensures ok
    ensures opts == LabelsOf(SplitBy(text, IsNewline), stateKey)
    ensures |opts| <= |SplitBy(text, IsNewline)|
  {
    var lines := SplitBy(text, IsNewline);
    opts := [];
    for i := 0 to |lines|
      invariant opts == LabelsOf(lines[..i], stateKey)
    {
      var line := lines[i];
      TakeSnoc(lines, i);
      LabelsOfSnoc(lines[..i], line, stateKey);
      var m := MatchLine(line);
      if m.None? {
        assert opts == LabelsOf(lines[..i + 1], stateKey);
        continue;
      }
      opts := opts + [Label(stateKey, m.value)];
      assert opts == LabelsOf(lines[..i + 1], stateKey);
    }
    assert lines[..|lines|] == lines;
    ok := true;
  }

  /** `lhProjectToCreateLabels`: the labels of the open states, then those of the closed states. */
  method ProjectToCreateLabels(project: Projects.Project, stateKey: string) returns (opts: seq<LabelOptions>, ok: bool)
    ensures ok
    ensures opts == LabelsOf(SplitBy(project.openStates, IsNewline), stateKey) + LabelsOf(SplitBy(project.closedStates, IsNewline), stateKey)
  {
    opts := [];
    var openLabels, okOpen := ProjectStatesToCreateLabels(project.openStates, stateKey);
    if !okOpen {
      return [], false;
    }
    assert opts + openLabels == openLabels;
    opts := opts + openLabels;
    var closedLabels, okClosed := ProjectStatesToCreateLabels(project.closedStates, stateKey);
    if !okClosed {
      return [], false;
    }
    opts := opts + closedLabels;
    ok := true;
  }
}
