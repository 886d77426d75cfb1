/**
 * The export command's `filename`: a project or ticket name turned into a
 * short, safe file-name stem.
 */
module Export {
  import opened Strings

  /** Longest name `filename` keeps before cleaning it up. */
  const MaxLength: nat := 20

  /** The characters the result may hold: `[-a-z0-9_]`. */
  predicate Allowed(c: char) {
    c == '-' || ('a' <= c <= 'z') || ('0' <= c <= '9') || c == '_'
  }

  predicate Disallowed(c: char) {
    !Allowed(c)
  }

  predicate IsHyphen(c: char) {
    c == '-'
  }

  /** `s` holds no two neighbouring characters that both satisfy `p`. */
  predicate NoAdjacent(s: string, p: char -> bool) {
    forall i :: 0 <= i < |s| - 1 ==> !(p(s[i]) && p(s[i + 1]))
  }

  /**
   * `regexp.ReplaceAllString` for a pattern `[...]+` over the class `p`: every
   * maximal run of characters satisfying `p` becomes the single character `sep`.
   */
  function ReplaceRuns(s: string, p: char -> bool, sep: char): (r: string)
    ensures |r| <= |s|
    ensures s != [] ==> r != []
    ensures s != [] && !p(s[0]) ==> r[0] == s[0]
    ensures s != [] && p(s[0]) ==> r[0] == sep
    ensures forall i :: 0 <= i < |r| ==> r[i] == sep || !p(r[i])
    ensures p(sep) ==> NoAdjacent(r, p)
    decreases |s|
  {
    if s == [] then []
    else if p(s[0]) then [sep] + ReplaceRuns(TrimLeftBy(s[1..], p), p, sep)
    else [s[0]] + ReplaceRuns(s[1..], p, sep)
  }

  /** Every character of the result is the separator or a character of the input, so a property they all share carries over. */
  lemma {:induction false} ReplaceRunsKeeps(s: string, p: char -> bool, sep: char, q: char -> bool)
    requires q(sep) && forall i :: 0 <= i < |s| ==> q(s[i])
    ensures forall i :: 0 <= i < |ReplaceRuns(s, p, sep)| ==> q(ReplaceRuns(s, p, sep)[i])
    decreases |s|
  {
    if s != [] {
      var rest := if p(s[0]) then TrimLeftBy(s[1..], p) else s[1..];
      var head := if p(s[0]) then sep else s[0];
      AllSuffix(s, |s| - |rest|, q);
      assert s[|s| - |rest|..] == rest;
      ReplaceRunsKeeps(rest, p, sep, q);
      assert ReplaceRuns(s, p, sep) == [head] + ReplaceRuns(rest, p, sep);
      AllCons(head, ReplaceRuns(rest, p, sep), q);
    }
  }

  /** A suffix keeps a property every character has. */
  lemma AllSuffix(s: string, k: nat, q: char -> bool)
    requires k <= |s| && forall i :: 0 <= i < |s| ==> q(s[i])
    ensures forall i :: 0 <= i < |s[k..]| ==> q(s[k..][i])
  {
    assert forall i :: 0 <= i < |s[k..]| ==> s[k..][i] == s[k + i];
  }

  /** Putting a character with a property in front of characters with it. */
  lemma AllCons(c: char, s: string, q: char -> bool)
    requires q(c) && forall i :: 0 <= i < |s| ==> q(s[i])
    ensures forall i :: 0 <= i < |[c] + s| ==> q(([c] + s)[i])
  {
    assert forall i :: 0 < i < |[c] + s| ==> ([c] + s)[i] == s[i - 1];
  }

  /** The first 20 characters of a longer name. */
  function Cut(name: string): (r: string)
    ensures |r| <= MaxLength
    ensures r <= name
    ensures |r| == if |name| > MaxLength then MaxLength else |name|
  {
    if |name| > MaxLength then name[..MaxLength] else name
  }

  /** Trim, lower-case, and replace every run of characters outside `[-a-z0-9_]` by one `-`. */
  function Clean(s: string): (r: string)
    ensures |r| <= |s|
    ensures forall i :: 0 <= i < |r| ==> Allowed(r[i])
  {
    ReplaceRuns(ToLower(TrimSpace(s)), Disallowed, '-')
  }

  /** Replace every run of `-` by one `-`. */
  function Squeeze(s: string): (r: string)
    requires forall i :: 0 <= i < |s| ==> Allowed(s[i])
    ensures |r| <= |s|
    ensures forall i :: 0 <= i < |r| ==> Allowed(r[i])
    ensures NoAdjacent(r, IsHyphen)
  {
    ReplaceRunsKeeps(s, IsHyphen, '-', Allowed);
    ReplaceRuns(s, IsHyphen, '-')
  }

  /** `filename`. */
  function Filename(name: string): (r: string)
    ensures |r| <= MaxLength
    ensures forall i :: 0 <= i < |r| ==> Allowed(r[i])
    ensures NoAdjacent(r, IsHyphen)
    ensures r == [] || r[|r| - 1] != '-'
  {
    var squeezed := Squeeze(Clean(Cut(name)));
    var trimmed := TrimRightBy(squeezed, IsHyphen);
    PrefixKeeps(squeezed, |trimmed|);
    trimmed
  }

  /** A prefix keeps the alphabet and the absence of `--`. */
  lemma PrefixKeeps(s: string, n: nat)
    requires n <= |s|
    requires forall i :: 0 <= i < |s| ==> Allowed(s[i])
    requires NoAdjacent(s, IsHyphen)
    ensures forall i :: 0 <= i < n ==> Allowed(s[..n][i])
    ensures NoAdjacent(s[..n], IsHyphen)
  {
    var t := s[..n];
    assert forall i :: 0 <= i < n ==> t[i] == s[i];
  }

  /** Runs of a class that never occurs leave the string as it is. */
  lemma {:induction false} ReplaceRunsAbsent(s: string, p: char -> bool, sep: char)
    requires forall i :: 0 <= i < |s| ==> !p(s[i])
    ensures ReplaceRuns(s, p, sep) == s
    decreases |s|
  {
    if s != [] {
      ReplaceRunsAbsent(s[1..], p, sep);
    }
  }

  /** Runs of length one that already are `sep` leave the string as it is. */
  lemma {:induction false} ReplaceRunsSingles(s: string, p: char -> bool, sep: char)
    requires NoAdjacent(s, p)
    requires forall i :: 0 <= i < |s| ==> p(s[i]) ==> s[i] == sep
    ensures ReplaceRuns(s, p, sep) == s
    decreases |s|
  {
    if s != [] {
      var rest := s[1..];
      assert forall i :: 0 <= i < |rest| ==> rest[i] == s[i + 1];
      assert NoAdjacent(rest, p);
      ReplaceRunsSingles(rest, p, sep);
      if p(s[0]) {
        assert rest == [] || !p(rest[0]);
        assert TrimLeftBy(rest, p) == rest;
        assert ReplaceRuns(s, p, sep) == [sep] + rest;
      } else {
        assert ReplaceRuns(s, p, sep) == [s[0]] + rest;
      }
      assert s == [s[0]] + rest;
    }
  }

  /** Allowed characters are neither white space nor upper case, so trimming and lower-casing keep them. */
  lemma CleanKeeps(s: string)
    requires forall i :: 0 <= i < |s| ==> Allowed(s[i])
    ensures Clean(s) == s
  {
    assert TrimSpace(s) == s by {
      assert s == [] || !IsSpace(s[0]);
      assert TrimLeftBy(s, IsSpace) == s;
      assert s == [] || !IsSpace(s[|s| - 1]);
      assert TrimRightBy(s, IsSpace) == s;
    }
    assert ToLower(s) == s by {
      assert forall i :: 0 <= i < |s| ==> ToLower(s)[i] == s[i];
    }
    ReplaceRunsAbsent(s, Disallowed, '-');
  }

  /** A name that already looks like a result of `filename` is left as it is; in particular a leading `-` stays. */
  lemma FilenameFixpoint(s: string)
    requires |s| <= MaxLength
    requires forall i :: 0 <= i < |s| ==> Allowed(s[i])
    requires NoAdjacent(s, IsHyphen)
    requires s == [] || s[|s| - 1] != '-'
    ensures Filename(s) == s
  {
    assert Cut(s) == s;
    CleanKeeps(s);
    assert Squeeze(s) == s by {
      ReplaceRunsSingles(s, IsHyphen, '-');
    }
    assert TrimRightBy(s, IsHyphen) == s;
  }

  /** `filename` is idempotent. */
  lemma FilenameIdempotent(s: string)
    ensures Filename(Filename(s)) == Filename(s)
  {
    FilenameFixpoint(Filename(s));
  }

  /** White space around a short name is trimmed away, never turned into hyphens. */
  lemma FilenameIgnoresPadding(w1: string, u: string, w2: string)
    requires |w1 + u + w2| <= MaxLength
    requires forall i :: 0 <= i < |w1| ==> IsSpace(w1[i])
    requires forall i :: 0 <= i < |w2| ==> IsSpace(w2[i])
    ensures Filename(w1 + u + w2) == Filename(u)
  {
    var s := w1 + u + w2;
    assert Cut(s) == s && Cut(u) == u;
    assert Clean(s) == Clean(u) by {
      TrimSpacePadding(w1, u, w2);
    }
  }

  /** Only the first 20 characters of a long name matter. */
  lemma FilenameTruncates(s: string, tail: string)
    requires |s| >= MaxLength
    ensures Filename(s + tail) == Filename(s[..MaxLength])
  {
    assert Cut(s + tail) == Cut(s[..MaxLength]);
  }
}
