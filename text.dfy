/**
 The three Python string built-ins the login handler relies on:
 `str.strip()`, `str.split()` (both with no argument) and `str.title()`.
 */
module PyText {

  /** The code-point ranges of the characters CPython's `str.isspace()`
      accepts; `strip()` and `split()` with no argument trim and separate on
      exactly these. */
  const SpaceRanges: seq<(char, char)> := [
    ('\t', '\r'),            // \t \n \v \f \r
    ('\U{1C}', ' '),          // the four information separators and space
    ('\U{85}', '\U{85}'), ('\U{A0}', '\U{A0}'), ('\U{1680}', '\U{1680}'),
    ('\U{2000}', '\U{200A}'), ('\U{2028}', '\U{2029}'), ('\U{202F}', '\U{202F}'),
    ('\U{205F}', '\U{205F}'), ('\U{3000}', '\U{3000}')
  ]

  predicate InRanges(c: char, ranges: seq<(char, char)>) {
    ranges != [] && (ranges[0].0 <= c <= ranges[0].1 || InRanges(c, ranges[1..]))
  }

  predicate IsSpace(c: char) {
    InRanges(c, SpaceRanges)
  }

  predicate NoSpace(s: string) {
    forall k :: 0 <= k < |s| ==> !IsSpace(s[k])
  }

  /** `s.lstrip()`: the longest suffix of `s` that does not start with whitespace. */
  function TrimLeft(s: string): (r: string)
    ensures |r| <= |s| && r == s[|s| - |r|..]
    ensures forall k :: 0 <= k < |s| - |r| ==> IsSpace(s[k])
    ensures r == [] || !IsSpace(r[0])
  {
    if |s| > 0 && IsSpace(s[0]) then TrimLeft(s[1..]) else s
  }

  /** `s.rstrip()`: the longest prefix of `s` that does not end with whitespace. */
  function TrimRight(s: string): (r: string)
    ensures |r| <= |s| && r == s[..|r|]
    ensures forall k :: |r| <= k < |s| ==> IsSpace(s[k])
    ensures r == [] || !IsSpace(r[|r| - 1])
  {
    if |s| > 0 && IsSpace(s[|s| - 1]) then TrimRight(s[..|s| - 1]) else s
  }

  /** `s.strip()`: `s` without whitespace at either end. */
  function Strip(s: string): (r: string)
    ensures |r| <= |s|
    ensures r == [] || (!IsSpace(r[0]) && !IsSpace(r[|r| - 1]))
  {
    TrimRight(TrimLeft(s))
  }

  /** `strip()` removes a whitespace prefix and a whitespace suffix and keeps
      the middle of `s` unchanged. */
  lemma {:induction false} StripShape(s: string)
    ensures var r := Strip(s); var i := |s| - |TrimLeft(s)|;
      && i + |r| <= |s| && r == s[i..i + |r|]
      && (forall k :: 0 <= k < i ==> IsSpace(s[k]))
      && (forall k :: i + |r| <= k < |s| ==> IsSpace(s[k]))
  {
    var t := TrimLeft(s);
    var r := TrimRight(t);
    var i := |s| - |t|;
    assert t == s[i..];
    assert r == t[..|r|];
    assert r == s[i..i + |r|];
    forall k | i + |r| <= k < |s|
      ensures IsSpace(s[k])
    {
      assert s[k] == t[k - i];
    }
  }

  /** A string with no whitespace at either end is its own strip. */
  lemma {:induction false} StripFixes(s: string)
    requires s == [] || (!IsSpace(s[0]) && !IsSpace(s[|s| - 1]))
    ensures Strip(s) == s
  {
    assert TrimLeft(s) == s;
  }

  lemma {:induction false} StripIdempotent(s: string)
    ensures Strip(Strip(s)) == Strip(s)
  {
    StripFixes(Strip(s));
  }

  /** Length of the run of non-whitespace characters that starts `s`. */
  function WordLen(s: string): (n: nat)
    ensures n <= |s|
    ensures forall k :: 0 <= k < n ==> !IsSpace(s[k])
    ensures n == |s| || IsSpace(s[n])
  {
    if |s| > 0 && !IsSpace(s[0]) then 1 + WordLen(s[1..]) else 0
  }

  /** The run length is the only index with those three properties. */
  lemma {:induction false} WordLenUnique(s: string, n: nat)
    requires n <= |s|
    requires forall k :: 0 <= k < n ==> !IsSpace(s[k])
    requires n == |s| || IsSpace(s[n])
    ensures WordLen(s) == n
  {
  }

  /** `s.split()`: the maximal runs of non-whitespace characters of `s`, in order;
      runs of whitespace of any length separate, and no token is empty. */
  function Words(s: string): (ws: seq<string>)
    decreases |s|
  {
    var t := TrimLeft(s);
    if t == [] then []
    else
      var n := WordLen(t);
      [t[..n]] + Words(t[n..])
  }

  /** Every token is non-empty and holds no whitespace. */
  lemma {:induction false} WordsAreTokens(s: string)
    ensures forall i :: 0 <= i < |Words(s)| ==> Words(s)[i] != [] && NoSpace(Words(s)[i])
    decreases |s|
  {
    var t := TrimLeft(s);
    if t != [] {
      var n := WordLen(t);
      var w := t[..n];
      assert w[0] == t[0];
      assert NoSpace(w);
      assert Words(s) == [w] + Words(t[n..]);
      WordsAreTokens(t[n..]);
      TokensCons(w, Words(t[n..]));
    }
  }

  lemma {:induction false} TokensCons(w: string, ws: seq<string>)
    requires w != [] && NoSpace(w)
    requires forall i :: 0 <= i < |ws| ==> ws[i] != [] && NoSpace(ws[i])
    ensures forall i :: 0 <= i < |[w] + ws| ==> ([w] + ws)[i] != [] && NoSpace(([w] + ws)[i])
  {
    forall i | 0 <= i < |[w] + ws|
      ensures ([w] + ws)[i] != [] && NoSpace(([w] + ws)[i])
    {
      if i > 0 {
        assert ([w] + ws)[i] == ws[i - 1];
      }
    }
  }

  /** A leading whitespace character does not change the tokens. */
  lemma {:induction false} WordsSkipSpace(s: string)
    requires |s| > 0 && IsSpace(s[0])
    ensures Words(s) == Words(s[1..])
  {
    assert TrimLeft(s) == TrimLeft(s[1..]);
  }

  /** A string that starts with a token splits into that token and the
      tokens of what follows it. */
  lemma {:induction false} WordsStep(s: string)
    requires s != [] && !IsSpace(s[0])
    ensures Words(s) == [s[..WordLen(s)]] + Words(s[WordLen(s)..])
  {
    assert TrimLeft(s) == s;
  }

  /** A string of whitespace has no tokens. */
  lemma {:induction false} WordsOfSpaces(sp: string)
    requires forall k :: 0 <= k < |sp| ==> IsSpace(sp[k])
    ensures Words(sp) == []
  {
  }

  /** Trailing whitespace does not change the tokens. */
  lemma {:induction false} WordsAppendSpaces(u: string, sp: string)
    requires forall k :: 0 <= k < |sp| ==> IsSpace(sp[k])
    ensures Words(u + sp) == Words(u)
    decreases |u|
  {
    if u == [] {
      assert u + sp == sp;
      WordsOfSpaces(sp);
    } else if IsSpace(u[0]) {
      WordsSkipSpace(u + sp);
      WordsSkipSpace(u);
      assert (u + sp)[1..] == u[1..] + sp;
      WordsAppendSpaces(u[1..], sp);
    } else {
      WordsAppendSpacesAfterToken(u, sp);
    }
  }

  /** The case of `WordsAppendSpaces` where `u` starts with a token. */
  lemma {:induction false} WordsAppendSpacesAfterToken(u: string, sp: string)
    requires u != [] && !IsSpace(u[0])
    requires forall k :: 0 <= k < |sp| ==> IsSpace(sp[k])
    ensures Words(u + sp) == Words(u)
    decreases |u|, 0
  {
    var n := WordLen(u);
    var head := [u[..n]];
    WordsStepAppend(u, sp);
    assert Words(u + sp) == head + Words(u[n..] + sp);
    WordsStep(u);
    assert Words(u) == head + Words(u[n..]);
    WordsAppendSpaces(u[n..], sp);
  }

  /** A token followed by nothing or by whitespace splits off first. */
  lemma {:induction false} WordsOfToken(w: string, rest: string)
    requires w != [] && NoSpace(w)
    requires rest == [] || IsSpace(rest[0])
    ensures Words(w + rest) == [w] + Words(rest)
  {
    WordLenUnique(w, |w|);
    var n := WordLen(w);
    assert w[..n] == w && w[n..] + rest == rest;
    WordsStepAppend(w, rest);
  }

  lemma {:induction false} WordsStepAppend(u: string, sp: string)
    requires u != [] && !IsSpace(u[0])
    requires sp == [] || IsSpace(sp[0])
    ensures Words(u + sp) == [u[..WordLen(u)]] + Words(u[WordLen(u)..] + sp)
  {
    var n := WordLen(u);
    var s := u + sp;
    assert s[..n] == u[..n];
    assert s[n..] == u[n..] + sp;
    assert n == |s| || IsSpace(s[n]) by {
      if n < |u| {
        assert s[n] == u[n];
      } else if sp != [] {
        assert s[n] == sp[0];
      }
    }
    WordLenUnique(s, n);
    WordsStep(s);
  }

  lemma {:induction false} WordsOfTrimLeft(s: string)
    ensures Words(TrimLeft(s)) == Words(s)
  {
    assert TrimLeft(TrimLeft(s)) == TrimLeft(s);
  }

  lemma {:induction false} WordsOfTrimRight(t: string)
    ensures Words(TrimRight(t)) == Words(t)
  {
    var u := TrimRight(t);
    var sp := t[|u|..];
    assert t == u + sp;
    forall k | 0 <= k < |sp|
      ensures IsSpace(sp[k])
    {
      assert sp[k] == t[|u| + k];
    }
    WordsAppendSpaces(u, sp);
  }

  /** Stripping before splitting, as the handler does, changes nothing:
      `s.strip().split() == s.split()`. */
  lemma {:induction false} WordsOfStrip(s: string)
    ensures Words(Strip(s)) == Words(s)
  {
    WordsOfTrimLeft(s);
    WordsOfTrimRight(TrimLeft(s));
  }

  /** `" ".join(ws)`. */
  function JoinWords(ws: seq<string>): (s: string)
    ensures ws == [] ==> s == []
  {
    if ws == [] then []
    else if |ws| == 1 then ws[0]
    else ws[0] + " " + JoinWords(ws[1..])
  }

  /** Splitting undoes joining with single spaces, for tokens that are non-empty
      and free of whitespace. */
  lemma {:induction false} WordsOfJoin(ws: seq<string>)
    requires forall i :: 0 <= i < |ws| ==> ws[i] != [] && NoSpace(ws[i])
    ensures Words(JoinWords(ws)) == ws
  {
    if |ws| == 1 {
      assert ws[0] + [] == ws[0];
      WordsOfToken(ws[0], []);
    } else if |ws| > 1 {
      var tail := JoinWords(ws[1..]);
      var rest := " " + tail;
      assert rest[1..] == tail;
      assert JoinWords(ws) == ws[0] + rest;
      assert ws == [ws[0]] + ws[1..];
      WordsOfToken(ws[0], rest);
      WordsSkipSpace(rest);
      WordsOfJoin(ws[1..]);
    }
  }

  /** The character case tables `str.title()` consults, left abstract: whether a
      character is cased, and its title-case and lower-case single-character
      mappings. */
  datatype CaseMapping = CaseMapping(isCased: char -> bool, toTitle: char -> char, toLower: char -> char)

  /** CPython's title-casing loop: every character is lower-cased when the
      character before it (in the input) is cased, and title-cased otherwise. */
  function TitleFrom(m: CaseMapping, s: string, previousIsCased: bool): (r: string)
    ensures |r| == |s|
  {
    if s == [] then []
    else
      var c := if previousIsCased then m.toLower(s[0]) else m.toTitle(s[0]);
      [c] + TitleFrom(m, s[1..], m.isCased(s[0]))
  }

  /** `s.title()`. */
  function TitleCase(m: CaseMapping, s: string): (r: string)
    ensures |r| == |s|
  {
    TitleFrom(m, s, false)
  }

  lemma {:induction false} TitleFromAt(m: CaseMapping, s: string, p: bool, i: nat)
    requires i < |s|
    ensures TitleFrom(m, s, p)[i] ==
      if (if i == 0 then p else m.isCased(s[i - 1])) then m.toLower(s[i]) else m.toTitle(s[i])
  {
    if i > 0 {
      TitleFromAt(m, s[1..], m.isCased(s[0]), i - 1);
    }
  }

  /** Position by position: a character starts a word, and is title-cased,
      exactly when it is first or follows an uncased character (a space, but
      also an apostrophe, a hyphen or a digit); every other character is
      lower-cased. */
  lemma {:induction false} TitleCaseAt(m: CaseMapping, s: string, i: nat)
    requires i < |s|
    ensures TitleCase(m, s)[i] ==
      if i == 0 || !m.isCased(s[i - 1]) then m.toTitle(s[i]) else m.toLower(s[i])
  {
    TitleFromAt(m, s, false, i);
  }

  /** What the idempotence and canonical-key properties need of the case
      tables: mappings keep a character's casedness and are idempotent,
      uncased characters map to themselves, and whitespace is uncased. */
  ghost predicate Coherent(m: CaseMapping) {
    forall c ::
      && m.isCased(m.toTitle(c)) == m.isCased(c)
      && m.isCased(m.toLower(c)) == m.isCased(c)
      && m.toTitle(m.toTitle(c)) == m.toTitle(c)
      && m.toLower(m.toLower(c)) == m.toLower(c)
      && (!m.isCased(c) ==> m.toTitle(c) == c && m.toLower(c) == c)
      && (IsSpace(c) ==> !m.isCased(c))
  }

  /** `s.title().title() == s.title()`. */
  lemma {:induction false} TitleCaseIdempotent(m: CaseMapping, s: string)
    requires Coherent(m)
    ensures TitleCase(m, TitleCase(m, s)) == TitleCase(m, s)
  {
    var t := TitleCase(m, s);
    forall i | 0 <= i < |s|
      ensures TitleCase(m, t)[i] == t[i]
    {
      TitleCaseAt(m, s, i);
      TitleCaseAt(m, t, i);
      if i > 0 {
        TitleCaseAt(m, s, i - 1);
      }
    }
  }

  /** Under coherent tables title-casing keeps whitespace where it was, so a
      stripped string stays stripped. */
  lemma {:induction false} TitleCaseKeepsStripped(m: CaseMapping, s: string)
    requires Coherent(m)
    requires s == [] || (!IsSpace(s[0]) && !IsSpace(s[|s| - 1]))
    ensures Strip(TitleCase(m, s)) == TitleCase(m, s)
  {
    var t := TitleCase(m, s);
    if s != [] {
      TitleCaseAt(m, s, 0);
      TitleCaseAt(m, s, |s| - 1);
    }
    StripFixes(t);
  }

  /** Title-casing a concatenation: the second part starts from whether the
      last character of the first part is cased. */
  lemma {:induction false} TitleFromAppend(m: CaseMapping, s: string, t: string, p: bool)
    ensures TitleFrom(m, s + t, p) ==
      TitleFrom(m, s, p) + TitleFrom(m, t, if s == [] then p else m.isCased(s[|s| - 1]))
  {
    if s == [] {
      assert s + t == t;
    } else {
      assert (s + t)[0] == s[0];
      assert (s + t)[1..] == s[1..] + t;
      TitleFromAppend(m, s[1..], t, m.isCased(s[0]));
      if |s| > 1 {
        assert s[1..][|s| - 2] == s[|s| - 1];
      }
    }
  }

  /** Under coherent tables, title-casing words joined by a space title-cases
      each word on its own: a space always starts a new word. */
  lemma {:induction false} TitleCaseSpaceJoin(m: CaseMapping, a: string, b: string)
    requires Coherent(m)
    ensures TitleCase(m, a + " " + b) == TitleCase(m, a) + " " + TitleCase(m, b)
  {
    assert IsSpace(' ');
    assert a + " " + b == a + ([' '] + b);
    TitleFromAppend(m, a, [' '] + b, false);
    var p := if a == [] then false else m.isCased(a[|a| - 1]);
    assert ([' '] + b)[1..] == b;
    assert TitleFrom(m, [' '] + b, p) == [' '] + TitleFrom(m, b, false);
  }

  /** Each word title-cased on its own. */
  function TitleWords(m: CaseMapping, ws: seq<string>): (ts: seq<string>)
    ensures |ts| == |ws|
    ensures forall i :: 0 <= i < |ws| ==> ts[i] == TitleCase(m, ws[i])
  {
    if ws == [] then [] else [TitleCase(m, ws[0])] + TitleWords(m, ws[1..])
  }

  /** Under coherent tables, title-casing words joined by single spaces is
      joining the title-cased words: `" ".join(ws).title() == " ".join(w.title() for w in ws)`. */
  lemma {:induction false} TitleCaseOfJoin(m: CaseMapping, ws: seq<string>)
    requires Coherent(m)
    ensures TitleCase(m, JoinWords(ws)) == JoinWords(TitleWords(m, ws))
  {
    if |ws| > 1 {
      var ts := TitleWords(m, ws);
      TitleCaseOfJoin(m, ws[1..]);
      TitleCaseSpaceJoin(m, ws[0], JoinWords(ws[1..]));
      assert ts[1..] == TitleWords(m, ws[1..]);
    }
  }

  /** A space-joined name starts with its first word's first character and
      ends with its last word's last character. */
  lemma {:induction false} JoinWordsEnds(ws: seq<string>)
    requires |ws| > 0 && forall i :: 0 <= i < |ws| ==> ws[i] != []
    ensures JoinWords(ws) != []
    ensures JoinWords(ws)[0] == ws[0][0]
    ensures JoinWords(ws)[|JoinWords(ws)| - 1] == ws[|ws| - 1][|ws[|ws| - 1]| - 1]
  {
    if |ws| > 1 {
      JoinWordsEnds(ws[1..]);
    }
  }

  /** Words free of whitespace, joined by single spaces, give a string that
      `strip()` leaves alone. */
  lemma {:induction false} StripOfJoin(ws: seq<string>)
    requires forall i :: 0 <= i < |ws| ==> ws[i] != [] && NoSpace(ws[i])
    ensures Strip(JoinWords(ws)) == JoinWords(ws)
  {
    if ws != [] {
      JoinWordsEnds(ws);
      StripFixes(JoinWords(ws));
    }
  }

  function AsciiUpper(c: char): (u: char) {
    if 'a' <= c <= 'z' then (c as int - 32) as char else c
  }

  function AsciiLower(c: char): (l: char) {
    if 'A' <= c <= 'Z' then (c as int + 32) as char else c
  }

  /** The ASCII part of Python's case tables, for concrete examples. */
  const Ascii := CaseMapping(
    c => 'a' <= c <= 'z' || 'A' <= c <= 'Z',
    AsciiUpper,
    AsciiLower)

  lemma {:induction false} InRangesWitness(c: char, ranges: seq<(char, char)>) returns (j: nat)
    requires InRanges(c, ranges)
    ensures j < |ranges| && ranges[j].0 <= c <= ranges[j].1
  {
    if ranges[0].0 <= c <= ranges[0].1 {
      j := 0;
    } else {
      j := InRangesWitness(c, ranges[1..]);
      j := j + 1;
    }
  }

  /** Whitespace holds no printable ASCII character, letters and digits included. */
  lemma {:induction false} SpaceIsNotPrintable(c: char)
    requires IsSpace(c)
    ensures c <= ' ' || '\U{85}' <= c
  {
    var j := InRangesWitness(c, SpaceRanges);
    assert j in {0, 1, 2, 3, 4, 5, 6, 7, 8, 9};
  }

  /** A string of printable ASCII characters other than space holds no whitespace. */
  lemma {:induction false} PrintableHasNoSpace(w: string)
    requires forall k :: 0 <= k < |w| ==> '!' <= w[k] <= '~'
    ensures NoSpace(w)
  {
    forall k | 0 <= k < |w|
      ensures !IsSpace(w[k])
    {
      if IsSpace(w[k]) {
        SpaceIsNotPrintable(w[k]);
      }
    }
  }

  lemma {:induction false} AsciiCoherent()
    ensures Coherent(Ascii)
  {
    forall c | IsSpace(c)
      ensures !Ascii.isCased(c)
    {
      SpaceIsNotPrintable(c);
    }
  }

  /** Python's rule, not a per-token rule: an apostrophe or a hyphen also
      starts a new word. */
  lemma {:induction false} TitleCaseExample()
    ensures TitleCase(Ascii, "o'neil-SMITH x") == "O'Neil-Smith X"
  {
    var s := "o'neil-SMITH x";
    forall i | 0 <= i < |s|
      ensures TitleCase(Ascii, s)[i] == "O'Neil-Smith X"[i]
    {
      TitleCaseAt(Ascii, s, i);
    }
  }
}
