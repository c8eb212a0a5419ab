/**
 The string operations that the command parser relies on: Python's `strip`,
 splitting at the first whitespace or at the first space, and the words of a text.
 */
module Text {

  /** `str.isspace` for one character, which is also what `\s` matches. */
  predicate IsSpace(c: char) {
    || '\U{9}' <= c <= '\U{d}' || '\U{1c}' <= c <= '\U{20}' || c == '\U{85}' || c == '\U{a0}'
    || c == '\U{1680}' || '\U{2000}' <= c <= '\U{200a}' || c == '\U{2028}' || c == '\U{2029}'
    || c == '\U{202f}' || c == '\U{205f}' || c == '\U{3000}'
  }

  /** Which characters below 128 that are. */
  lemma {:induction false} AsciiSpaces(c: char)
    requires c < '\U{80}'
    ensures IsSpace(c) <==>
              c in {'\t', '\n', '\U{b}', '\U{c}', '\r', '\U{1c}', '\U{1d}', '\U{1e}', '\U{1f}', ' '}
  {
  }

  predicate NoSpace(s: string) {
    forall i | 0 <= i < |s| :: !IsSpace(s[i])
  }

  predicate Blank(s: string) {
    forall i | 0 <= i < |s| :: IsSpace(s[i])
  }

  predicate Stripped(s: string) {
    s == "" || (!IsSpace(s[0]) && !IsSpace(s[|s| - 1]))
  }

  predicate IsSuffix(t: string, s: string) {
    |t| <= |s| && s[|s| - |t|..] == t
  }

  function StripLeft(s: string): (r: string)
    ensures IsSuffix(r, s) && (r == "" || !IsSpace(r[0]))
  {
    if s != "" && IsSpace(s[0]) then
      var r := StripLeft(s[1..]);
      assert s[|s| - |r|..] == s[1..][|s| - 1 - |r|..];
      r
    else s
  }

  function StripRight(s: string): (r: string)
    ensures r <= s && (r == "" || !IsSpace(r[|r| - 1]))
    ensures Blank(s[|r|..])
  {
    if s != "" && IsSpace(s[|s| - 1]) then StripRight(s[..|s| - 1]) else s
  }

  /** `s.strip()` */
  function Strip(s: string): (r: string)
    ensures Stripped(r)
  {
    StripRight(StripLeft(s))
  }

  /** `re.split(r"\s", s, 1)[0]` */
  function FirstToken(s: string): (r: string)
    ensures r <= s && NoSpace(r)
    ensures r == s || IsSpace(s[|r|])
  {
    if s == "" || IsSpace(s[0]) then "" else [s[0]] + FirstToken(s[1..])
  }

  /** `s.split()` */
  function Words(s: string): (ws: seq<string>)
    decreases |s|
  {
    if s == "" then []
    else if IsSpace(s[0]) then Words(s[1..])
    else [FirstToken(s)] + Words(s[|FirstToken(s)|..])
  }

  /** `s.split(" ", 1)` when there is a space, `[s, ""]` otherwise. */
  function SplitInTwo(s: string): (r: (string, string))
    ensures ' ' !in r.0
    ensures s == r.0 + " " + r.1 || (s == r.0 && r.1 == "")
  {
    if s == "" then ("", "")
    else if s[0] == ' ' then ("", s[1..])
    else
      var (a, b) := SplitInTwo(s[1..]);
      ([s[0]] + a, b)
  }

  // ---------------------------------------------------------------------
  // strip
  // ---------------------------------------------------------------------

  lemma {:induction false} StripLeftWords(s: string)
    ensures Words(StripLeft(s)) == Words(s)
  {
    hide FirstToken;
    if s != "" && IsSpace(s[0]) {
      StripLeftWords(s[1..]);
    }
  }

  lemma {:induction false} FirstTokenOfSnoc(s: string, c: char)
    requires IsSpace(c)
    ensures FirstToken(s + [c]) == FirstToken(s)
  {
    hide IsSpace;
    if s != "" && !IsSpace(s[0]) {
      FirstTokenOfSnoc(s[1..], c);
      assert (s + [c])[1..] == s[1..] + [c];
    }
  }

  lemma {:induction false} TrailingSpaceWords(s: string, c: char)
    requires IsSpace(c)
    ensures Words(s + [c]) == Words(s)
    decreases |s|
  {
    hide IsSpace;
    if s == "" {
      assert (s + [c])[1..] == "";
    } else if IsSpace(s[0]) {
      TrailingSpaceWords(s[1..], c);
      assert (s + [c])[1..] == s[1..] + [c];
    } else {
      FirstTokenOfSnoc(s, c);
      var t := FirstToken(s);
      assert |t| > 0;
      TrailingSpaceWords(s[|t|..], c);
      assert (s + [c])[|t|..] == s[|t|..] + [c];
    }
  }

  lemma {:induction false} StripRightWords(s: string)
    ensures Words(StripRight(s)) == Words(s)
  {
    hide Words, IsSpace;
    if s != "" && IsSpace(s[|s| - 1]) {
      StripRightWords(s[..|s| - 1]);
      TrailingSpaceWords(s[..|s| - 1], s[|s| - 1]);
      assert s == s[..|s| - 1] + [s[|s| - 1]];
    }
  }

  /** Stripping does not change the words. */
  lemma {:induction false} StripWords(s: string)
    ensures Words(Strip(s)) == Words(s)
  {
    StripLeftWords(s);
    StripRightWords(StripLeft(s));
  }

  lemma {:induction false} StrippedIsFixed(s: string)
    requires Stripped(s)
    ensures Strip(s) == s
  {
  }

  /** What is left of a stripped text after cutting its front has no trailing space to lose. */
  lemma {:induction false} StripOfSuffix(t: string, s: string)
    requires Stripped(s) && IsSuffix(t, s)
    ensures IsSuffix(Strip(t), s) && Strip(t) == StripLeft(t)
  {
    hide IsSpace;
    var u := StripLeft(t);
    if u != "" {
      assert u[|u| - 1] == t[|t| - 1] == s[|s| - 1];
      assert StripRight(u) == u;
    }
    SuffixTransitive(u, t, s);
  }

  lemma {:induction false} SuffixTransitive(u: string, t: string, s: string)
    requires IsSuffix(u, t) && IsSuffix(t, s)
    ensures IsSuffix(u, s)
  {
    assert s[|s| - |u|..] == s[|s| - |t|..][|t| - |u|..];
  }

  /** No words, nothing but whitespace, and an empty strip are the same thing. */
  lemma {:induction false} BlankIffNoWords(s: string)
    ensures Words(s) == [] <==> Blank(s)
    ensures Words(s) == [] <==> Strip(s) == ""
  {
    hide IsSpace, FirstToken;
    StripWords(s);
    BlankWords(s);
    assert Strip(s) != "" ==> Words(Strip(s)) != [];
  }

  lemma {:induction false} BlankWords(s: string)
    ensures Words(s) == [] <==> Blank(s)
  {
    hide IsSpace;
    if s != "" && IsSpace(s[0]) {
      BlankWords(s[1..]);
      assert Blank(s[1..]) ==> Blank(s) by {
        if Blank(s[1..]) {
          forall i | 0 <= i < |s|
            ensures IsSpace(s[i])
          {
            assert i > 0 ==> s[i] == s[1..][i - 1];
          }
        }
      }
    }
  }

  /** One strip-and-split step takes off exactly the first word. */
  lemma {:induction false} StepTakesFirstWord(s: string)
    ensures var v := Strip(s);
            && FirstToken(v) == (if Words(s) == [] then "" else Words(s)[0])
            && Words(v[|FirstToken(v)|..]) == (if Words(s) == [] then [] else Words(s)[1..])
            && IsSuffix(v[|FirstToken(v)|..], v)
  {
    StripWords(s);
  }

  // ---------------------------------------------------------------------
  // Printing words
  // ---------------------------------------------------------------------

  predicate PlainWord(w: string) {
    w != "" && NoSpace(w)
  }

  predicate PlainWords(ws: seq<string>) {
    forall i | 0 <= i < |ws| :: PlainWord(ws[i])
  }

  /** `" ".join(ws)` */
  function Join(ws: seq<string>): string {
    if ws == [] then ""
    else if |ws| == 1 then ws[0]
    else ws[0] + " " + Join(ws[1..])
  }

  lemma {:induction false} JoinIsStripped(ws: seq<string>)
    requires PlainWords(ws)
    ensures Stripped(Join(ws)) && (Join(ws) == "" <==> ws == [])
  {
    hide IsSpace;
    if ws != [] {
      assert PlainWord(ws[0]);
      if |ws| > 1 {
        JoinIsStripped(ws[1..]);
      }
    }
  }

  lemma {:induction false} FirstTokenOfPlain(w: string, rest: string)
    requires NoSpace(w) && (rest == "" || IsSpace(rest[0]))
    ensures FirstToken(w + rest) == w
  {
    hide IsSpace;
    if w == "" {
      assert w + rest == rest;
    } else {
      FirstTokenOfPlain(w[1..], rest);
      assert (w + rest)[1..] == w[1..] + rest;
      assert w == [w[0]] + w[1..];
    }
  }

  lemma {:induction false} StripAfterSpace(s: string)
    requires Stripped(s)
    ensures Strip(" " + s) == s
  {
    assert (" " + s)[1..] == s;
    assert StripLeft(" " + s) == StripLeft(s);
    StrippedIsFixed(s);
  }

  /** Taking the first token off a joined list leaves the joined tail. */
  lemma {:induction false} FirstTokenOfJoin(ws: seq<string>)
    requires PlainWords(ws) && ws != []
    ensures FirstToken(Join(ws)) == ws[0]
    ensures Strip(Join(ws)[|ws[0]|..]) == Join(ws[1..])
  {
    assert PlainWord(ws[0]);
    if |ws| == 1 {
      FirstTokenOfPlain(ws[0], "");
      assert ws[0] + "" == ws[0];
      assert Join(ws)[|ws[0]|..] == "";
    } else {
      FirstTokenOfPlain(ws[0], " " + Join(ws[1..]));
      assert ws[0] + " " + Join(ws[1..]) == ws[0] + (" " + Join(ws[1..]));
      assert Join(ws)[|ws[0]|..] == " " + Join(ws[1..]);
      JoinIsStripped(ws[1..]);
      StripAfterSpace(Join(ws[1..]));
    }
  }

  /** The words of joined words are those words. */
  lemma {:induction false} WordsOfJoin(ws: seq<string>)
    requires PlainWords(ws)
    ensures Words(Join(ws)) == ws
  {
    hide IsSpace, FirstToken, Strip, Join;
    JoinIsStripped(ws);
    if ws != [] {
      FirstTokenOfJoin(ws);
      WordsOfJoin(ws[1..]);
      StripWords(Join(ws)[|ws[0]|..]);
      assert Words(Join(ws)) == [ws[0]] + Words(Join(ws)[|ws[0]|..]);
      assert ws == [ws[0]] + ws[1..];
    } else {
      assert Words("") == [];
    }
  }

  lemma {:induction false} SplitOfPlain(w: string, rest: string)
    requires ' ' !in w
    ensures SplitInTwo(w + " " + rest) == (w, rest)
    ensures SplitInTwo(w) == (w, "")
  {
    if w == "" {
      assert (w + " " + rest)[1..] == rest;
    } else {
      SplitOfPlain(w[1..], rest);
      assert (w + " " + rest)[1..] == w[1..] + " " + rest;
      assert w == [w[0]] + w[1..];
    }
  }

  /** Splitting a joined list at its first space gives the first word and the joined tail. */
  lemma {:induction false} SplitOfJoin(ws: seq<string>)
    requires PlainWords(ws)
    ensures SplitInTwo(Join(ws)) == if ws == [] then ("", "") else (ws[0], Join(ws[1..]))
  {
    if ws != [] {
      assert PlainWord(ws[0]);
      assert ' ' !in ws[0] by {
        assert IsSpace(' ');
      }
      SplitOfPlain(ws[0], Join(ws[1..]));
    }
  }
}
