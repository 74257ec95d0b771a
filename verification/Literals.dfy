/** Comment removal that knows string and character literals (sections 6.4.5 and 6.4.4.4 of ISO
    C99), and exactly when the five-state automaton does the same without knowing them. */
module Literals {
  import opened Comments

  /** 0 to 4 as in the automaton; 5 and 6 in a string and behind its backslash, 7 and 8 in a
      character constant. */
  type Place = n: int | 0 <= n <= 8

  function Opens(c: char): Place { if c == '\"' then 5 else if c == '\'' then 7 else 0 }

  predicate InLiteral(place: Place) { place >= 5 }

  /** One character: the next place and what is written. */
  function Read(place: Place, c: char): (Place, string) {
    match place
    case 0 => if c == '/' then (1, "") else (Opens(c), [c])
    case 1 => if c == '/' then (2, "") else if c == '*' then (3, "") else (Opens(c), ['/', c])
    case 2 => Turn(2, c)
    case 3 => Turn(3, c)
    case 4 => Turn(4, c)
    case 5 => (if c == '\\' then 6 else if c == '\"' then 0 else 5, [c])
    case 6 => (5, [c])
    case 7 => (if c == '\\' then 8 else if c == '\'' then 0 else 7, [c])
    case 8 => (7, [c])
  }

  function Write(place: Place, text: string): string
    decreases |text|
  {
    if text == "" then "" else Read(place, text[0]).1 + Write(Read(place, text[0]).0, text[1..])
  }

  /** The program without its comments. */
  function Remove(text: string): string { Write(0, text) }

  /** The characters between the quotes; `closed` when the closing quote is there. */
  datatype Literal = Literal(body: string, closed: bool)

  /** The literals of a text; `body` is what has been read of the one that is open. */
  function LiteralsOf(place: Place, body: string, text: string): seq<Literal>
    decreases |text|
  {
    if text == "" then if InLiteral(place) then [Literal(body, false)] else []
    else
      var next := Read(place, text[0]).0;
      if !InLiteral(place) then LiteralsOf(next, "", text[1..])
      else if InLiteral(next) then LiteralsOf(next, body + [text[0]], text[1..])
      else [Literal(body, true)] + LiteralsOf(next, "", text[1..])
  }

  /** No comment opener. */
  predicate NoOpener(s: string) {
    forall i :: 0 <= i < |s| - 1 && s[i] == '/' ==> s[i + 1] != '/' && s[i + 1] != '*'
  }

  predicate EndsInSlash(s: string) { s != "" && s[|s| - 1] == '/' }

  /** A literal that the five-state automaton does not disturb. */
  predicate Harmless(l: Literal) { NoOpener(l.body) && (!l.closed ==> !EndsInSlash(l.body)) }

  predicate AllHarmless(ls: seq<Literal>) { forall i :: 0 <= i < |ls| ==> Harmless(ls[i]) }

  // ----- harmless literals are kept -----

  /** The status of the five-state automaton inside a literal: it holds back a slash. */
  function Shadow(place: Place, body: string): Status {
    if !InLiteral(place) then place else if EndsInSlash(body) then 1 else 0
  }

  /** The slash the automaton holds back inside a literal. */
  function Held(place: Place, body: string): string {
    if InLiteral(place) && EndsInSlash(body) then "/" else ""
  }

  /** A character that stays in the literal is written, behind a slash held back before. */
  lemma StayStep(place: Place, body: string, c: char)
    requires InLiteral(place) && InLiteral(Read(place, c).0) && NoOpener(body + [c])
    ensures var next, t := Read(place, c).0, Turn(Shadow(place, body), c);
      Read(place, c).1 == [c] && t.0 == Shadow(next, body + [c]) && t.1 + Held(next, body + [c]) == Held(place, body) + [c]
  {
    if EndsInSlash(body) {
      assert (body + [c])[|body| - 1] == '/' && (body + [c])[|body|] == c;
    }
  }

  /** So is the quote that closes it. */
  lemma CloseStep(place: Place, body: string, c: char)
    requires InLiteral(place) && !InLiteral(Read(place, c).0)
    ensures Read(place, c) == (0, [c]) && Turn(Shadow(place, body), c) == (0, Held(place, body) + [c])
  {
    assert "/" + [c] == ['/', c] && "" + [c] == [c];
  }

  /** What has been read of an open literal is the beginning of its body. */
  lemma {:induction false} FirstLiteral(place: Place, body: string, text: string)
    requires InLiteral(place)
    ensures LiteralsOf(place, body, text) != [] && body <= LiteralsOf(place, body, text)[0].body
    decreases |text|
  {
    if text != "" && InLiteral(Read(place, text[0]).0) {
      FirstLiteral(Read(place, text[0]).0, body + [text[0]], text[1..]);
    }
  }

  lemma PrefixNoOpener(a: string, b: string)
    requires a <= b && NoOpener(b)
    ensures NoOpener(a)
  {
  }

  lemma OpenBodyNoOpener(place: Place, body: string, text: string)
    requires InLiteral(place) && AllHarmless(LiteralsOf(place, body, text))
    ensures NoOpener(body)
  {
    FirstLiteral(place, body, text);
    PrefixNoOpener(body, LiteralsOf(place, body, text)[0].body);
  }

  /** Outside literals the two automata make the same turn. */
  lemma OutsideStep(place: Place, c: char)
    requires !InLiteral(place)
    ensures var r := Read(place, c); Turn(place, c) == (Shadow(r.0, ""), r.1) && Held(r.0, "") == ""
  {
  }

  lemma Join(a: string, b: string, c: string, d: string, rest: string)
    requires a + b == c + d
    ensures a + (b + rest) == c + (d + rest)
  {
    assert a + (b + rest) == (a + b) + rest;
    assert c + (d + rest) == (c + d) + rest;
  }

  lemma HarmlessTail(ls: seq<Literal>)
    requires ls != [] && AllHarmless(ls)
    ensures Harmless(ls[0]) && AllHarmless(ls[1..])
  {
  }

  lemma OpenAtEnd(place: Place, body: string)
    requires AllHarmless(LiteralsOf(place, body, ""))
    ensures Held(place, body) == ""
  {
    if InLiteral(place) { assert LiteralsOf(place, body, "")[0] == Literal(body, false); }
  }

  lemma {:induction false} HarmlessKept(place: Place, body: string, text: string)
    requires AllHarmless(LiteralsOf(place, body, text))
    ensures Output(Shadow(place, body), text) == Held(place, body) + Write(place, text)
    decreases |text|
  {
    hide Read, Turn, Shadow, Held, AllHarmless;
    if text == "" {
      OpenAtEnd(place, body);
    } else {
      var c, rest := text[0], text[1..];
      var next, written := Read(place, c).0, Read(place, c).1;
      if !InLiteral(place) {
        HarmlessKept(next, "", rest);
        OutsideStep(place, c);
        assert Shadow(place, body) == place && Held(place, body) == "" by { OutsideShadow(place, body); }
      } else if InLiteral(next) {
        OpenBodyNoOpener(next, body + [c], rest);
        StayStep(place, body, c);
        HarmlessKept(next, body + [c], rest);
        Join(Turn(Shadow(place, body), c).1, Held(next, body + [c]), Held(place, body), [c], Write(next, rest));
      } else {
        HarmlessTail(LiteralsOf(place, body, text));
        assert LiteralsOf(place, body, text)[1..] == LiteralsOf(next, "", rest);
        CloseStep(place, body, c);
        HarmlessKept(next, "", rest);
        assert Shadow(next, "") == next && Held(next, "") == "" by { OutsideShadow(next, ""); }
        assert (Held(place, body) + [c]) + Write(next, rest) == Held(place, body) + ([c] + Write(next, rest));
      }
    }
  }

  lemma OutsideShadow(place: Place, body: string)
    requires !InLiteral(place)
    ensures Shadow(place, body) == place && Held(place, body) == ""
  {
  }

  // ----- and no others -----

  lemma CleanSuffix(a: string, b: string)
    requires Clean(a + b)
    ensures Clean(b)
  {
    SuffixClean(a + b, |a|);
    assert (a + b)[|a|..] == b;
  }

  lemma CleanHarmless(body: string, rest: string, closed: bool)
    requires Clean(body + rest) && (!closed ==> rest == "")
    ensures Harmless(Literal(body, closed))
  {
    forall i | 0 <= i < |body| - 1 && body[i] == '/' ensures body[i + 1] != '/' && body[i + 1] != '*' {
      assert (body + rest)[i] == '/' && (body + rest)[i + 1] == body[i + 1];
    }
    if !closed { assert body + rest == body; }
  }

  /** What the output shows of an open literal and of the text behind it. */
  function Shown(place: Place, body: string, text: string): string {
    if InLiteral(place) then body + Write(place, text) else Write(place, text)
  }

  lemma ShownStep(place: Place, body: string, text: string)
    requires text != ""
    ensures var r, rest := Read(place, text[0]), text[1..];
      if !InLiteral(place) then Shown(place, body, text) == r.1 + Write(r.0, rest) && Shown(r.0, "", rest) == Write(r.0, rest)
      else
        r.1 == [text[0]] && Shown(place, body, text) == body + ([text[0]] + Write(r.0, rest))
        && if InLiteral(r.0) then Shown(place, body, text) == Shown(r.0, body + [text[0]], rest)
           else Shown(place, body, text) == (body + [text[0]]) + Shown(r.0, "", rest)
  {
    var r, rest := Read(place, text[0]), text[1..];
    if InLiteral(place) {
      assert r.1 == [text[0]];
      hide Read;
      Regroup(body, [text[0]], Write(r.0, rest));
    } else {
      hide Read;
      assert "" + Write(r.0, rest) == Write(r.0, rest);
    }
  }

  lemma AllHarmlessCons(l: Literal, ls: seq<Literal>)
    requires Harmless(l) && AllHarmless(ls)
    ensures AllHarmless([l] + ls)
  {
  }

  /** If nothing in the output looks like a comment, every literal in it is harmless. */
  lemma {:induction false} CleanOutput(place: Place, body: string, text: string)
    requires Clean(Shown(place, body, text))
    ensures AllHarmless(LiteralsOf(place, body, text))
    decreases |text|
  {
    hide Clean, Read, Write, Harmless, AllHarmless;
    if text == "" {
      CleanEnd(place, body);
    } else {
      ShownStep(place, body, text);
      hide Shown;
      var c, rest := text[0], text[1..];
      var r := Read(place, c);
      if !InLiteral(place) {
        CleanSuffix(r.1, Write(r.0, rest));
        CleanOutput(r.0, "", rest);
      } else if InLiteral(r.0) {
        CleanOutput(r.0, body + [c], rest);
      } else {
        CleanHarmless(body, [c] + Write(r.0, rest), true);
        CleanSuffix(body + [c], Shown(r.0, "", rest));
        CleanOutput(r.0, "", rest);
        AllHarmlessCons(Literal(body, true), LiteralsOf(r.0, "", rest));
      }
    }
  }

  lemma CleanEnd(place: Place, body: string)
    requires Clean(Shown(place, body, ""))
    ensures AllHarmless(LiteralsOf(place, body, ""))
  {
    if InLiteral(place) { CleanHarmless(body, "", false); }
  }

  /** For every text: the automaton removes exactly the comments if and only if no literal holds
      a comment opener and no literal left open ends in a slash. */
  lemma StripKeepsLiteralsIff(text: string)
    ensures Strip(text) == Remove(text) <==> AllHarmless(LiteralsOf(0, "", text))
  {
    if AllHarmless(LiteralsOf(0, "", text)) { HarmlessKept(0, "", text); }
    if Strip(text) == Remove(text) {
      StripIdempotent(text);
      CleanOutput(0, "", text);
    }
  }

  /** A comment marker inside a string literal is taken for a comment. */
  lemma MarkerInLiteral()
    ensures Strip("\"//\"") == "\"" && Remove("\"//\"") == "\"//\""
  {
    var s := "\"//\"";
    assert s[1..] == "//\"" && s[1..][1..] == "/\"" && s[1..][1..][1..] == "\"" && s[1..][1..][1..][1..] == "";
    assert Output(2, "\"") == Output(2, "");
    assert Output(1, "/\"") == Output(2, "\"");
    assert Output(0, "//\"") == Output(1, "/\"");
    assert Output(0, s) == "\"" + Output(0, "//\"");
    assert Write(5, "\"") == "\"" + Write(0, "");
    assert Write(5, "/\"") == "/" + Write(5, "\"");
    assert Write(5, "//\"") == "/" + Write(5, "/\"");
    assert Write(0, s) == "\"" + Write(5, "//\"");
  }
}
