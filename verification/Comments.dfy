/** The comment-removing automaton of clCreateProgramWithSource, specified by a token grammar. */
module Comments {

  const NUL := '\0'

  /** The five values of `status`. */
  type Status = n: int | 0 <= n <= 4

  /** One turn of the loop: the next status and the characters written. */
  function Turn(status: Status, c: char): (Status, string) {
    match status
    case 0 => if c == '/' then (1, "") else (0, [c])
    case 1 => if c == '/' then (2, "") else if c == '*' then (3, "") else (0, ['/', c])
    case 2 => if c == '\n' then (0, "\n") else (2, "")
    case 3 => if c == '*' then (4, "") else (3, "")
    case 4 => if c == '/' then (0, "") else if c == '*' then (4, "") else (3, "")
  }

  /** The characters written from `status` on, and the status at the end. */
  function Output(status: Status, text: string): string
    decreases |text|
  {
    if text == "" then "" else Turn(status, text[0]).1 + Output(Turn(status, text[0]).0, text[1..])
  }

  function Final(status: Status, text: string): Status
    decreases |text|
  {
    if text == "" then status else Final(Turn(status, text[0]).0, text[1..])
  }

  function Strip(text: string): string { Output(0, text) }

  lemma {:induction false} OutputConcat(status: Status, a: string, b: string)
    ensures Output(status, a + b) == Output(status, a) + Output(Final(status, a), b)
    ensures Final(status, a + b) == Final(Final(status, a), b)
    decreases |a|
  {
    if a == "" {
      assert a + b == b;
    } else {
      var r := Turn(status, a[0]);
      assert (a + b)[0] == a[0] && (a + b)[1..] == a[1..] + b;
      OutputConcat(r.0, a[1..], b);
      assert r.1 + (Output(r.0, a[1..]) + Output(Final(r.0, a[1..]), b)) == (r.1 + Output(r.0, a[1..])) + Output(Final(r.0, a[1..]), b);
    }
  }

  // ----- the grammar -----

  /** What a source text is made of: characters, a slash that opens no comment, and the two
      kinds of comment. String literals are not recognised. */
  datatype Token =
    | Char(c: char)
    | Slash(c: char)
    | Line(body: string)
    | Block(body: string)

  predicate WellFormed(t: Token) {
    match t
    case Char(c) => c != '/'
    case Slash(c) => c != '/' && c != '*'
    case Line(body) => '\n' !in body
    case Block(body) => !HasCloser(body)
  }

  /** The text contains a star followed by a slash. */
  predicate HasCloser(s: string) {
    exists i :: 0 <= i < |s| - 1 && s[i] == '*' && s[i + 1] == '/'
  }

  function Print(t: Token): string {
    match t
    case Char(c) => [c]
    case Slash(c) => ['/', c]
    case Line(body) => "//" + body + "\n"
    case Block(body) => "/*" + body + "*/"
  }

  /** What a token contributes to the program without comments. */
  function Code(t: Token): string {
    match t
    case Char(c) => [c]
    case Slash(c) => ['/', c]
    case Line(_) => "\n"
    case Block(_) => ""
  }

  function PrintAll(ts: seq<Token>): string { if ts == [] then "" else Print(ts[0]) + PrintAll(ts[1..]) }

  function CodeAll(ts: seq<Token>): string { if ts == [] then "" else Code(ts[0]) + CodeAll(ts[1..]) }

  // ----- one token at a time -----

  lemma {:induction false} InLine(body: string)
    requires '\n' !in body
    ensures Output(2, body) == "" && Final(2, body) == 2
    decreases |body|
  {
    if body != "" { InLine(body[1..]); }
  }

  /** Inside a block comment nothing is written, and the status remembers a star at the end. */
  lemma {:induction false} InBlock(status: Status, body: string)
    requires status == 3 || (status == 4 && (body != "" ==> body[0] != '/'))
    requires !HasCloser(body)
    ensures Output(status, body) == "" && Final(status, body) in {3, 4}
    decreases |body|
  {
    if body != "" {
      var r := Turn(status, body[0]);
      assert !HasCloser(body[1..]) by {
        forall i | 0 <= i < |body[1..]| - 1 && body[1..][i] == '*' ensures body[1..][i + 1] != '/' {
          assert body[i + 1] == '*' && body[i + 2] == body[1..][i + 1];
        }
      }
      if |body| > 1 && r.0 == 4 { assert body[0] == '*' && body[0 + 1] != '/'; }
      InBlock(r.0, body[1..]);
    }
  }

  lemma LineRun(body: string)
    requires '\n' !in body
    ensures Output(0, "//" + (body + "\n")) == "\n" && Final(0, "//" + (body + "\n")) == 0
  {
    OpenLine();
    InLine(body);
    OutputConcat(2, body, "\n");
    OutputConcat(0, "//", body + "\n");
    assert Output(2, "\n") == "\n" + Output(0, "") && Final(2, "\n") == 0;
  }

  lemma BlockRun(body: string)
    requires !HasCloser(body)
    ensures Output(0, "/*" + (body + "*/")) == "" && Final(0, "/*" + (body + "*/")) == 0
  {
    OpenBlock();
    InBlock(3, body);
    CloseBlock(Final(3, body));
    OutputConcat(3, body, "*/");
    OutputConcat(0, "/*", body + "*/");
  }

  lemma SlashRun(c: char)
    requires c != '/' && c != '*'
    ensures Output(0, ['/', c]) == ['/', c] && Final(0, ['/', c]) == 0
  {
    assert ['/', c][1..] == [c] && [c][1..] == "";
    assert Output(1, [c]) == ['/', c] + Output(0, "") && Final(1, [c]) == 0;
  }

  lemma TokenRun(t: Token)
    requires WellFormed(t)
    ensures Output(0, Print(t)) == Code(t) && Final(0, Print(t)) == 0
  {
    match t
    case Char(c) => assert Print(t)[1..] == "";
    case Slash(c) => SlashRun(c);
    case Line(body) =>
      LineRun(body);
      assert "//" + (body + "\n") == Print(t);
    case Block(body) =>
      BlockRun(body);
      assert "/*" + (body + "*/") == Print(t);
  }

  lemma OpenLine()
    ensures Output(0, "//") == "" && Final(0, "//") == 2
  {
    assert "//"[1..] == "/" && "/"[1..] == "";
  }

  lemma OpenBlock()
    ensures Output(0, "/*") == "" && Final(0, "/*") == 3
  {
    assert "/*"[1..] == "*" && "*"[1..] == "";
  }

  lemma CloseBlock(status: Status)
    requires status in {3, 4}
    ensures Output(status, "*/") == "" && Final(status, "*/") == 0
  {
    assert "*/"[1..] == "/" && "/"[1..] == "";
  }

  /** Running the automaton on the printed text of any token sequence yields exactly the code
      of the tokens. */
  lemma {:induction false} TokensRun(ts: seq<Token>)
    requires forall i :: 0 <= i < |ts| ==> WellFormed(ts[i])
    ensures Strip(PrintAll(ts)) == CodeAll(ts) && Final(0, PrintAll(ts)) == 0
    decreases |ts|
  {
    if ts != [] {
      TokenRun(ts[0]);
      OutputConcat(0, Print(ts[0]), PrintAll(ts[1..]));
      TokensRun(ts[1..]);
    }
  }

  // ----- every text -----

  /** What can be left over at the end of a text: nothing, a slash, or a comment that is not
      closed. */
  datatype Tail = Done | OpenSlash | OpenLineComment(body: string) | OpenBlockComment(body: string)

  function PrintTail(t: Tail): string {
    match t
    case Done => ""
    case OpenSlash => "/"
    case OpenLineComment(body) => "//" + body
    case OpenBlockComment(body) => "/*" + body
  }

  predicate WellFormedTail(t: Tail) {
    match t
    case OpenLineComment(body) => '\n' !in body
    case OpenBlockComment(body) => !HasCloser(body)
    case _ => true
  }

  lemma TailRun(t: Tail)
    requires WellFormedTail(t)
    ensures Strip(PrintTail(t)) == ""
  {
    match t
    case Done =>
    case OpenSlash => assert "/"[1..] == "";
    case OpenLineComment(body) => OpenLine(); InLine(body); OutputConcat(0, "//", body);
    case OpenBlockComment(body) => OpenBlock(); InBlock(3, body); OutputConcat(0, "/*", body);
  }

  /** The first newline from `i` on, or the length of the text; likewise the first closing pair. */
  function FindNewline(s: string, i: nat): (k: nat)
    requires i <= |s|
    ensures i <= k <= |s| && '\n' !in s[i..k] && (k < |s| ==> s[k] == '\n')
    decreases |s| - i
  {
    if i == |s| || s[i] == '\n' then i
    else
      var k := FindNewline(s, i + 1);
      assert s[i..k] == [s[i]] + s[i + 1..k];
      k
  }

  function FindCloser(s: string, i: nat): (k: nat)
    requires i <= |s|
    ensures i <= k <= |s| && !HasCloser(s[i..k]) && (k < |s| ==> k + 1 < |s| && s[k] == '*' && s[k + 1] == '/')
    decreases |s| - i
  {
    if i == |s| then i
    else if i + 1 < |s| && s[i] == '*' && s[i + 1] == '/' then i
    else
      var k := FindCloser(s, i + 1);
      assert !HasCloser(s[i..k]) by {
        forall j | 0 <= j < k - i - 1 && s[i..k][j] == '*' ensures s[i..k][j + 1] != '/' {
          if j > 0 { assert s[i + 1..k][j - 1] == s[i..k][j] && s[i + 1..k][j] == s[i..k][j + 1]; }
        }
      }
      k
  }

  /** Cuts a text into tokens and what is left over. */
  function Lex(s: string): (seq<Token>, Tail)
    decreases |s|
  {
    if s == "" then ([], Done)
    else if s[0] != '/' then
      var r := Lex(s[1..]);
      ([Char(s[0])] + r.0, r.1)
    else if |s| == 1 then ([], OpenSlash)
    else if s[1] == '/' then
      var k := FindNewline(s, 2);
      if k == |s| then ([], OpenLineComment(s[2..]))
      else
        var r := Lex(s[k + 1..]);
        ([Line(s[2..k])] + r.0, r.1)
    else if s[1] == '*' then
      var k := FindCloser(s, 2);
      if k == |s| then ([], OpenBlockComment(s[2..]))
      else
        var r := Lex(s[k + 2..]);
        ([Block(s[2..k])] + r.0, r.1)
    else
      var r := Lex(s[2..]);
      ([Slash(s[1])] + r.0, r.1)
  }

  ghost predicate LexOk(s: string) {
    && (forall i :: 0 <= i < |Lex(s).0| ==> WellFormed(Lex(s).0[i]))
    && WellFormedTail(Lex(s).1) && PrintAll(Lex(s).0) + PrintTail(Lex(s).1) == s
  }

  lemma LexStep(s: string, t: Token, rest: string)
    requires s == Print(t) + rest && WellFormed(t) && Lex(s) == ([t] + Lex(rest).0, Lex(rest).1) && LexOk(rest)
    ensures LexOk(s)
  {
    hide WellFormed, Print, Lex, PrintTail;
    var ts := Lex(rest).0;
    assert ([t] + ts)[1..] == ts;
    assert (Print(t) + PrintAll(ts)) + PrintTail(Lex(rest).1) == Print(t) + (PrintAll(ts) + PrintTail(Lex(rest).1));
  }

  lemma Cut(s: string, b: nat, c: nat)
    requires 2 <= b <= c <= |s|
    ensures s == (s[..2] + s[2..b] + s[b..c]) + s[c..]
  {
    assert s[..2] + s[2..b] == s[..b] && s[..b] + s[b..c] == s[..c] && s[..c] + s[c..] == s;
  }

  lemma Slices(s: string, k: nat)
    requires k < |s|
    ensures s[k..k + 1] == [s[k]]
    ensures k + 1 < |s| ==> s[k..k + 2] == [s[k], s[k + 1]]
  {
  }

  lemma Opening(s: string)
    requires |s| > 1
    ensures s[..2] == [s[0], s[1]] && s == [s[0], s[1]] + s[2..]
  {
  }

  lemma OpenLineOk(s: string)
    requires |s| > 1 && s[0] == '/' && s[1] == '/' && FindNewline(s, 2) == |s|
    ensures LexOk(s)
  {
    assert s[2..|s|] == s[2..];
    assert Lex(s) == ([], OpenLineComment(s[2..]));
    hide FindNewline, HasCloser, Lex;
    Opening(s);
    assert "" + s == s;
  }

  lemma LexLineUnfolds(s: string)
    requires |s| > 1 && s[0] == '/' && s[1] == '/' && FindNewline(s, 2) < |s|
    ensures var k := FindNewline(s, 2); WellFormed(Line(s[2..k])) && Lex(s) == ([Line(s[2..k])] + Lex(s[k + 1..]).0, Lex(s[k + 1..]).1)
  {
    hide FindNewline, HasCloser;
  }

  lemma LexLine(s: string)
    requires |s| > 1 && s[0] == '/' && s[1] == '/'
    requires var k := FindNewline(s, 2); k < |s| ==> LexOk(s[k + 1..])
    ensures LexOk(s)
  {
    hide LexOk, FindNewline, HasCloser, Lex, WellFormed;
    var k := FindNewline(s, 2);
    if k == |s| {
      OpenLineOk(s);
    } else {
      LexLineUnfolds(s);
      Cut(s, k, k + 1);
      Opening(s);
      Slices(s, k);
      LexStep(s, Line(s[2..k]), s[k + 1..]);
    }
  }

  lemma OpenBlockOk(s: string)
    requires |s| > 1 && s[0] == '/' && s[1] == '*' && FindCloser(s, 2) == |s|
    ensures LexOk(s)
  {
    assert s[2..|s|] == s[2..];
    assert Lex(s) == ([], OpenBlockComment(s[2..]));
    hide FindCloser, HasCloser, Lex;
    Opening(s);
    assert "" + s == s;
  }

  lemma LexBlockUnfolds(s: string)
    requires |s| > 1 && s[0] == '/' && s[1] == '*' && FindCloser(s, 2) < |s|
    ensures var k := FindCloser(s, 2); WellFormed(Block(s[2..k])) && Lex(s) == ([Block(s[2..k])] + Lex(s[k + 2..]).0, Lex(s[k + 2..]).1)
  {
    hide FindCloser, HasCloser;
  }

  lemma LexBlock(s: string)
    requires |s| > 1 && s[0] == '/' && s[1] == '*'
    requires var k := FindCloser(s, 2); k < |s| ==> LexOk(s[k + 2..])
    ensures LexOk(s)
  {
    hide LexOk, FindCloser, HasCloser, Lex, WellFormed;
    var k := FindCloser(s, 2);
    if k == |s| {
      OpenBlockOk(s);
    } else {
      LexBlockUnfolds(s);
      Cut(s, k, k + 2);
      Opening(s);
      Slices(s, k);
      LexStep(s, Block(s[2..k]), s[k + 2..]);
    }
  }

  lemma LexShort(s: string)
    requires s == "" || s == "/"
    ensures LexOk(s)
  {
  }

  lemma LexChar(s: string)
    requires s != "" && s[0] != '/' && LexOk(s[1..])
    ensures LexOk(s)
  {
    hide LexOk;
    assert Lex(s) == ([Char(s[0])] + Lex(s[1..]).0, Lex(s[1..]).1);
    hide Lex;
    assert s == [s[0]] + s[1..];
    LexStep(s, Char(s[0]), s[1..]);
  }

  lemma LexSlash(s: string)
    requires |s| > 1 && s[0] == '/' && s[1] != '/' && s[1] != '*' && LexOk(s[2..])
    ensures LexOk(s)
  {
    hide LexOk;
    assert Lex(s) == ([Slash(s[1])] + Lex(s[2..]).0, Lex(s[2..]).1);
    hide Lex;
    Opening(s);
    LexStep(s, Slash(s[1]), s[2..]);
  }

  /** Every text is the print of its tokens and its tail, all well formed. */
  lemma {:induction false} LexPrints(s: string)
    ensures LexOk(s)
    decreases |s|
  {
    hide LexOk, FindNewline, FindCloser, HasCloser;
    if s == "" || s == "/" {
      LexShort(s);
    } else if s[0] != '/' {
      LexPrints(s[1..]);
      LexChar(s);
    } else if s[1] == '/' {
      var k := FindNewline(s, 2);
      if k < |s| { LexPrints(s[k + 1..]); }
      LexLine(s);
    } else if s[1] == '*' {
      var k := FindCloser(s, 2);
      if k < |s| { LexPrints(s[k + 2..]); }
      LexBlock(s);
    } else {
      LexPrints(s[2..]);
      LexSlash(s);
    }
  }

  /** On every input the automaton writes exactly the code of the tokens; what is left over at
      the end, be it a slash or an open comment, is dropped. */
  lemma StripIsCode(s: string)
    ensures Strip(s) == CodeAll(Lex(s).0)
  {
    var (ts, tail) := Lex(s);
    LexPrints(s);
    TokensRun(ts);
    TailRun(tail);
    OutputConcat(0, PrintAll(ts), PrintTail(tail));
    assert CodeAll(ts) + "" == CodeAll(ts);
  }

  // ----- the output holds no comment -----

  /** Every slash is followed by a character that opens no comment. */
  predicate Clean(s: string) {
    forall i :: 0 <= i < |s| && s[i] == '/' ==> i + 1 < |s| && s[i + 1] != '/' && s[i + 1] != '*'
  }

  lemma {:induction false} CodeClean(ts: seq<Token>)
    requires forall i :: 0 <= i < |ts| ==> WellFormed(ts[i])
    ensures Clean(CodeAll(ts))
    decreases |ts|
  {
    if ts != [] {
      assert WellFormed(ts[0]);
      CodeClean(ts[1..]);
    }
  }

  /** A text without comments goes through unchanged. */
  lemma {:induction false} CleanUnchanged(s: string)
    requires Clean(s)
    ensures Strip(s) == s
    decreases |s|
  {
    if s != "" {
      if s[0] != '/' {
        assert Clean(s[1..]) by { SuffixClean(s, 1); }
        CleanUnchanged(s[1..]);
        assert s == [s[0]] + s[1..];
      } else {
        SuffixClean(s, 2);
        CleanUnchanged(s[2..]);
        assert s[1..][1..] == s[2..] && s[1..][0] == s[1];
        assert Output(0, s) == "" + Output(1, s[1..]);
        assert Output(1, s[1..]) == ['/', s[1]] + Output(0, s[2..]);
        assert s == ['/', s[1]] + s[2..];
      }
    }
  }

  lemma SuffixClean(s: string, k: nat)
    requires Clean(s) && k <= |s|
    ensures Clean(s[k..])
  {
    forall i | 0 <= i < |s[k..]| && s[k..][i] == '/'
      ensures i + 1 < |s[k..]| && s[k..][i + 1] != '/' && s[k..][i + 1] != '*'
    {
      assert s[k + i] == '/' && s[k + i + 1] == s[k + (i + 1)];
    }
  }

  /** Comment removal never leaves a comment opener or a final slash, and doing it twice is
      doing it once. */
  lemma StripIdempotent(s: string)
    ensures Clean(Strip(s)) && Strip(Strip(s)) == Strip(s)
  {
    StripIsCode(s);
    LexPrints(s);
    CodeClean(Lex(s).0);
    CleanUnchanged(Strip(s));
  }

  // ----- the grammar is unambiguous -----

  lemma NoNewlineIn(s: string, a: nat, b: nat)
    requires a <= b <= |s| && '\n' !in s[a..b]
    ensures forall i :: a <= i < b ==> s[i] != '\n'
  {
    forall i | a <= i < b ensures s[i] != '\n' {
      assert s[a..b][i - a] == s[i];
    }
  }

  lemma NoCloserIn(s: string, a: nat, b: nat)
    requires a <= b <= |s| && !HasCloser(s[a..b])
    ensures forall i :: a <= i < b - 1 && s[i] == '*' ==> s[i + 1] != '/'
  {
    forall i | a <= i < b - 1 && s[i] == '*' ensures s[i + 1] != '/' {
      assert s[a..b][i - a] == s[i] && s[a..b][i - a + 1] == s[i + 1];
    }
  }

  lemma FirstNewline(s: string, k: nat)
    requires 2 <= k < |s| && s[k] == '\n' && '\n' !in s[2..k]
    ensures FindNewline(s, 2) == k
  {
    NoNewlineIn(s, 2, k);
    NoNewlineIn(s, 2, FindNewline(s, 2));
  }

  lemma FirstCloser(s: string, k: nat)
    requires 2 <= k && k + 1 < |s| && s[k] == '*' && s[k + 1] == '/' && !HasCloser(s[2..k])
    ensures FindCloser(s, 2) == k
  {
    NoCloserIn(s, 2, k);
    NoCloserIn(s, 2, FindCloser(s, 2));
  }

  lemma LexOfToken(t: Token, rest: string)
    requires WellFormed(t)
    ensures Lex(Print(t) + rest) == ([t] + Lex(rest).0, Lex(rest).1)
  {
    var s := Print(t) + rest;
    match t {
      case Char(c) => assert s[1..] == rest;
      case Slash(c) => assert s[2..] == rest;
      case Line(body) =>
        var k := 2 + |body|;
        assert s[2..k] == body && s[k] == '\n' && s[k + 1..] == rest;
        FirstNewline(s, k);
        LexLineUnfolds(s);
      case Block(body) =>
        var k := 2 + |body|;
        assert s[2..k] == body && s[k] == '*' && s[k + 1] == '/' && s[k + 2..] == rest;
        FirstCloser(s, k);
        LexBlockUnfolds(s);
    }
  }

  lemma LexOfTail(t: Tail)
    requires WellFormedTail(t)
    ensures Lex(PrintTail(t)) == ([], t)
  {
    var s := PrintTail(t);
    match t {
      case Done =>
      case OpenSlash =>
      case OpenLineComment(body) =>
        assert s[2..] == body;
        assert forall i :: 2 <= i < |s| ==> s[i] == body[i - 2];
      case OpenBlockComment(body) =>
        assert s[2..] == body;
        assert s[2..|s|] == body;
        NoCloserIn(s, 2, |s|);
    }
  }

  /** Cutting a printed token sequence gives the sequence back: there is only one way to read
      a text. */
  lemma {:induction false} LexOfPrint(ts: seq<Token>, tail: Tail)
    requires (forall i :: 0 <= i < |ts| ==> WellFormed(ts[i])) && WellFormedTail(tail)
    ensures Lex(PrintAll(ts) + PrintTail(tail)) == (ts, tail)
    decreases |ts|
  {
    hide Lex, Print, PrintTail, WellFormed, WellFormedTail;
    if ts == [] {
      assert PrintAll(ts) + PrintTail(tail) == PrintTail(tail);
      LexOfTail(tail);
    } else {
      LexOfPrint(ts[1..], tail);
      LexOfToken(ts[0], PrintAll(ts[1..]) + PrintTail(tail));
      Regroup(Print(ts[0]), PrintAll(ts[1..]), PrintTail(tail));
      assert [ts[0]] + ts[1..] == ts;
    }
  }

  lemma Regroup(a: string, b: string, c: string)
    ensures (a + b) + c == a + (b + c)
  {
  }
}
