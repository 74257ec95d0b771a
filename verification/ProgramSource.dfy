/** clCreateProgramWithSource: the two-pass assembly of the source strings, and the loop that
    removes comments from one buffer into another. */
module ProgramSource {
  import opened RefCounts
  import opened Comments

  /** The fixed size of the automaton's input buffer. */
  const SOURCE_COPY_SIZE := 65536

  /** Length of the C string at the start of a buffer. */
  function Strlen(buf: string): (n: nat)
    requires NUL in buf
    ensures n < |buf| && buf[n] == NUL && NUL !in buf[..n]
  {
    if buf[0] == NUL then 0
    else
      var n := Strlen(buf[1..]);
      assert buf[..n + 1] == [buf[0]] + buf[1..][..n];
      n + 1
  }

  /** The text before the first zero byte. */
  function CString(s: string): string {
    if s == "" || s[0] == NUL then "" else [s[0]] + CString(s[1..])
  }

  /** What the caller must pass: a length is within its buffer, and a buffer without a length
      holds a zero byte. */
  predicate Readable(buf: string, length: nat) {
    if length == 0 then NUL in buf else length <= |buf|
  }

  /** The part of one source string that is used. */
  function Piece(buf: string, length: nat): string
    requires Readable(buf, length)
  {
    if length == 0 then buf[..Strlen(buf)] else buf[..length]
  }

  function LengthAt(lengths: Option<seq<nat>>, i: nat): nat {
    if lengths.Some? && i < |lengths.value| then lengths.value[i] else 0
  }

  ghost predicate AllReadable(strings: seq<Option<string>>, lengths: Option<seq<nat>>) {
    forall i {:trigger strings[i]} :: 0 <= i < |strings| && strings[i].Some? ==> Readable(strings[i].value, LengthAt(lengths, i))
  }

  /** The concatenation of the first `n` pieces. */
  ghost function Concat(strings: seq<Option<string>>, lengths: Option<seq<nat>>, n: nat): string
    requires n <= |strings| && AllReadable(strings, lengths) && forall i :: 0 <= i < n ==> strings[i].Some?
  {
    if n == 0 then "" else Concat(strings, lengths, n - 1) + Piece(strings[n - 1].value, LengthAt(lengths, n - 1))
  }

  // ----- what the assembled text is -----

  /** The text up to the first zero byte, or all of it. */
  predicate IsCString(text: string, s: string) {
    text <= s && NUL !in text && (|text| < |s| ==> s[|text|] == NUL)
  }

  /** What is used of the i-th string: as many characters as its length says when one is given that is
      not zero, otherwise those before its zero byte. */
  predicate UsedPart(part: string, buf: string, lengths: Option<seq<nat>>, i: nat) {
    if lengths.Some? && i < |lengths.value| && lengths.value[i] != 0 then part <= buf && |part| == lengths.value[i]
    else IsCString(part, buf) && |part| < |buf|
  }

  /** From the i-th cut to the next the text is the used part of the i-th string. */
  predicate PartAt(strings: seq<Option<string>>, lengths: Option<seq<nat>>, whole: string, starts: seq<nat>, i: nat)
    requires i < |strings| && |starts| == |strings| + 1
  {
    starts[i] <= starts[i + 1] <= |whole| && strings[i].Some?
    && UsedPart(whole[starts[i]..starts[i + 1]], strings[i].value, lengths, i)
  }

  /** Cut at `starts`, the text is the used parts of the strings one behind the other. */
  ghost predicate AssemblesAt(strings: seq<Option<string>>, lengths: Option<seq<nat>>, whole: string, starts: seq<nat>) {
    |starts| == |strings| + 1 && starts[0] == 0 && starts[|strings|] == |whole|
    && forall i :: 0 <= i < |strings| ==> PartAt(strings, lengths, whole, starts, i)
  }

  ghost predicate Assembles(strings: seq<Option<string>>, lengths: Option<seq<nat>>, whole: string) {
    exists starts :: AssemblesAt(strings, lengths, whole, starts)
  }

  lemma {:induction false} CStringIs(s: string)
    ensures IsCString(CString(s), s)
    decreases |s|
  {
    if s != "" && s[0] != NUL {
      CStringIs(s[1..]);
      assert CString(s)[1..] == CString(s[1..]);
    }
  }

  lemma EndsFirst(a: string, b: string, s: string)
    requires IsCString(a, s) && b <= s && NUL !in b
    ensures |b| <= |a|
  {
    assert forall i :: 0 <= i < |b| ==> b[i] == s[i] && b[i] in b;
  }

  lemma OneCString(a: string, b: string, s: string)
    requires IsCString(a, s) && IsCString(b, s)
    ensures a == b
  {
    EndsFirst(a, b, s);
    EndsFirst(b, a, s);
  }

  lemma PieceIsUsed(buf: string, lengths: Option<seq<nat>>, i: nat)
    requires Readable(buf, LengthAt(lengths, i))
    ensures UsedPart(Piece(buf, LengthAt(lengths, i)), buf, lengths, i)
  {
  }

  lemma {:induction false} ConcatPrefix(strings: seq<Option<string>>, lengths: Option<seq<nat>>, i: nat, n: nat)
    requires i <= n <= |strings| && AllReadable(strings, lengths) && forall i :: 0 <= i < |strings| ==> strings[i].Some?
    ensures Concat(strings, lengths, i) <= Concat(strings, lengths, n)
    decreases n - i
  {
    hide Piece, AllReadable;
    if i < n {
      ConcatPrefix(strings, lengths, i, n - 1);
      ConcatNext(strings, lengths, n - 1);
      PrefixGrows(Concat(strings, lengths, i), Concat(strings, lengths, n - 1), Concat(strings, lengths, n));
    }
  }

  lemma PrefixGrows(a: string, b: string, c: string)
    requires a <= b <= c
    ensures a <= c
  {
  }

  /** Where the pieces start. */
  ghost function Cuts(strings: seq<Option<string>>, lengths: Option<seq<nat>>): (starts: seq<nat>)
    requires AllReadable(strings, lengths) && forall i :: 0 <= i < |strings| ==> strings[i].Some?
    ensures |starts| == |strings| + 1 && forall i :: 0 <= i <= |strings| ==> starts[i] == |Concat(strings, lengths, i)|
  {
    seq(|strings| + 1, i requires 0 <= i <= |strings| => |Concat(strings, lengths, i)|)
  }

  /** The concatenation is that text. */
  lemma ConcatAssembles(strings: seq<Option<string>>, lengths: Option<seq<nat>>)
    requires AllReadable(strings, lengths) && forall i :: 0 <= i < |strings| ==> strings[i].Some?
    ensures Assembles(strings, lengths, Concat(strings, lengths, |strings|))
  {
    hide Concat, UsedPart, AllReadable;
    var whole, starts := Concat(strings, lengths, |strings|), Cuts(strings, lengths);
    ConcatNone(strings, lengths);
    forall i | 0 <= i < |strings| ensures PartAt(strings, lengths, whole, starts, i) {
      PieceStands(strings, lengths, i);
      assert starts[i] == |Concat(strings, lengths, i)| && starts[i + 1] == |Concat(strings, lengths, i + 1)|;
    }
    assert AssemblesAt(strings, lengths, whole, starts);
  }

  /** The i-th piece stands behind the first `i` ones. */
  lemma PieceStands(strings: seq<Option<string>>, lengths: Option<seq<nat>>, i: nat)
    requires AllReadable(strings, lengths) && (forall i :: 0 <= i < |strings| ==> strings[i].Some?) && i < |strings|
    ensures var whole, from, to := Concat(strings, lengths, |strings|), |Concat(strings, lengths, i)|, |Concat(strings, lengths, i + 1)|;
      from <= to <= |whole| && UsedPart(whole[from..to], strings[i].value, lengths, i)
  {
    var piece := Piece(strings[i].value, LengthAt(lengths, i));
    PieceIsUsed(strings[i].value, lengths, i);
    hide Concat, UsedPart, Piece;
    ConcatPrefix(strings, lengths, i + 1, |strings|);
    ConcatNext(strings, lengths, i);
    CutOut(Concat(strings, lengths, |strings|), Concat(strings, lengths, i), piece);
  }

  lemma CutOut(whole: string, before: string, part: string)
    requires before + part <= whole
    ensures |before + part| <= |whole| && whole[|before|..|before + part|] == part
  {
    assert whole[..|before + part|] == before + part;
  }

  lemma OnePart(a: string, b: string, buf: string, lengths: Option<seq<nat>>, i: nat)
    requires UsedPart(a, buf, lengths, i) && UsedPart(b, buf, lengths, i)
    ensures a == b
  {
    if lengths.Some? && i < |lengths.value| && lengths.value[i] != 0 {
    } else {
      OneCString(a, b, buf);
    }
  }

  lemma {:induction false} SameCuts(strings: seq<Option<string>>, lengths: Option<seq<nat>>, a: string, b: string, s: seq<nat>, t: seq<nat>, n: nat)
    requires AssemblesAt(strings, lengths, a, s) && AssemblesAt(strings, lengths, b, t) && n <= |strings|
    ensures s[n] == t[n] && s[n] <= |a| && t[n] <= |b| && a[..s[n]] == b[..t[n]]
  {
    hide UsedPart;
    if n > 0 {
      SameCuts(strings, lengths, a, b, s, t, n - 1);
      assert PartAt(strings, lengths, a, s, n - 1) && PartAt(strings, lengths, b, t, n - 1);
      OnePart(a[s[n - 1]..s[n]], b[t[n - 1]..t[n]], strings[n - 1].value, lengths, n - 1);
      assert a[..s[n]] == a[..s[n - 1]] + a[s[n - 1]..s[n]] && b[..t[n]] == b[..t[n - 1]] + b[t[n - 1]..t[n]];
    }
  }

  /** There is only one such text. */
  lemma OneAssembly(strings: seq<Option<string>>, lengths: Option<seq<nat>>, a: string, b: string)
    requires Assembles(strings, lengths, a) && Assembles(strings, lengths, b)
    ensures a == b
  {
    var s :| AssemblesAt(strings, lengths, a, s);
    var t :| AssemblesAt(strings, lengths, b, t);
    SameCuts(strings, lengths, a, b, s, t, |strings|);
    assert a[..|a|] == a && b[..|b|] == b;
  }

  // ----- the two passes -----

  /** First pass: the total size; a missing string is an error. */
  method TotalSize(strings: seq<Option<string>>, lengths: Option<seq<nat>>) returns (size: Option<nat>)
    requires AllReadable(strings, lengths)
    ensures size.Some? <==> forall i :: 0 <= i < |strings| ==> strings[i].Some?
    ensures size.Some? ==> size.value == |Concat(strings, lengths, |strings|)|
  {
    var total, i := 0, 0;
    while i < |strings|
      invariant 0 <= i <= |strings| && (forall j :: 0 <= j < i ==> strings[j].Some?)
      invariant total == |Concat(strings, lengths, i)|
    {
      if strings[i].None? { return None; }
      var length := LengthAt(lengths, i);
      if length == 0 { total := total + Strlen(strings[i].value); } else { total := total + length; }
      i := i + 1;
    }
    return Some(total);
  }

  lemma ConcatNone(strings: seq<Option<string>>, lengths: Option<seq<nat>>)
    requires AllReadable(strings, lengths)
    ensures Concat(strings, lengths, 0) == ""
  {
  }

  lemma ConcatNext(strings: seq<Option<string>>, lengths: Option<seq<nat>>, i: nat)
    requires i < |strings| && AllReadable(strings, lengths) && forall i :: 0 <= i < |strings| ==> strings[i].Some?
    ensures Concat(strings, lengths, i + 1) == Concat(strings, lengths, i) + Piece(strings[i].value, LengthAt(lengths, i))
  {
  }

  /** Second pass: copy the pieces one behind the other, and end with a zero byte. */
  method CopyPieces(strings: seq<Option<string>>, lengths: Option<seq<nat>>, size: nat) returns (source: array<char>)
    requires AllReadable(strings, lengths) && forall i :: 0 <= i < |strings| ==> strings[i].Some?
    requires size == |Concat(strings, lengths, |strings|)|
    ensures fresh(source) && source[..] == Concat(strings, lengths, |strings|) + [NUL]
  {
    hide Concat, Piece;
    source := new char[size + 1];
    ConcatNone(strings, lengths);
    var at, i := 0, 0;
    while i < |strings|
      invariant 0 <= i <= |strings| && at == |Concat(strings, lengths, i)| && at <= size
      invariant source[..at] == Concat(strings, lengths, i)
    {
      ConcatGrows(strings, lengths, i + 1);
      ConcatNext(strings, lengths, i);
      var piece := Piece(strings[i].value, LengthAt(lengths, i));
      CopyInto(source, at, piece);
      at := at + |piece|;
      i := i + 1;
    }
    source[at] := NUL;
    assert source[..] == source[..at] + [NUL];
  }

  lemma {:induction false} ConcatGrows(strings: seq<Option<string>>, lengths: Option<seq<nat>>, n: nat)
    requires n <= |strings| && AllReadable(strings, lengths) && forall i :: 0 <= i < |strings| ==> strings[i].Some?
    ensures |Concat(strings, lengths, n)| <= |Concat(strings, lengths, |strings|)|
    decreases |strings| - n
  {
    hide Piece, AllReadable;
    if n < |strings| {
      ConcatGrows(strings, lengths, n + 1);
      ConcatNext(strings, lengths, n);
    }
  }

  /** memcpy of one piece. */
  method CopyInto(a: array<char>, at: nat, piece: string)
    requires at + |piece| <= a.Length
    modifies a
    ensures a[..at] == old(a[..at]) && a[at..at + |piece|] == piece
    ensures a[..at + |piece|] == old(a[..at]) + piece
  {
    forall k | 0 <= k < |piece| { a[at + k] := piece[k]; }
    assert a[..at + |piece|] == a[..at] + a[at..at + |piece|];
  }

  /** One turn of the comment-removing loop: the branches of the switch. */
  method OneTurn(c: char, status0: Status, out: array<char>, j0: nat) returns (status: Status, j: nat)
    requires j0 + (if status0 == 1 then 2 else 1) <= out.Length
    modifies out
    ensures status == Turn(status0, c).0 && j == j0 + |Turn(status0, c).1| && j <= out.Length
    ensures out[..j] == old(out[..j0]) + Turn(status0, c).1
  {
    status, j := status0, j0;
    match status0 {
      case 0 =>
        if c == '/' {
          status := 1;
        } else {
          out[j] := c;
          j := j + 1;
        }
      case 1 =>
        if c == '/' {
          status := 2;
        } else if c == '*' {
          status := 3;
        } else {
          status := 0;
          out[j] := '/';
          out[j + 1] := c;
          j := j + 2;
        }
      case 2 =>
        if c == '\n' {
          out[j] := '\n';
          j := j + 1;
          status := 0;
        }
      case 3 =>
        if c == '*' { status := 4; }
      case 4 =>
        if c == '/' { status := 0; } else if c == '*' { status := 4; } else { status := 3; }
    }
  }

  /** The comment-removing loop over the zero-terminated copy of the text. The write index and a
      held-back slash never pass the read index, so an output buffer larger than the text
      suffices. */
  method RemoveComments(copy: array<char>, out: array<char>, ghost text: string) returns (j: nat)
    requires copy != out && Terminated(copy[..], text) && out.Length > |text|
    modifies out
    ensures j <= |text| && out[..j] == Strip(text) && out[j] == NUL
  {
    var i, status: Status := 0, 0;
    j := 0;
    assert text[0..] == text && [] + Strip(text) == Strip(text);
    while copy[i] != NUL
      invariant 0 <= i <= |text| && j + (if status == 1 then 1 else 0) <= i
      invariant out[..j] + Output(status, text[i..]) == Strip(text)
      invariant Terminated(copy[..], text)
      decreases |text| - i
    {
      TurnStep(status, text[i..], out[..j]);
      assert text[i..][0] == copy[i] && text[i..][1..] == text[i + 1..];
      status, j := OneTurn(copy[i], status, out, j);
      i := i + 1;
    }
    assert out[..j] + "" == out[..j] && text[i..] == "";
    out[j] := NUL;
  }

  /** The buffer holds the text followed by a zero byte. */
  predicate Terminated(buffer: string, text: string) {
    |text| < |buffer| && buffer[|text|] == NUL && forall i :: 0 <= i < |text| ==> buffer[i] == text[i] && text[i] != NUL
  }

  lemma TurnStep(status: Status, text: string, before: string)
    requires text != ""
    ensures var r := Turn(status, text[0]); before + Output(status, text) == (before + r.1) + Output(r.0, text[1..])
    ensures var r := Turn(status, text[0]); |r.1| + (if r.0 == 1 then 1 else 0) <= 1 + (if status == 1 then 1 else 0)
  {
    var r := Turn(status, text[0]);
    assert before + (r.1 + Output(r.0, text[1..])) == (before + r.1) + Output(r.0, text[1..]);
  }

  /** What the call comes to: an error, a source, or a copy that does not fit its array. */
  datatype Created = Failed | Source(text: string) | Overrun

  /** The source a program is created with is the assembled text up to its first zero byte, without
      comments. A text that with its zero byte is longer than the array on the stack overruns it. */
  method CreateSource(strings: seq<Option<string>>, lengths: Option<seq<nat>>) returns (r: Created)
    requires AllReadable(strings, lengths)
    ensures r.Failed? <==> strings == [] || exists i :: 0 <= i < |strings| && strings[i].None?
    ensures forall whole: string, text: string {:trigger Assembles(strings, lengths, whole), IsCString(text, whole)} ::
      !r.Failed? && Assembles(strings, lengths, whole) && IsCString(text, whole) ==>
      if |text| >= 65536 then r == Overrun else r == Source(Strip(text))
  {
    if |strings| == 0 { return Failed; }
    var size := TotalSize(strings, lengths);
    if size.None? { return Failed; }
    SourceIsUnique(strings, lengths);
    var source := CopyPieces(strings, lengths, size.value);
    var text := CString(source[..]);
    CStringOfTerminated(Concat(strings, lengths, |strings|));
    CStringHasNoNul(Concat(strings, lengths, |strings|));
    if |text| >= SOURCE_COPY_SIZE { return Overrun; }
    var copy := new char[SOURCE_COPY_SIZE];
    CopyInto(copy, 0, text + [NUL]);
    assert Terminated(copy[..], text) by { CopyTerminated(copy[..], text); }
    var out := new char[size.value + 1];
    var j := RemoveComments(copy, out, text);
    return Source(out[..j]);
  }

  lemma SourceIsUnique(strings: seq<Option<string>>, lengths: Option<seq<nat>>)
    requires AllReadable(strings, lengths) && forall i :: 0 <= i < |strings| ==> strings[i].Some?
    ensures forall whole: string, text: string {:trigger Assembles(strings, lengths, whole), IsCString(text, whole)} ::
      Assembles(strings, lengths, whole) && IsCString(text, whole) ==> text == CString(Concat(strings, lengths, |strings|))
  {
    ConcatAssembles(strings, lengths);
    var all := Concat(strings, lengths, |strings|);
    hide Assembles, IsCString, Concat;
    CStringIs(all);
    forall whole: string, text: string | Assembles(strings, lengths, whole) && IsCString(text, whole) ensures text == CString(all) {
      OneAssembly(strings, lengths, whole, all);
      OneCString(text, CString(all), all);
    }
  }

  lemma CopyTerminated(buffer: string, text: string)
    requires |text| < |buffer| && buffer[..|text| + 1] == text + [NUL] && NUL !in text
    ensures Terminated(buffer, text)
  {
    assert forall i :: 0 <= i <= |text| ==> buffer[i] == buffer[..|text| + 1][i];
  }

  lemma {:induction false} CStringOfTerminated(s: string)
    ensures CString(s + [NUL]) == CString(s)
    decreases |s|
  {
    if s != "" {
      assert (s + [NUL])[0] == s[0] && (s + [NUL])[1..] == s[1..] + [NUL];
      CStringOfTerminated(s[1..]);
    }
  }

  lemma {:induction false} CStringHasNoNul(s: string)
    ensures NUL !in CString(s) && |CString(s)| <= |s|
    decreases |s|
  {
    if s != "" && s[0] != NUL { CStringHasNoNul(s[1..]); }
  }
}
