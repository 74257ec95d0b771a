/** find_symbol_offset: the walk along the entries of a BRIG code section in search of a kernel. */
module Brig {

  type Byte = n: int | 0 <= n < 256

  const KERNEL := 0x1008  // BRIG_KIND_DIRECTIVE_KERNEL

  function U16(s: seq<Byte>, at: nat): nat
    requires at + 2 <= |s|
  {
    (s[at] as int) + 256 * (s[at + 1] as int)
  }

  function U32(s: seq<Byte>, at: nat): nat
    requires at + 4 <= |s|
  {
    U16(s, at) + 65536 * U16(s, at + 2)
  }

  /** Numbers are stored with the lowest byte first. */
  function Bytes16(n: nat): seq<Byte>
    requires n < 65536
  {
    [n % 256, n / 256]
  }

  function Bytes32(n: nat): seq<Byte>
    requires n < 65536 * 65536
  {
    Bytes16(n % 65536) + Bytes16(n / 65536)
  }

  /** A number is read as it was stored, wherever it stands. */
  lemma ReadsBack(n: nat, pre: seq<Byte>, post: seq<Byte>)
    requires n < 65536 * 65536
    ensures U32(pre + Bytes32(n) + post, |pre|) == n
    ensures n < 65536 ==> U16(pre + Bytes16(n) + post, |pre|) == n
  {
    var s := pre + Bytes32(n) + post;
    assert forall i :: 0 <= i < 4 ==> s[|pre| + i] == Bytes32(n)[i];
    if n < 65536 {
      var t := pre + Bytes16(n) + post;
      assert forall i :: 0 <= i < 2 ==> t[|pre| + i] == Bytes16(n)[i];
    }
  }

  // ----- the layout of a code section -----

  /** An entry starts with its byteCount and kind; a kernel directive goes on with the offset of
      its name, its outArgCount and its inArgCount. */
  predicate EntryAt(code: seq<Byte>, at: nat) {
    at + 4 <= |code| && U16(code, at) > 0 && at + U16(code, at) <= |code|
    && (U16(code, at + 2) == KERNEL ==> at + 12 <= |code|)
  }

  /** From `at` on the section consists of entries, one behind the other. */
  predicate Tiled(code: seq<Byte>, at: nat)
    decreases |code| - at
  {
    at == |code| || (EntryAt(code, at) && Tiled(code, at + U16(code, at)))
  }

  /** Where the entries from `at` on start. */
  function Starts(code: seq<Byte>, at: nat): seq<nat>
    requires Tiled(code, at)
    decreases |code| - at
  {
    if at == |code| then [] else [at] + Starts(code, at + U16(code, at))
  }

  predicate IsKernel(code: seq<Byte>, at: nat) {
    EntryAt(code, at) && U16(code, at + 2) == KERNEL
  }

  /** Where the name of a kernel starts in the data section, behind the length of the string. */
  function NameAt(code: seq<Byte>, at: nat): nat
    requires IsKernel(code, at)
  {
    U32(code, at + 4) + 4
  }

  /** strncmp finds no difference within the length of the symbol. */
  predicate HasPrefix(data: seq<Byte>, at: nat, symbol: seq<Byte>) {
    at + |symbol| <= |data| && forall i :: 0 <= i < |symbol| ==> data[at + i] == symbol[i]
  }

  /** strncmp stops inside the data section: at a difference or at the end of the symbol. */
  predicate Comparable(data: seq<Byte>, at: nat, symbol: seq<Byte>) {
    at + |symbol| <= |data| || exists i :: 0 <= i < |symbol| && at + i < |data| && data[at + i] != symbol[i]
  }

  predicate NamesReadable(code: seq<Byte>, header: nat, data: seq<Byte>, symbol: seq<Byte>)
    requires Tiled(code, header)
  {
    forall at :: at in Starts(code, header) && IsKernel(code, at) ==> Comparable(data, NameAt(code, at), symbol)
  }

  predicate Matches(code: seq<Byte>, at: nat, data: seq<Byte>, symbol: seq<Byte>) {
    IsKernel(code, at) && HasPrefix(data, NameAt(code, at), symbol)
  }

  datatype Found = Success(offset: nat, numArgs: nat) | NotFound

  /** The i-th of the entries at `starts` is the first that matches, and `r` describes it. */
  predicate FirstAt(code: seq<Byte>, starts: seq<nat>, data: seq<Byte>, symbol: seq<Byte>, r: Found, i: nat) {
    i < |starts| && Matches(code, starts[i], data, symbol) && r == Success(starts[i], U16(code, starts[i] + 10))
    && forall j :: 0 <= j < i ==> !Matches(code, starts[j], data, symbol)
  }

  ghost predicate FirstMatch(code: seq<Byte>, starts: seq<nat>, data: seq<Byte>, symbol: seq<Byte>, r: Found) {
    if r.NotFound? then forall j :: 0 <= j < |starts| ==> !Matches(code, starts[j], data, symbol)
    else exists i :: FirstAt(code, starts, data, symbol, r, i)
  }

  // ----- the walk -----

  /** strncmp over the length of the symbol; it never reads beyond the data section. */
  method Compare(data: seq<Byte>, at: nat, symbol: seq<Byte>) returns (same: bool)
    requires Comparable(data, at, symbol)
    ensures same <==> HasPrefix(data, at, symbol)
  {
    for i := 0 to |symbol|
      invariant at + i <= |data| && forall j :: 0 <= j < i ==> data[at + j] == symbol[j]
    {
      if data[at + i] != symbol[i] { return false; }
    }
    return true;
  }

  lemma StartsUnfold(code: seq<Byte>, header: nat, visited: seq<nat>, at: nat)
    requires Tiled(code, header) && Tiled(code, at) && at != |code| && Starts(code, header) == visited + Starts(code, at)
    ensures EntryAt(code, at) && Tiled(code, at + U16(code, at))
    ensures Starts(code, header) == visited + [at] + Starts(code, at + U16(code, at))
    ensures at in Starts(code, header)
  {
    var next := Starts(code, at + U16(code, at));
    assert visited + ([at] + next) == visited + [at] + next;
    assert (visited + [at] + next)[|visited|] == at;
  }

  /** The loop visits exactly the entry boundaries, in order, and stops at the first match. */
  method FindSymbolOffset(code: seq<Byte>, header: nat, data: seq<Byte>, symbol: seq<Byte>) returns (r: Found, ghost visited: seq<nat>)
    requires Tiled(code, header) && NamesReadable(code, header, data, symbol)
    ensures FirstMatch(code, Starts(code, header), data, symbol, r)
    ensures visited <= Starts(code, header)
    ensures r.NotFound? ==> visited == Starts(code, header)
    ensures r.Success? ==> visited != [] && visited[|visited| - 1] == r.offset
  {
    hide Comparable, HasPrefix, Starts, Tiled;
    var at := header;
    visited := [];
    ghost var all := Starts(code, header);
    while at != |code|
      invariant Tiled(code, at) && all == visited + Starts(code, at)
      invariant forall j :: 0 <= j < |visited| ==> !Matches(code, visited[j], data, symbol)
      decreases |code| - at
    {
      StartsUnfold(code, header, visited, at);
      ghost var i := |visited|;
      assert forall j :: 0 <= j < i ==> all[j] == visited[j];
      visited := visited + [at];
      assert all[i] == at;
      if U16(code, at + 2) == KERNEL {
        var same := Compare(data, U32(code, at + 4) + 4, symbol);
        if same {
          r := Success(at, U16(code, at + 10));
          assert FirstAt(code, all, data, symbol, r, i);
          return;
        }
      }
      assert !Matches(code, at, data, symbol);
      at := at + U16(code, at);
    }
    StartsEnd(code);
    assert visited + [] == visited;
    r := NotFound;
  }

  lemma StartsEnd(code: seq<Byte>)
    ensures Tiled(code, |code|) && Starts(code, |code|) == []
  {
  }

  /** The outcome is determined. */
  lemma FirstMatchUnique(code: seq<Byte>, starts: seq<nat>, data: seq<Byte>, symbol: seq<Byte>, r: Found, r': Found)
    requires FirstMatch(code, starts, data, symbol, r) && FirstMatch(code, starts, data, symbol, r')
    ensures r == r'
  {
    hide Matches;
    if r.Success? && r'.Success? {
      var i :| FirstAt(code, starts, data, symbol, r, i);
      var j :| FirstAt(code, starts, data, symbol, r', j);
      assert i == j;
    }
  }

  // ----- assembling a section from its entries -----

  /** One entry as bytes: its length is what its first field says. */
  predicate WellFormed(e: seq<Byte>) {
    |e| >= 4 && U16(e, 0) == |e| && (U16(e, 2) == KERNEL ==> |e| >= 12)
  }

  function Flatten(es: seq<seq<Byte>>): seq<Byte> {
    if es == [] then [] else es[0] + Flatten(es[1..])
  }

  /** The start of each entry behind a header of `at` bytes. */
  function Offsets(es: seq<seq<Byte>>, at: nat): seq<nat> {
    if es == [] then [] else [at] + Offsets(es[1..], at + |es[0]|)
  }

  lemma EntryReads(pre: seq<Byte>, e: seq<Byte>, post: seq<Byte>)
    requires WellFormed(e)
    ensures var code := pre + e + post; EntryAt(code, |pre|) && U16(code, |pre|) == |e|
  {
    var code := pre + e + post;
    assert code[|pre|] == e[0] && code[|pre| + 1] == e[1] && code[|pre| + 2] == e[2] && code[|pre| + 3] == e[3];
  }

  lemma Regroup(a: seq<Byte>, b: seq<Byte>, c: seq<Byte>)
    ensures a + (b + c) == a + b + c
  {
  }

  /** Every section made of well-formed entries is tiled, and its boundaries are the entries'. */
  lemma {:induction false} AssembledIsTiled(pre: seq<Byte>, es: seq<seq<Byte>>)
    requires forall i :: 0 <= i < |es| ==> WellFormed(es[i])
    ensures Tiled(pre + Flatten(es), |pre|) && Starts(pre + Flatten(es), |pre|) == Offsets(es, |pre|)
    decreases |es|
  {
    hide EntryAt, WellFormed, Tiled, Starts, U16;
    var code := pre + Flatten(es);
    if es == [] {
      assert code == pre;
      StartsEnd(code);
    } else {
      EntryReads(pre, es[0], Flatten(es[1..]));
      Regroup(pre, es[0], Flatten(es[1..]));
      AssembledIsTiled(pre + es[0], es[1..]);
      TiledStep(code, |pre|, |es[0]|);
    }
  }

  lemma TiledStep(code: seq<Byte>, at: nat, n: nat)
    requires EntryAt(code, at) && U16(code, at) == n && Tiled(code, at + n)
    ensures Tiled(code, at) && Starts(code, at) == [at] + Starts(code, at + n)
  {
  }

  /** What an entry says is read back from the assembled section. */
  lemma {:induction false} AssembledEntry(pre: seq<Byte>, es: seq<seq<Byte>>, i: nat)
    requires (forall j :: 0 <= j < |es| ==> WellFormed(es[j])) && i < |es|
    ensures |Offsets(es, |pre|)| == |es| && var at := Offsets(es, |pre|)[i];
      at + |es[i]| <= |pre + Flatten(es)| && (pre + Flatten(es))[at..at + |es[i]|] == es[i]
    decreases |es|
  {
    hide WellFormed;
    OffsetsLength(es, |pre|);
    var code := pre + Flatten(es);
    assert code == (pre + es[0]) + Flatten(es[1..]);
    if i == 0 {
      assert code[|pre|..|pre| + |es[0]|] == es[0];
    } else {
      AssembledEntry(pre + es[0], es[1..], i - 1);
      assert Offsets(es, |pre|)[i] == Offsets(es[1..], |pre| + |es[0]|)[i - 1];
    }
  }

  lemma {:induction false} OffsetsLength(es: seq<seq<Byte>>, at: nat)
    ensures |Offsets(es, at)| == |es|
    decreases |es|
  {
    if es != [] { OffsetsLength(es[1..], at + |es[0]|); }
  }

  /** A kernel entry, read on its own. */
  predicate EntryMatches(e: seq<Byte>, data: seq<Byte>, symbol: seq<Byte>) {
    WellFormed(e) && U16(e, 2) == KERNEL && HasPrefix(data, U32(e, 4) + 4, symbol)
  }

  lemma SliceReads(code: seq<Byte>, at: nat, e: seq<Byte>, k: nat)
    requires at + |e| <= |code| && code[at..at + |e|] == e && k < |e|
    ensures code[at + k] == e[k]
  {
    assert code[at..at + |e|][k] == code[at + k];
  }

  lemma MatchesEntry(code: seq<Byte>, at: nat, e: seq<Byte>, data: seq<Byte>, symbol: seq<Byte>)
    requires WellFormed(e) && at + |e| <= |code| && code[at..at + |e|] == e
    ensures Matches(code, at, data, symbol) <==> EntryMatches(e, data, symbol)
    ensures U16(e, 2) == KERNEL ==> U16(code, at + 10) == U16(e, 10)
  {
    hide HasPrefix;
    SliceReads(code, at, e, 0);
    SliceReads(code, at, e, 1);
    SliceReads(code, at, e, 2);
    SliceReads(code, at, e, 3);
    if U16(e, 2) == KERNEL {
      SliceReads(code, at, e, 4);
      SliceReads(code, at, e, 5);
      SliceReads(code, at, e, 6);
      SliceReads(code, at, e, 7);
      SliceReads(code, at, e, 10);
      SliceReads(code, at, e, 11);
      assert U32(code, at + 4) == U32(e, 4);
    }
  }

  lemma AssembledMatches(pre: seq<Byte>, es: seq<seq<Byte>>, data: seq<Byte>, symbol: seq<Byte>, i: nat)
    requires (forall j :: 0 <= j < |es| ==> WellFormed(es[j])) && i < |es|
    ensures |Offsets(es, |pre|)| == |es|
    ensures var code, at := pre + Flatten(es), Offsets(es, |pre|)[i];
      (Matches(code, at, data, symbol) <==> EntryMatches(es[i], data, symbol))
      && (EntryMatches(es[i], data, symbol) ==> at + 12 <= |code| && U16(code, at + 10) == U16(es[i], 10))
  {
    AssembledEntry(pre, es, i);
    hide HasPrefix, Flatten, Offsets, Matches;
    MatchesEntry(pre + Flatten(es), Offsets(es, |pre|)[i], es[i], data, symbol);
  }

  /** Entry `i` is the first that matches, and `r` gives its place and its inArgCount. */
  predicate FirstEntry(pre: seq<Byte>, es: seq<seq<Byte>>, data: seq<Byte>, symbol: seq<Byte>, r: Found, i: nat) {
    i < |es| && i < |Offsets(es, |pre|)| && EntryMatches(es[i], data, symbol)
    && r == Success(Offsets(es, |pre|)[i], U16(es[i], 10))
    && forall j :: 0 <= j < i ==> !EntryMatches(es[j], data, symbol)
  }

  /** On every assembled section the search succeeds exactly when some entry is a kernel whose
      name starts with the symbol, and then reports the first such entry and its inArgCount. */
  lemma SearchFindsEntry(pre: seq<Byte>, es: seq<seq<Byte>>, data: seq<Byte>, symbol: seq<Byte>, r: Found)
    requires forall j :: 0 <= j < |es| ==> WellFormed(es[j])
    requires FirstMatch(pre + Flatten(es), Offsets(es, |pre|), data, symbol, r)
    ensures |Offsets(es, |pre|)| == |es|
    ensures r.NotFound? <==> forall j :: 0 <= j < |es| ==> !EntryMatches(es[j], data, symbol)
    ensures r.Success? ==> exists i :: FirstEntry(pre, es, data, symbol, r, i)
  {
    hide Matches, EntryMatches, Flatten, Offsets, WellFormed;
    var code, starts := pre + Flatten(es), Offsets(es, |pre|);
    OffsetsLength(es, |pre|);
    forall j | 0 <= j < |es|
      ensures Matches(code, starts[j], data, symbol) <==> EntryMatches(es[j], data, symbol)
    {
      AssembledMatches(pre, es, data, symbol, j);
    }
    if r.Success? {
      var i :| FirstAt(code, starts, data, symbol, r, i);
      AssembledMatches(pre, es, data, symbol, i);
      assert FirstEntry(pre, es, data, symbol, r, i);
    }
  }

  // ----- names that extend the symbol -----

  /** The name at `at` is exactly the symbol: the length stored in front of it says so. What follows
      a name may be anything, the length of the next string for instance. */
  predicate IsName(data: seq<Byte>, at: nat, symbol: seq<Byte>) {
    4 <= at <= |data| && U32(data, at - 4) == |symbol| && HasPrefix(data, at, symbol)
  }

  /** If a kernel has exactly the name asked for, the search reports it exactly when no earlier
      kernel's name starts with that name. */
  lemma FindsExactNameIff(code: seq<Byte>, starts: seq<nat>, data: seq<Byte>, symbol: seq<Byte>, r: Found, i: nat)
    requires FirstMatch(code, starts, data, symbol, r) && i < |starts|
    requires forall a, b :: 0 <= a < b < |starts| ==> starts[a] != starts[b]
    requires IsKernel(code, starts[i]) && IsName(data, NameAt(code, starts[i]), symbol)
    ensures r.Success?
    ensures r.offset == starts[i] <==> forall j :: 0 <= j < i ==> !Matches(code, starts[j], data, symbol)
  {
    assert Matches(code, starts[i], data, symbol);
    hide Matches;
    var k: nat :| FirstAt(code, starts, data, symbol, r, k);
    assert k <= i;
  }

  /** The entries of a tiled section have distinct offsets. */
  lemma {:induction false} StartsIncrease(code: seq<Byte>, at: nat)
    requires Tiled(code, at)
    ensures forall i :: 0 <= i < |Starts(code, at)| ==> at <= Starts(code, at)[i] < |code|
    ensures forall a, b :: 0 <= a < b < |Starts(code, at)| ==> Starts(code, at)[a] < Starts(code, at)[b]
    decreases |code| - at
  {
    if at != |code| {
      var next := at + U16(code, at);
      StartsIncrease(code, next);
      hide EntryAt;
      var rest := Starts(code, next);
      assert Starts(code, at) == [at] + rest;
    }
  }

  /** A kernel directive of twelve bytes with its name at `name` in the data section. */
  function SmallKernel(name: Byte, inArgs: Byte): seq<Byte> { [12, 0, 8, 16, name, 0, 0, 0, 0, 0, inArgs, 0] }

  /** The kernel "ab" stored before the kernel "a" is found when "a" is asked for. */
  lemma LongerNameShadows()
    ensures var code := SmallKernel(0, 1) + SmallKernel(8, 2);
      var data: seq<Byte> := [2, 0, 0, 0, 97, 98, 0, 0, 1, 0, 0, 0, 97, 0];
      Tiled(code, 0) && Starts(code, 0) == [0, 12]
      && IsName(data, NameAt(code, 12), [97])
      && FirstMatch(code, Starts(code, 0), data, [97], Success(0, 1))
  {
    var e0, e1 := SmallKernel(0, 1), SmallKernel(8, 2);
    var code := e0 + e1;
    var data: seq<Byte> := [2, 0, 0, 0, 97, 98, 0, 0, 1, 0, 0, 0, 97, 0];
    assert EntryAt(code, 0) && U16(code, 0) == 12 && EntryAt(code, 12) && U16(code, 12) == 12;
    assert Tiled(code, 24) && Tiled(code, 12);
    assert Starts(code, 12) == [12] + Starts(code, 24);
    var starts := Starts(code, 0);
    assert starts == [0, 12];
    assert U32(data, 8) == 1 && data[12] == 97 && data[4] == 97;
    assert NameAt(code, 0) == 4 && NameAt(code, 12) == 12;
    assert FirstAt(code, starts, data, [97], Success(0, 1), 0);
  }

  /** A name of four bytes, with the length of the next string right behind it, is a name. */
  lemma UnpaddedName()
    ensures var data: seq<Byte> := [4, 0, 0, 0, 97, 98, 99, 100, 1, 0, 0, 0, 97]; IsName(data, 4, [97, 98, 99, 100]) && IsName(data, 12, [97])
  {
    var data: seq<Byte> := [4, 0, 0, 0, 97, 98, 99, 100, 1, 0, 0, 0, 97];
    assert U32(data, 0) == 4 && U32(data, 8) == 1;
  }
}
