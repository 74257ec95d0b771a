/** LL_SORT, DL_SORT and CDL_SORT of include/utlist.h on heap nodes. The three macros share
    one text: DL_SORT also writes `prev` links, and CDL_SORT reads a link to the old head as
    the end of the list. Here that text is `MergePass`, with `doubly` and `stop` for the two
    differences. Links are overwritten while both runs are still being read. */
module ListSort {
  import opened ListNodes
  import opened SortSpec

  ghost predicate Apart<T>(a: seq<Node<T>>, b: seq<Node<T>>) {
    forall i, j :: 0 <= i < |a| && 0 <= j < |b| ==> a[i] != b[j]
  }

  /** `stop` is not a node of `s`. */
  ghost predicate Outside<T>(stop: Node?<T>, s: seq<Node<T>>) {
    forall i :: 0 <= i < |s| ==> s[i] != stop
  }

  /** Reads a link, taking `stop` as the end of the list. */
  function Next<T>(n: Node<T>, stop: Node?<T>): Node?<T>
    reads n
  {
    if n.next == stop then null else n.next
  }

  /** Links `e` behind the output built so far. */
  method Emit<T>(list0: Node?<T>, tail: Node?<T>, e: Node<T>, doubly: bool, ghost out: seq<Node<T>>)
    returns (list: Node<T>)
    requires Linked(out) && Distinct(out) && Outside(e, out)
    requires list0 == First(out) && tail == Last(out)
    requires doubly ==> BackLinked(out)
    modifies (if tail == null then {} else {tail})`next, e`prev
    ensures Linked(out + [e]) && list == First(out + [e])
    ensures if doubly then BackLinked(out + [e]) else e.prev == old(e.prev)
    ensures e.next == old(e.next)
  {
    if tail != null {
      tail.next := e;
      list := list0;
    } else {
      list := e;
    }
    if doubly { e.prev := tail; }
  }

  /** What is known while two runs are merged: the output, the two runs and the rest of the
      list share no node, and every link not yet read still has its original value. */
  ghost predicate Merging<T>(out: seq<Node<T>>, p: seq<Node<T>>, q: seq<Node<T>>, stop: Node?<T>)
    reads out, p, q
  {
    && Linked(out) && Linked(p) && Chain(q, stop)
    && Distinct(out) && Distinct(p) && Distinct(q) && Apart(out, p) && Apart(out, q) && Apart(p, q)
    && (p != [] ==> Outside(stop, p[1..])) && (q != [] ==> Outside(stop, q[1..]))
  }

  /** The loop state of the inner merge: the pointers and counters denote the sequences.
      The second run is the first `k` nodes of `qs`, the list behind the first run. */
  ghost predicate MergeState<T>(p: Node?<T>, psize: nat, q: Node?<T>, qsize: nat, list: Node?<T>, tail: Node?<T>,
                                stop: Node?<T>, doubly: bool,
                                out: seq<Node<T>>, ps: seq<Node<T>>, qs: seq<Node<T>>, k: nat)
    reads out, ps, qs
  {
    && Merging(out, ps, qs, stop) && (doubly ==> BackLinked(out))
    && list == First(out) && tail == Last(out) && q == First(qs) && (psize > 0 ==> p == First(ps))
    && psize == |ps| && k <= |qs| && k <= qsize && (k < |qs| ==> k == qsize)
  }

  /** Moves the first node of the first run to the output. */
  method EmitP<T>(e: Node<T>, psize: nat, q: Node?<T>, qsize: nat, list0: Node?<T>, tail: Node?<T>, stop: Node?<T>, doubly: bool,
                  ghost out: seq<Node<T>>, ghost ps: seq<Node<T>>, ghost qs: seq<Node<T>>, ghost k: nat)
    returns (list: Node?<T>, p: Node?<T>)
    requires psize > 0 && MergeState(e, psize, q, qsize, list0, tail, stop, doubly, out, ps, qs, k)
    modifies (if tail == null then {} else {tail})`next, e`prev
    ensures MergeState(p, psize - 1, q, qsize, list, e, stop, doubly, out + [e], ps[1..], qs, k)
    ensures doubly || e.prev == old(e.prev)
  {
    p := Next(e, stop);
    list := Emit(list0, tail, e, doubly, out);
  }

  /** Moves the first node of the second run to the output. */
  method EmitQ<T>(p: Node?<T>, psize: nat, e: Node<T>, qsize: nat, list0: Node?<T>, tail: Node?<T>, stop: Node?<T>, doubly: bool,
                  ghost out: seq<Node<T>>, ghost ps: seq<Node<T>>, ghost qs: seq<Node<T>>, ghost k: nat)
    returns (list: Node?<T>, q: Node?<T>)
    requires qsize > 0 && k > 0 && MergeState(p, psize, e, qsize, list0, tail, stop, doubly, out, ps, qs, k)
    modifies (if tail == null then {} else {tail})`next, e`prev
    ensures MergeState(p, psize, q, qsize - 1, list, e, stop, doubly, out + [e], ps, qs[1..], k - 1)
    ensures doubly || e.prev == old(e.prev)
  {
    q := Next(e, stop);
    list := Emit(list0, tail, e, doubly, out);
  }

  /** All nodes in hand are nodes of the list being sorted. */
  ghost predicate Within<T>(all: set<Node<T>>, out: seq<Node<T>>, ps: seq<Node<T>>, qs: seq<Node<T>>) {
    (forall n :: n in out ==> n in all) && (forall n :: n in ps ==> n in all) && (forall n :: n in qs ==> n in all)
  }

  /** Taking the right head of two runs takes the head of their merge. */
  lemma MergeStep<T>(cmp: Cmp<T>, ps: seq<Node<T>>, qs: seq<Node<T>>, k: nat)
    requires k <= |qs|
    ensures ps != [] && (k == 0 || cmp(ps[0].elem, qs[0].elem) <= 0)
      ==> Merge(cmp, ps, qs[..k]) == [ps[0]] + Merge(cmp, ps[1..], qs[..k])
    ensures k > 0 && (ps == [] || cmp(ps[0].elem, qs[0].elem) > 0)
      ==> Merge(cmp, ps, qs[..k]) == [qs[0]] + Merge(cmp, ps, qs[1..][..k - 1])
  {
    if k > 0 { assert qs[..k][1..] == qs[1..][..k - 1]; }
  }

  /** One round of the inner merge loop: choose the next node and link it to the output. */
  method MergeRound<T>(cmp: Cmp<T>, p0: Node?<T>, psize0: nat, q0: Node?<T>, qsize0: nat,
                       list0: Node?<T>, tail0: Node?<T>, stop: Node?<T>, doubly: bool, ghost all: set<Node<T>>,
                       ghost out: seq<Node<T>>, ghost ps0: seq<Node<T>>, ghost qs0: seq<Node<T>>, ghost k0: nat)
    returns (p: Node?<T>, psize: nat, q: Node?<T>, qsize: nat, list: Node?<T>, e: Node<T>,
             ghost ps: seq<Node<T>>, ghost qs: seq<Node<T>>, ghost k: nat)
    requires MergeState(p0, psize0, q0, qsize0, list0, tail0, stop, doubly, out, ps0, qs0, k0)
    requires Within(all, out, ps0, qs0)
    requires psize0 > 0 || (qsize0 > 0 && q0 != null)
    modifies all
    ensures MergeState(p, psize, q, qsize, list, e, stop, doubly, out + [e], ps, qs, k)
    ensures Within(all, out + [e], ps, qs) && |ps| + k < |ps0| + k0 && qs[k..] == qs0[k0..]
    ensures Merge(cmp, ps0, qs0[..k0]) == [e] + Merge(cmp, ps, qs[..k])
    ensures !doubly ==> forall n :: n in all ==> n.prev == old(n.prev)
  {
    hide Merging, Merge, BackLinked;
    MergeStep(cmp, ps0, qs0, k0);
    p, psize, q, qsize, ps, qs, k := p0, psize0, q0, qsize0, ps0, qs0, k0;
    if psize == 0 || !(qsize == 0 || q == null || cmp(p.elem, q.elem) <= 0) {
      e := q;
      list, q := EmitQ(p, psize, e, qsize, list0, tail0, stop, doubly, out, ps, qs, k);
      qsize, qs, k := qsize - 1, qs[1..], k - 1;
    } else {
      e := p;
      list, p := EmitP(e, psize, q, qsize, list0, tail0, stop, doubly, out, ps, qs, k);
      psize, ps := psize - 1, ps[1..];
    }
  }

  lemma AppendAssociates<T>(out: seq<Node<T>>, e: seq<Node<T>>, s: seq<Node<T>>)
    ensures (out + e) + s == out + (e + s)
  {
  }

  /** The inner merge loop. */
  method MergeRuns<T>(cmp: Cmp<T>, p0: Node<T>, psize0: nat, q0: Node?<T>, qsize0: nat,
                      list0: Node?<T>, tail0: Node?<T>, stop: Node?<T>, doubly: bool, ghost all: set<Node<T>>,
                      ghost out0: seq<Node<T>>, ghost ps0: seq<Node<T>>, ghost qs0: seq<Node<T>>, ghost k0: nat)
    returns (list: Node?<T>, tail: Node?<T>, q: Node?<T>)
    requires MergeState(p0, psize0, q0, qsize0, list0, tail0, stop, doubly, out0, ps0, qs0, k0)
    requires Within(all, out0, ps0, qs0)
    modifies all
    ensures var out := out0 + Merge(cmp, ps0, qs0[..k0]);
      MergeState(null, 0, q, 0, list, tail, stop, doubly, out, [], qs0[k0..], 0) && Within(all, out, [], qs0[k0..])
    ensures !doubly ==> forall n :: n in all ==> n.prev == old(n.prev)
  {
    var p: Node?<T>, psize, qsize := p0, psize0, qsize0;
    list, tail, q := list0, tail0, q0;
    ghost var out: seq<Node<T>>, ps: seq<Node<T>>, qs: seq<Node<T>>, k := out0, ps0, qs0, k0;
    while psize > 0 || (qsize > 0 && q != null)
      invariant MergeState(p, psize, q, qsize, list, tail, stop, doubly, out, ps, qs, k)
      invariant Within(all, out, ps, qs) && qs[k..] == qs0[k0..]
      invariant !doubly ==> forall n :: n in all ==> n.prev == old(n.prev)
      invariant out + Merge(cmp, ps, qs[..k]) == out0 + Merge(cmp, ps0, qs0[..k0])
      decreases |ps| + k
    {
      ghost var ps': seq<Node<T>>, qs': seq<Node<T>>, k';
      p, psize, q, qsize, list, tail, ps', qs', k' :=
        MergeRound(cmp, p, psize, q, qsize, list, tail, stop, doubly, all, out, ps, qs, k);
      AppendAssociates(out, [tail], Merge(cmp, ps', qs'[..k']));
      out, ps, qs, k := out + [tail], ps', qs', k';
    }
    assert k == 0 && ps == [] && qs[..k] == [] && qs[k..] == qs;
    assert out + [] == out;
  }

  /** The for loop that walks over the first run. */
  method SkipRun<T>(p: Node<T>, insize: nat, stop: Node?<T>, ghost s: seq<Node<T>>) returns (q: Node?<T>, psize: nat)
    requires insize > 0 && Chain(s, stop) && p == First(s) && Outside(stop, s[1..])
    ensures psize == Min(insize, |s|) && q == First(s[psize..])
  {
    q, psize := p, 0;
    var i := 0;
    while i < insize
      invariant 0 <= i <= insize && psize == i && i < |s| && q == s[i]
    {
      psize := psize + 1;
      q := Next(q, stop);
      if q == null { break; }
      i := i + 1;
    }
  }

  /** Splits the unread part of the list at the end of the first run. */
  lemma SplitMerging<T>(out: seq<Node<T>>, rest: seq<Node<T>>, m: nat, stop: Node?<T>)
    requires m <= |rest| && Merging(out, [], rest, stop)
    ensures Merging(out, rest[..m], rest[m..], stop)
  {
  }

  lemma SplitWithin<T>(all: set<Node<T>>, out: seq<Node<T>>, rest: seq<Node<T>>, m: nat)
    requires m <= |rest| && Within(all, out, [], rest)
    ensures Within(all, out, rest[..m], rest[m..])
  {
  }

  /** One merge of a pass: walk over the first run, then merge it with the second. */
  method MergePair<T>(cmp: Cmp<T>, p: Node<T>, insize: nat, list0: Node?<T>, tail0: Node?<T>, stop: Node?<T>,
                      doubly: bool, ghost all: set<Node<T>>, ghost out: seq<Node<T>>, ghost rest: seq<Node<T>>)
    returns (list: Node?<T>, tail: Node?<T>, q: Node?<T>)
    requires insize > 0 && MergeState(null, 0, p, 0, list0, tail0, stop, doubly, out, [], rest, 0)
    requires Within(all, out, [], rest)
    modifies all
    ensures var out' := out + Merge(cmp, RunP(rest, insize), RunQ(rest, insize));
      && MergeState(null, 0, q, 0, list, tail, stop, doubly, out', [], Rest(rest, insize), 0)
      && Within(all, out', [], Rest(rest, insize))
    ensures !doubly ==> forall n :: n in all ==> n.prev == old(n.prev)
  {
    var psize;
    q, psize := SkipRun(p, insize, stop, rest);
    ghost var k := Min(2 * insize, |rest|) - psize;
    SplitMerging(out, rest, psize, stop);
    SplitWithin(all, out, rest, psize);
    assert rest[psize..][..k] == RunQ(rest, insize) && rest[psize..][k..] == Rest(rest, insize);
    list, tail, q := MergeRuns(cmp, p, psize, q, insize, list0, tail0, stop, doubly, all, out, rest[..psize], rest[psize..], k);
  }

  lemma PassStep<T>(cmp: Cmp<T>, out: seq<Node<T>>, rest: seq<Node<T>>, w: nat)
    requires w > 0 && rest != []
    ensures out + Pass(cmp, rest, w) == (out + Merge(cmp, RunP(rest, w), RunQ(rest, w))) + Pass(cmp, Rest(rest, w), w)
    ensures |Rest(rest, w)| < |rest| && (Rest(rest, w) != [] <==> |rest| > 2 * w)
  {
    AppendAssociates(out, Merge(cmp, RunP(rest, w), RunQ(rest, w)), Pass(cmp, Rest(rest, w), w));
  }

  lemma PassEnd<T>(cmp: Cmp<T>, out: seq<Node<T>>, w: nat)
    requires w > 0
    ensures out + Pass(cmp, [], w) == out
  {
  }

  lemma StartPass<T>(stop: Node?<T>, doubly: bool, s: seq<Node<T>>, all: set<Node<T>>)
    requires s != [] && Distinct(s) && Chain(s, stop) && Outside(stop, s[1..]) && Within(all, [], [], s)
    ensures MergeState(null, 0, s[0], 0, null, null, stop, doubly, [], [], s, 0)
  {
  }

  /** One pass over the list: the outer loop of the macros, up to the final links. */
  method MergePass<T>(cmp: Cmp<T>, list0: Node<T>, insize: nat, stop: Node?<T>, doubly: bool,
                      ghost s: seq<Node<T>>, ghost all: set<Node<T>>)
    returns (list: Node?<T>, tail: Node?<T>, nmerges: nat)
    requires Within(all, [], [], s)
    requires insize > 0 && Distinct(s) && Chain(s, stop) && list0 == First(s) && Outside(stop, s[1..])
    modifies all
    ensures var t := Pass(cmp, s, insize);
      MergeState(null, 0, null, 0, list, tail, stop, doubly, t, [], [], 0) && Within(all, t, [], [])
    ensures nmerges <= 1 <==> |s| <= 2 * insize
    ensures !doubly ==> forall n :: n in all ==> n.prev == old(n.prev)
  {
    StartPass(stop, doubly, s, all);
    hide Merging, Merge, Within, Pass, Rest, RunP, RunQ, BackLinked;
    var p: Node?<T> := list0;
    list, tail, nmerges := null, null, 0;
    ghost var out: seq<Node<T>>, rest: seq<Node<T>> := [], s;
    while p != null
      invariant MergeState(null, 0, p, 0, list, tail, stop, doubly, out, [], rest, 0) && Within(all, out, [], rest)
      invariant out + Pass(cmp, rest, insize) == Pass(cmp, s, insize)
      invariant !doubly ==> forall n :: n in all ==> n.prev == old(n.prev)
      invariant nmerges == 0 ==> rest == s
      invariant nmerges == 1 ==> rest == Rest(s, insize)
      invariant nmerges > 1 ==> |s| > 2 * insize
      decreases |rest|
    {
      PassStep(cmp, out, rest, insize);
      nmerges := nmerges + 1;
      var q;
      list, tail, q := MergePair(cmp, p, insize, list, tail, stop, doubly, all, out, rest);
      ghost var merged := Merge(cmp, RunP(rest, insize), RunQ(rest, insize));
      out, rest := out + merged, Rest(rest, insize);
      p := q;
    }
    assert rest == [];
    PassEnd(cmp, out, insize);
  }

  lemma BottomUpStep<T>(cmp: Cmp<T>, s: seq<Node<T>>, w: nat)
    requires w > 0
    ensures |Pass(cmp, s, w)| == |s|
    ensures s == [] ==> BottomUp(cmp, s, w) == s
    ensures BottomUp(cmp, s, w) == if |s| <= 2 * w then Pass(cmp, s, w) else BottomUp(cmp, Pass(cmp, s, w), 2 * w)
  {
    PassLength(cmp, s, w);
  }

  /** One pass of LL_SORT, with its final links. */
  method LlPass<T>(cmp: Cmp<T>, list0: Node<T>, insize: nat, ghost s: seq<Node<T>>, ghost all: set<Node<T>>)
    returns (list: Node<T>, nmerges: nat)
    requires insize > 0 && IsLL(list0, s) && Within(all, [], [], s)
    modifies all
    ensures IsLL(list, Pass(cmp, s, insize)) && Within(all, [], [], Pass(cmp, s, insize))
    ensures nmerges <= 1 <==> |s| <= 2 * insize
    ensures forall n :: n in all ==> n.prev == old(n.prev)
  {
    var head, tail;
    head, tail, nmerges := MergePass(cmp, list0, insize, null, false, s, all);
    PassLength(cmp, s, insize);
    assert tail in Pass(cmp, s, insize);
    list := head;
    tail.next := null;
  }

  /** LL_SORT: the passes, with the width of the runs doubling until one merge suffices. */
  method LlSort<T>(head: Node?<T>, cmp: Cmp<T>, ghost s: seq<Node<T>>) returns (list: Node?<T>)
    requires IsLL(head, s)
    modifies s
    ensures IsLL(list, BottomUp(cmp, s, 1))
    ensures forall n :: n in s ==> n.prev == old(n.prev)
  {
    hide Pass;
    list := head;
    if head == null {
      BottomUpStep(cmp, s, 1);
    } else {
      var cur: Node<T>, insize, looping := head, 1, true;
      ghost var t, all := s, set n | n in s;
      while looping
        invariant insize > 0 && |t| == |s| && IsLL(cur, t) && Within(all, [], [], t)
        invariant (if looping then BottomUp(cmp, t, insize) else t) == BottomUp(cmp, s, 1)
        invariant forall n :: n in all ==> n.prev == old(n.prev)
        decreases looping, if insize < |s| then |s| - insize else 0
      {
        var nmerges: nat;
        BottomUpStep(cmp, t, insize);
        cur, nmerges := LlPass(cmp, cur, insize, t, all);
        t := Pass(cmp, t, insize);
        if nmerges <= 1 { looping := false; }
        insize := insize * 2;
      }
      list := cur;
    }
  }

  /** One pass of DL_SORT, with its final links. */
  method DlPass<T>(cmp: Cmp<T>, list0: Node<T>, insize: nat, ghost s: seq<Node<T>>, ghost all: set<Node<T>>)
    returns (list: Node<T>, nmerges: nat)
    requires insize > 0 && IsDL(list0, s) && Within(all, [], [], s)
    modifies all
    ensures IsDL(list, Pass(cmp, s, insize)) && Within(all, [], [], Pass(cmp, s, insize))
    ensures nmerges <= 1 <==> |s| <= 2 * insize
  {
    var head, tail;
    head, tail, nmerges := MergePass(cmp, list0, insize, null, true, s, all);
    PassLength(cmp, s, insize);
    assert tail in Pass(cmp, s, insize);
    list := head;
    list.prev := tail;
    tail.next := null;
  }

  /** DL_SORT: the passes, with the width of the runs doubling until one merge suffices. */
  method DlSort<T>(head: Node?<T>, cmp: Cmp<T>, ghost s: seq<Node<T>>) returns (list: Node?<T>)
    requires IsDL(head, s)
    modifies s
    ensures IsDL(list, BottomUp(cmp, s, 1))
  {
    hide Pass;
    list := head;
    if head == null {
      BottomUpStep(cmp, s, 1);
    } else {
      var cur: Node<T>, insize, looping := head, 1, true;
      ghost var t, all := s, set n | n in s;
      while looping
        invariant insize > 0 && |t| == |s| && IsDL(cur, t) && Within(all, [], [], t)
        invariant (if looping then BottomUp(cmp, t, insize) else t) == BottomUp(cmp, s, 1)
        decreases looping, if insize < |s| then |s| - insize else 0
      {
        var nmerges: nat;
        BottomUpStep(cmp, t, insize);
        cur, nmerges := DlPass(cmp, cur, insize, t, all);
        t := Pass(cmp, t, insize);
        if nmerges <= 1 { looping := false; }
        insize := insize * 2;
      }
      list := cur;
    }
  }

  /** One pass of CDL_SORT, with its final links. */
  method CdlPass<T>(cmp: Cmp<T>, list0: Node<T>, insize: nat, ghost s: seq<Node<T>>, ghost all: set<Node<T>>)
    returns (list: Node<T>, nmerges: nat)
    requires insize > 0 && IsCDL(list0, s) && Within(all, [], [], s)
    modifies all
    ensures IsCDL(list, Pass(cmp, s, insize)) && Within(all, [], [], Pass(cmp, s, insize))
    ensures nmerges <= 1 <==> |s| <= 2 * insize
  {
    var head, tail;
    head, tail, nmerges := MergePass(cmp, list0, insize, list0, true, s, all);
    PassLength(cmp, s, insize);
    assert tail in Pass(cmp, s, insize);
    list := head;
    list.prev := tail;
    tail.next := list;
  }

  /** CDL_SORT: the passes, with the width of the runs doubling until one merge suffices. */
  method CdlSort<T>(head: Node?<T>, cmp: Cmp<T>, ghost s: seq<Node<T>>) returns (list: Node?<T>)
    requires IsCDL(head, s)
    modifies s
    ensures IsCDL(list, BottomUp(cmp, s, 1))
  {
    hide Pass;
    list := head;
    if head == null {
      BottomUpStep(cmp, s, 1);
    } else {
      var cur: Node<T>, insize, looping := head, 1, true;
      ghost var t, all := s, set n | n in s;
      while looping
        invariant insize > 0 && |t| == |s| && IsCDL(cur, t) && Within(all, [], [], t)
        invariant (if looping then BottomUp(cmp, t, insize) else t) == BottomUp(cmp, s, 1)
        decreases looping, if insize < |s| then |s| - insize else 0
      {
        var nmerges: nat;
        BottomUpStep(cmp, t, insize);
        cur, nmerges := CdlPass(cmp, cur, insize, t, all);
        t := Pass(cmp, t, insize);
        if nmerges <= 1 { looping := false; }
        insize := insize * 2;
      }
      list := cur;
    }
  }
}
