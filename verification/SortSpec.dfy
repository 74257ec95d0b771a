/** What the sort macros of include/utlist.h compute: a bottom-up merge sort on sequences
    of nodes, and the proof that its result is the one sorted, stable rearrangement. */
module SortSpec {
  import opened ListNodes

  type Cmp<!T> = (T, T) -> int

  /** What the macros need of `cmp`: its sign orders the elements totally and transitively. */
  ghost predicate TotalPreorder<T(!new)>(cmp: Cmp<T>) {
    && (forall a, b :: cmp(a, b) <= 0 || cmp(b, a) <= 0)
    && (forall a, b, c :: cmp(a, b) <= 0 && cmp(b, c) <= 0 ==> cmp(a, c) <= 0)
  }

  predicate Equivalent<T>(cmp: Cmp<T>, a: T, b: T) {
    cmp(a, b) <= 0 && cmp(b, a) <= 0
  }

  predicate Sorted<T>(cmp: Cmp<T>, s: seq<Node<T>>) {
    forall i, j :: 0 <= i < j < |s| ==> cmp(s[i].elem, s[j].elem) <= 0
  }

  /** The nodes of `s` whose element is equivalent to `x`, in order. */
  function Ties<T>(cmp: Cmp<T>, x: T, s: seq<Node<T>>): seq<Node<T>> {
    if s == [] then []
    else if Equivalent(cmp, x, s[0].elem) then [s[0]] + Ties(cmp, x, s[1..])
    else Ties(cmp, x, s[1..])
  }

  /** Equivalent nodes stand in the same order in `s` and `t`. */
  ghost predicate Stable<T(!new)>(cmp: Cmp<T>, s: seq<Node<T>>, t: seq<Node<T>>) {
    forall x :: Ties(cmp, x, s) == Ties(cmp, x, t)
  }

  function Min(a: nat, b: nat): nat {
    if a < b then a else b
  }

  /** One merge of two runs; ties are taken from the first. */
  function Merge<T>(cmp: Cmp<T>, p: seq<Node<T>>, q: seq<Node<T>>): seq<Node<T>>
    decreases |p| + |q|
  {
    if p == [] then q
    else if q == [] then p
    else if cmp(p[0].elem, q[0].elem) <= 0 then [p[0]] + Merge(cmp, p[1..], q)
    else [q[0]] + Merge(cmp, p, q[1..])
  }

  /** The first run of at most `w` nodes, the run after it, and what follows both. */
  function RunP<T>(s: seq<Node<T>>, w: nat): seq<Node<T>> { s[..Min(w, |s|)] }

  function RunQ<T>(s: seq<Node<T>>, w: nat): seq<Node<T>> { s[Min(w, |s|)..Min(2 * w, |s|)] }

  function Rest<T>(s: seq<Node<T>>, w: nat): seq<Node<T>> { s[Min(2 * w, |s|)..] }

  /** One pass over the list: neighbouring runs of `w` nodes are merged in pairs. */
  function Pass<T>(cmp: Cmp<T>, s: seq<Node<T>>, w: nat): seq<Node<T>>
    requires w > 0
    decreases |s|
  {
    if s == [] then [] else Merge(cmp, RunP(s, w), RunQ(s, w)) + Pass(cmp, Rest(s, w), w)
  }

  /** Passes with doubling width until one merge covers the whole list. */
  function BottomUp<T>(cmp: Cmp<T>, s: seq<Node<T>>, w: nat): seq<Node<T>>
    requires w > 0
    decreases if w < |s| then |s| - w else 0
  {
    PassLength(cmp, s, w);
    if |s| <= 2 * w then Pass(cmp, s, w) else BottomUp(cmp, Pass(cmp, s, w), 2 * w)
  }

  /** Every aligned run of `w` nodes is sorted. */
  predicate SortedRuns<T>(cmp: Cmp<T>, s: seq<Node<T>>, w: nat)
    requires w > 0
    decreases |s|
  {
    s != [] ==> var m := Min(w, |s|); Sorted(cmp, s[..m]) && SortedRuns(cmp, s[m..], w)
  }

  // ----- the same nodes -----

  lemma {:induction false} MergeLength<T>(cmp: Cmp<T>, p: seq<Node<T>>, q: seq<Node<T>>)
    ensures |Merge(cmp, p, q)| == |p| + |q|
    decreases |p| + |q|
  {
    if p == [] || q == [] {
    } else if cmp(p[0].elem, q[0].elem) <= 0 {
      MergeLength(cmp, p[1..], q);
    } else {
      MergeLength(cmp, p, q[1..]);
    }
  }

  lemma ConsNodes<T>(s: seq<Node<T>>)
    requires s != []
    ensures multiset(s) == multiset{s[0]} + multiset(s[1..])
  {
    assert s == [s[0]] + s[1..];
  }

  lemma {:induction false} MergeNodes<T>(cmp: Cmp<T>, p: seq<Node<T>>, q: seq<Node<T>>)
    ensures multiset(Merge(cmp, p, q)) == multiset(p) + multiset(q)
    decreases |p| + |q|
  {
    var t := Merge(cmp, p, q);
    if p == [] || q == [] {
    } else if cmp(p[0].elem, q[0].elem) <= 0 {
      MergeNodes(cmp, p[1..], q);
      ConsNodes(p);
      ConsNodes(t);
      assert t[1..] == Merge(cmp, p[1..], q);
    } else {
      MergeNodes(cmp, p, q[1..]);
      ConsNodes(q);
      ConsNodes(t);
      assert t[1..] == Merge(cmp, p, q[1..]);
    }
  }

  lemma SplitRuns<T>(s: seq<Node<T>>, w: nat)
    ensures s == RunP(s, w) + RunQ(s, w) + Rest(s, w)
  {
  }

  lemma {:induction false} PassLength<T>(cmp: Cmp<T>, s: seq<Node<T>>, w: nat)
    requires w > 0
    ensures |Pass(cmp, s, w)| == |s|
    decreases |s|
  {
    if s != [] {
      MergeLength(cmp, RunP(s, w), RunQ(s, w));
      PassLength(cmp, Rest(s, w), w);
    }
  }

  lemma {:induction false} PassNodes<T>(cmp: Cmp<T>, s: seq<Node<T>>, w: nat)
    requires w > 0
    ensures multiset(Pass(cmp, s, w)) == multiset(s)
    decreases |s|
  {
    if s != [] {
      var p, q, r := RunP(s, w), RunQ(s, w), Rest(s, w);
      calc {
        multiset(Pass(cmp, s, w));
        multiset(Merge(cmp, p, q) + Pass(cmp, r, w));
        multiset(Merge(cmp, p, q)) + multiset(Pass(cmp, r, w));
        { MergeNodes(cmp, p, q); PassNodes(cmp, r, w); }
        multiset(p) + multiset(q) + multiset(r);
        multiset(p + q + r);
        { SplitRuns(s, w); }
        multiset(s);
      }
    }
  }

  // ----- sorted -----

  lemma {:induction false} MergeSorted<T(!new)>(cmp: Cmp<T>, p: seq<Node<T>>, q: seq<Node<T>>)
    requires TotalPreorder(cmp) && Sorted(cmp, p) && Sorted(cmp, q)
    ensures Sorted(cmp, Merge(cmp, p, q))
    decreases |p| + |q|
  {
    if p == [] || q == [] {
    } else if cmp(p[0].elem, q[0].elem) <= 0 {
      MergeSorted(cmp, p[1..], q);
      SortedCons(cmp, p[0], p[1..], q);
    } else {
      MergeSorted(cmp, p, q[1..]);
      SortedCons(cmp, q[0], p, q[1..]);
    }
  }

  /** A node below both runs may stand before their merge. */
  lemma SortedCons<T(!new)>(cmp: Cmp<T>, n: Node<T>, p: seq<Node<T>>, q: seq<Node<T>>)
    requires TotalPreorder(cmp) && Sorted(cmp, p) && Sorted(cmp, q) && Sorted(cmp, Merge(cmp, p, q))
    requires p != [] ==> cmp(n.elem, p[0].elem) <= 0
    requires q != [] ==> cmp(n.elem, q[0].elem) <= 0
    ensures Sorted(cmp, [n] + Merge(cmp, p, q))
  {
    var t := Merge(cmp, p, q);
    forall k | 0 <= k < |t| ensures cmp(n.elem, t[k].elem) <= 0 {
      MergeMember(cmp, p, q, t[k]);
      if t[k] in p { Below(cmp, n, p, t[k]); } else { Below(cmp, n, q, t[k]); }
    }
  }

  lemma MergeMember<T>(cmp: Cmp<T>, p: seq<Node<T>>, q: seq<Node<T>>, n: Node<T>)
    requires n in Merge(cmp, p, q)
    ensures n in p || n in q
  {
    MergeNodes(cmp, p, q);
    assert n in multiset(Merge(cmp, p, q));
  }

  lemma Below<T(!new)>(cmp: Cmp<T>, n: Node<T>, s: seq<Node<T>>, m: Node<T>)
    requires TotalPreorder(cmp) && Sorted(cmp, s) && m in s && cmp(n.elem, s[0].elem) <= 0
    ensures cmp(n.elem, m.elem) <= 0
  {
    var k :| 0 <= k < |s| && s[k] == m;
    if k > 0 { assert cmp(s[0].elem, s[k].elem) <= 0; }
  }

  lemma RunsSorted<T>(cmp: Cmp<T>, s: seq<Node<T>>, w: nat)
    requires w > 0 && SortedRuns(cmp, s, w) && s != []
    ensures Sorted(cmp, RunP(s, w)) && Sorted(cmp, RunQ(s, w)) && SortedRuns(cmp, Rest(s, w), w)
  {
    hide Sorted;
    var m, e := Min(w, |s|), Min(2 * w, |s|);
    var t := s[m..];
    assert SortedRuns(cmp, t, w);
    if t == [] {
      assert RunQ(s, w) == [] && Rest(s, w) == [];
      EmptySorted(cmp);
    } else {
      assert Min(w, |t|) == e - m;
      assert t[..e - m] == RunQ(s, w) && t[e - m..] == Rest(s, w);
    }
  }

  lemma EmptySorted<T>(cmp: Cmp<T>)
    ensures Sorted<T>(cmp, [])
  {
  }

  lemma {:induction false} PassSorted<T(!new)>(cmp: Cmp<T>, s: seq<Node<T>>, w: nat)
    requires w > 0 && TotalPreorder(cmp) && SortedRuns(cmp, s, w)
    ensures SortedRuns(cmp, Pass(cmp, s, w), 2 * w)
    decreases |s|
  {
    if s != [] {
      RunsSorted(cmp, s, w);
      var a, b := Merge(cmp, RunP(s, w), RunQ(s, w)), Pass(cmp, Rest(s, w), w);
      MergeSorted(cmp, RunP(s, w), RunQ(s, w));
      MergeLength(cmp, RunP(s, w), RunQ(s, w));
      PassSorted(cmp, Rest(s, w), w);
      PassLength(cmp, s, w);
      assert (a + b)[..|a|] == a && (a + b)[|a|..] == b;
    }
  }

  lemma {:induction false} SingletonRuns<T(!new)>(cmp: Cmp<T>, s: seq<Node<T>>)
    ensures SortedRuns(cmp, s, 1)
    decreases |s|
  {
    if s != [] { SingletonRuns(cmp, s[1..]); }
  }

  // ----- stable -----

  lemma {:induction false} TiesConcat<T>(cmp: Cmp<T>, x: T, s: seq<Node<T>>, t: seq<Node<T>>)
    ensures Ties(cmp, x, s + t) == Ties(cmp, x, s) + Ties(cmp, x, t)
    decreases |s|
  {
    if s == [] {
      assert s + t == t;
    } else {
      var u := s + t;
      assert u[0] == s[0] && u[1..] == s[1..] + t;
      TiesConcat(cmp, x, s[1..], t);
    }
  }

  /** No element of a sorted run whose head is above `x` ties with `x`. */
  lemma {:induction false} NoTies<T(!new)>(cmp: Cmp<T>, x: T, s: seq<Node<T>>)
    requires TotalPreorder(cmp) && Sorted(cmp, s) && (s != [] ==> cmp(s[0].elem, x) > 0)
    ensures Ties(cmp, x, s) == []
    decreases |s|
  {
    if |s| > 1 {
      assert cmp(s[0].elem, s[1].elem) <= 0;
      NoTies(cmp, x, s[1..]);
    }
  }

  lemma {:induction false} MergeStable<T(!new)>(cmp: Cmp<T>, x: T, p: seq<Node<T>>, q: seq<Node<T>>)
    requires TotalPreorder(cmp) && Sorted(cmp, p) && Sorted(cmp, q)
    ensures Ties(cmp, x, Merge(cmp, p, q)) == Ties(cmp, x, p) + Ties(cmp, x, q)
    decreases |p| + |q|
  {
    if p == [] || q == [] {
    } else if cmp(p[0].elem, q[0].elem) <= 0 {
      MergeStable(cmp, x, p[1..], q);
      assert ([p[0]] + Merge(cmp, p[1..], q))[1..] == Merge(cmp, p[1..], q);
    } else {
      MergeStable(cmp, x, p, q[1..]);
      assert ([q[0]] + Merge(cmp, p, q[1..]))[1..] == Merge(cmp, p, q[1..]);
      if Equivalent(cmp, x, q[0].elem) {
        NoTies(cmp, x, p);
      }
    }
  }

  lemma {:induction false} PassStable<T(!new)>(cmp: Cmp<T>, x: T, s: seq<Node<T>>, w: nat)
    requires w > 0 && TotalPreorder(cmp) && SortedRuns(cmp, s, w)
    ensures Ties(cmp, x, Pass(cmp, s, w)) == Ties(cmp, x, s)
    decreases |s|
  {
    if s != [] {
      var p, q, r := RunP(s, w), RunQ(s, w), Rest(s, w);
      RunsSorted(cmp, s, w);
      calc {
        Ties(cmp, x, Pass(cmp, s, w));
        Ties(cmp, x, Merge(cmp, p, q) + Pass(cmp, r, w));
        { TiesConcat(cmp, x, Merge(cmp, p, q), Pass(cmp, r, w)); }
        Ties(cmp, x, Merge(cmp, p, q)) + Ties(cmp, x, Pass(cmp, r, w));
        { MergeStable(cmp, x, p, q); PassStable(cmp, x, r, w); }
        Ties(cmp, x, p) + Ties(cmp, x, q) + Ties(cmp, x, r);
        { TiesConcat(cmp, x, p, q); TiesConcat(cmp, x, p + q, r); }
        Ties(cmp, x, p + q + r);
        { SplitRuns(s, w); }
        Ties(cmp, x, s);
      }
    }
  }

  // ----- main results -----

  lemma {:induction false} BottomUpCorrect<T(!new)>(cmp: Cmp<T>, s: seq<Node<T>>, w: nat)
    requires w > 0 && TotalPreorder(cmp) && SortedRuns(cmp, s, w)
    ensures Sorted(cmp, BottomUp(cmp, s, w))
    ensures Stable(cmp, s, BottomUp(cmp, s, w))
    ensures multiset(BottomUp(cmp, s, w)) == multiset(s)
    decreases if w < |s| then |s| - w else 0
  {
    var t := Pass(cmp, s, w);
    PassSorted(cmp, s, w);
    PassNodes(cmp, s, w);
    PassLength(cmp, s, w);
    forall x ensures Ties(cmp, x, t) == Ties(cmp, x, s) { PassStable(cmp, x, s, w); }
    if |s| <= 2 * w {
      assert s != [] ==> t[..Min(2 * w, |t|)] == t;
    } else {
      BottomUpCorrect(cmp, t, 2 * w);
    }
  }

  /** For every list and every total preorder, what the sort macros compute is sorted,
      stable and made of the same nodes. */
  lemma SortCorrect<T(!new)>(cmp: Cmp<T>, s: seq<Node<T>>)
    requires TotalPreorder(cmp)
    ensures Sorted(cmp, BottomUp(cmp, s, 1))
    ensures Stable(cmp, s, BottomUp(cmp, s, 1))
    ensures multiset(BottomUp(cmp, s, 1)) == multiset(s)
  {
    SingletonRuns(cmp, s);
    BottomUpCorrect(cmp, s, 1);
  }

  lemma {:induction false} TiesMembers<T>(cmp: Cmp<T>, x: T, s: seq<Node<T>>, n: Node<T>)
    ensures n in Ties(cmp, x, s) <==> n in s && Equivalent(cmp, x, n.elem)
    decreases |s|
  {
    if s != [] { TiesMembers(cmp, x, s[1..], n); }
  }

  lemma TailTies<T(!new)>(cmp: Cmp<T>, x: T, s: seq<Node<T>>, t: seq<Node<T>>)
    requires s != [] && t != [] && s[0] == t[0] && Stable(cmp, s, t)
    ensures Ties(cmp, x, s[1..]) == Ties(cmp, x, t[1..])
  {
    var a, b := Ties(cmp, x, s), Ties(cmp, x, t);
    assert a == b;
    if Equivalent(cmp, x, s[0].elem) {
      assert a[1..] == Ties(cmp, x, s[1..]) && b[1..] == Ties(cmp, x, t[1..]);
    }
  }

  /** Sorted and stable determine the result: any two such arrangements are equal. */
  lemma {:induction false} SortedStableUnique<T(!new)>(cmp: Cmp<T>, s: seq<Node<T>>, t: seq<Node<T>>)
    requires TotalPreorder(cmp) && Sorted(cmp, s) && Sorted(cmp, t) && Stable(cmp, s, t)
    ensures s == t
    decreases |s|
  {
    if s != [] { StableMember(cmp, s, t, s[0]); }
    if t != [] { StableMember(cmp, t, s, t[0]); }
    if s != [] {
      SameHead(cmp, s, t);
      forall x ensures Ties(cmp, x, s[1..]) == Ties(cmp, x, t[1..]) { TailTies(cmp, x, s, t); }
      SortedStableUnique(cmp, s[1..], t[1..]);
      assert s == [s[0]] + s[1..] && t == [t[0]] + t[1..];
    }
  }

  /** A node of one of two stable arrangements is a node of the other. */
  lemma StableMember<T(!new)>(cmp: Cmp<T>, s: seq<Node<T>>, t: seq<Node<T>>, n: Node<T>)
    requires TotalPreorder(cmp) && Stable(cmp, s, t) && n in s
    ensures n in t
  {
    assert Ties(cmp, n.elem, s) == Ties(cmp, n.elem, t);
    TiesMembers(cmp, n.elem, s, n);
    TiesMembers(cmp, n.elem, t, n);
  }

  lemma SameHead<T(!new)>(cmp: Cmp<T>, s: seq<Node<T>>, t: seq<Node<T>>)
    requires TotalPreorder(cmp) && Sorted(cmp, s) && Sorted(cmp, t) && Stable(cmp, s, t)
    requires s != [] && t != []
    ensures s[0] == t[0]
  {
    var a, b := s[0].elem, t[0].elem;
    assert Ties(cmp, a, s) == Ties(cmp, a, t) && Ties(cmp, b, s) == Ties(cmp, b, t);
    StableMember(cmp, s, t, s[0]);
    StableMember(cmp, t, s, t[0]);
    assert s[0] in t && t[0] in s;
    assert Equivalent(cmp, a, b);
    assert Ties(cmp, a, s)[0] == s[0] && Ties(cmp, a, t)[0] == t[0];
  }
}
