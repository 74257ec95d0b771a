/** Reference-counted objects: the POCL_OBJECT attributes and the retain and release macros of
    lib/CL/pocl_cl.h, and the books that balance them. An object's counter is right when it
    equals the references the application holds, plus references the runtime took and never
    gives back, plus the references other objects hold, which are collected in a bag. */
module RefCounts {

  datatype Option<+T> = None | Some(value: T)

  /** An object of an arena. Identities are indices and are never reused; `live` turns false
      when the object is freed. `app` and `leaked` are books, not fields of the source. */
  datatype Obj<+T> = Obj(live: bool, refcount: int, app: nat, leaked: nat, data: T)

  type Bag = multiset<nat>

  /** All references found in a sequence. */
  function Collect<T>(s: seq<T>, refs: T -> Bag): Bag {
    if s == [] then multiset{} else refs(s[0]) + Collect(s[1..], refs)
  }

  lemma {:induction false} CollectAppend<T>(s: seq<T>, t: seq<T>, refs: T -> Bag)
    ensures Collect(s + t, refs) == Collect(s, refs) + Collect(t, refs)
  {
    if s == [] {
      assert s + t == t;
    } else {
      assert (s + t)[0] == s[0] && (s + t)[1..] == s[1..] + t;
      CollectAppend(s[1..], t, refs);
    }
  }

  lemma CollectSnoc<T>(s: seq<T>, x: T, refs: T -> Bag)
    ensures Collect(s + [x], refs) == Collect(s, refs) + refs(x)
  {
    CollectAppend(s, [x], refs);
    assert Collect([x], refs) == refs(x) + Collect([], refs);
  }

  lemma {:induction false} CollectUpdate<T>(s: seq<T>, i: nat, x: T, refs: T -> Bag)
    requires i < |s|
    ensures Collect(s[i := x], refs) + refs(s[i]) == Collect(s, refs) + refs(x)
  {
    var t := s[i := x];
    if i > 0 {
      assert s[1..][i - 1] == s[i] && t[0] == s[0] && t[1..] == s[1..][i - 1 := x];
      calc {
        Collect(t, refs) + refs(s[i]);
        refs(s[0]) + (Collect(t[1..], refs) + refs(s[i]));
        { CollectUpdate(s[1..], i - 1, x, refs); }
        refs(s[0]) + (Collect(s[1..], refs) + refs(x));
        Collect(s, refs) + refs(x);
      }
    } else {
      assert t[1..] == s[1..];
    }
  }

  lemma CollectSame<T>(s: seq<T>, i: nat, x: T, refs: T -> Bag)
    requires i < |s| && refs(s[i]) == refs(x)
    ensures Collect(s[i := x], refs) == Collect(s, refs)
  {
    CollectUpdate(s, i, x, refs);
    MultisetCancel(Collect(s[i := x], refs), Collect(s, refs), refs(x));
  }

  lemma {:induction false} CollectPointwise<S, T>(s: seq<S>, t: seq<T>, f: S -> Bag, g: T -> Bag)
    requires |s| == |t| && forall i :: 0 <= i < |s| ==> f(s[i]) == g(t[i])
    ensures Collect(s, f) == Collect(t, g)
  {
    if s != [] { CollectPointwise(s[1..], t[1..], f, g); }
  }

  lemma BagOut(a: Bag, r: Bag, b: Bag, c: Bag, x: nat)
    ensures a + (r + multiset{x}) + b + c == (a + r + b + c) + multiset{x}
    ensures a + (r + multiset{x}) + b + c == (a + r + c) + b + multiset{x}
  {
  }

  lemma BagSwap(a: Bag, n: Bag, r: Bag)
    ensures (a + n) + r == a + (r + n)
  {
  }

  /** What moves from one side to the other, common part aside. */
  lemma BagMoved(a: Bag, b: Bag, c: Bag, n: Bag)
    requires a + c == b + (c + n)
    ensures a == b + n
  {
    assert a + c == (b + n) + c;
    MultisetCancel(a, b + n, c);
  }

  lemma BagOrder(a: Bag, b: Bag, c: Bag)
    ensures a + b + c == a + c + b && a + (b + c) == a + b + c
  {
  }

  lemma MultisetCancel(a: Bag, b: Bag, c: Bag)
    requires a + c == b + c
    ensures a == b
  {
    assert forall x :: (a + c)[x] == a[x] + c[x] && (b + c)[x] == b[x] + c[x];
  }

  /** A reference found at one index is in the collected bag. */
  lemma {:induction false} CollectHas<T>(s: seq<T>, i: nat, refs: T -> Bag)
    requires i < |s|
    ensures refs(s[i]) <= Collect(s, refs)
  {
    if i > 0 { CollectHas(s[1..], i - 1, refs); }
  }

  // ----- the books -----

  predicate Owes<T>(o: Obj<T>, others: nat) {
    if o.live then o.refcount == o.app + o.leaked + others else o.app == o.leaked == others == 0
  }

  /** Every counter agrees with the references that exist, and no reference is to a freed object. */
  ghost predicate Balanced<T>(objs: seq<Obj<T>>, bag: Bag) {
    && (forall i {:trigger objs[i]} :: 0 <= i < |objs| ==> Owes(objs[i], bag[i]))
    && (forall i :: i in bag ==> i < |objs|)
  }

  predicate Alive<T>(objs: seq<Obj<T>>, i: nat) {
    i < |objs| && objs[i].live
  }

  /** The application may name an object it holds a reference to. */
  predicate Usable<T>(objs: seq<Obj<T>>, i: nat) {
    i < |objs| && objs[i].app > 0
  }

  /** POCL_INIT_OBJECT, and `leaked` further retains that nothing releases. */
  function Create<T>(objs: seq<Obj<T>>, data: T, leaked: nat): seq<Obj<T>> {
    objs + [Obj(true, 1 + leaked, 1, leaked, data)]
  }

  /** POCL_RETAIN_OBJECT. */
  function Retain<T>(objs: seq<Obj<T>>, i: nat): seq<Obj<T>> {
    if i < |objs| then objs[i := objs[i].(refcount := objs[i].refcount + 1)] else objs
  }

  /** POCL_RELEASE_OBJECT alone: the counter goes down, nothing is freed. */
  function Dec<T>(objs: seq<Obj<T>>, i: nat): seq<Obj<T>> {
    if i < |objs| then objs[i := objs[i].(refcount := objs[i].refcount - 1)] else objs
  }

  /** POCL_RELEASE_OBJECT followed by the free of an object whose new count is zero. */
  function Release<T>(objs: seq<Obj<T>>, i: nat): seq<Obj<T>> {
    if i < |objs| then
      objs[i := objs[i].(refcount := objs[i].refcount - 1, live := objs[i].live && objs[i].refcount != 1)]
    else objs
  }

  /** The caller takes, or gives up, one reference of its own. */
  function Take<T>(objs: seq<Obj<T>>, i: nat): seq<Obj<T>> {
    if i < |objs| then objs[i := objs[i].(app := objs[i].app + 1)] else objs
  }

  function GiveUp<T>(objs: seq<Obj<T>>, i: nat): seq<Obj<T>> {
    if Usable(objs, i) then objs[i := objs[i].(app := objs[i].app - 1)] else objs
  }

  /** A reference the runtime took is never given back. */
  function Leak<T>(objs: seq<Obj<T>>, i: nat): seq<Obj<T>> {
    if i < |objs| then objs[i := objs[i].(leaked := objs[i].leaked + 1)] else objs
  }

  function SetData<T>(objs: seq<Obj<T>>, i: nat, data: T): seq<Obj<T>> {
    if i < |objs| then objs[i := objs[i].(data := data)] else objs
  }

  lemma UsableIsAlive<T>(objs: seq<Obj<T>>, bag: Bag, i: nat)
    requires Balanced(objs, bag) && (Usable(objs, i) || i in bag)
    ensures Alive(objs, i) && objs[i].refcount > 0
  {
    assert Owes(objs[i], bag[i]);
  }

  lemma CreateBalanced<T>(objs: seq<Obj<T>>, bag: Bag, data: T, leaked: nat)
    requires Balanced(objs, bag)
    ensures Balanced(Create(objs, data, leaked), bag)
  {
    assert |objs| !in bag;
  }

  lemma RetainBalanced<T>(objs: seq<Obj<T>>, bag: Bag, i: nat)
    requires Balanced(objs, bag) && Alive(objs, i)
    ensures Balanced(Retain(objs, i), bag + multiset{i})
    ensures Balanced(Take(Retain(objs, i), i), bag)
    ensures Balanced(Leak(Retain(objs, i), i), bag)
  {
  }

  /** Giving back a reference that is on the books keeps them balanced; an object is freed
      exactly when it was the last one. */
  lemma ReleaseBalanced<T>(objs: seq<Obj<T>>, bag: Bag, i: nat)
    requires Balanced(objs, bag + multiset{i})
    ensures i < |objs| && Balanced(Release(objs, i), bag) && Balanced(Dec(objs, i), bag)
    ensures Alive(Release(objs, i), i) <==> objs[i].app + objs[i].leaked + bag[i] > 0
  {
    assert i in bag + multiset{i} && forall x :: x in bag ==> x in bag + multiset{i};
    assert Owes(objs[i], (bag + multiset{i})[i]);
  }

  lemma GiveUpBalanced<T>(objs: seq<Obj<T>>, bag: Bag, i: nat)
    requires Balanced(objs, bag) && Usable(objs, i)
    ensures Balanced(GiveUp(objs, i), bag + multiset{i})
    ensures Balanced(Release(GiveUp(objs, i), i), bag)
  {
    assert Owes(objs[i], bag[i]);
    ReleaseBalanced(GiveUp(objs, i), bag, i);
  }

  lemma LeakBalanced<T>(objs: seq<Obj<T>>, bag: Bag, i: nat)
    requires Balanced(objs, bag + multiset{i})
    ensures i < |objs| && Balanced(Leak(objs, i), bag)
  {
    assert i in bag + multiset{i} && forall x :: x in bag ==> x in bag + multiset{i};
  }

  lemma SetDataBalanced<T>(objs: seq<Obj<T>>, bag: Bag, i: nat, data: T)
    requires Balanced(objs, bag) && i < |objs|
    ensures Balanced(SetData(objs, i, data), bag)
  {
  }
}
