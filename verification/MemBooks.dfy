/** Memory objects, mappings and the commands that refer to them: in every reachable state a
    buffer's reference count equals the references that exist, and its map_count agrees with
    its mapping list and the map commands still pending. */
module MemBooks {
  import opened RefCounts
  import opened Runtime

  function NodeMems(n: Node): Bag { multiset(CommandMems(n.command)) }

  function QueueMems(o: Obj<QueueData>): Bag { Collect(o.data.pending, NodeMems) }

  /** Occurrences of each buffer in the pending read, write, copy and kernel nodes of all queues. */
  function PendingMems(queues: seq<Obj<QueueData>>): Bag { Collect(queues, QueueMems) }

  function NodeMaps(n: Node): Bag { if n.command.MapBuffer? then multiset{n.command.buffer} else multiset{} }

  function QueueMaps(o: Obj<QueueData>): Bag { Collect(o.data.pending, NodeMaps) }

  /** Pending map commands, by buffer. */
  function PendingMaps(queues: seq<Obj<QueueData>>): Bag { Collect(queues, QueueMaps) }

  function ParentRef(o: Obj<MemData>): Bag {
    if o.live && o.data.parent.Some? then multiset{o.data.parent.value} else multiset{}
  }

  /** Live sub-buffers, by parent. */
  function SubBuffers(mems: seq<Obj<MemData>>): Bag { Collect(mems, ParentRef) }

  function MappingRef(mp: Mapping): Bag { if mp.live then multiset{mp.buffer} else multiset{} }

  /** Live mappings, by buffer. */
  function LiveMappings(mappings: seq<Mapping>): Bag { Collect(mappings, MappingRef) }

  /** A mapping is live exactly when it is linked, once, into its own buffer's list. */
  ghost predicate ListsOk(mems: seq<Obj<MemData>>, mappings: seq<Mapping>) {
    && (forall m {:trigger mems[m]} :: 0 <= m < |mems| ==> NoDuplicates(mems[m].data.mappings))
    && (forall m, i {:trigger mems[m].data.mappings[i]} :: 0 <= m < |mems| && 0 <= i < |mems[m].data.mappings| ==>
          var id := mems[m].data.mappings[i];
          id < |mappings| && mappings[id].live && mappings[id].buffer == m)
    && (forall id {:trigger mappings[id]} :: 0 <= id < |mappings| && mappings[id].live ==>
          mappings[id].buffer < |mems| && id in mems[mappings[id].buffer].data.mappings)
  }

  /** Sub-buffers have one level: a parent is an older object without a parent. */
  ghost predicate ParentsOk(mems: seq<Obj<MemData>>) {
    forall m {:trigger mems[m]} :: 0 <= m < |mems| && mems[m].data.parent.Some? ==>
      mems[m].data.parent.value < m && mems[mems[m].data.parent.value].data.parent.None?
  }

  /** map_count plus the pending map commands is the length of the mapping list, up to what an
      uninitialised map_count started from. */
  ghost predicate CountsOk(mems: seq<Obj<MemData>>, maps: Bag) {
    && (forall m {:trigger mems[m]} :: 0 <= m < |mems| ==>
          mems[m].data.mapCount + maps[m] == mems[m].data.mapBase + |mems[m].data.mappings|)
    && forall m :: m in maps ==> m < |mems|
  }

  /** A pending map command's mapping is still linked. */
  ghost predicate MapNodeOk(n: Node, mappings: seq<Mapping>) {
    n.command.MapBuffer? ==>
      n.command.mapping < |mappings| && mappings[n.command.mapping].live
      && mappings[n.command.mapping].buffer == n.command.buffer
  }

  ghost predicate MapNodesOk(queues: seq<Obj<QueueData>>, mappings: seq<Mapping>) {
    forall q, i {:trigger queues[q].data.pending[i]} :: 0 <= q < |queues| && 0 <= i < |queues[q].data.pending| ==>
      MapNodeOk(queues[q].data.pending[i], mappings)
  }

  /** `refs` and `maps` are references and map counts in flight inside a call. */
  ghost predicate MemOk(s: State, refs: Bag, maps: Bag) {
    && Balanced(s.mems, PendingMems(s.queues) + refs + SubBuffers(s.mems) + LiveMappings(s.mappings))
    && ParentsOk(s.mems) && ListsOk(s.mems, s.mappings)
    && CountsOk(s.mems, PendingMaps(s.queues) + maps)
    && MapNodesOk(s.queues, s.mappings)
  }

  /** Between calls nothing is in flight. */
  ghost predicate MemInv(s: State) {
    MemOk(s, multiset{}, multiset{})
  }

  // ----- framing -----

  ghost predicate SamePending(a: seq<Obj<QueueData>>, b: seq<Obj<QueueData>>) {
    |a| == |b| && forall q {:trigger a[q]} {:trigger b[q]} :: 0 <= q < |a| ==> a[q].data.pending == b[q].data.pending
  }

  lemma SamePendingBags(a: seq<Obj<QueueData>>, b: seq<Obj<QueueData>>)
    requires SamePending(a, b)
    ensures PendingMems(a) == PendingMems(b) && PendingMaps(a) == PendingMaps(b)
  {
    CollectPointwise(a, b, QueueMems, QueueMems);
    CollectPointwise(a, b, QueueMaps, QueueMaps);
  }

  lemma MemFrame(s: State, t: State, refs: Bag, maps: Bag)
    requires MemOk(s, refs, maps)
    requires t.mems == s.mems && t.mappings == s.mappings && SamePending(s.queues, t.queues)
    ensures MemOk(t, refs, maps)
  {
    SamePendingBags(s.queues, t.queues);
  }

  // ----- releasing -----

  /** A buffer with no reference left has no mapping left, so the loop that frees the mappings
      of a destroyed buffer has nothing to free. */
  lemma UnreferencedHasNoMappings(s: State, m: nat)
    requires ListsOk(s.mems, s.mappings) && m < |s.mems| && m !in LiveMappings(s.mappings)
    ensures s.mems[m].data.mappings == []
  {
    if s.mems[m].data.mappings != [] {
      var id := s.mems[m].data.mappings[0];
      CollectHas(s.mappings, id, MappingRef);
    }
  }

  ghost predicate SameData(a: seq<Obj<MemData>>, b: seq<Obj<MemData>>) {
    |a| == |b| && forall m {:trigger a[m]} {:trigger b[m]} :: 0 <= m < |a| ==> a[m].data == b[m].data
  }

  /** The parts of the books that do not mention counters. */
  lemma DataFrame(a: seq<Obj<MemData>>, b: seq<Obj<MemData>>, mappings: seq<Mapping>, maps: Bag)
    requires SameData(a, b) && ParentsOk(a) && ListsOk(a, mappings) && CountsOk(a, maps)
    ensures ParentsOk(b) && ListsOk(b, mappings) && CountsOk(b, maps)
  {
  }

  /** What clReleaseMemObject comes to when the reference is on the books: the counters move
      and nothing else does. */
  lemma ReleaseMemShape(s: State, m: nat, refs: Bag, maps: Bag)
    requires MemOk(s, refs + multiset{m}, maps)
    ensures m < |s.mems|
    ensures var t := ReleaseMem(s, m); var ms := Release(s.mems, m);
      && t.mappings == s.mappings && SameData(s.mems, t.mems)
      && t.mems == if ms[m].refcount == 0 && s.mems[m].data.parent.Some? then Dec(ms, s.mems[m].data.parent.value) else ms
    ensures Release(s.mems, m)[m].live <==> Release(s.mems, m)[m].refcount != 0
  {
    hide PendingMems, SubBuffers, LiveMappings, PendingMaps, CountsOk, ParentsOk, MapNodesOk, ListsOk, Balanced;
    var bag := PendingMems(s.queues) + refs + SubBuffers(s.mems) + LiveMappings(s.mappings);
    BagOut(PendingMems(s.queues), refs, SubBuffers(s.mems), LiveMappings(s.mappings), m);
    ReleaseAtIndex(s.mems, bag, m);
    if Release(s.mems, m)[m].refcount == 0 {
      assert m !in LiveMappings(s.mappings);
      UnreferencedHasNoMappings(s, m);
    }
  }

  lemma ReleaseMemOk(s: State, m: nat, refs: Bag, maps: Bag)
    requires MemOk(s, refs + multiset{m}, maps)
    ensures MemOk(ReleaseMem(s, m), refs, maps) && SameData(s.mems, ReleaseMem(s, m).mems)
  {
    ReleaseMemShape(s, m, refs, maps);
    hide PendingMems, SubBuffers, LiveMappings, PendingMaps, CountsOk, ParentsOk, MapNodesOk, ListsOk, Balanced, ReleaseMem;
    var t := ReleaseMem(s, m);
    var rest := PendingMems(s.queues) + refs + LiveMappings(s.mappings);
    var ms := Release(s.mems, m);
    BagOut(PendingMems(s.queues), refs, SubBuffers(s.mems), LiveMappings(s.mappings), m);
    ReleaseBalanced(s.mems, rest + SubBuffers(s.mems), m);
    DataFrame(s.mems, t.mems, s.mappings, PendingMaps(s.queues) + maps);
    if ms[m].refcount == 0 && s.mems[m].data.parent.Some? {
      ParentGivenBack(s.mems, m, rest);
    } else {
      SameSubBuffers(s.mems, m, ms[m]);
    }
    BagOrder(PendingMems(s.queues) + refs, SubBuffers(t.mems), LiveMappings(s.mappings));
  }

  lemma SameSubBuffers(mems: seq<Obj<MemData>>, m: nat, o: Obj<MemData>)
    requires m < |mems| && ParentRef(mems[m]) == ParentRef(o)
    ensures SubBuffers(mems[m := o]) == SubBuffers(mems)
  {
    CollectSame(mems, m, o, ParentRef);
  }

  lemma ReleaseAtIndex(mems: seq<Obj<MemData>>, bag: Bag, m: nat)
    requires Balanced(mems, bag + multiset{m})
    ensures m < |mems| && mems[m].live && mems[m].refcount == mems[m].app + mems[m].leaked + bag[m] + 1
  {
    assert m in bag + multiset{m};
    assert Owes(mems[m], (bag + multiset{m})[m]);
  }

  /** The death of a sub-buffer takes one reference to its parent off the books, and
      clReleaseMemObject decrements the parent for it. */
  lemma ParentGivenBack(mems: seq<Obj<MemData>>, m: nat, rest: Bag)
    requires ParentsOk(mems) && m < |mems| && mems[m].live && mems[m].data.parent.Some?
    requires var ms := Release(mems, m); !ms[m].live && Balanced(ms, rest + SubBuffers(mems))
    ensures var t := Dec(Release(mems, m), mems[m].data.parent.value); Balanced(t, rest + SubBuffers(t))
  {
    var ms, p := Release(mems, m), mems[m].data.parent.value;
    CollectUpdate(mems, m, ms[m], ParentRef);
    hide Balanced, Collect, ParentsOk;
    assert SubBuffers(ms) + multiset{p} == SubBuffers(mems);
    BagOrder(rest, SubBuffers(ms), multiset{p});
    ReleaseBalanced(ms, rest + SubBuffers(ms), p);
    SameSubBuffers(ms, p, Dec(ms, p)[p]);
  }

  lemma {:induction false} ReleaseMemsOk(s: State, ms: seq<nat>, refs: Bag, maps: Bag)
    requires MemOk(s, refs + multiset(ms), maps)
    ensures MemOk(ReleaseMems(s, ms), refs, maps) && SameData(s.mems, ReleaseMems(s, ms).mems)
    decreases |ms|
  {
    hide MemOk, ReleaseMem;
    if ms == [] {
      assert refs + multiset(ms) == refs;
    } else {
      assert ms == [ms[0]] + ms[1..];
      assert refs + multiset(ms) == (refs + multiset(ms[1..])) + multiset{ms[0]};
      ReleaseMemOk(s, ms[0], refs + multiset(ms[1..]), maps);
      ReleaseMemsOk(ReleaseMem(s, ms[0]), ms[1..], refs, maps);
    }
  }

  // ----- retaining -----

  /** A change to an object's counters alone. */
  lemma CountersFrame(s: State, m: nat, o: Obj<MemData>, refs: Bag, refs': Bag, maps: Bag)
    requires MemOk(s, refs, maps) && m < |s.mems| && o.data == s.mems[m].data && o.live == s.mems[m].live
    requires Balanced(s.mems[m := o], PendingMems(s.queues) + refs' + SubBuffers(s.mems) + LiveMappings(s.mappings))
    ensures MemOk(s.(mems := s.mems[m := o]), refs', maps)
  {
    hide PendingMems, SubBuffers, LiveMappings, PendingMaps, CountsOk, ParentsOk, MapNodesOk, ListsOk, Balanced;
    SameSubBuffers(s.mems, m, o);
    DataFrame(s.mems, s.mems[m := o], s.mappings, PendingMaps(s.queues) + maps);
  }

  lemma RetainMemOk(s: State, m: nat, refs: Bag, maps: Bag)
    requires MemOk(s, refs, maps) && Alive(s.mems, m)
    ensures MemOk(s.(mems := Retain(s.mems, m)), refs + multiset{m}, maps)
    ensures MemOk(s.(mems := Take(Retain(s.mems, m), m)), refs, maps)
    ensures MemOk(s.(mems := Leak(Retain(s.mems, m), m)), refs, maps)
  {
    var bag := PendingMems(s.queues) + refs + SubBuffers(s.mems) + LiveMappings(s.mappings);
    RetainBalanced(s.mems, bag, m);
    hide PendingMems, SubBuffers, LiveMappings, PendingMaps, CountsOk, ParentsOk, MapNodesOk, ListsOk, Balanced, MemOk;
    BagOut(PendingMems(s.queues), refs, SubBuffers(s.mems), LiveMappings(s.mappings), m);
    CountersFrame(s, m, Retain(s.mems, m)[m], refs, refs + multiset{m}, maps);
    var t := Take(Retain(s.mems, m), m);
    assert t == s.mems[m := t[m]];
    CountersFrame(s, m, t[m], refs, refs, maps);
    var l := Leak(Retain(s.mems, m), m);
    assert l == s.mems[m := l[m]];
    CountersFrame(s, m, l[m], refs, refs, maps);
  }

  lemma LeakMemOk(s: State, m: nat, refs: Bag, maps: Bag)
    requires MemOk(s, refs + multiset{m}, maps)
    ensures MemOk(s.(mems := Leak(s.mems, m)), refs, maps)
  {
    var bag := PendingMems(s.queues) + refs + SubBuffers(s.mems) + LiveMappings(s.mappings);
    BagOut(PendingMems(s.queues), refs, SubBuffers(s.mems), LiveMappings(s.mappings), m);
    LeakBalanced(s.mems, bag, m);
    hide PendingMems, SubBuffers, LiveMappings, PendingMaps, CountsOk, ParentsOk, MapNodesOk, ListsOk, Balanced, MemOk;
    CountersFrame(s, m, Leak(s.mems, m)[m], refs + multiset{m}, refs, maps);
  }

  lemma GiveUpMemOk(s: State, m: nat, refs: Bag, maps: Bag)
    requires MemOk(s, refs, maps) && Usable(s.mems, m)
    ensures MemOk(s.(mems := GiveUp(s.mems, m)), refs + multiset{m}, maps)
  {
    var bag := PendingMems(s.queues) + refs + SubBuffers(s.mems) + LiveMappings(s.mappings);
    BagOut(PendingMems(s.queues), refs, SubBuffers(s.mems), LiveMappings(s.mappings), m);
    GiveUpBalanced(s.mems, bag, m);
    hide PendingMems, SubBuffers, LiveMappings, PendingMaps, CountsOk, ParentsOk, MapNodesOk, ListsOk, Balanced, MemOk;
    CountersFrame(s, m, GiveUp(s.mems, m)[m], refs, refs + multiset{m}, maps);
  }

  lemma UsableMem(s: State, m: nat, refs: Bag, maps: Bag)
    requires MemOk(s, refs, maps) && Usable(s.mems, m)
    ensures Alive(s.mems, m)
  {
    UsableIsAlive(s.mems, PendingMems(s.queues) + refs + SubBuffers(s.mems) + LiveMappings(s.mappings), m);
  }

  lemma {:induction false} RetainMemsOk(s: State, ms: seq<nat>, refs: Bag, maps: Bag)
    requires MemOk(s, refs, maps) && forall i :: 0 <= i < |ms| ==> Alive(s.mems, ms[i])
    ensures MemOk(RetainMems(s, ms), refs + multiset(ms), maps)
    ensures SameData(s.mems, RetainMems(s, ms).mems) && SameApps(s.mems, RetainMems(s, ms).mems)
    decreases |ms|
  {
    hide MemOk;
    if ms == [] {
      assert refs + multiset(ms) == refs;
    } else {
      assert ms == [ms[0]] + ms[1..];
      assert refs + multiset(ms) == (refs + multiset{ms[0]}) + multiset(ms[1..]);
      RetainMemOk(s, ms[0], refs, maps);
      RetainMemsOk(s.(mems := Retain(s.mems, ms[0])), ms[1..], refs + multiset{ms[0]}, maps);
    }
  }

  // ----- references held by a call while it runs -----

  ghost predicate SameApps<T>(a: seq<Obj<T>>, b: seq<Obj<T>>) {
    |a| == |b| && forall m {:trigger a[m]} {:trigger b[m]} :: 0 <= m < |a| ==> a[m].app == b[m].app
  }

  /** The caller holds `extra` references besides what it held in `a`. */
  ghost predicate Holds(a: seq<Obj<MemData>>, b: seq<Obj<MemData>>, extra: Bag) {
    |a| == |b| && (forall m {:trigger a[m]} {:trigger b[m]} :: 0 <= m < |a| ==> b[m].app == a[m].app + extra[m])
    && forall m :: m in extra ==> m < |a|
  }

  lemma {:induction false} TakeMemsOk(s: State, ms: seq<nat>, refs: Bag, maps: Bag)
    requires MemOk(s, refs, maps) && forall i :: 0 <= i < |ms| ==> Usable(s.mems, ms[i])
    ensures MemOk(TakeMems(s, ms), refs, maps)
    ensures Holds(s.mems, TakeMems(s, ms).mems, multiset(ms)) && SameData(s.mems, TakeMems(s, ms).mems)
    decreases |ms|
  {
    hide MemOk;
    if ms != [] {
      assert ms == [ms[0]] + ms[1..];
      assert multiset(ms) == multiset{ms[0]} + multiset(ms[1..]);
      var t := s.(mems := Take(Retain(s.mems, ms[0]), ms[0]));
      UsableMem(s, ms[0], refs, maps);
      RetainMemOk(s, ms[0], refs, maps);
      TakeMemsOk(t, ms[1..], refs, maps);
    }
  }

  lemma {:induction false} DropMemsOk(s: State, ms: seq<nat>, before: seq<Obj<MemData>>, refs: Bag, maps: Bag)
    requires MemOk(s, refs, maps) && Holds(before, s.mems, multiset(ms))
    ensures MemOk(DropMems(s, ms), refs, maps) && SameApps(before, DropMems(s, ms).mems)
    ensures SameData(s.mems, DropMems(s, ms).mems)
    decreases |ms|
  {
    hide MemOk, ReleaseMem;
    if ms != [] {
      assert ms == [ms[0]] + ms[1..];
      assert multiset(ms) == multiset{ms[0]} + multiset(ms[1..]);
      assert ms[0] in multiset(ms);
      var t := s.(mems := GiveUp(s.mems, ms[0]));
      GiveUpMemOk(s, ms[0], refs, maps);
      ReleaseMemOk(t, ms[0], refs, maps);
      ReleaseMemApps(t, ms[0]);
      HoldsLess(before, s.mems, ReleaseMem(t, ms[0]).mems, ms);
      DropMemsOk(ReleaseMem(t, ms[0]), ms[1..], before, refs, maps);
    }
  }

  lemma HoldsLess(before: seq<Obj<MemData>>, a: seq<Obj<MemData>>, b: seq<Obj<MemData>>, ms: seq<nat>)
    requires ms != [] && Holds(before, a, multiset(ms)) && SameApps(GiveUp(a, ms[0]), b)
    ensures Holds(before, b, multiset(ms[1..]))
  {
    assert ms == [ms[0]] + ms[1..];
    assert multiset(ms) == multiset{ms[0]} + multiset(ms[1..]);
    assert forall m :: multiset(ms)[m] == multiset{ms[0]}[m] + multiset(ms[1..])[m];
    assert ms[0] in multiset(ms);
    assert a[ms[0]].app > 0;
  }

  lemma ReleaseMemApps(s: State, m: nat)
    ensures SameApps(s.mems, ReleaseMem(s, m).mems)
  {
  }

  lemma {:induction false} ReleaseMemsApps(s: State, ms: seq<nat>)
    ensures SameApps(s.mems, ReleaseMems(s, ms).mems)
    decreases |ms|
  {
    hide ReleaseMem;
    if ms != [] {
      ReleaseMemApps(s, ms[0]);
      ReleaseMemsApps(ReleaseMem(s, ms[0]), ms[1..]);
    }
  }

  // ----- the queue -----

  lemma SetPendingBags(s: State, q: nat, nodes: seq<Node>)
    requires q < |s.queues|
    ensures PendingMems(SetPending(s, q, nodes).queues) + Collect(Pending(s, q), NodeMems)
         == PendingMems(s.queues) + Collect(nodes, NodeMems)
    ensures PendingMaps(SetPending(s, q, nodes).queues) + Collect(Pending(s, q), NodeMaps)
         == PendingMaps(s.queues) + Collect(nodes, NodeMaps)
  {
    var o := SetPending(s, q, nodes).queues[q];
    CollectUpdate(s.queues, q, o, QueueMems);
    CollectUpdate(s.queues, q, o, QueueMaps);
  }

  lemma AppendBags(s: State, q: nat, n: Node)
    requires q < |s.queues|
    ensures var t := SetPending(s, q, Pending(s, q) + [n]);
      PendingMems(t.queues) == PendingMems(s.queues) + NodeMems(n) && PendingMaps(t.queues) == PendingMaps(s.queues) + NodeMaps(n)
  {
    var p := Pending(s, q);
    SetPendingBags(s, q, p + [n]);
    CollectSnoc(p, n, NodeMems);
    CollectSnoc(p, n, NodeMaps);
    hide Collect, PendingMems, PendingMaps, NodeMems, NodeMaps;
    var t := SetPending(s, q, p + [n]);
    BagMoved(PendingMems(t.queues), PendingMems(s.queues), Collect(p, NodeMems), NodeMems(n));
    BagMoved(PendingMaps(t.queues), PendingMaps(s.queues), Collect(p, NodeMaps), NodeMaps(n));
  }

  lemma PopBags(s: State, q: nat)
    requires Pending(s, q) != []
    ensures var n, t := Pending(s, q)[0], SetPending(s, q, Pending(s, q)[1..]);
      PendingMems(s.queues) == PendingMems(t.queues) + NodeMems(n) && PendingMaps(s.queues) == PendingMaps(t.queues) + NodeMaps(n)
  {
    var p := Pending(s, q);
    var n, t := p[0], SetPending(s, q, p[1..]);
    SetPendingBags(s, q, p[1..]);
    assert Collect(p, NodeMems) == NodeMems(n) + Collect(p[1..], NodeMems);
    assert Collect(p, NodeMaps) == NodeMaps(n) + Collect(p[1..], NodeMaps);
    hide Collect, PendingMems, PendingMaps, NodeMems, NodeMaps;
    BagOrder(PendingMems(t.queues), NodeMems(n), Collect(p[1..], NodeMems));
    BagMoved(PendingMems(s.queues), PendingMems(t.queues), Collect(p[1..], NodeMems), NodeMems(n));
    BagMoved(PendingMaps(s.queues), PendingMaps(t.queues), Collect(p[1..], NodeMaps), NodeMaps(n));
  }

  lemma SetPendingMapNodes(s: State, q: nat, nodes: seq<Node>)
    requires MapNodesOk(s.queues, s.mappings) && forall i :: 0 <= i < |nodes| ==> MapNodeOk(nodes[i], s.mappings)
    ensures MapNodesOk(SetPending(s, q, nodes).queues, s.mappings)
  {
    hide MapNodeOk;
  }

  /** Appending a node moves its references from the call to the queue. */
  lemma AppendOk(s: State, q: nat, c: Command, event: Option<nat>, refs: Bag, maps: Bag)
    requires q < |s.queues| && MapNodeOk(Node(s.nodes, c, event), s.mappings)
    requires var n := Node(s.nodes, c, event); MemOk(s, refs + NodeMems(n), maps + NodeMaps(n))
    ensures MemOk(Append(s, q, c, event), refs, maps)
  {
    var n, t := Node(s.nodes, c, event), Append(s, q, c, event);
    AppendBags(s, q, n);
    assert t.queues == SetPending(s, q, Pending(s, q) + [n]).queues;
    assert forall i :: 0 <= i < |Pending(s, q)| ==> MapNodeOk(s.queues[q].data.pending[i], s.mappings);
    SetPendingMapNodes(s, q, Pending(s, q) + [n]);
    hide PendingMems, PendingMaps, NodeMems, NodeMaps, SubBuffers, LiveMappings, Balanced, CountsOk, ParentsOk, ListsOk, MapNodesOk;
    BagSwap(PendingMems(s.queues), NodeMems(n), refs);
    BagSwap(PendingMaps(s.queues), NodeMaps(n), maps);
  }

  /** Taking the first node off the list moves its references to the drain. */
  lemma PopOk(s: State, q: nat, refs: Bag, maps: Bag)
    requires MemOk(s, refs, maps) && Pending(s, q) != []
    ensures var n := Pending(s, q)[0];
      MemOk(SetPending(s, q, Pending(s, q)[1..]), refs + NodeMems(n), maps + NodeMaps(n)) && MapNodeOk(n, s.mappings)
  {
    var n, t := Pending(s, q)[0], SetPending(s, q, Pending(s, q)[1..]);
    PopBags(s, q);
    assert forall i :: 0 <= i < |Pending(s, q)| ==> MapNodeOk(s.queues[q].data.pending[i], s.mappings);
    SetPendingMapNodes(s, q, Pending(s, q)[1..]);
    hide PendingMems, PendingMaps, NodeMems, NodeMaps, SubBuffers, LiveMappings, Balanced, CountsOk, ParentsOk, ListsOk, MapNodesOk;
    BagSwap(PendingMems(t.queues), NodeMems(n), refs);
    BagSwap(PendingMaps(t.queues), NodeMaps(n), maps);
  }

  lemma CountMapOk(s: State, m: nat, refs: Bag, maps: Bag)
    requires MemOk(s, refs, maps + multiset{m}) && m < |s.mems|
    ensures MemOk(CountMap(s, m, 1), refs, maps)
  {
    hide PendingMems, PendingMaps, SubBuffers, LiveMappings, Balanced, CountsOk, MapNodesOk, ListsOk, ParentsOk;
    var t := CountMap(s, m, 1);
    SetDataBalanced(s.mems, PendingMems(s.queues) + refs + SubBuffers(s.mems) + LiveMappings(s.mappings), m, t.mems[m].data);
    SameSubBuffers(s.mems, m, t.mems[m]);
    BagOrder(PendingMaps(s.queues), maps, multiset{m});
    CountMapCounts(s.mems, t.mems, m, PendingMaps(s.queues) + maps);
    ShapeFrame(s.mems, t.mems, s.mappings);
  }

  lemma ShapeFrame(a: seq<Obj<MemData>>, b: seq<Obj<MemData>>, mappings: seq<Mapping>)
    requires ParentsOk(a) && ListsOk(a, mappings) && |a| == |b|
    requires forall m :: 0 <= m < |a| ==> a[m].data.mappings == b[m].data.mappings && a[m].data.parent == b[m].data.parent
    ensures ParentsOk(b) && ListsOk(b, mappings)
  {
  }

  lemma CountMapCounts(a: seq<Obj<MemData>>, b: seq<Obj<MemData>>, m: nat, maps: Bag)
    requires m < |a| && b == SetData(a, m, a[m].data.(mapCount := a[m].data.mapCount + 1))
    requires CountsOk(a, maps + multiset{m})
    ensures CountsOk(b, maps)
  {
    assert forall x :: (maps + multiset{m})[x] == maps[x] + if x == m then 1 else 0;
    assert forall x :: x in maps ==> x in maps + multiset{m};
  }

  // ----- draining -----

  /** The objects keep their identity, and what the application holds stays, through a drain. */
  ghost predicate Steady(a: seq<Obj<MemData>>, b: seq<Obj<MemData>>) {
    SameApps(a, b) && forall m {:trigger a[m]} {:trigger b[m]} :: 0 <= m < |a| ==>
      b[m].data == a[m].data.(mapCount := b[m].data.mapCount, mappings := b[m].data.mappings)
  }

  lemma FinalizeMems(s: State, d: QueueData, c: Command)
    ensures var t := ReleaseMems(s, CommandMems(c)); var r := Finalize(s, d, c);
      r.mappings == t.mappings && r.mems == if c.MapBuffer? then CountMap(t, c.buffer, 1).mems else t.mems
  {
  }

  lemma PerformFrame(s: State, event: Option<nat>, op: Op)
    ensures var t := Perform(s, event, op); t == s.(events := t.events, log := s.log + [op]) && |t.events| == |s.events|
  {
  }

  lemma ExecuteOk(s: State, d: QueueData, n: Node, refs: Bag, maps: Bag)
    requires MemOk(s, refs + NodeMems(n), maps + NodeMaps(n)) && MapNodeOk(n, s.mappings)
    ensures MemOk(Execute(s, d, n), refs, maps) && Steady(s.mems, Execute(s, d, n).mems)
  {
    hide MemOk, Finalize, Perform, MapNodeOk, ReleaseMems;
    var r := Execute(s, d, n);
    if n.command.Marker? {
      assert refs + NodeMems(n) == refs && maps + NodeMaps(n) == maps;
      MemFrame(s, r, refs, maps);
    } else {
      var op := CommandOp(s, d.devId, n.command);
      var s1 := Perform(s, n.event, op);
      PerformFrame(s, n.event, op);
      MemFrame(s, s1, refs + NodeMems(n), maps + NodeMaps(n));
      FinalizeOk(s1, d, n, refs, maps);
    }
  }

  lemma FinalizeOk(s: State, d: QueueData, n: Node, refs: Bag, maps: Bag)
    requires MemOk(s, refs + NodeMems(n), maps + NodeMaps(n)) && MapNodeOk(n, s.mappings)
    ensures MemOk(Finalize(s, d, n.command), refs, maps) && Steady(s.mems, Finalize(s, d, n.command).mems)
  {
    hide MemOk, Finalize, ReleaseMems, CommandMems;
    var t, r := ReleaseMems(s, CommandMems(n.command)), Finalize(s, d, n.command);
    FinalizeMems(s, d, n.command);
    ReleaseMemsOk(s, CommandMems(n.command), refs, maps + NodeMaps(n));
    ReleaseMemsApps(s, CommandMems(n.command));
    if n.command.MapBuffer? {
      var m := n.command.buffer;
      MappedBufferExists(s, n, refs + NodeMems(n), maps + NodeMaps(n));
      CountMapOk(t, m, refs, maps);
      MemFrame(CountMap(t, m, 1), r, refs, maps);
    } else {
      assert maps + NodeMaps(n) == maps;
      MemFrame(t, r, refs, maps);
    }
  }

  lemma MappedBufferExists(s: State, n: Node, refs: Bag, maps: Bag)
    requires MemOk(s, refs, maps) && MapNodeOk(n, s.mappings) && n.command.MapBuffer?
    ensures n.command.buffer < |s.mems|
  {
    var id := n.command.mapping;
    assert s.mappings[id].live;
  }

  lemma ExecuteHeadOk(s: State, q: nat, refs: Bag, maps: Bag)
    requires MemOk(s, refs, maps) && Pending(s, q) != []
    ensures MemOk(ExecuteHead(s, q), refs, maps) && Steady(s.mems, ExecuteHead(s, q).mems)
  {
    PopOk(s, q, refs, maps);
    hide MemOk, Execute;
    ExecuteOk(SetPending(s, q, Pending(s, q)[1..]), s.queues[q].data, Pending(s, q)[0], refs, maps);
  }

  lemma {:induction false} FinishOk(s: State, q: nat, refs: Bag, maps: Bag)
    requires MemOk(s, refs, maps)
    ensures MemOk(Finish(s, q), refs, maps) && Steady(s.mems, Finish(s, q).mems)
    decreases |Pending(s, q)|
  {
    hide MemOk, ExecuteHead;
    if Pending(s, q) != [] {
      ExecuteHeadOk(s, q, refs, maps);
      FinishOk(ExecuteHead(s, q), q, refs, maps);
    }
  }

  lemma {:induction false} WaitOk(s: State, es: seq<nat>, refs: Bag, maps: Bag)
    requires MemOk(s, refs, maps)
    ensures MemOk(WaitForEvents(s, es), refs, maps) && Steady(s.mems, WaitForEvents(s, es).mems)
    decreases |es|
  {
    hide MemOk, Finish;
    if es != [] {
      var t := if es[0] < |s.events| then Finish(s, s.events[es[0]].data.queue) else s;
      if es[0] < |s.events| { FinishOk(s, s.events[es[0]].data.queue, refs, maps); }
      WaitOk(t, es[1..], refs, maps);
    }
  }

  // ----- creating -----

  lemma SubBuffersSnoc(mems: seq<Obj<MemData>>, o: Obj<MemData>)
    ensures SubBuffers(mems + [o]) == SubBuffers(mems) + ParentRef(o)
  {
    CollectSnoc(mems, o, ParentRef);
  }

  /** The shape invariants admit a new object without mappings. */
  lemma CreateShape(mems: seq<Obj<MemData>>, o: Obj<MemData>, mappings: seq<Mapping>, maps: Bag)
    requires ParentsOk(mems) && ListsOk(mems, mappings) && CountsOk(mems, maps)
    requires o.data.mappings == [] && o.data.mapCount == o.data.mapBase
    requires o.data.parent.Some? ==> o.data.parent.value < |mems| && mems[o.data.parent.value].data.parent.None?
    ensures ParentsOk(mems + [o]) && ListsOk(mems + [o], mappings) && CountsOk(mems + [o], maps)
  {
    assert |mems| !in maps;
  }

  lemma CreateMemOk(s: State, d: MemData, leaked: nat)
    requires MemInv(s) && d.mappings == [] && d.mapCount == d.mapBase && d.parent.None?
    ensures MemInv(s.(mems := Create(s.mems, d, leaked)))
  {
    hide PendingMems, PendingMaps, SubBuffers, LiveMappings, Balanced, CountsOk, MapNodesOk, ListsOk, ParentsOk;
    var o := Obj(true, 1 + leaked, 1, leaked, d);
    CreateBalanced(s.mems, PendingMems(s.queues) + multiset{} + SubBuffers(s.mems) + LiveMappings(s.mappings), d, leaked);
    SubBuffersSnoc(s.mems, o);
    assert SubBuffers(s.mems) + multiset{} == SubBuffers(s.mems);
    CreateShape(s.mems, o, s.mappings, PendingMaps(s.queues) + multiset{});
  }

  /** A new sub-buffer retains its parent. */
  lemma CreateSubOk(s: State, d: MemData, p: nat)
    requires MemInv(s) && d.mappings == [] && d.mapCount == d.mapBase && d.parent == Some(p)
    requires Alive(s.mems, p) && s.mems[p].data.parent.None?
    ensures MemInv(s.(mems := Retain(Create(s.mems, d, 0), p)))
  {
    hide PendingMems, PendingMaps, SubBuffers, LiveMappings, Balanced, CountsOk, MapNodesOk, ListsOk, ParentsOk;
    var o := Obj(true, 1, 1, 0, d);
    var ms, t := s.mems + [o], Retain(Create(s.mems, d, 0), p);
    var a, b, c := PendingMems(s.queues) + multiset{}, SubBuffers(s.mems), LiveMappings(s.mappings);
    CreateBalanced(s.mems, a + b + c, d, 0);
    RetainBalanced(ms, a + b + c, p);
    SubBuffersSnoc(s.mems, o);
    SameSubBuffers(ms, p, t[p]);
    assert a + (b + multiset{p}) + c == a + b + c + multiset{p};
    CreateShape(s.mems, o, s.mappings, PendingMaps(s.queues) + multiset{});
    DataFrame(ms, t, s.mappings, PendingMaps(s.queues) + multiset{});
  }

  // ----- mapping and unmapping -----

  lemma AddMappingOk(s: State, m: nat, mp: Mapping)
    requires MemOk(s, multiset{m}, multiset{}) && m < |s.mems| && mp.live && mp.buffer == m
    ensures MemOk(AddMapping(s, m, mp), multiset{}, multiset{m})
  {
    hide PendingMems, PendingMaps, SubBuffers, LiveMappings, Balanced, CountsOk, MapNodesOk, ListsOk, ParentsOk;
    var t := AddMapping(s, m, mp);
    var a, b, c := PendingMems(s.queues), SubBuffers(s.mems), LiveMappings(s.mappings);
    SetDataBalanced(s.mems, a + multiset{m} + b + c, m, t.mems[m].data);
    SameSubBuffers(s.mems, m, t.mems[m]);
    LiveMappingsSnoc(s.mappings, mp);
    assert a + multiset{m} + b + c == a + multiset{} + b + (c + multiset{m});
    AddMappingShape(s.mems, s.mappings, m, mp);
    AddMappingCounts(s.mems, t.mems, m, |s.mappings|, PendingMaps(s.queues));
    assert PendingMaps(s.queues) + multiset{} == PendingMaps(s.queues);
    MapNodesGrow(s.queues, s.mappings, mp);
  }

  lemma LiveMappingsSnoc(mappings: seq<Mapping>, mp: Mapping)
    ensures LiveMappings(mappings + [mp]) == LiveMappings(mappings) + MappingRef(mp)
  {
    CollectSnoc(mappings, mp, MappingRef);
  }

  lemma MapNodesGrow(queues: seq<Obj<QueueData>>, mappings: seq<Mapping>, mp: Mapping)
    requires MapNodesOk(queues, mappings)
    ensures MapNodesOk(queues, mappings + [mp])
  {
  }

  lemma AddMappingShape(mems: seq<Obj<MemData>>, mappings: seq<Mapping>, m: nat, mp: Mapping)
    requires ParentsOk(mems) && ListsOk(mems, mappings) && m < |mems| && mp.live && mp.buffer == m
    ensures var d := mems[m].data; var ms := SetData(mems, m, d.(mappings := d.mappings + [|mappings|]));
      ParentsOk(ms) && ListsOk(ms, mappings + [mp])
  {
    var d := mems[m].data;
    var ms := SetData(mems, m, d.(mappings := d.mappings + [|mappings|]));
    var mps := mappings + [mp];
    assert forall i :: 0 <= i < |d.mappings| ==> mems[m].data.mappings[i] < |mappings|;
    assert ms[m].data.mappings[|d.mappings|] == |mappings|;
    forall id | 0 <= id < |mps| && mps[id].live
      ensures mps[id].buffer < |ms| && id in ms[mps[id].buffer].data.mappings
    {
      if id < |mappings| { assert mappings[id].live; }
    }
  }

  lemma AddMappingCounts(a: seq<Obj<MemData>>, b: seq<Obj<MemData>>, m: nat, id: nat, maps: Bag)
    requires m < |a| && b == SetData(a, m, a[m].data.(mappings := a[m].data.mappings + [id])) && CountsOk(a, maps + multiset{})
    ensures CountsOk(b, maps + multiset{m})
  {
    assert maps + multiset{} == maps;
    assert forall x :: (maps + multiset{m})[x] == maps[x] + if x == m then 1 else 0;
  }

  /** The mapping that clEnqueueUnmapMemObject would unlink has a map command still pending. */
  ghost predicate MapStillPending(s: State, id: nat) {
    exists q, i :: 0 <= q < |s.queues| && 0 <= i < |s.queues[q].data.pending|
      && s.queues[q].data.pending[i].command.MapBuffer? && s.queues[q].data.pending[i].command.mapping == id
  }

  /** Unlinking a mapping whose map command has run, and counting it off. */
  lemma UnmapShape(s: State, m: nat, id: nat)
    requires MemInv(s) && m < |s.mems| && id in s.mems[m].data.mappings && !MapStillPending(s, id)
    ensures MemOk(CountMap(RemoveMapping(s, m, id), m, -1), multiset{m}, multiset{})
  {
    hide PendingMems, PendingMaps, SubBuffers, LiveMappings, Balanced, CountsOk, MapNodesOk, ListsOk, ParentsOk;
    ListedMapping(s.mems, s.mappings, m, id);
    var d := s.mems[m].data;
    var t := CountMap(RemoveMapping(s, m, id), m, -1);
    var d' := d.(mappings := Unlink(d.mappings, id), mapCount := d.mapCount - 1);
    assert t.mems == SetData(s.mems, m, d');
    var a, b, c := PendingMems(s.queues), SubBuffers(s.mems), LiveMappings(s.mappings);
    SetDataBalanced(s.mems, a + multiset{} + b + c, m, d');
    SameSubBuffers(s.mems, m, t.mems[m]);
    LiveMappingsRemove(s.mappings, id);
    assert a + multiset{} + b + c == a + multiset{m} + b + LiveMappings(t.mappings);
    RemoveMappingShape(s.mems, s.mappings, m, id, d');
    RemoveMappingCounts(s.mems, t.mems, m, d', id, PendingMaps(s.queues) + multiset{});
    MapNodesShrink(s, id);
  }

  lemma ListedMapping(mems: seq<Obj<MemData>>, mappings: seq<Mapping>, m: nat, id: nat)
    requires ListsOk(mems, mappings) && m < |mems| && id in mems[m].data.mappings
    ensures id < |mappings| && mappings[id].live && mappings[id].buffer == m
    ensures NoDuplicates(mems[m].data.mappings)
  {
    var i :| 0 <= i < |mems[m].data.mappings| && mems[m].data.mappings[i] == id;
  }

  lemma LiveMappingsRemove(mappings: seq<Mapping>, id: nat)
    requires id < |mappings| && mappings[id].live
    ensures LiveMappings(mappings) == LiveMappings(mappings[id := mappings[id].(live := false)]) + multiset{mappings[id].buffer}
  {
    CollectUpdate(mappings, id, mappings[id].(live := false), MappingRef);
  }

  lemma MapNodesShrink(s: State, id: nat)
    requires MapNodesOk(s.queues, s.mappings) && id < |s.mappings| && !MapStillPending(s, id)
    ensures MapNodesOk(s.queues, s.mappings[id := s.mappings[id].(live := false)])
  {
  }

  lemma RemoveMappingShape(mems: seq<Obj<MemData>>, mappings: seq<Mapping>, m: nat, id: nat, d': MemData)
    requires ParentsOk(mems) && ListsOk(mems, mappings) && m < |mems| && id in mems[m].data.mappings
    requires id < |mappings| && mappings[id].buffer == m
    requires d'.mappings == Unlink(mems[m].data.mappings, id) && d'.parent == mems[m].data.parent
    ensures var ms, mps := SetData(mems, m, d'), mappings[id := mappings[id].(live := false)]; ParentsOk(ms) && ListsOk(ms, mps)
  {
    var ms, mps := SetData(mems, m, d'), mappings[id := mappings[id].(live := false)];
    UnlinkFacts(mems[m].data.mappings, id);
    forall x, i | 0 <= x < |ms| && 0 <= i < |ms[x].data.mappings|
      ensures var y := ms[x].data.mappings[i]; y < |mps| && mps[y].live && mps[y].buffer == x
    {
      var y := ms[x].data.mappings[i];
      ListedMapping(mems, mappings, x, y);
    }
    forall y | 0 <= y < |mps| && mps[y].live
      ensures mps[y].buffer < |ms| && y in ms[mps[y].buffer].data.mappings
    {
      assert mappings[y].live;
    }
  }

  lemma RemoveMappingCounts(a: seq<Obj<MemData>>, b: seq<Obj<MemData>>, m: nat, d': MemData, id: nat, maps: Bag)
    requires m < |a| && id in a[m].data.mappings && NoDuplicates(a[m].data.mappings) && CountsOk(a, maps)
    requires b == SetData(a, m, d') && d'.mappings == Unlink(a[m].data.mappings, id)
    requires d'.mapCount == a[m].data.mapCount - 1 && d'.mapBase == a[m].data.mapBase
    ensures CountsOk(b, maps)
  {
    UnlinkFacts(a[m].data.mappings, id);
  }
}
