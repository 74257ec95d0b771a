/** The run that drains the queue after every call, and why its log is what eager execution of the
    deferred run would issue: what a call does to memory depends only on things that neither
    deferring nor executing a command changes. */
module Eager {
  import opened RefCounts
  import opened Runtime
  import opened Frames
  import opened SimBooks
  import opened SimCalls
  import opened Tables
  import opened Simulation
  import opened Deferral

  // ----- what the operations of a call depend on -----

  ghost predicate SamePlaces(s: State, t: State) {
    |s.mems| == |t.mems| && MemsGrow(s.mems, t.mems) && |s.queues| == |t.queues| && QueuesGrow(s.queues, t.queues)
  }

  ghost predicate Alike(s: State, t: State) {
    SamePlaces(s, t) && SameTables(s, t)
  }

  lemma AlikeTrans(s: State, t: State, u: State)
    requires Alike(s, t) && Alike(t, u)
    ensures Alike(s, u)
  {
    assert forall m :: 0 <= m < |s.mems| ==> SameFixed(t.mems[m].data, u.mems[m].data);
    assert forall q :: 0 <= q < |s.queues| ==> SameDevice(t.queues[q].data, u.queues[q].data);
    assert forall k :: 0 <= k < |s.kernels| ==> SameKernel(t.kernels[k].data, u.kernels[k].data);
    assert forall p :: 0 <= p < |s.programs| ==> t.programs[p].data.context == u.programs[p].data.context;
    assert forall i :: 0 <= i < |s.blocks| ==> OfAKernel(t.blocks[i]) || OfAKernel(u.blocks[i]) ==> t.blocks[i] == u.blocks[i];
  }

  lemma AlikeBack(s: State, t: State)
    requires Alike(s, t)
    ensures Alike(t, s)
  {
  }

  /** Two alike states stay alike when each goes to a state that is alike. */
  lemma AlikeBoth(s: State, s': State, e: State, e': State)
    requires Alike(s, e) && Alike(s, s') && Alike(e, e')
    ensures Alike(s', e')
  {
    AlikeBack(s, s');
    AlikeTrans(s', s, e);
    AlikeTrans(s', e, e');
  }

  lemma {:induction false} LoadAlike(s: State, e: State, k: nat)
    requires SameTables(s, e) && KernelArgsOk(s.kernels, s.blocks) && k < |s.kernels|
    ensures LoadAll(s.blocks, s.kernels[k].data.arguments) == LoadAll(e.blocks, e.kernels[k].data.arguments)
    ensures forall i :: 0 <= i < |s.kernels[k].data.arguments| ==>
      Load(s.blocks, s.kernels[k].data.arguments[i]) == Load(e.blocks, s.kernels[k].data.arguments[i])
  {
    var args := s.kernels[k].data.arguments;
    assert SameKernel(s.kernels[k].data, e.kernels[k].data);
    forall i | 0 <= i < |args| ensures Load(s.blocks, args[i]) == Load(e.blocks, args[i]) {
      assert Owned(s.blocks, s.kernels[k].data.arguments[i].block, OfKernel(k, i));
      if args[i].block.Some? { assert OfAKernel(s.blocks[args[i].block.value]); }
    }
  }

  /** Alike states accept the same calls, and the calls do the same to memory. */
  lemma AcceptedAlike(s: State, e: State, c: Call)
    requires Alike(s, e) && !c.EnqueueUnmap?
    ensures Accepted(s, c) == Accepted(e, c)
  {
    if c.EnqueueCopy? || c.EnqueueCopyRect? {
      assert c.src < |s.mems| ==> SameFixed(s.mems[c.src].data, e.mems[c.src].data);
      assert c.dst < |s.mems| ==> SameFixed(s.mems[c.dst].data, e.mems[c.dst].data);
      assert c.q < |s.queues| ==> SameDevice(s.queues[c.q].data, e.queues[c.q].data);
    } else if c.CreateSubBuffer? {
      assert c.m < |s.mems| ==> SameFixed(s.mems[c.m].data, e.mems[c.m].data);
    } else if c.EnqueueRead? || c.EnqueueWrite? || c.EnqueueReadRect? || c.EnqueueWriteRect? || c.EnqueueMap? {
      assert c.m < |s.mems| ==> SameFixed(s.mems[c.m].data, e.mems[c.m].data);
      assert c.q < |s.queues| ==> SameDevice(s.queues[c.q].data, e.queues[c.q].data);
    } else if c.EnqueueKernel? {
      assert c.k < |s.kernels| ==> SameKernel(s.kernels[c.k].data, e.kernels[c.k].data);
      assert c.q < |s.queues| ==> SameDevice(s.queues[c.q].data, e.queues[c.q].data);
    } else if c.SetKernelArg? {
      assert c.k < |s.kernels| ==> SameKernel(s.kernels[c.k].data, e.kernels[c.k].data);
    }
  }

  lemma PointersAlike(s: State, e: State, m: nat, q: nat)
    requires SamePlaces(s, e)
    ensures DevicePtr(s, m, DevId(s, q)) == DevicePtr(e, m, DevId(e, q)) && DevicePtr(s, m, DevIndex(s, q)) == DevicePtr(e, m, DevIndex(e, q))
  {
    assert m < |s.mems| ==> SameFixed(s.mems[m].data, e.mems[m].data);
    assert q < |s.queues| ==> SameDevice(s.queues[q].data, e.queues[q].data);
  }

  lemma OpsAlike(s: State, e: State, c: Call)
    requires Alike(s, e) && SimOk(s) && !c.EnqueueUnmap?
    ensures EagerOps(s, c) == EagerOps(e, c) && (SamePointer(s, c) <==> SamePointer(e, c))
  {
    AcceptedAlike(s, e, c);
    if c.EnqueueKernel? && c.k < |s.kernels| { LoadAlike(s, e, c.k); }
    hide Accepted, LoadAll, InitOps, DevicePtr, DevId, DevIndex;
    if c.EnqueueCopy? || c.EnqueueCopyRect? {
      PointersAlike(s, e, c.src, c.q);
      PointersAlike(s, e, c.dst, c.q);
    } else if c.EnqueueRead? || c.EnqueueWrite? || c.EnqueueReadRect? || c.EnqueueWriteRect? || c.EnqueueMap? {
      PointersAlike(s, e, c.m, c.q);
    }
  }

  // ----- what draining leaves -----

  lemma QuietPlaces(s: State, t: State)
    requires Quiet(s, t)
    ensures SamePlaces(s, t)
  {
  }

  lemma FinishAlike(s: State, q: nat)
    requires SimOk(s)
    ensures Alike(s, Finish(s, q)) && SimOk(Finish(s, q))
  {
    hide SimOk, Quiet, Finish;
    FinishQuiet(s, q);
    QuietPlaces(s, Finish(s, q));
    FinishPasses(s, q);
    FinishSim(s, q);
  }

  lemma StepPlaces(s: State, c: Call)
    requires !Creates(c) && !c.CreateQueue?
    ensures SamePlaces(s, Step(s, c))
  {
    hide Effect, Accepted, Quiet;
    if Accepted(s, c) {
      if AddsNothing(c) {
        CallQuiet(s, c);
        QuietPlaces(s, Effect(s, c));
      } else {
        AddingPlaces(s, c);
      }
    }
  }

  lemma AddingPlaces(s: State, c: Call)
    requires Accepted(s, c) && !AddsNothing(c) && !Creates(c) && !c.CreateQueue?
    ensures SamePlaces(s, Effect(s, c))
  {
    if MapFails(s, c) {
      FailPlaces(s, c);
    } else {
      AddingKept(s, c);
      hide Accepted, MapFails, Kept;
      SameQueueCount(s, c);
      KeptPlaces(s, Effect(s, c));
    }
  }

  lemma KeptPlaces(s: State, t: State)
    requires Kept(s, t) && |t.queues| == |s.queues|
    ensures SamePlaces(s, t)
  {
  }

  lemma SameQueueCount(s: State, c: Call)
    requires c.EnqueueRead? || c.EnqueueWrite? || c.EnqueueCopy? || c.EnqueueMarker? || c.EnqueueMap? || c.EnqueueKernel?
    requires !AddsNothing(c)
    ensures |Effect(s, c).queues| == |s.queues|
  {
    if c.EnqueueMap? {
      MapQueueCount(s, c.q, c.m, c.blocking, c.offset, c.size, c.hostPtr, c.event);
    } else if c.EnqueueKernel? {
      hide RetainMems, Snapshot, ArgBuffers;
      hide Finish;
    } else {
      hide RunNow, MapCall, KernelCall, RetainMems, DevicePtr;
    }
  }

  lemma MapQueueCount(s: State, q: nat, m: nat, blocking: bool, offset: nat, size: nat, hostPtr: Option<int>, wanted: bool)
    ensures |MapCall(s, q, m, blocking, offset, size, hostPtr, wanted).queues| == |s.queues|
  {
    hide Finish, Perform, MapOp;
    if hostPtr.Some? && blocking {
      hide CountMap;
      var s2 := AddMapping(MaybeEvent(s.(mems := Retain(s.mems, m)), q, wanted, true), m, Mapping(true, m, hostPtr.value, offset, size));
      MapTailKept(s2, q, m, |s.mappings|, EventHandle(s, wanted));
    }
  }

  lemma FailPlaces(s: State, c: Call)
    requires MapFails(s, c)
    ensures SamePlaces(s, Effect(s, c))
  {
    hide Accepted;
    var s1 := BeforeMap(s, c.q, c.m, c.event, false);
    BeforeMapQuiet(s, c.q, c.m, c.event, false);
    QuietPlaces(s, s1);
    hide Quiet;
    assert Effect(s, c) == MarkComplete(s1.(mems := Leak(s1.mems, c.m)), EventHandle(s, c.event));
  }

  lemma LeavingAlike(s: State, c: Call)
    requires SimOk(s) && Leaves(c)
    ensures Alike(s, Step(s, c))
  {
    LeavingTables(s, c);
    hide SimOk, Step, SameTables, SamePlaces;
    StepPlaces(s, c);
  }

  // ----- calls that create an object, set an argument or snapshot them -----

  lemma {:induction false} SnapshotAlike(a: seq<Block>, b: seq<Block>, arguments: seq<Argument>, n1: nat, n2: nat, i: nat)
    requires SameBlocks(a, b) && Reachable(arguments, a)
    requires forall j {:trigger arguments[j]} :: i <= j < |arguments| ==> Load(a, arguments[j]) == Load(b, arguments[j])
    ensures SameBlocks(Snapshot(a, arguments, n1, i).0, Snapshot(b, arguments, n2, i).0)
    decreases |arguments| - i
  {
    if i < |arguments| {
      var v := Load(a, arguments[i]).1;
      assert v == Load(b, arguments[i]).1;
      if v.None? {
        SnapshotAlike(a, b, arguments, n1, n2, i + 1);
      } else {
        var a', b' := a + [Block(v.value, OfNode(n1, i))], b + [Block(v.value, OfNode(n2, i))];
        forall j {:trigger arguments[j]} | i + 1 <= j < |arguments| ensures Load(a', arguments[j]) == Load(b', arguments[j]) {
          assert Load(a, arguments[j]) == Load(b, arguments[j]);
        }
        SnapshotAlike(a', b', arguments, n1, n2, i + 1);
      }
    }
  }

  lemma LaunchAlike(s: State, e: State, c: Call)
    requires Alike(s, e) && SimOk(s) && c.EnqueueKernel? && Accepted(s, c)
    ensures SameTables(Effect(s, c), Effect(e, c))
  {
    var k := c.k;
    var arguments := s.kernels[k].data.arguments;
    LoadAlike(s, e, k);
    KernelReachable(s, k);
    hide SimOk;
    assert SameKernel(s.kernels[k].data, e.kernels[k].data);
    SnapshotAlike(s.blocks, e.blocks, arguments, s.nodes, e.nodes, 0);
    hide SameBlocks, Snapshot, ArgBuffers, RetainMems;
  }

  lemma SetArgAlike(s: State, e: State, c: Call)
    requires Alike(s, e) && c.SetKernelArg? && c.k < |s.kernels|
    ensures SameTables(Effect(s, c), Effect(e, c))
  {
    assert SameKernel(s.kernels[c.k].data, e.kernels[c.k].data);
  }

  lemma KernelAlike(s: State, e: State, c: Call)
    requires Alike(s, e) && c.CreateKernel?
    ensures SameTables(Effect(s, c), Effect(e, c))
  {
    if c.p < |s.programs| { assert s.programs[c.p].data.context == e.programs[c.p].data.context; }
  }

  lemma CreatedPlaces(s: State, e: State, c: Call)
    requires Alike(s, e) && Accepted(s, c) && (c.CreateQueue? || c.CreateBuffer? || c.CreateSubBuffer? || c.CreateProgram?)
    ensures SamePlaces(Effect(s, c), Effect(e, c))
  {
    hide SameTables;
    if c.CreateSubBuffer? { assert SameFixed(s.mems[c.m].data, e.mems[c.m].data); }
  }

  lemma CreatedTables(s: State, e: State, c: Call)
    requires Alike(s, e) && (c.CreateQueue? || c.CreateBuffer? || c.CreateSubBuffer? || c.CreateProgram?)
    ensures SameTables(Effect(s, c), Effect(e, c))
  {
    hide SamePlaces;
  }

  /** Alike states stay alike under every call but an unmap. */
  lemma StepAlike(s: State, e: State, c: Call)
    requires Alike(s, e) && SimOk(s) && SimOk(e) && !c.EnqueueUnmap?
    ensures Alike(Step(s, c), Step(e, c))
  {
    AcceptedAlike(s, e, c);
    hide SimOk, Effect, Accepted, SameTables, SamePlaces;
    if !Accepted(s, c) {
    } else if Leaves(c) {
      LeavingAlike(s, c);
      LeavingAlike(e, c);
      AlikeBoth(s, Step(s, c), e, Step(e, c));
    } else if c.CreateQueue? || c.CreateBuffer? || c.CreateSubBuffer? || c.CreateProgram? {
      CreatedPlaces(s, e, c);
      CreatedTables(s, e, c);
    } else {
      StepPlaces(s, c);
      StepPlaces(e, c);
      PlacesBoth(s, Step(s, c), e, Step(e, c));
      if c.EnqueueKernel? { LaunchAlike(s, e, c); } else if c.SetKernelArg? { SetArgNamed(s, c); SetArgAlike(s, e, c); } else { KernelAlike(s, e, c); }
    }
  }

  lemma SetArgNamed(s: State, c: Call)
    requires Accepted(s, c) && c.SetKernelArg?
    ensures c.k < |s.kernels|
  {
  }

  lemma PlacesBoth(s: State, s': State, e: State, e': State)
    requires SamePlaces(s, e) && SamePlaces(s, s') && SamePlaces(e, e')
    ensures SamePlaces(s', e')
  {
    forall m | 0 <= m < |s'.mems| ensures SameFixed(s'.mems[m].data, e'.mems[m].data) {
      assert SameFixed(s.mems[m].data, e.mems[m].data);
    }
    forall q | 0 <= q < |s'.queues| ensures SameDevice(s'.queues[q].data, e'.queues[q].data) {
      assert SameDevice(s.queues[q].data, e.queues[q].data);
    }
  }

  // ----- runs -----

  /** The run that drains queue `q` after every call. */
  function EagerRun(e: State, cs: seq<Call>, q: nat): State
    decreases |cs|
  {
    if cs == [] then e else EagerRun(Finish(Step(e, cs[0]), q), cs[1..], q)
  }

  /** The calls keep the rules on both runs, with all commands on queue `q`. */
  ghost predicate BothEnabled(s: State, e: State, cs: seq<Call>, q: nat)
    decreases |cs|
  {
    cs != [] ==>
      && Enabled(s, cs[0]) && Enabled(e, cs[0]) && OnQueue(cs[0], q) && SamePointer(s, cs[0])
      && BothEnabled(Step(s, cs[0]), Finish(Step(e, cs[0]), q), cs[1..], q)
  }

  lemma EagerStep(s: State, e: State, c: Call, q: nat)
    requires Alike(s, e) && SimOk(s) && SimOk(e) && Solo(e, q) && Pending(e, q) == []
    requires Enabled(s, c) && Enabled(e, c) && OnQueue(c, q) && SamePointer(s, c)
    ensures var t, f := Step(s, c), Finish(Step(e, c), q);
      && Alike(t, f) && SimOk(t) && SimOk(f) && Solo(f, q) && Pending(f, q) == [] && f.log == e.log + EagerOps(s, c)
  {
    var e1 := Step(e, c);
    OpsAlike(s, e, c);
    SimOkStep(s, c);
    SimOkStep(e, c);
    StepAlike(s, e, c);
    EagerProjection(e, c, q);
    FinishAlike(e1, q);
    FinishSim(e1, q);
    SoloDrained(e1, q);
    hide SimOk, Step, Finish, SameTables, SamePlaces, Solo, Enabled, OnQueue, SamePointer, EagerOps;
    hide Alike;
    AlikeTrans(Step(s, c), e1, Finish(e1, q));
  }

  lemma EagerProjection(e: State, c: Call, q: nat)
    requires SimOk(e) && Solo(e, q) && Pending(e, q) == [] && Enabled(e, c) && OnQueue(c, q) && SamePointer(e, c)
    ensures Solo(Step(e, c), q) && Projected(Step(e, c), q) == e.log + EagerOps(e, c)
  {
    hide SimOk, Solo, Enabled, Effect, SamePointer;
    assert PendingOps(e, q) == [];
    if c.StoreHost? || c.CreateBuffer? {
      if Accepted(e, c) {
        HostStep(e, c, q);
        hide Accepted, HostOps;
        assert Projected(Step(e, c), q) == (e.log + HostOps(e, c)) + [];
      }
    } else {
      SimStep(e, c, q);
      hide EagerOps, Accepted;
      assert Projected(e, q) == e.log;
    }
  }

  lemma SoloDrained(s: State, q: nat)
    requires Solo(s, q)
    ensures Solo(Finish(s, q), q)
  {
    FinishQueues(s, q);
    hide Finish;
    forall r: nat | r != q ensures Pending(Finish(s, q), r) == [] {
      assert Pending(s, r) == [];
    }
  }

  /** Draining after every call issues exactly what eager execution of the deferring run would:
      the eager operations do not depend on what is still pending. */
  lemma {:induction false} EagerRunLog(s: State, e: State, cs: seq<Call>, q: nat)
    requires Alike(s, e) && SimOk(s) && SimOk(e) && Solo(e, q) && Pending(e, q) == [] && BothEnabled(s, e, cs, q)
    ensures EagerRun(e, cs, q).log == e.log + EagerLog(s, cs)
    decreases |cs|
  {
    hide Alike, SimOk, Step, Solo, Pending, Finish, EagerOps, Enabled, OnQueue, SamePointer;
    if cs == [] {
      assert e.log + [] == e.log;
    } else {
      var c, t, f := cs[0], Step(s, cs[0]), Finish(Step(e, cs[0]), q);
      EagerStep(s, e, c, q);
      EagerRunLog(t, f, cs[1..], q);
      assert (e.log + EagerOps(s, c)) + EagerLog(t, cs[1..]) == e.log + (EagerOps(s, c) + EagerLog(t, cs[1..]));
    }
  }

  /** From the start of the program, for every driver and every memory: a run that defers and is
      drained at its end leaves the memory of the run that is drained after every call. */
  lemma DrainOnceOrAlways<M(!new)>(exec: (Op, M) -> M, cs: seq<Call>, q: nat, m: M)
    requires Legal(exec, Empty, cs, q) && BothEnabled(Empty, Empty, cs, q)
    ensures Apply(exec, Finish(Run(Empty, cs), q).log, m) == Apply(exec, EagerRun(Empty, cs, q).log, m)
  {
    hide SimOk, Finish, Run, EagerRun, EagerLog, Legal, BothEnabled, Alike, Solo, Projected;
    FinishReachesEager(exec, cs, q, m);
    EmptySim(q);
    assert Alike(Empty, Empty) by { AlikeSelf(Empty); }
    EagerRunLog(Empty, Empty, cs, q);
    assert [] + EagerLog(Empty, cs) == EagerLog(Empty, cs);
  }

  lemma AlikeSelf(s: State)
    ensures Alike(s, s)
  {
  }
}
