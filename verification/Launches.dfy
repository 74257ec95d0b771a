/** What a pending launch holds on to: its buffers are exactly the ones its global pointer arguments
    name, counted argument by argument. */
module Launches {
  import opened RefCounts
  import opened Runtime
  import opened Frames
  import opened SimBooks
  import opened SimCalls
  import opened Tables
  import Deferral

  /** The argument is a global pointer and its block holds the handle of buffer `m`. */
  predicate Names(d: KernelData, blocks: seq<Block>, arguments: seq<Argument>, m: nat, j: nat) {
    j < |arguments| && IsGlobal(d, j) && HandleIn(blocks, arguments[j]) == Some(m)
  }

  /** The arguments, from `i` on, that name buffer `m`. */
  function Naming(d: KernelData, blocks: seq<Block>, arguments: seq<Argument>, m: nat, i: nat): set<nat> {
    set j: nat | i <= j < |arguments| && Names(d, blocks, arguments, m, j)
  }

  /** Each buffer is retained as often as an argument names it, and no other buffer is. */
  ghost predicate HoldsNamed(d: KernelData, blocks: seq<Block>, arguments: seq<Argument>, bufs: seq<nat>) {
    forall m: nat {:trigger multiset(bufs)[m]} {:trigger Naming(d, blocks, arguments, m, 0)} ::
      multiset(bufs)[m] == |Naming(d, blocks, arguments, m, 0)|
  }

  lemma NamedIsHeld(d: KernelData, blocks: seq<Block>, arguments: seq<Argument>, bufs: seq<nat>, j: nat)
    requires HoldsNamed(d, blocks, arguments, bufs) && j < |arguments| && IsGlobal(d, j) && HandleIn(blocks, arguments[j]).Some?
    ensures HandleIn(blocks, arguments[j]).value in bufs
  {
    hide HandleIn, IsGlobal;
    var m := HandleIn(blocks, arguments[j]).value;
    assert j in Naming(d, blocks, arguments, m, 0);
    assert multiset(bufs)[m] > 0;
  }

  ghost predicate LaunchOk(s: State, n: Node) {
    n.command.RunKernel? ==>
      n.command.kernel < |s.kernels|
      && HoldsNamed(s.kernels[n.command.kernel].data, s.blocks, n.command.arguments, n.command.argBuffers)
  }

  ghost predicate LaunchesOk(s: State) {
    forall q, i {:trigger s.queues[q].data.pending[i]} :: 0 <= q < |s.queues| && 0 <= i < |s.queues[q].data.pending| ==>
      LaunchOk(s, s.queues[q].data.pending[i])
  }

  // ----- at the launch -----

  lemma {:induction false} ArgBuffersCount(blocks: seq<Block>, d: KernelData, i: nat, m: nat)
    ensures multiset(ArgBuffers(blocks, d, i))[m] == |Naming(d, blocks, d.arguments, m, i)|
    decreases |d.arguments| - i
  {
    hide ArgBuffers, Naming, HandleIn, IsGlobal;
    if i >= |d.arguments| || i >= |d.isPointer| || i >= |d.isLocal| {
      ArgBuffersEnd(blocks, d, i, m);
    } else {
      ArgBuffersCount(blocks, d, i + 1, m);
      NamingStep(d, blocks, d.arguments, m, i);
      ArgBuffersStep(blocks, d, i);
      var b := HandleIn(blocks, d.arguments[i]);
      Counted(if IsGlobal(d, i) && b.Some? then [b.value] else [], ArgBuffers(blocks, d, i + 1), m);
    }
  }

  lemma Counted(first: seq<nat>, rest: seq<nat>, m: nat)
    requires |first| <= 1
    ensures multiset(first + rest)[m] == multiset(rest)[m] + if first == [m] then 1 else 0
  {
    assert multiset(first + rest) == multiset(first) + multiset(rest);
    assert first == [] || first == [first[0]];
  }

  lemma ArgBuffersEnd(blocks: seq<Block>, d: KernelData, i: nat, m: nat)
    requires i >= |d.arguments| || i >= |d.isPointer| || i >= |d.isLocal|
    ensures ArgBuffers(blocks, d, i) == [] && Naming(d, blocks, d.arguments, m, i) == {}
  {
    hide HandleIn;
  }

  lemma NamingStep(d: KernelData, blocks: seq<Block>, arguments: seq<Argument>, m: nat, i: nat)
    requires i < |arguments|
    ensures |Naming(d, blocks, arguments, m, i)|
         == |Naming(d, blocks, arguments, m, i + 1)| + if Names(d, blocks, arguments, m, i) then 1 else 0
  {
    hide Names;
    var here, later := Naming(d, blocks, arguments, m, i), Naming(d, blocks, arguments, m, i + 1);
    if Names(d, blocks, arguments, m, i) {
      assert here == later + {i} && i !in later;
    } else {
      assert here == later;
    }
  }

  lemma ArgBuffersStep(blocks: seq<Block>, d: KernelData, i: nat)
    requires i < |d.arguments| && i < |d.isPointer| && i < |d.isLocal|
    ensures var b := HandleIn(blocks, d.arguments[i]);
      ArgBuffers(blocks, d, i) == (if IsGlobal(d, i) && b.Some? then [b.value] else []) + ArgBuffers(blocks, d, i + 1)
  {
  }

  lemma SameNaming(d: KernelData, a: seq<Block>, x: seq<Argument>, b: seq<Block>, y: seq<Argument>, m: nat)
    requires |x| == |y| && forall j :: 0 <= j < |x| ==> HandleIn(a, x[j]) == HandleIn(b, y[j])
    ensures Naming(d, a, x, m, 0) == Naming(d, b, y, m, 0)
  {
    hide HandleIn, IsGlobal;
  }

  lemma LoadTellsHandle(a: seq<Block>, x: Argument, b: seq<Block>, y: Argument)
    requires Load(a, x) == Load(b, y)
    ensures HandleIn(a, x) == HandleIn(b, y)
  {
  }

  /** The node a launch appends names and holds the same buffers. */
  lemma NewLaunchOk(s: State, q: nat, k: nat, range: seq<nat>, wanted: bool)
    requires SimOk(s) && k < |s.kernels|
    ensures var (t, c) := Launch(s, q, k, range, wanted);
      |t.kernels| == |s.kernels| && HoldsNamed(t.kernels[k].data, t.blocks, c.arguments, c.argBuffers) && c.kernel == k
  {
    var d := s.kernels[k].data;
    var s1 := MaybeEvent(s, q, wanted, true);
    var (blocks, args) := Snapshot(s1.blocks, d.arguments, s1.nodes, 0);
    KernelReachable(s, k);
    SnapshotCopies(s1.blocks, d.arguments, s1.nodes, 0);
    hide SimOk, Snapshot, ArgBuffers, RetainMems, Load, Naming, Owned;
    forall m: nat ensures multiset(ArgBuffers(s1.blocks, d, 0))[m] == |Naming(d, blocks, args, m, 0)| {
      ArgBuffersCount(s1.blocks, d, 0, m);
      forall j | 0 <= j < |args| ensures HandleIn(s1.blocks, d.arguments[j]) == HandleIn(blocks, args[j]) {
        assert Load(blocks, args[j]) == Load(s1.blocks, d.arguments[0 + j]);
        LoadTellsHandle(s1.blocks, d.arguments[j], blocks, args[j]);
      }
      SameNaming(d, s1.blocks, d.arguments, blocks, args, m);
    }
  }

  // ----- while it is pending -----

  predicate SameFlags(a: KernelData, b: KernelData) { a.isPointer == b.isPointer && a.isLocal == b.isLocal }

  ghost predicate FlagsKept(a: seq<Obj<KernelData>>, b: seq<Obj<KernelData>>) {
    |a| <= |b| && forall k {:trigger a[k]} {:trigger b[k]} :: 0 <= k < |a| ==> SameFlags(a[k].data, b[k].data)
  }

  lemma LaunchKept(s: State, t: State, n: Node)
    requires LaunchOk(s, n) && NodeOk(s, n) && NodeOk(t, n) && Ages(s.blocks, t.blocks) && FlagsKept(s.kernels, t.kernels)
    ensures LaunchOk(t, n)
  {
    if n.command.RunKernel? {
      var d, e, args := s.kernels[n.command.kernel].data, t.kernels[n.command.kernel].data, n.command.arguments;
      assert SameFlags(d, e);
      forall j | 0 <= j < |args| ensures HandleIn(s.blocks, args[j]) == HandleIn(t.blocks, args[j]) {
        assert Owned(t.blocks, args[j].block, OfNode(n.id, j)) && Owned(s.blocks, args[j].block, OfNode(n.id, j));
        assert args[j].block.Some? ==> t.blocks[args[j].block.value] == s.blocks[args[j].block.value];
      }
      hide HandleIn, NodeOk, Ages;
      forall m: nat ensures multiset(n.command.argBuffers)[m] == |Naming(e, t.blocks, args, m, 0)| {
        SameNaming(d, s.blocks, args, t.blocks, args, m);
        assert Naming(d, t.blocks, args, m, 0) == Naming(e, t.blocks, args, m, 0);
      }
    }
  }

  /** Launches that are pending were pending before. */
  ghost predicate NoNewLaunch(a: seq<Obj<QueueData>>, b: seq<Obj<QueueData>>) {
    forall q, i {:trigger b[q].data.pending[i]} :: 0 <= q < |b| && 0 <= i < |b[q].data.pending| && b[q].data.pending[i].command.RunKernel? ==>
      q < |a| && b[q].data.pending[i] in a[q].data.pending
  }

  lemma QuietAddsNoLaunch(s: State, t: State)
    requires Quiet(s, t)
    ensures NoNewLaunch(s.queues, t.queues)
  {
  }

  lemma NoNewLaunchTrans(a: seq<Obj<QueueData>>, b: seq<Obj<QueueData>>, c: seq<Obj<QueueData>>)
    requires NoNewLaunch(a, b) && NoNewLaunch(b, c)
    ensures NoNewLaunch(a, c)
  {
    forall q, i | 0 <= q < |c| && 0 <= i < |c[q].data.pending| && c[q].data.pending[i].command.RunKernel?
      ensures q < |a| && c[q].data.pending[i] in a[q].data.pending
    {
      var j :| 0 <= j < |b[q].data.pending| && b[q].data.pending[j] == c[q].data.pending[i];
      assert b[q].data.pending[j].command.RunKernel?;
    }
  }

  lemma AppendAddsNoLaunch(s: State, q: nat, c: Command, event: Option<nat>)
    requires !c.RunKernel?
    ensures NoNewLaunch(s.queues, Append(s, q, c, event).queues)
  {
  }

  /** Nodes that were pending keep what they hold. */
  lemma StillOk(s: State, t: State)
    requires LaunchesOk(s) && SimOk(s) && SimOk(t) && Ages(s.blocks, t.blocks) && FlagsKept(s.kernels, t.kernels)
    requires NoNewLaunch(s.queues, t.queues)
    ensures LaunchesOk(t)
  {
    forall q, i | 0 <= q < |t.queues| && 0 <= i < |t.queues[q].data.pending| ensures LaunchOk(t, t.queues[q].data.pending[i]) {
      OneStillOk(s, t, q, t.queues[q].data.pending[i]);
    }
  }

  lemma OneStillOk(s: State, t: State, q: nat, n: Node)
    requires LaunchesOk(s) && SimOk(s) && SimOk(t) && Ages(s.blocks, t.blocks) && FlagsKept(s.kernels, t.kernels)
    requires q < |t.queues| && n in t.queues[q].data.pending && (n.command.RunKernel? ==> q < |s.queues| && n in s.queues[q].data.pending)
    ensures LaunchOk(t, n)
  {
    if n.command.RunKernel? {
      var i :| 0 <= i < |s.queues[q].data.pending| && s.queues[q].data.pending[i] == n;
      var j :| 0 <= j < |t.queues[q].data.pending| && t.queues[q].data.pending[j] == n;
      assert LaunchOk(s, s.queues[q].data.pending[i]) && NodeOk(s, s.queues[q].data.pending[i]) && NodeOk(t, t.queues[q].data.pending[j]);
      LaunchKept(s, t, n);
    }
  }

  // ----- calls -----

  lemma DeferAddsNoLaunch(s: State, q: nat, ms: seq<nat>, c: Command, wanted: bool)
    requires !c.RunKernel?
    ensures NoNewLaunch(s.queues, Defer(s, q, ms, c, wanted).queues)
  {
    var t := BeforeAppend(s, q, ms, wanted);
    BeforeAppendQuiet(s, q, ms, wanted);
    QuietAddsNoLaunch(s, t);
    hide NoNewLaunch, Quiet, MaybeEvent, RetainMems, Append;
    AppendAddsNoLaunch(t, q, c, EventHandle(s, wanted));
    NoNewLaunchTrans(s.queues, t.queues, Defer(s, q, ms, c, wanted).queues);
  }

  lemma SameNodes(s: State, t: State)
    requires |t.queues| == |s.queues| && forall q :: 0 <= q < |s.queues| ==> t.queues[q].data.pending == s.queues[q].data.pending
    ensures NoNewLaunch(s.queues, t.queues)
  {
  }

  lemma MapAddsNoLaunch(s: State, q: nat, m: nat, blocking: bool, offset: nat, size: nat, hostPtr: Option<int>, wanted: bool)
    ensures NoNewLaunch(s.queues, MapCall(s, q, m, blocking, offset, size, hostPtr, wanted).queues)
  {
    var event, t := EventHandle(s, wanted), MapCall(s, q, m, blocking, offset, size, hostPtr, wanted);
    var s1 := MaybeEvent(s.(mems := Retain(s.mems, m)), q, wanted, hostPtr.Some?);
    SameNodes(s, s1);
    hide Finish, Perform, MapOp, MaybeEvent, Append, NoNewLaunch, CountMap;
    if hostPtr.None? {
      SameNodes(s1, t);
      NoNewLaunchTrans(s.queues, s1.queues, t.queues);
    } else {
      var s2 := AddMapping(s1, m, Mapping(true, m, hostPtr.value, offset, size));
      SameNodes(s1, s2);
      hide AddMapping;
      if blocking {
        MapTailKept(s2, q, m, |s.mappings|, event);
        QuietAddsNoLaunch(s2, t);
      } else {
        AppendAddsNoLaunch(s2, q, MapBuffer(m, |s.mappings|), event);
      }
      NoNewLaunchTrans(s.queues, s1.queues, s2.queues);
      NoNewLaunchTrans(s.queues, s2.queues, t.queues);
    }
  }

  lemma TransferNoLaunch(s: State, c: Call)
    requires (c.EnqueueRead? && !c.blocking) || (c.EnqueueWrite? && !c.blocking) || c.EnqueueCopy? || c.EnqueueMarker?
    ensures NoNewLaunch(s.queues, Effect(s, c).queues)
  {
    hide Defer, DevicePtr, DevId, DevIndex, NoNewLaunch;
    match c
    case EnqueueRead(q, m, _, offset, cb, ptr, _, event) =>
      DeferAddsNoLaunch(s, q, [m], ReadBuffer(ptr, DevicePtr(s, m, DevId(s, q)) + offset, cb, m), event);
    case EnqueueWrite(q, m, _, offset, cb, ptr, _, event) =>
      DeferAddsNoLaunch(s, q, [m], WriteBuffer(ptr, DevicePtr(s, m, DevIndex(s, q)) + offset, cb, m), event);
    case EnqueueCopy(q, m1, m2, o1, o2, cb, event) =>
      DeferAddsNoLaunch(s, q, [m1, m2], CopyBuffer(DevicePtr(s, m1, DevId(s, q)) + o1, DevicePtr(s, m2, DevId(s, q)) + o2, cb, m1, m2), event);
    case EnqueueMarker(q) => DeferAddsNoLaunch(s, q, [], Marker, true);
  }

  lemma CreatingNoLaunch(s: State, c: Call)
    requires c.CreateQueue? || c.CreateBuffer? || c.CreateSubBuffer? || c.CreateProgram?
    ensures NoNewLaunch(s.queues, Effect(s, c).queues)
  {
    hide InitOps, SubPointers;
  }

  lemma AddingNoLaunch(s: State, c: Call)
    requires !AddsNothing(c) && !c.EnqueueKernel?
    ensures NoNewLaunch(s.queues, Effect(s, c).queues)
  {
    hide NoNewLaunch;
    if c.EnqueueMap? {
      hide MapCall;
      MapAddsNoLaunch(s, c.q, c.m, c.blocking, c.offset, c.size, c.hostPtr, c.event);
    } else {
      hide Effect;
      if c.CreateQueue? || c.CreateBuffer? || c.CreateSubBuffer? || c.CreateProgram? { CreatingNoLaunch(s, c); } else { TransferNoLaunch(s, c); }
    }
  }

  lemma TablesKeepFlags(s: State, t: State)
    requires SameTables(s, t)
    ensures FlagsKept(s.kernels, t.kernels)
  {
  }

  lemma StepFlags(s: State, c: Call)
    requires SimOk(s)
    ensures FlagsKept(s.kernels, Step(s, c).kernels)
  {
    if Leaves(c) {
      hide SimOk, Step, FlagsKept;
      LeavingTables(s, c);
      TablesKeepFlags(s, Step(s, c));
    } else {
      hide SimOk, Accepted, Snapshot, ArgBuffers, RetainMems, MaybeEvent, NewKernelArgs;
    }
  }

  lemma LaunchStep(s: State, c: Call)
    requires LaunchesOk(s) && SimOk(s) && SimOk(Step(s, c)) && c.EnqueueKernel? && Accepted(s, c)
    ensures LaunchesOk(Step(s, c))
  {
    var (t, command) := Launch(s, c.q, c.k, c.range, c.event);
    var u := Step(s, c);
    LaunchNames(s, c);
    LaunchQuiet(s, c.q, c.k, c.range, c.event);
    NewLaunchOk(s, c.q, c.k, c.range, c.event);
    StepHeld(s, c);
    StepFlags(s, c);
    assert u == Append(t, c.q, command, EventHandle(s, c.event)) by { EffectOfLaunch(s, c); }
    QuietAddsNoLaunch(s, t);
    AppendedLaunch(s, t, u, c.q, command, EventHandle(s, c.event));
  }

  lemma LaunchNames(s: State, c: Call)
    requires c.EnqueueKernel? && Accepted(s, c)
    ensures c.q < |s.queues| && c.k < |s.kernels|
  {
  }

  lemma AppendedLaunch(s: State, t: State, u: State, q: nat, c: Command, event: Option<nat>)
    requires LaunchesOk(s) && SimOk(s) && SimOk(u) && Ages(s.blocks, u.blocks) && FlagsKept(s.kernels, u.kernels)
    requires NoNewLaunch(s.queues, t.queues) && u == Append(t, q, c, event)
    requires c.RunKernel? && c.kernel < |t.kernels| && HoldsNamed(t.kernels[c.kernel].data, t.blocks, c.arguments, c.argBuffers)
    ensures LaunchesOk(u)
  {
    hide SimOk, Ages, HoldsNamed, FlagsKept;
    forall r, i | 0 <= r < |u.queues| && 0 <= i < |u.queues[r].data.pending| ensures LaunchOk(u, u.queues[r].data.pending[i]) {
      var n := u.queues[r].data.pending[i];
      if r == q && i == |Pending(t, q)| {
        assert n.command == c;
      } else {
        assert n == t.queues[r].data.pending[i];
        hide LaunchesOk;
        OneStillOk(s, u, r, n);
      }
    }
  }

  /** Every call keeps it. */
  lemma LaunchesStep(s: State, c: Call)
    requires LaunchesOk(s) && SimOk(s) && Enabled(s, c)
    ensures LaunchesOk(Step(s, c))
  {
    hide LaunchesOk, SimOk, Enabled, Effect, Accepted, Ages, FlagsKept, NoNewLaunch;
    Deferral.SimOkStep(s, c);
    if Accepted(s, c) {
      if c.EnqueueKernel? {
        LaunchStep(s, c);
      } else {
        StepHeld(s, c);
        StepFlags(s, c);
        if AddsNothing(c) {
          CallQuiet(s, c);
          QuietAddsNoLaunch(s, Effect(s, c));
        } else {
          AddingNoLaunch(s, c);
        }
        StillOk(s, Step(s, c));
      }
    }
  }
}
