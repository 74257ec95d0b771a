/** References to queues and kernels that the runtime takes and never gives back, counted from the
    calls of a run alone; it keeps none to an event. */
module Debts {
  import opened RefCounts
  import opened Runtime
  import KernelBooks
  import EventBooks

  // ----- the law -----

  function GpuQueueLaunches(o: Obj<QueueData>): Bag { if o.data.gpu then KernelBooks.QueueLaunches(o) else multiset{} }

  function OtherQueueLaunches(o: Obj<QueueData>): Bag { if o.data.gpu then multiset{} else KernelBooks.QueueLaunches(o) }

  /** Pending launches on queues of GPUs, by kernel, and those on other queues. */
  function GpuPending(queues: seq<Obj<QueueData>>): Bag { Collect(queues, GpuQueueLaunches) }

  function OtherPending(queues: seq<Obj<QueueData>>): Bag { Collect(queues, OtherQueueLaunches) }

  lemma {:induction false} PendingSplit(queues: seq<Obj<QueueData>>)
    ensures KernelBooks.PendingLaunches(queues) == GpuPending(queues) + OtherPending(queues)
  {
    if queues != [] { PendingSplit(queues[1..]); }
  }

  function Debt<T>(objs: seq<Obj<T>>, i: nat): nat { if i < |objs| then objs[i].leaked else 0 }

  ghost predicate SameDebt<T>(a: seq<Obj<T>>, b: seq<Obj<T>>) {
    |a| <= |b| && forall i: nat {:trigger Debt(a, i)} {:trigger Debt(b, i)} :: Debt(b, i) == Debt(a, i)
  }

  /** A launch on a GPU has taken its reference for good once it is pending. */
  function Owed(s: State, k: nat): nat { Debt(s.kernels, k) + GpuPending(s.queues)[k] }

  /** Nothing is taken for good from `s` to `t`, and no launch on a GPU is added. */
  ghost predicate Steady(s: State, t: State) {
    && SameDebt(s.queues, t.queues) && SameDebt(s.events, t.events)
    && |s.kernels| <= |t.kernels| && GpuPending(t.queues) <= GpuPending(s.queues)
    && forall k: nat {:trigger Owed(s, k)} {:trigger Owed(t, k)} :: Owed(t, k) == Owed(s, k)
  }

  /** Pending launches name kernels. */
  ghost predicate Named(s: State) {
    forall k :: k in GpuPending(s.queues) ==> k < |s.kernels|
  }

  lemma SteadyTrans(s: State, t: State, u: State)
    requires Steady(s, t) && Steady(t, u)
    ensures Steady(s, u)
  {
    hide GpuPending, Owed, Debt;
    forall k: nat ensures Owed(u, k) == Owed(s, k) { assert Owed(t, k) == Owed(s, k); }
    forall i: nat ensures Debt(u.queues, i) == Debt(s.queues, i) && Debt(u.events, i) == Debt(s.events, i) {
      assert Debt(t.queues, i) == Debt(s.queues, i) && Debt(t.events, i) == Debt(s.events, i);
    }
  }

  lemma SteadyNamed(s: State, t: State)
    requires Steady(s, t) && Named(s)
    ensures Named(t)
  {
    hide GpuPending, Owed, SameDebt;
  }

  /** Queues, events and kernels are not touched. */
  lemma SteadyFrame(s: State, t: State)
    requires t.queues == s.queues && t.events == s.events && t.kernels == s.kernels
    ensures Steady(s, t)
  {
    hide GpuPending;
  }

  predicate SameWork(a: Obj<QueueData>, b: Obj<QueueData>) {
    a.leaked == b.leaked && a.data.gpu == b.data.gpu && a.data.pending == b.data.pending
  }

  /** Counters of queues and events move, and events may be added. */
  lemma SteadyQueues(s: State, t: State)
    requires t.kernels == s.kernels && SameDebt(s.events, t.events)
    requires |t.queues| == |s.queues| && forall q :: 0 <= q < |s.queues| ==> SameWork(s.queues[q], t.queues[q])
    ensures Steady(s, t)
  {
    CollectPointwise(s.queues, t.queues, GpuQueueLaunches, GpuQueueLaunches);
    hide GpuPending;
  }

  lemma SteadyKernels(s: State, t: State)
    requires t.queues == s.queues && t.events == s.events && SameDebt(s.kernels, t.kernels)
    ensures Steady(s, t)
  {
    hide GpuPending, Debt;
  }

  // ----- the pending lists -----

  function GpuLaunch(s: State, q: nat, n: Node): Bag {
    if q < |s.queues| && s.queues[q].data.gpu then KernelBooks.NodeLaunch(n) else multiset{}
  }

  lemma PopGpu(s: State, q: nat)
    requires Pending(s, q) != []
    ensures GpuPending(s.queues) == GpuPending(SetPending(s, q, Pending(s, q)[1..]).queues) + GpuLaunch(s, q, Pending(s, q)[0])
  {
    var p := Pending(s, q);
    var t := SetPending(s, q, p[1..]);
    CollectUpdate(s.queues, q, t.queues[q], GpuQueueLaunches);
    var rest := GpuQueueLaunches(t.queues[q]);
    assert GpuQueueLaunches(s.queues[q]) == rest + GpuLaunch(s, q, p[0]);
    hide Collect, GpuQueueLaunches, GpuLaunch;
    BagMoved(GpuPending(s.queues), GpuPending(t.queues), rest, GpuLaunch(s, q, p[0]));
  }

  lemma AppendGpu(s: State, q: nat, n: Node)
    requires q < |s.queues|
    ensures GpuPending(SetPending(s, q, Pending(s, q) + [n]).queues) == GpuPending(s.queues) + GpuLaunch(s, q, n)
  {
    var p := Pending(s, q);
    var t := SetPending(s, q, p + [n]);
    CollectUpdate(s.queues, q, t.queues[q], GpuQueueLaunches);
    CollectSnoc(p, n, KernelBooks.NodeLaunch);
    var before := GpuQueueLaunches(s.queues[q]);
    assert GpuQueueLaunches(t.queues[q]) == before + GpuLaunch(s, q, n);
    hide Collect, GpuQueueLaunches, GpuLaunch;
    BagMoved(GpuPending(t.queues), GpuPending(s.queues), before, GpuLaunch(s, q, n));
  }

  lemma AppendSteady(s: State, q: nat, c: Command, event: Option<nat>)
    requires !c.RunKernel?
    ensures Steady(s, Append(s, q, c, event))
  {
    var t := Append(s, q, c, event);
    if q < |s.queues| {
      var n := Node(s.nodes, c, event);
      AppendGpu(s, q, n);
      hide GpuPending;
      assert GpuPending(t.queues) == GpuPending(s.queues) + multiset{};
    } else {
      SteadyFrame(s, t);
    }
  }

  // ----- draining -----

  lemma {:induction false} OrphanDebt(kernels: seq<Obj<KernelData>>, ks: seq<nat>)
    ensures SameDebt(kernels, Orphan(kernels, ks))
    decreases |ks|
  {
    if ks != [] {
      var k := ks[0];
      var next := if k < |kernels| then SetData(kernels, k, kernels[k].data.(program := None)) else kernels;
      OrphanDebt(next, ks[1..]);
      assert SameDebt(kernels, next);
    }
  }

  lemma ReleaseProgramDebt(s: State, p: nat)
    ensures SameDebt(s.kernels, ReleaseProgram(s, p).kernels)
  {
    if p < |s.programs| { OrphanDebt(s.kernels, Release(s.programs, p)[p].data.kernels); }
    hide Orphan;
  }

  lemma ReleaseKernelDebt(s: State, k: nat)
    ensures SameDebt(s.kernels, ReleaseKernel(s, k).kernels)
  {
    if k < |s.kernels| {
      hide ReleaseProgram, Unlink;
      var d := s.kernels[k].data;
      if d.program.Some? && d.program.value < |s.programs| {
        var p := d.program.value;
        var t := s.(kernels := Release(s.kernels, k),
                    programs := SetData(s.programs, p, s.programs[p].data.(kernels := Unlink(s.programs[p].data.kernels, k))));
        assert SameDebt(s.kernels, t.kernels);
        ReleaseProgramDebt(t, p);
      }
    }
  }

  lemma WriteStatusDebt(s: State, event: Option<nat>, values: seq<int>)
    ensures SameDebt(s.events, WriteStatus(s, event, values).events)
  {
  }

  /** Only a launch executed on a GPU keeps its kernel. */
  lemma ExecuteKernels(s: State, d: QueueData, n: Node)
    ensures var ks := Execute(s, d, n).kernels;
      if d.gpu && n.command.RunKernel? then ks == Leak(s.kernels, n.command.kernel) else SameDebt(s.kernels, ks)
  {
    hide ReleaseMems, ReleaseKernel, FreeBlocks, CommandOp;
    if !n.command.Marker? {
      var s1 := Perform(s, n.event, CommandOp(s, d.devId, n.command));
      var s2 := ReleaseMems(s1, CommandMems(n.command));
      assert s2.kernels == s.kernels;
      if n.command.RunKernel? { ReleaseKernelDebt(s2.(blocks := FreeBlocks(s2.blocks, n.command.arguments)), n.command.kernel); }
    }
  }

  lemma ExecuteHeadSteady(s: State, q: nat)
    requires Pending(s, q) != [] && Named(s)
    ensures Steady(s, ExecuteHead(s, q))
  {
    var d, n, s1, t := s.queues[q].data, Pending(s, q)[0], SetPending(s, q, Pending(s, q)[1..]), ExecuteHead(s, q);
    assert t.queues == s1.queues && SameDebt(s.queues, s1.queues) by { hide Execute; }
    EventBooks.ExecuteEvents(s1, d, n);
    WriteStatusDebt(s1, n.event, EventBooks.Suffix(n.command));
    ExecuteKernels(s1, d, n);
    PopGpu(s, q);
    hide GpuPending, ExecuteHead, WriteStatus;
    assert GpuPending(t.queues) <= GpuPending(s.queues);
    if d.gpu && n.command.RunKernel? {
      var k := n.command.kernel;
      assert k in GpuPending(s.queues);
      forall j: nat ensures Owed(t, j) == Owed(s, j) {
        assert GpuPending(s.queues)[j] == GpuPending(t.queues)[j] + multiset{k}[j];
      }
    } else {
      assert GpuLaunch(s, q, n) == multiset{};
      forall j: nat ensures Owed(t, j) == Owed(s, j) {
        assert Debt(t.kernels, j) == Debt(s1.kernels, j);
      }
    }
  }

  lemma {:induction false} FinishSteady(s: State, q: nat)
    requires Named(s)
    ensures Steady(s, Finish(s, q))
    decreases |Pending(s, q)|
  {
    hide Steady, Named, ExecuteHead;
    if Pending(s, q) != [] {
      var t := ExecuteHead(s, q);
      ExecuteHeadSteady(s, q);
      SteadyNamed(s, t);
      FinishSteady(t, q);
      SteadyTrans(s, t, Finish(t, q));
    } else {
      SteadyFrame(s, s);
    }
  }

  lemma {:induction false} WaitSteady(s: State, es: seq<nat>)
    requires Named(s)
    ensures Steady(s, WaitForEvents(s, es))
    decreases |es|
  {
    hide Steady, Named, Finish;
    SteadyFrame(s, s);
    if es != [] && es[0] < |s.events| {
      var t := Finish(s, s.events[es[0]].data.queue);
      FinishSteady(s, s.events[es[0]].data.queue);
      SteadyNamed(s, t);
      WaitSteady(t, es[1..]);
      SteadyTrans(s, t, WaitForEvents(s, es));
    } else if es != [] {
      WaitSteady(s, es[1..]);
    }
  }

  /** A steady step, a drain, a steady step. */
  lemma AroundFinish(s: State, t: State, q: nat, u: State)
    requires Named(s) && Steady(s, t) && Steady(Finish(t, q), u)
    ensures Steady(s, u)
  {
    hide Steady, Named, Finish;
    SteadyNamed(s, t);
    FinishSteady(t, q);
    SteadyTrans(s, t, Finish(t, q));
    SteadyTrans(s, Finish(t, q), u);
  }

  // ----- calls -----

  lemma MaybeEventSteady(s: State, q: nat, wanted: bool, inOrder: bool)
    ensures Steady(s, MaybeEvent(s, q, wanted, inOrder))
  {
    var t := MaybeEvent(s, q, wanted, inOrder);
    assert SameDebt(s.events, t.events);
    hide SameDebt, Steady;
    SteadyQueues(s, t);
  }

  lemma EventsSteady(s: State, t: State)
    requires t.queues == s.queues && t.kernels == s.kernels && SameDebt(s.events, t.events)
    ensures Steady(s, t)
  {
    hide SameDebt, Steady;
    SteadyQueues(s, t);
  }

  lemma PerformSteady(s: State, event: Option<nat>, op: Op)
    ensures Steady(s, Perform(s, event, op))
  {
    EventBooks.PerformEvents(s, event, op);
    WriteStatusDebt(s, event, [CL_QUEUED, CL_SUBMITTED, CL_SUBMITTED, CL_RUNNING, CL_RUNNING, CL_COMPLETE]);
    assert Perform(s, event, op).queues == s.queues && Perform(s, event, op).kernels == s.kernels;
    hide Perform, WriteStatus, SameDebt, Steady;
    EventsSteady(s, Perform(s, event, op));
  }

  lemma RunNowSteady(s: State, q: nat, ms: seq<nat>, op: Op, wanted: bool)
    requires Named(s)
    ensures Steady(s, RunNow(s, q, ms, op, wanted))
  {
    hide Steady, Named, Finish, TakeMems, DropMems, Perform, MaybeEvent;
    var s1 := MaybeEvent(s, q, wanted, true);
    MaybeEventSteady(s, q, wanted, true);
    var s2 := TakeMems(s1, ms);
    SteadyFrame(s1, s2);
    SteadyTrans(s, s1, s2);
    DrainPerform(s2, q, EventHandle(s, wanted), op);
    SteadyNamed(s, s2);
    var s3 := Perform(Finish(s2, q), EventHandle(s, wanted), op);
    SteadyFrame(s3, DropMems(s3, ms));
    SteadyTrans(Finish(s2, q), s3, DropMems(s3, ms));
    AroundFinish(s, s2, q, DropMems(s3, ms));
  }

  lemma DrainPerform(s: State, q: nat, event: Option<nat>, op: Op)
    ensures Steady(Finish(s, q), Perform(Finish(s, q), event, op))
  {
    hide Steady, Finish, Perform;
    PerformSteady(Finish(s, q), event, op);
  }

  lemma RunIntoSteady(s: State, q: nat, ms: seq<nat>, op: Op, out: Option<nat>)
    requires Named(s)
    ensures Steady(s, RunInto(s, q, ms, op, out))
  {
    hide Steady, Named, Finish, TakeMems, DropMems, Perform;
    var s2 := TakeMems(s, ms);
    SteadyFrame(s, s2);
    DrainPerform(s2, q, out, op);
    var s3 := Perform(Finish(s2, q), out, op);
    SteadyFrame(s3, DropMems(s3, ms));
    SteadyTrans(Finish(s2, q), s3, DropMems(s3, ms));
    AroundFinish(s, s2, q, DropMems(s3, ms));
  }

  lemma DeferSteady(s: State, q: nat, ms: seq<nat>, c: Command, wanted: bool)
    requires !c.RunKernel?
    ensures Steady(s, Defer(s, q, ms, c, wanted))
  {
    hide Steady, RetainMems, MaybeEvent, Append;
    var s1 := MaybeEvent(s, q, wanted, true);
    MaybeEventSteady(s, q, wanted, true);
    SteadyFrame(s1, RetainMems(s1, ms));
    SteadyTrans(s, s1, RetainMems(s1, ms));
    AppendSteady(RetainMems(s1, ms), q, c, EventHandle(s, wanted));
    SteadyTrans(s, RetainMems(s1, ms), Defer(s, q, ms, c, wanted));
  }

  lemma MapSteady(s: State, q: nat, m: nat, blocking: bool, offset: nat, size: nat, hostPtr: Option<int>, wanted: bool)
    requires Named(s)
    ensures Steady(s, MapCall(s, q, m, blocking, offset, size, hostPtr, wanted))
  {
    var t := MapCall(s, q, m, blocking, offset, size, hostPtr, wanted);
    var event, s0 := EventHandle(s, wanted), s.(mems := Retain(s.mems, m));
    var s1 := MaybeEvent(s0, q, wanted, hostPtr.Some?);
    hide Steady, Named, Finish, MaybeEvent, Perform, Append, MapOp;
    SteadyFrame(s, s0);
    MaybeEventSteady(s0, q, wanted, hostPtr.Some?);
    SteadyTrans(s, s0, s1);
    if hostPtr.None? {
      WriteStatusDebt(s1, event, [CL_RUNNING, CL_COMPLETE]);
      EventsSteady(s1, t);
      SteadyTrans(s, s1, t);
    } else {
      var s2 := AddMapping(s1, m, Mapping(true, m, hostPtr.value, offset, size));
      SteadyFrame(s1, s2);
      SteadyTrans(s, s1, s2);
      if blocking {
        var s3, op := Finish(s2, q), MapOp(Finish(s2, q), DevId(Finish(s2, q), q), m, |s.mappings|);
        DrainPerform(s2, q, event, op);
        SteadyFrame(Perform(s3, event, op), t);
        SteadyTrans(s3, Perform(s3, event, op), t);
        AroundFinish(s, s2, q, t);
      } else {
        AppendSteady(s2, q, MapBuffer(m, |s.mappings|), event);
        SteadyTrans(s, s2, t);
      }
    }
  }

  lemma UnmapSteady(s: State, q: nat, m: nat, id: nat, flush: bool, wanted: bool)
    ensures Steady(s, UnmapCall(s, q, m, id, flush, wanted))
  {
    var event, s0 := EventHandle(s, wanted), MaybeEvent(s, q, wanted, false);
    var s1, t := UnmapDevice(s, q, m, id, flush, wanted), UnmapCall(s, q, m, id, flush, wanted);
    assert s1.queues == s0.queues && s1.kernels == s0.kernels && SameDebt(s0.events, s1.events);
    MaybeEventSteady(s, q, wanted, false);
    hide Steady, SameDebt, MaybeEvent, UnmapDevice, ReleaseMem;
    EventsSteady(s0, s1);
    SteadyTrans(s, s0, s1);
    SteadyFrame(s1, t);
    SteadyTrans(s, s1, t);
  }

  lemma ReleaseQueueSteady(s: State, q: nat)
    requires Named(s)
    ensures Steady(s, ReleaseQueue(s, q))
  {
    hide Steady, Named, Finish;
    FinishSteady(s, q);
    var t := Finish(s, q);
    assert SameDebt(t.events, t.events);
    SteadyQueues(t, ReleaseQueue(s, q));
    SteadyTrans(s, t, ReleaseQueue(s, q));
  }

  // ----- what a call adds -----

  predicate OnGpu(s: State, q: nat) { q < |s.queues| && s.queues[q].data.gpu }

  predicate Launches(s: State, c: Call) { c.EnqueueKernel? && Accepted(s, c) }

  predicate ReleasesLast(s: State, c: Call, q: nat) {
    c.ReleaseEventCall? && c.e < |s.events| && s.events[c.e].refcount == 1 && s.events[c.e].data.queue == q
  }

  /** A queue is kept by every launch on it, and on a GPU by the last release of each of its events. */
  function QueueCharge(s: State, c: Call, q: nat): nat {
    if (Launches(s, c) && c.q == q) || (OnGpu(s, q) && ReleasesLast(s, c, q)) then 1 else 0
  }

  /** A kernel is kept by every launch of it on a GPU. */
  function KernelCharge(s: State, c: Call, k: nat): nat { if Launches(s, c) && c.k == k && OnGpu(s, c.q) then 1 else 0 }

  /** What a call adds to what is owed. */
  ghost predicate Charges(s: State, t: State, c: Call) {
    && Named(t) && SameDebt(s.events, t.events)
    && (forall q: nat {:trigger Debt(t.queues, q)} :: Debt(t.queues, q) == Debt(s.queues, q) + QueueCharge(s, c, q))
    && forall k: nat {:trigger Owed(t, k)} :: Owed(t, k) == Owed(s, k) + KernelCharge(s, c, k)
  }

  lemma SteadyCharges(s: State, t: State, c: Call)
    requires Named(s) && Steady(s, t) && !Launches(s, c) && forall q: nat :: !(OnGpu(s, q) && ReleasesLast(s, c, q))
    ensures Charges(s, t, c)
  {
    SteadyNamed(s, t);
    hide Owed, Named, Launches, OnGpu, ReleasesLast;
  }

  lemma NewQueueSteady(s: State, d: QueueData)
    requires d.pending == []
    ensures Steady(s, s.(queues := Create(s.queues, d, 0)))
  {
    CollectSnoc(s.queues, Obj(true, 1, 1, 0, d), GpuQueueLaunches);
    assert GpuPending(Create(s.queues, d, 0)) == GpuPending(s.queues);
    hide GpuPending;
  }

  lemma TransferSteady(s: State, c: Call)
    requires Named(s) && (c.EnqueueRead? || c.EnqueueWrite? || c.EnqueueCopy? || c.EnqueueReadRect? || c.EnqueueWriteRect?
      || c.EnqueueCopyRect? || c.EnqueueMarker?)
    ensures Steady(s, Effect(s, c))
  {
    hide Steady, Named, RunNow, RunInto, Defer, DevicePtr, DevId, DevIndex;
    match c
    case EnqueueRead(q, m, blocking, offset, cb, ptr, _, event) =>
      var addr := DevicePtr(s, m, DevId(s, q)) + offset;
      RunNowSteady(s, q, [m], OpRead(ptr, addr, cb), event);
      DeferSteady(s, q, [m], ReadBuffer(ptr, addr, cb, m), event);
    case EnqueueWrite(q, m, blocking, offset, cb, ptr, _, event) =>
      RunNowSteady(s, q, [m], OpWrite(ptr, DevicePtr(s, m, DevId(s, q)) + offset, cb), event);
      DeferSteady(s, q, [m], WriteBuffer(ptr, DevicePtr(s, m, DevIndex(s, q)) + offset, cb, m), event);
    case EnqueueCopy(q, m1, m2, o1, o2, cb, event) =>
      DeferSteady(s, q, [m1, m2], CopyBuffer(DevicePtr(s, m1, DevId(s, q)) + o1, DevicePtr(s, m2, DevId(s, q)) + o2, cb, m1, m2), event);
    case EnqueueReadRect(q, m, ptr, shape, _, event) =>
      RunNowSteady(s, q, [m], OpRect(RectRead, DevicePtr(s, m, DevId(s, q)), ptr, shape), event);
    case EnqueueWriteRect(q, m, ptr, shape, _, out) =>
      RunIntoSteady(s, q, [m], OpRect(RectWrite, DevicePtr(s, m, DevId(s, q)), ptr, shape), out);
    case EnqueueCopyRect(q, m1, m2, shape, _, event) =>
      RunNowSteady(s, q, [m1, m2], OpRect(RectCopy, DevicePtr(s, m1, DevId(s, q)), DevicePtr(s, m2, DevId(s, q)), shape), event);
    case EnqueueMarker(q) => DeferSteady(s, q, [], Marker, true);
  }

  lemma QueueSteady(s: State, c: Call)
    requires Named(s) && (c.CreateQueue? || c.RetainQueueCall? || c.ReleaseQueueCall? || c.EnqueueMap? || c.EnqueueUnmap?
      || c.FinishCall? || c.WaitCall?)
    ensures Steady(s, Effect(s, c))
  {
    hide Steady, Named, ReleaseQueue, MapCall, UnmapCall, Finish, WaitForEvents, FoundMapping;
    match c
    case CreateQueue(context, devIndex, devId, gpu) => NewQueueSteady(s, QueueData(context, devIndex, devId, gpu, []));
    case RetainQueueCall(q) => SteadyQueues(s, Effect(s, c));
    case ReleaseQueueCall(q) =>
      var s1 := s.(queues := GiveUp(s.queues, q));
      SteadyQueues(s, s1);
      SteadyNamed(s, s1);
      ReleaseQueueSteady(s1, q);
      SteadyTrans(s, s1, Effect(s, c));
    case EnqueueMap(q, m, blocking, offset, size, _, hostPtr, event) => MapSteady(s, q, m, blocking, offset, size, hostPtr, event);
    case EnqueueUnmap(q, m, ptr, flush, event) =>
      SteadyFrame(s, s);
      if FoundMapping(s, m, ptr).Some? { UnmapSteady(s, q, m, FoundMapping(s, m, ptr).value, flush, event); }
    case FinishCall(q) => FinishSteady(s, q);
    case WaitCall(es) => WaitSteady(s, es);
  }

  lemma KernelSteady(s: State, c: Call)
    requires c.CreateProgram? || c.RetainProgram? || c.CreateKernel? || c.RetainKernel? || c.SetKernelArg?
    ensures Steady(s, Effect(s, c))
  {
    hide Steady;
    SteadyKernels(s, Effect(s, c));
  }

  lemma ReleaseSteady(s: State, c: Call)
    requires c.ReleaseProgramCall? || c.ReleaseKernelCall?
    ensures Steady(s, Effect(s, c))
  {
    hide Steady, ReleaseProgram, ReleaseKernel;
    if c.ReleaseProgramCall? {
      ReleaseProgramDebt(s.(programs := GiveUp(s.programs, c.p)), c.p);
      SteadyKernels(s, Effect(s, c));
    } else {
      var s1 := s.(kernels := GiveUp(s.kernels, c.k));
      ReleaseKernelDebt(s1, c.k);
      assert SameDebt(s.kernels, s1.kernels);
      SteadyKernels(s, s1);
      SteadyKernels(s1, Effect(s, c));
      SteadyTrans(s, s1, Effect(s, c));
    }
  }

  lemma OtherSteady(s: State, c: Call)
    requires c.CreateBuffer? || c.CreateSubBuffer? || c.RetainMemObject? || c.ReleaseMemObject? || c.StoreHost? || c.RetainEvent?
    ensures Steady(s, Effect(s, c))
  {
    hide Steady, ReleaseMem, InitOps;
    if c.RetainEvent? { EventsSteady(s, Effect(s, c)); } else { SteadyFrame(s, Effect(s, c)); }
  }

  lemma EventCharges(s: State, c: Call)
    requires Named(s) && c.ReleaseEventCall?
    ensures Charges(s, Effect(s, c), c)
  {
    var e, s1, t := c.e, s.(events := GiveUp(s.events, c.e)), Effect(s, c);
    hide Steady, Named, Charges, ReleaseQueue;
    EventsSteady(s, s1);
    if e >= |s.events| {
      SteadyCharges(s, t, c);
    } else {
      var s2 := s1.(events := Dec(s1.events, e));
      EventsSteady(s1, s2);
      SteadyTrans(s, s1, s2);
      SteadyNamed(s, s2);
      var q := s.events[e].data.queue;
      if s.events[e].refcount != 1 {
        SteadyCharges(s, t, c);
      } else if OnGpu(s, q) {
        GpuEventCharges(s, c);
      } else {
        ReleaseQueueSteady(s2, q);
        EventsSteady(ReleaseQueue(s2, q), t);
        SteadyTrans(s, s2, ReleaseQueue(s2, q));
        SteadyTrans(s, ReleaseQueue(s2, q), t);
        SteadyCharges(s, t, c);
      }
    }
  }

  /** The same launches are pending, and one queue has been charged. */
  lemma ChargedQueue(s: State, t: State, c: Call, q: nat)
    requires Named(s) && q < |s.queues| && t.queues == Leak(s.queues, q) && t.kernels == s.kernels && SameDebt(s.events, t.events)
    requires !Launches(s, c) && forall r: nat :: QueueCharge(s, c, r) == if r == q then 1 else 0
    ensures Charges(s, t, c)
  {
    LeakKeepsGpu(s.queues, q);
    hide GpuPending, QueueCharge, Launches, SameDebt;
    forall r: nat ensures Debt(t.queues, r) == Debt(s.queues, r) + QueueCharge(s, c, r) {
      assert QueueCharge(s, c, r) == if r == q then 1 else 0;
    }
    hide Debt, Leak;
    forall j: nat ensures Owed(t, j) == Owed(s, j) + KernelCharge(s, c, j) {
      assert KernelCharge(s, c, j) == 0;
    }
  }

  lemma LeakKeepsGpu(queues: seq<Obj<QueueData>>, q: nat)
    ensures GpuPending(Leak(queues, q)) == GpuPending(queues)
  {
    CollectPointwise(queues, Leak(queues, q), GpuQueueLaunches, GpuQueueLaunches);
  }

  lemma GpuEventCharges(s: State, c: Call)
    requires Named(s) && c.ReleaseEventCall? && c.e < |s.events| && s.events[c.e].refcount == 1 && OnGpu(s, s.events[c.e].data.queue)
    ensures Charges(s, Effect(s, c), c)
  {
    var q, t := s.events[c.e].data.queue, Effect(s, c);
    hide Named, Charges, ReleaseQueue;
    assert t.queues == Leak(s.queues, q) && t.kernels == s.kernels && SameDebt(s.events, t.events);
    hide Effect, SameDebt;
    ChargedQueue(s, t, c, q);
  }

  lemma LaunchCharges(s: State, c: Call)
    requires Named(s) && Launches(s, c)
    ensures Charges(s, Effect(s, c), c)
  {
    var q, k := c.q, c.k;
    var s1 := MaybeEvent(s, q, c.event, true);
    var (blocks, args) := Snapshot(s1.blocks, s1.kernels[k].data.arguments, s1.nodes, 0);
    var bufs := ArgBuffers(s1.blocks, s1.kernels[k].data, 0);
    var s2 := s1.(blocks := blocks, queues := Retain(s1.queues, q), kernels := Retain(s1.kernels, k));
    var s3 := RetainMems(s2.(queues := Leak(s2.queues, q)), bufs);
    var n := Node(s3.nodes, RunKernel(k, c.range, args, bufs), EventHandle(s, c.event));
    MaybeEventSteady(s, q, c.event, true);
    assert Effect(s, c) == Append(s3, q, n.command, n.event);
    hide Snapshot, ArgBuffers, RetainMems, Steady, Charges, Named, Effect;
    assert SameDebt(s1.kernels, s2.kernels);
    SteadyKernels(s1, s1.(kernels := s2.kernels));
    SteadyQueues(s1.(kernels := s2.kernels), s2);
    SteadyTrans(s, s1, s1.(kernels := s2.kernels));
    SteadyTrans(s, s1.(kernels := s2.kernels), s2);
    LaunchAppended(s, s2, s3, c, n);
  }

  lemma LaunchAppended(s: State, s2: State, s3: State, c: Call, n: Node)
    requires Named(s) && Launches(s, c) && Steady(s, s2)
    requires s3.queues == Leak(s2.queues, c.q) && s3.events == s2.events && s3.kernels == s2.kernels
    requires n == Node(s3.nodes, n.command, n.event) && n.command.RunKernel? && n.command.kernel == c.k
    requires c.q < |s2.queues| && s2.queues[c.q].data.gpu == s.queues[c.q].data.gpu
    ensures Charges(s, Append(s3, c.q, n.command, n.event), c)
  {
    var t := Append(s3, c.q, n.command, n.event);
    AppendedQueues(s2, s3, c.q, n);
    SteadyNamed(s, s2);
    LaunchNamesKernel(s, c);
    hide GpuPending, Launches;
    var l := GpuLaunch(s2, c.q, n);
    assert l == if OnGpu(s, c.q) then multiset{c.k} else multiset{};
    assert Named(t) && t.kernels == s2.kernels && SameDebt(s.events, t.events);
    hide Named, SameDebt, Append, GpuLaunch;
    forall j: nat ensures Owed(t, j) == Owed(s, j) + KernelCharge(s, c, j) {
      assert Owed(s2, j) == Owed(s, j);
      assert GpuPending(t.queues)[j] == GpuPending(s2.queues)[j] + l[j];
    }
    forall r: nat ensures Debt(t.queues, r) == Debt(s.queues, r) + QueueCharge(s, c, r) {
      SteadyDebt(s, s2, r);
    }
  }

  lemma SteadyDebt(s: State, t: State, q: nat)
    requires Steady(s, t)
    ensures Debt(t.queues, q) == Debt(s.queues, q)
  {
    hide GpuPending, Owed;
  }

  lemma LaunchNamesKernel(s: State, c: Call)
    requires Launches(s, c)
    ensures c.k < |s.kernels|
  {
  }

  lemma AppendedQueues(s: State, s3: State, q: nat, n: Node)
    requires q < |s.queues| && s3.queues == Leak(s.queues, q) && n == Node(s3.nodes, n.command, n.event)
    ensures var t := Append(s3, q, n.command, n.event);
      GpuPending(t.queues) == GpuPending(s.queues) + GpuLaunch(s, q, n)
      && forall r: nat {:trigger Debt(t.queues, r)} :: Debt(t.queues, r) == Debt(s.queues, r) + if r == q then 1 else 0
  {
    AppendGpu(s3, q, n);
    LeakKeepsGpu(s.queues, q);
    hide GpuPending;
    assert Append(s3, q, n.command, n.event).queues == SetPending(s3, q, Pending(s3, q) + [n]).queues;
  }

  lemma TakesReleases(s: State, c: Call)
    requires c.ReleaseEventCall?
    ensures Accepted(s, c)
  {
  }

  /** One call adds exactly its charges. */
  lemma StepCharges(s: State, c: Call)
    requires Named(s)
    ensures Charges(s, Step(s, c), c)
  {
    hide Steady, Named, Charges, Effect, Accepted, OnGpu;
    if !Accepted(s, c) {
      if c.ReleaseEventCall? { TakesReleases(s, c); }
      SteadyFrame(s, s);
      SteadyCharges(s, s, c);
    } else if c.EnqueueKernel? {
      LaunchCharges(s, c);
    } else if c.ReleaseEventCall? {
      EventCharges(s, c);
    } else {
      if c.EnqueueRead? || c.EnqueueWrite? || c.EnqueueCopy? || c.EnqueueReadRect? || c.EnqueueWriteRect? || c.EnqueueCopyRect?
        || c.EnqueueMarker? { TransferSteady(s, c); }
      else if c.CreateQueue? || c.RetainQueueCall? || c.ReleaseQueueCall? || c.EnqueueMap? || c.EnqueueUnmap? || c.FinishCall?
        || c.WaitCall? { QueueSteady(s, c); }
      else if c.CreateProgram? || c.RetainProgram? || c.CreateKernel? || c.RetainKernel? || c.SetKernelArg? { KernelSteady(s, c); }
      else if c.ReleaseProgramCall? || c.ReleaseKernelCall? { ReleaseSteady(s, c); }
      else { OtherSteady(s, c); }
      SteadyCharges(s, Effect(s, c), c);
    }
  }

  // ----- runs -----

  function QueueCharges(s: State, cs: seq<Call>, q: nat): nat
    decreases |cs|
  {
    if cs == [] then 0 else QueueCharge(s, cs[0], q) + QueueCharges(Step(s, cs[0]), cs[1..], q)
  }

  function KernelCharges(s: State, cs: seq<Call>, k: nat): nat
    decreases |cs|
  {
    if cs == [] then 0 else KernelCharge(s, cs[0], k) + KernelCharges(Step(s, cs[0]), cs[1..], k)
  }

  /** For every run, queue, kernel and event: what is kept for good is exactly what the calls of
      the run charge, launches on a GPU that are still pending being part of it. */
  lemma {:induction false} RunCharges(s: State, cs: seq<Call>, q: nat, k: nat, e: nat)
    requires Named(s)
    ensures var t := Run(s, cs);
      && Debt(t.queues, q) == Debt(s.queues, q) + QueueCharges(s, cs, q)
      && Owed(t, k) == Owed(s, k) + KernelCharges(s, cs, k)
      && Debt(t.events, e) == Debt(s.events, e)
    decreases |cs|
  {
    hide Named, Step, Debt, Owed, QueueCharge, KernelCharge;
    if cs != [] {
      StepCharges(s, cs[0]);
      var t := Step(s, cs[0]);
      assert Debt(t.queues, q) == Debt(s.queues, q) + QueueCharge(s, cs[0], q);
      assert Owed(t, k) == Owed(s, k) + KernelCharge(s, cs[0], k);
      assert Debt(t.events, e) == Debt(s.events, e);
      RunCharges(t, cs[1..], q, k, e);
    }
  }
}
