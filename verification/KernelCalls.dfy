/** Every API call keeps the books of kernels and programs. */
module KernelCalls {
  import opened RefCounts
  import opened Runtime
  import opened KernelBooks

  // ----- the queue -----

  lemma SetPendingLaunches(s: State, q: nat, nodes: seq<Node>)
    requires q < |s.queues|
    ensures PendingLaunches(SetPending(s, q, nodes).queues) + Collect(Pending(s, q), NodeLaunch)
         == PendingLaunches(s.queues) + Collect(nodes, NodeLaunch)
  {
    CollectUpdate(s.queues, q, SetPending(s, q, nodes).queues[q], QueueLaunches);
  }

  lemma AppendLaunches(s: State, q: nat, n: Node)
    requires q < |s.queues|
    ensures PendingLaunches(SetPending(s, q, Pending(s, q) + [n]).queues) == PendingLaunches(s.queues) + NodeLaunch(n)
  {
    var p := Pending(s, q);
    SetPendingLaunches(s, q, p + [n]);
    CollectSnoc(p, n, NodeLaunch);
    hide Collect, PendingLaunches, NodeLaunch;
    BagMoved(PendingLaunches(SetPending(s, q, p + [n]).queues), PendingLaunches(s.queues), Collect(p, NodeLaunch), NodeLaunch(n));
  }

  lemma PopLaunches(s: State, q: nat)
    requires Pending(s, q) != []
    ensures PendingLaunches(s.queues) == PendingLaunches(SetPending(s, q, Pending(s, q)[1..]).queues) + NodeLaunch(Pending(s, q)[0])
  {
    var p := Pending(s, q);
    SetPendingLaunches(s, q, p[1..]);
    assert Collect(p, NodeLaunch) == NodeLaunch(p[0]) + Collect(p[1..], NodeLaunch);
    hide Collect, PendingLaunches, NodeLaunch;
    BagMoved(PendingLaunches(s.queues), PendingLaunches(SetPending(s, q, p[1..]).queues), Collect(p[1..], NodeLaunch), NodeLaunch(p[0]));
  }

  lemma AppendOk(s: State, q: nat, c: Command, event: Option<nat>, refs: Bag)
    requires q < |s.queues| && KernelOk(s, refs + NodeLaunch(Node(s.nodes, c, event)))
    ensures KernelOk(Append(s, q, c, event), refs)
  {
    var n := Node(s.nodes, c, event);
    AppendLaunches(s, q, n);
    assert Append(s, q, c, event).queues == SetPending(s, q, Pending(s, q) + [n]).queues;
    hide PendingLaunches, NodeLaunch, Balanced, ListsOk, LiveKernels;
    BagSwap(PendingLaunches(s.queues), NodeLaunch(n), refs);
  }

  lemma SameLaunchesBy(a: seq<Obj<QueueData>>, b: seq<Obj<QueueData>>)
    requires |a| == |b| && forall q :: 0 <= q < |a| ==> a[q].data.pending == b[q].data.pending
    ensures SameLaunches(a, b)
  {
    CollectPointwise(a, b, QueueLaunches, QueueLaunches);
  }

  lemma LeakKernelOk(s: State, k: nat, refs: Bag)
    requires KernelOk(s, refs + multiset{k})
    ensures KernelOk(s.(kernels := Leak(s.kernels, k)), refs)
  {
    BagOrder(PendingLaunches(s.queues), refs, multiset{k});
    LeakBalanced(s.kernels, PendingLaunches(s.queues) + refs, k);
    hide PendingLaunches, Balanced, ListsOk, LiveKernels;
    KernelCounters(s.kernels, s.programs, k, Leak(s.kernels, k)[k]);
  }

  /** One round of the drain: a launch gives back its kernel, except on a GPU. */
  lemma ExecuteOk(s: State, d: QueueData, n: Node, refs: Bag)
    requires KernelOk(s, refs + NodeLaunch(n))
    ensures KernelOk(Execute(s, d, n), refs)
  {
    hide KernelOk, ReleaseMems, ReleaseKernel, FreeBlocks;
    var t := Execute(s, d, n);
    if n.command.RunKernel? {
      var k := n.command.kernel;
      var s1 := ReleaseMems(Perform(s, n.event, CommandOp(s, d.devId, n.command)), CommandMems(n.command));
      var s2 := s1.(blocks := FreeBlocks(s1.blocks, n.command.arguments));
      KernelFrame(s, s2, refs + multiset{k});
      ReleaseKernelOk(s2, k, refs);
      LeakKernelOk(s2, k, refs);
    } else {
      assert refs + NodeLaunch(n) == refs;
      KernelFrame(s, t, refs);
    }
  }

  lemma ExecuteHeadOk(s: State, q: nat, refs: Bag)
    requires KernelOk(s, refs) && Pending(s, q) != []
    ensures KernelOk(ExecuteHead(s, q), refs)
  {
    PopLaunches(s, q);
    var s1, n := SetPending(s, q, Pending(s, q)[1..]), Pending(s, q)[0];
    hide PendingLaunches, NodeLaunch, Balanced, ListsOk, LiveKernels, Execute;
    BagSwap(PendingLaunches(s1.queues), NodeLaunch(n), refs);
    assert KernelOk(s1, refs + NodeLaunch(n));
    hide KernelOk;
    ExecuteOk(s1, s.queues[q].data, n, refs);
  }

  lemma {:induction false} FinishOk(s: State, q: nat, refs: Bag)
    requires KernelOk(s, refs)
    ensures KernelOk(Finish(s, q), refs) && |Finish(s, q).queues| == |s.queues|
    decreases |Pending(s, q)|
  {
    hide KernelOk, ExecuteHead;
    if Pending(s, q) != [] {
      ExecuteHeadOk(s, q, refs);
      FinishOk(ExecuteHead(s, q), q, refs);
    }
  }

  lemma {:induction false} WaitOk(s: State, es: seq<nat>)
    requires KernelInv(s)
    ensures KernelInv(WaitForEvents(s, es))
    decreases |es|
  {
    hide KernelOk, Finish;
    if es != [] {
      var t := if es[0] < |s.events| then Finish(s, s.events[es[0]].data.queue) else s;
      if es[0] < |s.events| { FinishOk(s, s.events[es[0]].data.queue, multiset{}); }
      WaitOk(t, es[1..]);
    }
  }

  // ----- calls -----

  lemma MaybeEventOk(s: State, q: nat, wanted: bool, inOrder: bool)
    requires KernelInv(s)
    ensures KernelInv(MaybeEvent(s, q, wanted, inOrder)) && |MaybeEvent(s, q, wanted, inOrder).queues| == |s.queues|
  {
    SameLaunchesBy(s.queues, MaybeEvent(s, q, wanted, inOrder).queues);
    hide KernelOk, SameLaunches;
    KernelFrame(s, MaybeEvent(s, q, wanted, inOrder), multiset{});
  }

  lemma RunNowOk(s: State, q: nat, ms: seq<nat>, op: Op, wanted: bool)
    requires KernelInv(s)
    ensures KernelInv(RunNow(s, q, ms, op, wanted))
  {
    hide KernelOk, Finish, TakeMems, DropMems, MaybeEvent;
    MaybeEventOk(s, q, wanted, true);
    var s1 := MaybeEvent(s, q, wanted, true);
    var s2 := TakeMems(s1, ms);
    KernelFrame(s1, s2, multiset{});
    FinishOk(s2, q, multiset{});
    KernelFrame(Finish(s2, q), RunNow(s, q, ms, op, wanted), multiset{});
  }

  lemma RunIntoOk(s: State, q: nat, ms: seq<nat>, op: Op, out: Option<nat>)
    requires KernelInv(s)
    ensures KernelInv(RunInto(s, q, ms, op, out))
  {
    hide KernelOk, RunNow, RunInto, Finish, TakeMems, SameLaunches;
    RunNowOk(s, q, ms, op, false);
    RunIntoIs(s, q, ms, op, out);
    SameLaunchesBy(RunNow(s, q, ms, op, false).queues, RunInto(s, q, ms, op, out).queues);
    KernelFrame(RunNow(s, q, ms, op, false), RunInto(s, q, ms, op, out), multiset{});
  }

  lemma DeferOk(s: State, q: nat, ms: seq<nat>, c: Command, wanted: bool)
    requires KernelInv(s) && q < |s.queues| && !c.RunKernel?
    ensures KernelInv(Defer(s, q, ms, c, wanted))
  {
    hide KernelOk, RetainMems, MaybeEvent, Append;
    MaybeEventOk(s, q, wanted, true);
    var s1 := MaybeEvent(s, q, wanted, true);
    var s2 := RetainMems(s1, ms);
    KernelFrame(s1, s2, multiset{});
    assert multiset{} + NodeLaunch(Node(s2.nodes, c, EventHandle(s, wanted))) == multiset{};
    AppendOk(s2, q, c, EventHandle(s, wanted), multiset{});
  }

  lemma MapCallOk(s: State, q: nat, m: nat, blocking: bool, offset: nat, size: nat, hostPtr: Option<int>, wanted: bool)
    requires KernelInv(s) && q < |s.queues|
    ensures KernelInv(MapCall(s, q, m, blocking, offset, size, hostPtr, wanted))
  {
    hide KernelOk, Finish, MaybeEvent, Append, MapOp;
    var event, id := EventHandle(s, wanted), |s.mappings|;
    var s0 := s.(mems := Retain(s.mems, m));
    KernelFrame(s, s0, multiset{});
    MaybeEventOk(s0, q, wanted, hostPtr.Some?);
    var s1 := MaybeEvent(s0, q, wanted, hostPtr.Some?);
    if hostPtr.None? {
      KernelFrame(s1, MapCall(s, q, m, blocking, offset, size, hostPtr, wanted), multiset{});
    } else {
      var s2 := AddMapping(s1, m, Mapping(true, m, hostPtr.value, offset, size));
      KernelFrame(s1, s2, multiset{});
      if blocking {
        FinishOk(s2, q, multiset{});
        KernelFrame(Finish(s2, q), MapCall(s, q, m, blocking, offset, size, hostPtr, wanted), multiset{});
      } else {
        assert multiset{} + NodeLaunch(Node(s2.nodes, MapBuffer(m, id), event)) == multiset{};
        AppendOk(s2, q, MapBuffer(m, id), event, multiset{});
      }
    }
  }

  lemma UnmapCallOk(s: State, q: nat, m: nat, id: nat, flush: bool, wanted: bool)
    requires KernelInv(s)
    ensures KernelInv(UnmapCall(s, q, m, id, flush, wanted))
  {
    SameLaunchesBy(s.queues, UnmapDevice(s, q, m, id, flush, wanted).queues);
    UnmapKernels(s, q, m, id, flush, wanted);
    hide KernelOk, SameLaunches, UnmapCall, UnmapDevice;
    KernelFrame(s, UnmapCall(s, q, m, id, flush, wanted), multiset{});
  }

  lemma UnmapKernels(s: State, q: nat, m: nat, id: nat, flush: bool, wanted: bool)
    ensures var t := UnmapCall(s, q, m, id, flush, wanted);
      t.kernels == s.kernels && t.programs == s.programs && t.queues == UnmapDevice(s, q, m, id, flush, wanted).queues
  {
    hide ReleaseMem;
  }

  lemma UsableKernel(s: State, k: nat)
    requires KernelInv(s) && Usable(s.kernels, k)
    ensures Alive(s.kernels, k)
  {
    UsableIsAlive(s.kernels, PendingLaunches(s.queues) + multiset{}, k);
  }

  /** A launch retains its kernel for the node. */
  lemma KernelCallOk(s: State, q: nat, k: nat, range: seq<nat>, wanted: bool)
    requires KernelInv(s) && q < |s.queues| && Usable(s.kernels, k)
    ensures KernelInv(KernelCall(s, q, k, range, wanted))
  {
    hide KernelOk, RetainMems, ArgBuffers, Snapshot, Append, MaybeEvent, SameLaunches, NodeLaunch;
    UsableKernel(s, k);
    var d, event := s.kernels[k].data, EventHandle(s, wanted);
    MaybeEventOk(s, q, wanted, true);
    var s1 := MaybeEvent(s, q, wanted, true);
    assert s1.kernels == s.kernels by { MaybeEventKernels(s, q, wanted, true); }
    var (blocks, args) := Snapshot(s1.blocks, d.arguments, s1.nodes, 0);
    var bufs := ArgBuffers(s1.blocks, d, 0);
    RetainKernelOk(s1, k);
    var s2 := s1.(blocks := blocks, queues := Leak(Retain(s1.queues, q), q), kernels := Retain(s1.kernels, k));
    var s3 := RetainMems(s2, bufs);
    SameLaunchesBy(s1.queues, s3.queues);
    KernelFrame(s1.(kernels := Retain(s1.kernels, k)), s3, multiset{k});
    var c := RunKernel(k, range, args, bufs);
    assert multiset{} + NodeLaunch(Node(s3.nodes, c, event)) == multiset{k} by { LaunchOf(s3.nodes, c, event); }
    AppendOk(s3, q, c, event, multiset{});
  }

  lemma LaunchOf(id: nat, c: Command, event: Option<nat>)
    requires c.RunKernel?
    ensures multiset{} + NodeLaunch(Node(id, c, event)) == multiset{c.kernel}
  {
  }

  lemma MaybeEventKernels(s: State, q: nat, wanted: bool, inOrder: bool)
    ensures MaybeEvent(s, q, wanted, inOrder).kernels == s.kernels
  {
  }

  lemma RetainKernelOk(s: State, k: nat)
    requires KernelInv(s) && Alive(s.kernels, k)
    ensures KernelOk(s.(kernels := Retain(s.kernels, k)), multiset{k})
    ensures KernelInv(s.(kernels := Take(Retain(s.kernels, k), k)))
  {
    RetainBalanced(s.kernels, PendingLaunches(s.queues) + multiset{}, k);
    hide PendingLaunches, Balanced, ListsOk, LiveKernels;
    assert PendingLaunches(s.queues) + multiset{} + multiset{k} == PendingLaunches(s.queues) + multiset{k};
    KernelCounters(s.kernels, s.programs, k, Retain(s.kernels, k)[k]);
    var t := Take(Retain(s.kernels, k), k);
    assert t == s.kernels[k := t[k]];
    KernelCounters(s.kernels, s.programs, k, t[k]);
  }

  lemma ReleaseKernelCallOk(s: State, k: nat)
    requires KernelInv(s) && Usable(s.kernels, k)
    ensures KernelInv(ReleaseKernel(s.(kernels := GiveUp(s.kernels, k)), k))
  {
    GiveUpBalanced(s.kernels, PendingLaunches(s.queues) + multiset{}, k);
    hide PendingLaunches, Balanced, ListsOk, LiveKernels, ReleaseKernel;
    assert PendingLaunches(s.queues) + multiset{} + multiset{k} == PendingLaunches(s.queues) + (multiset{} + multiset{k});
    KernelCounters(s.kernels, s.programs, k, GiveUp(s.kernels, k)[k]);
    assert KernelOk(s.(kernels := GiveUp(s.kernels, k)), multiset{} + multiset{k});
    hide KernelOk;
    ReleaseKernelOk(s.(kernels := GiveUp(s.kernels, k)), k, multiset{});
  }

  lemma SetArgOk(s: State, k: nat, index: nat, size: nat, value: Option<Value>)
    requires KernelInv(s)
    ensures KernelInv(SetArg(s, k, index, size, value))
  {
    var t := SetArg(s, k, index, size, value);
    hide PendingLaunches, ListsOk, LiveKernels;
    if k < |s.kernels| && index < |s.kernels[k].data.arguments| {
      SetDataBalanced(s.kernels, PendingLaunches(s.queues) + multiset{}, k, t.kernels[k].data);
      KernelCounters(s.kernels, s.programs, k, t.kernels[k]);
    }
    hide Balanced;
  }

  // ----- programs -----

  lemma ProgramCounters(kernels: seq<Obj<KernelData>>, a: seq<Obj<ProgramData>>, b: seq<Obj<ProgramData>>)
    requires ListsOk(kernels, a) && |a| == |b| && forall p :: 0 <= p < |a| ==> a[p].data == b[p].data
    ensures ListsOk(kernels, b)
  {
    hide ListOk;
    forall k | 0 <= k < |kernels| ensures Listed(k, kernels[k], b) { assert Listed(k, kernels[k], a); }
  }

  lemma RetainProgramOk(s: State, p: nat)
    requires KernelInv(s) && Usable(s.programs, p)
    ensures KernelInv(s.(programs := Take(Retain(s.programs, p), p)))
  {
    UsableIsAlive(s.programs, LiveKernels(s.kernels), p);
    RetainBalanced(s.programs, LiveKernels(s.kernels), p);
    hide PendingLaunches, Balanced, ListsOk, LiveKernels;
    ProgramCounters(s.kernels, s.programs, Take(Retain(s.programs, p), p));
  }

  lemma ReleaseProgramCallOk(s: State, p: nat)
    requires KernelInv(s) && Usable(s.programs, p)
    ensures KernelInv(ReleaseProgram(s.(programs := GiveUp(s.programs, p)), p))
  {
    GiveUpBalanced(s.programs, LiveKernels(s.kernels), p);
    hide PendingLaunches, Balanced, ListsOk, LiveKernels, ReleaseProgram;
    ProgramCounters(s.kernels, s.programs, GiveUp(s.programs, p));
    ReleaseProgramOk(s.(programs := GiveUp(s.programs, p)), p);
  }

  lemma NewProgramOk(s: State, context: nat)
    requires KernelInv(s)
    ensures KernelInv(s.(programs := Create(s.programs, ProgramData(context, []), 0)))
  {
    var ps := Create(s.programs, ProgramData(context, []), 0);
    CreateBalanced(s.programs, LiveKernels(s.kernels), ProgramData(context, []), 0);
    assert ListOk([], |s.programs|, s.kernels) by { assert |s.programs| !in LiveKernels(s.kernels); }
    hide PendingLaunches, Balanced, ListOk;
    forall k | 0 <= k < |s.kernels| ensures Listed(k, s.kernels[k], ps) { assert Listed(k, s.kernels[k], s.programs); }
  }

  /** A new kernel retains its program and heads its list. */
  lemma AddKernelOk(s: State, p: nat, isPointer: seq<bool>, isLocal: seq<bool>, localSizes: seq<nat>)
    requires KernelInv(s) && Usable(s.programs, p)
    ensures KernelInv(AddKernel(s, p, isPointer, isLocal, localSizes))
  {
    hide NewKernelArgs;
    var t := AddKernel(s, p, isPointer, isLocal, localSizes);
    hide PendingLaunches, Balanced, LiveKernels, ListsOk;
    var o := t.kernels[|s.kernels|];
    CreateBalanced(s.kernels, PendingLaunches(s.queues) + multiset{}, o.data, 0);
    LiveKernelsSnoc(s.kernels, o);
    UsableIsAlive(s.programs, LiveKernels(s.kernels), p);
    var d := s.programs[p].data.(kernels := [|s.kernels|] + s.programs[p].data.kernels);
    SetDataBalanced(s.programs, LiveKernels(s.kernels), p, d);
    RetainBalanced(SetData(s.programs, p, d), LiveKernels(s.kernels), p);
    AddKernelLists(s.kernels, s.programs, o, p, d);
    ProgramCounters(t.kernels, SetData(s.programs, p, d), t.programs);
  }

  lemma LiveKernelsSnoc(kernels: seq<Obj<KernelData>>, o: Obj<KernelData>)
    ensures LiveKernels(kernels + [o]) == LiveKernels(kernels) + ProgramRef(o)
  {
    CollectSnoc(kernels, o, ProgramRef);
  }

  lemma AddKernelLists(kernels: seq<Obj<KernelData>>, programs: seq<Obj<ProgramData>>, o: Obj<KernelData>, p: nat, d: ProgramData)
    requires ListsOk(kernels, programs) && p < |programs| && o.live && o.data.program == Some(p)
    requires d == programs[p].data.(kernels := [|kernels|] + programs[p].data.kernels)
    ensures ListsOk(kernels + [o], SetData(programs, p, d))
  {
    var ks, ps := kernels + [o], SetData(programs, p, d);
    LiveKernelsSnoc(kernels, o);
    hide LiveKernels, ListOk;
    forall k | 0 <= k < |ks| ensures Listed(k, ks[k], ps) {
      if k < |kernels| { assert Listed(k, kernels[k], programs); }
    }
    hide Listed;
    forall x | 0 <= x < |ps| ensures ListOk(ps[x].data.kernels, x, ks) {
      AddToList(programs[x].data.kernels, x, kernels, o, p);
    }
  }

  lemma AddToList(l: seq<nat>, x: nat, kernels: seq<Obj<KernelData>>, o: Obj<KernelData>, p: nat)
    requires ListOk(l, x, kernels) && LiveKernels(kernels + [o]) == LiveKernels(kernels) + multiset{p}
    requires o.live && o.data.program == Some(p)
    ensures ListOk(if x == p then [|kernels|] + l else l, x, kernels + [o])
  {
    hide LiveKernels;
  }

  // ----- all calls -----

  lemma ProgramStep(s: State, c: Call)
    requires KernelInv(s) && Enabled(s, c)
    requires c.CreateProgram? || c.RetainProgram? || c.ReleaseProgramCall? || c.CreateKernel? || c.RetainKernel?
      || c.ReleaseKernelCall? || c.SetKernelArg?
    ensures KernelInv(Effect(s, c))
  {
    hide KernelOk, ReleaseKernel, ReleaseProgram, AddKernel, SetArg, PendingLaunches;
    match c
    case CreateProgram(context) => NewProgramOk(s, context);
    case RetainProgram(p) => RetainProgramOk(s, p);
    case ReleaseProgramCall(p) => ReleaseProgramCallOk(s, p);
    case CreateKernel(p, a, b, l) => AddKernelOk(s, p, a, b, l);
    case RetainKernel(k) => UsableKernel(s, k); RetainKernelOk(s, k);
    case ReleaseKernelCall(k) => ReleaseKernelCallOk(s, k);
    case SetKernelArg(k, i, size, v) => SetArgOk(s, k, i, size, v);
  }

  lemma CommandStep(s: State, c: Call)
    requires KernelInv(s) && Enabled(s, c)
    requires c.EnqueueRead? || c.EnqueueWrite? || c.EnqueueCopy? || c.EnqueueReadRect? || c.EnqueueWriteRect? || c.EnqueueCopyRect? || c.EnqueueMarker?
    ensures KernelInv(Effect(s, c))
  {
    hide KernelOk, RunNow, RunInto, Defer, DevicePtr;
    match c
    case EnqueueRead(q, m, blocking, offset, cb, ptr, _, event) =>
      var dev := DevicePtr(s, m, DevId(s, q)) + offset;
      RunNowOk(s, q, [m], OpRead(ptr, dev, cb), event);
      DeferOk(s, q, [m], ReadBuffer(ptr, dev, cb, m), event);
    case EnqueueWrite(q, m, blocking, offset, cb, ptr, _, event) =>
      RunNowOk(s, q, [m], OpWrite(ptr, DevicePtr(s, m, DevId(s, q)) + offset, cb), event);
      DeferOk(s, q, [m], WriteBuffer(ptr, DevicePtr(s, m, DevIndex(s, q)) + offset, cb, m), event);
    case EnqueueCopy(q, m1, m2, o1, o2, cb, event) =>
      DeferOk(s, q, [m1, m2],
              CopyBuffer(DevicePtr(s, m1, DevId(s, q)) + o1, DevicePtr(s, m2, DevId(s, q)) + o2, cb, m1, m2), event);
    case EnqueueReadRect(q, m, ptr, shape, _, event) => RunNowOk(s, q, [m], OpRect(RectRead, DevicePtr(s, m, DevId(s, q)), ptr, shape), event);
    case EnqueueWriteRect(q, m, ptr, shape, _, out) => RunIntoOk(s, q, [m], OpRect(RectWrite, DevicePtr(s, m, DevId(s, q)), ptr, shape), out);
    case EnqueueCopyRect(q, m1, m2, shape, _, event) =>
      RunNowOk(s, q, [m1, m2], OpRect(RectCopy, DevicePtr(s, m1, DevId(s, q)), DevicePtr(s, m2, DevId(s, q)), shape), event);
    case EnqueueMarker(q) => DeferOk(s, q, [], Marker, true);
  }

  lemma ReleaseQueueOk(s: State, q: nat)
    requires KernelInv(s)
    ensures KernelInv(ReleaseQueue(s, q))
  {
    hide KernelOk, Finish;
    FinishOk(s, q, multiset{});
    SameLaunchesBy(Finish(s, q).queues, ReleaseQueue(s, q).queues);
    hide SameLaunches;
    KernelFrame(Finish(s, q), ReleaseQueue(s, q), multiset{});
  }

  lemma ReleaseEventOk(s: State, e: nat)
    requires KernelInv(s)
    ensures KernelInv(ReleaseEvent(s, e))
  {
    hide KernelOk, ReleaseQueue;
    if e < |s.events| {
      var s1 := s.(events := Dec(s.events, e));
      var q := s1.events[e].data.queue;
      KernelFrame(s, s1, multiset{});
      ReleaseQueueOk(s1, q);
      SameLaunchesBy(s1.queues, Leak(s1.queues, q));
      hide SameLaunches;
      if s1.events[e].refcount == 0 && !(q < |s1.queues| && s1.queues[q].data.gpu) {
        assert ReleaseEvent(s, e).queues == ReleaseQueue(s1, q).queues;
        SameLaunchesBy(ReleaseQueue(s1, q).queues, ReleaseEvent(s, e).queues);
        KernelFrame(ReleaseQueue(s1, q), ReleaseEvent(s, e), multiset{});
      } else {
        SameLaunchesBy(s1.queues, ReleaseEvent(s, e).queues);
        KernelFrame(s1, ReleaseEvent(s, e), multiset{});
      }
    }
  }

  lemma NewQueueOk(s: State, d: QueueData)
    requires KernelInv(s) && d.pending == []
    ensures KernelInv(s.(queues := Create(s.queues, d, 0)))
  {
    CollectSnoc(s.queues, Obj(true, 1, 1, 0, d), QueueLaunches);
    assert PendingLaunches(Create(s.queues, d, 0)) == PendingLaunches(s.queues);
    hide KernelOk, PendingLaunches;
    KernelFrame(s, s.(queues := Create(s.queues, d, 0)), multiset{});
  }

  lemma QueueStep(s: State, c: Call)
    requires KernelInv(s) && Enabled(s, c)
    requires c.CreateQueue? || c.RetainQueueCall? || c.ReleaseQueueCall? || c.EnqueueMap? || c.EnqueueUnmap? || c.EnqueueKernel?
      || c.FinishCall? || c.WaitCall? || c.RetainEvent? || c.ReleaseEventCall?
    ensures KernelInv(Effect(s, c))
  {
    hide KernelOk, ReleaseQueue, ReleaseEvent, MapCall, UnmapCall, KernelCall, Finish, WaitForEvents, FindMapping, SameLaunches;
    match c
    case CreateQueue(context, devIndex, devId, gpu) => NewQueueOk(s, QueueData(context, devIndex, devId, gpu, []));
    case RetainQueueCall(q) =>
      SameLaunchesBy(s.queues, Take(Retain(s.queues, q), q));
      KernelFrame(s, Effect(s, c), multiset{});
    case ReleaseQueueCall(q) =>
      SameLaunchesBy(s.queues, GiveUp(s.queues, q));
      KernelFrame(s, s.(queues := GiveUp(s.queues, q)), multiset{});
      ReleaseQueueOk(s.(queues := GiveUp(s.queues, q)), q);
    case EnqueueMap(q, m, blocking, offset, size, _, hostPtr, event) =>
      MapCallOk(s, q, m, blocking, offset, size, hostPtr, event);
    case EnqueueUnmap(q, m, ptr, flush, event) =>
      if FoundMapping(s, m, ptr).Some? { UnmapCallOk(s, q, m, FoundMapping(s, m, ptr).value, flush, event); }
    case EnqueueKernel(q, k, range, _, event) => KernelCallOk(s, q, k, range, event);
    case FinishCall(q) => FinishOk(s, q, multiset{});
    case WaitCall(es) => WaitOk(s, es);
    case RetainEvent(e) => SameLaunchesBy(s.queues, s.queues); KernelFrame(s, Effect(s, c), multiset{});
    case ReleaseEventCall(e) =>
      SameLaunchesBy(s.queues, s.queues);
      KernelFrame(s, s.(events := GiveUp(s.events, e)), multiset{});
      ReleaseEventOk(s.(events := GiveUp(s.events, e)), e);
  }

  lemma OtherStep(s: State, c: Call)
    requires KernelInv(s)
    requires c.CreateBuffer? || c.CreateSubBuffer? || c.RetainMemObject? || c.ReleaseMemObject? || c.StoreHost?
    ensures KernelInv(Effect(s, c))
  {
    hide KernelOk, ReleaseMem;
    KernelFrame(s, Effect(s, c), multiset{});
  }

  /** Every call keeps the books of kernels and programs. */
  lemma KernelStep(s: State, c: Call)
    requires KernelInv(s) && Enabled(s, c)
    ensures KernelInv(Step(s, c))
  {
    hide KernelOk, Effect, Enabled, Accepted;
    if Accepted(s, c) {
      if c.CreateProgram? || c.RetainProgram? || c.ReleaseProgramCall? || c.CreateKernel? || c.RetainKernel?
        || c.ReleaseKernelCall? || c.SetKernelArg? {
        ProgramStep(s, c);
      } else if c.EnqueueRead? || c.EnqueueWrite? || c.EnqueueCopy? || c.EnqueueReadRect? || c.EnqueueWriteRect? || c.EnqueueCopyRect? || c.EnqueueMarker? {
        CommandStep(s, c);
      } else if c.CreateBuffer? || c.CreateSubBuffer? || c.RetainMemObject? || c.ReleaseMemObject? || c.StoreHost? {
        OtherStep(s, c);
      } else {
        QueueStep(s, c);
      }
    }
  }
}
