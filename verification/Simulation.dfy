/** Each call on one queue against executing it at once: what has been issued to the device,
    followed by what the pending list still owes, grows by what eager execution would issue. */
module Simulation {
  import opened RefCounts
  import opened Runtime
  import opened Frames
  import opened SimBooks
  import opened SimCalls

  /** What a call would do to memory if it were executed at once. */
  function EagerOps(s: State, c: Call): seq<Op> {
    if !Accepted(s, c) then []
    else
      match c
      case EnqueueRead(q, m, _, offset, cb, ptr, _, _) => [OpRead(ptr, DevicePtr(s, m, DevId(s, q)) + offset, cb)]
      case EnqueueWrite(q, m, _, offset, cb, ptr, _, _) => [OpWrite(ptr, DevicePtr(s, m, DevId(s, q)) + offset, cb)]
      case EnqueueCopy(q, m1, m2, o1, o2, cb, _) =>
        [OpCopy(DevicePtr(s, m1, DevId(s, q)) + o1, DevicePtr(s, m2, DevId(s, q)) + o2, cb)]
      case EnqueueReadRect(q, m, ptr, shape, _, _) => [OpRect(RectRead, DevicePtr(s, m, DevId(s, q)), ptr, shape)]
      case EnqueueWriteRect(q, m, ptr, shape, _, _) => [OpRect(RectWrite, DevicePtr(s, m, DevId(s, q)), ptr, shape)]
      case EnqueueCopyRect(q, m1, m2, shape, _, _) =>
        [OpRect(RectCopy, DevicePtr(s, m1, DevId(s, q)), DevicePtr(s, m2, DevId(s, q)), shape)]
      case EnqueueMap(q, m, _, offset, size, _, hostPtr, _) =>
        if hostPtr.Some? then [OpMap(DevicePtr(s, m, DevId(s, q)), offset, size, hostPtr.value)] else []
      case EnqueueKernel(q, k, range, _, _) =>
        if k < |s.kernels| then [OpRun(k, range, LoadAll(s.blocks, s.kernels[k].data.arguments))] else []
      case CreateBuffer(_, _, _, _, _) => HostOps(s, c)
      case StoreHost(_, _) => HostOps(s, c)
      case _ => []
  }

  /** What a call does to memory at once, without draining any queue: the application's own stores,
      and the copies made when a buffer is created from host memory. */
  function HostOps(s: State, c: Call): seq<Op> {
    match c
    case CreateBuffer(_, size, ptrs, devices, source) => if Accepted(s, c) then InitOps(ptrs, devices, source, size) else []
    case StoreHost(ptr, bytes) => [HostStore(ptr, bytes)]
    case _ => []
  }

  /** Commands go to queue `q`. */
  predicate OnQueue(c: Call, q: nat) {
    match c
    case EnqueueRead(r, _, _, _, _, _, _, _) => r == q
    case EnqueueWrite(r, _, _, _, _, _, _, _) => r == q
    case EnqueueCopy(r, _, _, _, _, _, _) => r == q
    case EnqueueReadRect(r, _, _, _, _, _) => r == q
    case EnqueueWriteRect(r, _, _, _, _, _) => r == q
    case EnqueueCopyRect(r, _, _, _, _, _) => r == q
    case EnqueueMap(r, _, _, _, _, _, _, _) => r == q
    case EnqueueUnmap(_, _, _, _, _) => false
    case EnqueueKernel(r, _, _, _, _) => r == q
    case EnqueueMarker(r) => r == q
    case _ => true
  }

  lemma {:induction false} WaitSim(s: State, es: seq<nat>, q: nat)
    requires SimOk(s)
    ensures Simulates(s, WaitForEvents(s, es), q, [])
    decreases |es|
  {
    if es == [] {
      SimulatesUnseen(s, s, q);
    } else {
      hide SimOk, Finish, Solo;
      var t := if es[0] < |s.events| then Finish(s, s.events[es[0]].data.queue) else s;
      if es[0] < |s.events| {
        SimulatesFinish(s, q, s.events[es[0]].data.queue);
      } else {
        SimulatesSelf(s, q);
      }
      WaitSim(t, es[1..], q);
      SimulatesThen(s, t, WaitForEvents(s, es), q, [], []);
      var none: seq<Op> := [];
      assert none + none == none;
    }
  }

  lemma SimulatesSelf(s: State, q: nat)
    requires SimOk(s)
    ensures Simulates(s, s, q, [])
  {
    assert Projected(s, q) + [] == Projected(s, q);
  }

  lemma ReleaseQueueSim(s: State, r: nat, q: nat)
    requires SimOk(s)
    ensures Simulates(s, ReleaseQueue(s, r), q, [])
  {
    hide SimOk, Finish;
    SimulatesFinish(s, q, r);
    var t, u := Finish(s, r), ReleaseQueue(s, r);
    assert Unseen(t, u) && u.log == t.log;
    hide Unseen;
    SimulatesUnseen(t, u, q);
    SimulatesThen(s, t, u, q, [], []);
    var none: seq<Op> := [];
    assert none + none == none;
  }

  lemma ReleaseEventSim(s: State, e: nat, q: nat)
    requires SimOk(s)
    ensures Simulates(s, ReleaseEvent(s, e), q, [])
  {
    hide SimOk, ReleaseQueue;
    if e >= |s.events| {
      SimulatesSelf(s, q);
    } else {
      var s1 := s.(events := Dec(s.events, e));
      var r := s1.events[e].data.queue;
      assert Unseen(s, s1);
      SimulatesUnseen(s, s1, q);
      if s1.events[e].refcount == 0 && !(r < |s1.queues| && s1.queues[r].data.gpu) {
        ReleaseQueueSim(s1, r, q);
        var t, u := ReleaseQueue(s1, r), ReleaseEvent(s, e);
        assert Unseen(t, u) && u.log == t.log;
        SimulatesUnseen(t, u, q);
        SimulatesThen(s, s1, t, q, [], []);
        SimulatesThen(s, t, u, q, [] + [], []);
        var none: seq<Op> := [];
        assert none + none + none == none;
      } else {
        assert Unseen(s, ReleaseEvent(s, e));
        SimulatesUnseen(s, ReleaseEvent(s, e), q);
      }
    }
  }

  lemma ReleaseQueueCallSim(s: State, r: nat, q: nat)
    requires SimOk(s)
    ensures Simulates(s, ReleaseQueue(s.(queues := GiveUp(s.queues, r)), r), q, [])
  {
    hide SimOk, ReleaseQueue;
    var t := s.(queues := GiveUp(s.queues, r));
    assert Unseen(s, t);
    SimulatesUnseen(s, t, q);
    ReleaseQueueSim(t, r, q);
    AfterUnseen(s, t, ReleaseQueue(t, r), q);
  }

  lemma ReleaseEventCallSim(s: State, e: nat, q: nat)
    requires SimOk(s)
    ensures Simulates(s, ReleaseEvent(s.(events := GiveUp(s.events, e)), e), q, [])
  {
    hide SimOk, ReleaseEvent;
    var t := s.(events := GiveUp(s.events, e));
    assert Unseen(s, t);
    SimulatesUnseen(s, t, q);
    ReleaseEventSim(t, e, q);
    AfterUnseen(s, t, ReleaseEvent(t, e), q);
  }

  lemma NewQueueSim(s: State, d: QueueData, q: nat)
    requires SimOk(s) && d.pending == []
    ensures Simulates(s, s.(queues := Create(s.queues, d, 0)), q, [])
  {
    var t := s.(queues := Create(s.queues, d, 0));
    assert forall r, i {:trigger t.queues[r].data.pending[i]} :: 0 <= r < |t.queues| && 0 <= i < |t.queues[r].data.pending| ==>
      r < |s.queues| && t.queues[r].data.pending[i] == s.queues[r].data.pending[i];
    assert Keeps(s, t, None);
    assert forall r: nat :: Pending(t, r) == Pending(s, r);
    hide Keeps, KernelArgsOk, NodeOk;
    forall r, i | 0 <= r < |t.queues| && 0 <= i < |t.queues[r].data.pending|
      ensures NodeOk(t, t.queues[r].data.pending[i])
    {
      OpKept(s, t, s.queues[r].data.pending[i], 0, None);
    }
    if q < |s.queues| {
      assert forall i :: 0 <= i < |Pending(s, q)| ==> NodeOk(s, s.queues[q].data.pending[i]);
      ListOpsKept(s, t, DevId(s, q), Pending(s, q), None);
    }
  }

  lemma TransferStep(s: State, c: Call, q: nat)
    requires SimOk(s) && Enabled(s, c) && Accepted(s, c) && OnQueue(c, q) && SamePointer(s, c)
    requires c.EnqueueRead? || c.EnqueueWrite? || c.EnqueueCopy? || c.EnqueueMarker?
    ensures Simulates(s, Effect(s, c), q, EagerOps(s, c))
  {
    hide SimOk, RunNow, Defer, DevicePtr, Simulates, Solo;
    match c
    case EnqueueRead(_, m, blocking, offset, cb, ptr, _, event) =>
      var dev := DevicePtr(s, m, DevId(s, q)) + offset;
      RunNowSim(s, q, [m], OpRead(ptr, dev, cb), event);
      DeferSim(s, q, [m], ReadBuffer(ptr, dev, cb, m), event);
    case EnqueueWrite(_, m, blocking, offset, cb, ptr, _, event) =>
      RunNowSim(s, q, [m], OpWrite(ptr, DevicePtr(s, m, DevId(s, q)) + offset, cb), event);
      DeferSim(s, q, [m], WriteBuffer(ptr, DevicePtr(s, m, DevIndex(s, q)) + offset, cb, m), event);
    case EnqueueCopy(_, m1, m2, o1, o2, cb, event) =>
      DeferSim(s, q, [m1, m2],
               CopyBuffer(DevicePtr(s, m1, DevId(s, q)) + o1, DevicePtr(s, m2, DevId(s, q)) + o2, cb, m1, m2), event);
    case EnqueueMarker(_) => DeferSim(s, q, [], Marker, true);
  }

  lemma CommandStep(s: State, c: Call, q: nat)
    requires SimOk(s) && Enabled(s, c) && Accepted(s, c) && OnQueue(c, q)
    requires c.EnqueueReadRect? || c.EnqueueWriteRect? || c.EnqueueCopyRect? || c.EnqueueMap? || c.EnqueueKernel?
    ensures Simulates(s, Effect(s, c), q, EagerOps(s, c))
  {
    hide SimOk, RunNow, RunInto, MapCall, KernelCall, DevicePtr, Simulates, Solo, LoadAll;
    match c
    case EnqueueReadRect(_, m, ptr, shape, _, event) =>
      RunNowSim(s, q, [m], OpRect(RectRead, DevicePtr(s, m, DevId(s, q)), ptr, shape), event);
    case EnqueueWriteRect(_, m, ptr, shape, _, out) =>
      RunIntoSim(s, q, [m], OpRect(RectWrite, DevicePtr(s, m, DevId(s, q)), ptr, shape), out);
    case EnqueueCopyRect(_, m1, m2, shape, _, event) =>
      RunNowSim(s, q, [m1, m2], OpRect(RectCopy, DevicePtr(s, m1, DevId(s, q)), DevicePtr(s, m2, DevId(s, q)), shape), event);
    case EnqueueMap(_, m, blocking, offset, size, _, hostPtr, event) =>
      MapSim(s, q, m, blocking, offset, size, hostPtr, event);
    case EnqueueKernel(_, k, range, _, event) => KernelSim(s, q, k, range, event);
  }

  lemma QueueStep(s: State, c: Call, q: nat)
    requires SimOk(s)
    requires c.CreateQueue? || c.ReleaseQueueCall? || c.FinishCall? || c.WaitCall? || c.ReleaseEventCall? || c.CreateKernel?
      || c.SetKernelArg?
    ensures Simulates(s, Effect(s, c), q, [])
  {
    hide SimOk, ReleaseQueue, ReleaseEvent, Finish, WaitForEvents, AddKernel, SetArg, Solo, Simulates;
    match c
    case CreateQueue(context, devIndex, devId, gpu) => NewQueueSim(s, QueueData(context, devIndex, devId, gpu, []), q);
    case ReleaseQueueCall(r) => ReleaseQueueCallSim(s, r, q);
    case FinishCall(r) => SimulatesFinish(s, q, r);
    case WaitCall(es) => WaitSim(s, es, q);
    case ReleaseEventCall(e) => ReleaseEventCallSim(s, e, q);
    case CreateKernel(p, a, b, l) => AddKernelSim(s, p, a, b, l, q);
    case SetKernelArg(k, i, size, v) => SetArgSim(s, k, i, size, v, q);
  }

  lemma AfterUnseen(s: State, t: State, u: State, q: nat)
    requires Simulates(s, t, q, []) && Simulates(t, u, q, [])
    ensures Simulates(s, u, q, [])
  {
    SimulatesThen(s, t, u, q, [], []);
    var none: seq<Op> := [];
    assert none + none == none;
  }

  lemma ReleaseStep(s: State, c: Call, q: nat)
    requires SimOk(s) && (c.ReleaseMemObject? || c.ReleaseProgramCall? || c.ReleaseKernelCall?)
    ensures Simulates(s, Effect(s, c), q, [])
  {
    hide SimOk, ReleaseMem, ReleaseProgram, ReleaseKernel, Solo, Simulates;
    match c {
      case ReleaseMemObject(m) =>
        var t := s.(mems := GiveUp(s.mems, m));
        ReleaseMemQuiet(t, m);
        MemsUnseen(t, ReleaseMem(t, m));
        UnseenTrans(s, t, ReleaseMem(t, m));
        SimulatesUnseen(s, ReleaseMem(t, m), q);
      case ReleaseProgramCall(p) =>
        ReleaseProgramArgs(s.(programs := GiveUp(s.programs, p)), p);
        SimulatesUnseen(s, ReleaseProgram(s.(programs := GiveUp(s.programs, p)), p), q);
      case ReleaseKernelCall(k) =>
        ReleaseKernelArgs(s.(kernels := GiveUp(s.kernels, k)), k);
        SimulatesUnseen(s, ReleaseKernel(s.(kernels := GiveUp(s.kernels, k)), k), q);
    }
  }

  lemma ObjectStep(s: State, c: Call, q: nat)
    requires SimOk(s)
    requires c.RetainQueueCall? || c.CreateSubBuffer? || c.RetainMemObject? || c.RetainEvent?
      || c.CreateProgram? || c.RetainProgram? || c.RetainKernel?
    ensures Simulates(s, Effect(s, c), q, [])
  {
    hide SimOk, Solo, Simulates;
    var t := Effect(s, c);
    assert Unseen(s, t) && t.log == s.log;
    hide Effect, Unseen;
    SimulatesUnseen(s, t, q);
  }

  /** A call that works on host memory at once leaves what is pending as it is. */
  lemma HostStep(s: State, c: Call, q: nat)
    requires SimOk(s) && Accepted(s, c) && (c.CreateBuffer? || c.StoreHost?)
    ensures var t := Effect(s, c);
      SimOk(t) && (Solo(s, q) ==> Solo(t, q)) && PendingOps(t, q) == PendingOps(s, q) && t.log == s.log + HostOps(s, c)
  {
    hide SimOk, PendingOps, InitOps, Accepted;
    var t := Effect(s, c);
    assert Unseen(s, t);
    hide Unseen;
    UnseenSim(s, t, q);
    assert t.queues == s.queues;
    assert forall r: nat :: Pending(t, r) == Pending(s, r);
  }

  /** An unmap acts at once, and no pending command notices. */
  lemma UnmapUnseen(s: State, q: nat, m: nat, id: nat, flush: bool, wanted: bool)
    ensures Unseen(s, UnmapCall(s, q, m, id, flush, wanted))
  {
    hide ReleaseMem;
    var s1 := UnmapDevice(s, q, m, id, flush, wanted);
    assert Unseen(s, s1);
    hide UnmapDevice;
    var s2 := CountMap(RemoveMapping(s1, m, id), m, -1);
    assert Unseen(s1, s2);
    ReleaseMemQuiet(s2, m);
    MemsUnseen(s2, ReleaseMem(s2, m));
    hide Unseen, RemoveMapping, CountMap;
    UnseenTrans(s, s1, s2);
    UnseenTrans(s, s2, ReleaseMem(s2, m));
  }
}
