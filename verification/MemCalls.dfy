/** Every API call keeps the books of memory objects and mappings. */
module MemCalls {
  import opened RefCounts
  import opened Runtime
  import opened MemBooks

  lemma RetainSamePending(queues: seq<Obj<QueueData>>, q: nat)
    ensures SamePending(queues, Retain(queues, q)) && SamePending(queues, Take(Retain(queues, q), q))
    ensures SamePending(queues, Leak(Retain(queues, q), q)) && SamePending(queues, Leak(queues, q))
    ensures SamePending(queues, Release(queues, q)) && SamePending(queues, GiveUp(queues, q))
  {
  }

  lemma MaybeEventOk(s: State, q: nat, wanted: bool, inOrder: bool, refs: Bag, maps: Bag)
    requires MemOk(s, refs, maps)
    ensures MemOk(MaybeEvent(s, q, wanted, inOrder), refs, maps)
  {
    RetainSamePending(s.queues, q);
    hide MemOk;
    MemFrame(s, MaybeEvent(s, q, wanted, inOrder), refs, maps);
  }

  lemma WriteStatusFrame(s: State, event: Option<nat>, values: seq<int>)
    ensures var t := WriteStatus(s, event, values); t == s.(events := t.events) && |t.events| == |s.events|
  {
  }

  lemma RunNowOk(s: State, q: nat, ms: seq<nat>, op: Op, wanted: bool)
    requires MemInv(s) && forall i :: 0 <= i < |ms| ==> Usable(s.mems, ms[i])
    ensures MemInv(RunNow(s, q, ms, op, wanted))
  {
    hide MemOk, Finish, Perform, TakeMems, DropMems;
    var s1 := MaybeEvent(s, q, wanted, true);
    MaybeEventOk(s, q, wanted, true, multiset{}, multiset{});
    TakeMemsOk(s1, ms, multiset{}, multiset{});
    var s2 := TakeMems(s1, ms);
    FinishOk(s2, q, multiset{}, multiset{});
    var s3 := Finish(s2, q);
    var s4 := Perform(s3, EventHandle(s, wanted), op);
    PerformFrame(s3, EventHandle(s, wanted), op);
    MemFrame(s3, s4, multiset{}, multiset{});
    DropMemsOk(s4, ms, s1.mems, multiset{}, multiset{});
  }

  lemma RunIntoOk(s: State, q: nat, ms: seq<nat>, op: Op, out: Option<nat>)
    requires MemInv(s) && forall i :: 0 <= i < |ms| ==> Usable(s.mems, ms[i])
    ensures MemInv(RunInto(s, q, ms, op, out))
  {
    hide MemOk, RunNow, RunInto, Finish, TakeMems;
    RunNowOk(s, q, ms, op, false);
    RunIntoIs(s, q, ms, op, out);
    MemFrame(RunNow(s, q, ms, op, false), RunInto(s, q, ms, op, out), multiset{}, multiset{});
  }

  lemma DeferOk(s: State, q: nat, ms: seq<nat>, c: Command, wanted: bool)
    requires MemInv(s) && q < |s.queues| && (forall i :: 0 <= i < |ms| ==> Usable(s.mems, ms[i]))
    requires ms == CommandMems(c) && !c.MapBuffer?
    ensures MemInv(Defer(s, q, ms, c, wanted))
  {
    hide MemOk, RetainMems;
    var s1 := MaybeEvent(s, q, wanted, true);
    MaybeEventOk(s, q, wanted, true, multiset{}, multiset{});
    forall i | 0 <= i < |ms| ensures Alive(s1.mems, ms[i]) { UsableMem(s1, ms[i], multiset{}, multiset{}); }
    RetainMemsOk(s1, ms, multiset{}, multiset{});
    var s2 := RetainMems(s1, ms);
    var n := Node(s2.nodes, c, EventHandle(s, wanted));
    assert NodeMems(n) == multiset(ms) && multiset{} + NodeMaps(n) == multiset{};
    AppendOk(s2, q, c, EventHandle(s, wanted), multiset{}, multiset{});
  }

  lemma MapCallOk(s: State, q: nat, m: nat, blocking: bool, offset: nat, size: nat, hostPtr: Option<int>, wanted: bool)
    requires MemInv(s) && q < |s.queues| && Usable(s.mems, m)
    ensures MemInv(MapCall(s, q, m, blocking, offset, size, hostPtr, wanted))
  {
    hide MemOk, Finish, Perform, AddMapping, CountMap, MaybeEvent, Append;
    var event, id := EventHandle(s, wanted), |s.mappings|;
    var s0 := s.(mems := Retain(s.mems, m));
    UsableMem(s, m, multiset{}, multiset{});
    RetainMemOk(s, m, multiset{}, multiset{});
    assert multiset{} + multiset{m} == multiset{m};
    var s1 := MaybeEvent(s0, q, wanted, hostPtr.Some?);
    MaybeEventOk(s0, q, wanted, hostPtr.Some?, multiset{m}, multiset{});
    MaybeEventFrame(s0, q, wanted, hostPtr.Some?);
    if hostPtr.None? {
      LeakMemOk(s1, m, multiset{}, multiset{});
      var s2 := s1.(mems := Leak(s1.mems, m));
      WriteStatusFrame(s2, event, [CL_RUNNING, CL_COMPLETE]);
      MemFrame(s2, MarkComplete(s2, event), multiset{}, multiset{});
    } else {
      var mp := Mapping(true, m, hostPtr.value, offset, size);
      AddMappingOk(s1, m, mp);
      var s2 := AddMapping(s1, m, mp);
      MapTail(s2, q, m, id, blocking, event) by { AddMappingFacts(s1, m, mp); }
    }
  }

  lemma MaybeEventFrame(s: State, q: nat, wanted: bool, inOrder: bool)
    ensures var t := MaybeEvent(s, q, wanted, inOrder);
      t == s.(events := t.events, queues := t.queues) && |t.queues| == |s.queues| && SamePending(s.queues, t.queues)
  {
    RetainSamePending(s.queues, q);
  }

  lemma AddMappingFacts(s: State, m: nat, mp: Mapping)
    requires m < |s.mems|
    ensures var t := AddMapping(s, m, mp);
      t == s.(mems := t.mems, mappings := t.mappings) && |t.mems| == |s.mems| && t.mappings == s.mappings + [mp]
  {
  }

  lemma MapTail(s: State, q: nat, m: nat, id: nat, blocking: bool, event: Option<nat>)
    requires MemOk(s, multiset{}, multiset{m}) && q < |s.queues| && m < |s.mems|
    requires id < |s.mappings| && s.mappings[id].live && s.mappings[id].buffer == m
    ensures !blocking ==> MemInv(Append(s, q, MapBuffer(m, id), event))
    ensures blocking ==> var t := Finish(s, q); MemInv(CountMap(Perform(t, event, MapOp(t, DevId(t, q), m, id)), m, 1))
  {
    hide MemOk, Finish, Perform, CountMap, Append, MapOp;
    if blocking {
      FinishOk(s, q, multiset{}, multiset{m});
      var t := Finish(s, q);
      var op := MapOp(t, DevId(t, q), m, id);
      PerformFrame(t, event, op);
      MemFrame(t, Perform(t, event, op), multiset{}, multiset{m});
      assert multiset{} + multiset{m} == multiset{m};
      CountMapOk(Perform(t, event, op), m, multiset{}, multiset{});
    } else {
      var n := Node(s.nodes, MapBuffer(m, id), event);
      assert multiset{} + NodeMems(n) == multiset{} && multiset{} + NodeMaps(n) == multiset{m};
      AppendOk(s, q, MapBuffer(m, id), event, multiset{}, multiset{});
    }
  }

  lemma {:induction false} FindMappingFacts(mappings: seq<Mapping>, ids: seq<nat>, ptr: int)
    ensures var f := FindMapping(mappings, ids, ptr);
      if f.Some? then f.value in ids && f.value < |mappings| && mappings[f.value].hostPtr == ptr
      else forall i :: 0 <= i < |ids| && ids[i] < |mappings| ==> mappings[ids[i]].hostPtr != ptr
    decreases |ids|
  {
    if ids != [] { FindMappingFacts(mappings, ids[1..], ptr); }
  }

  lemma UnmapDeviceFrame(s: State, q: nat, m: nat, id: nat, flush: bool, wanted: bool)
    ensures var t := UnmapDevice(s, q, m, id, flush, wanted);
      t == s.(events := t.events, queues := t.queues, log := t.log) && SamePending(s.queues, t.queues)
  {
    MaybeEventFrame(s, q, wanted, false);
  }

  lemma UnmapCallOk(s: State, q: nat, m: nat, id: nat, flush: bool, wanted: bool)
    requires MemInv(s) && m < |s.mems| && id in s.mems[m].data.mappings && !MapStillPending(s, id)
    ensures MemInv(UnmapCall(s, q, m, id, flush, wanted))
  {
    hide MemOk, ReleaseMem, CountMap, RemoveMapping, UnmapDevice, MapStillPending;
    var t := UnmapDevice(s, q, m, id, flush, wanted);
    UnmapDeviceFrame(s, q, m, id, flush, wanted);
    MemFrame(s, t, multiset{}, multiset{});
    StillPendingFrame(s, t, id);
    UnmapShape(t, m, id);
    assert multiset{} + multiset{m} == multiset{m};
    ReleaseMemOk(CountMap(RemoveMapping(t, m, id), m, -1), m, multiset{}, multiset{});
  }

  lemma StillPendingFrame(s: State, t: State, id: nat)
    requires SamePending(s.queues, t.queues)
    ensures MapStillPending(s, id) <==> MapStillPending(t, id)
  {
    if MapStillPending(s, id) {
      var q, i :| 0 <= q < |s.queues| && 0 <= i < |s.queues[q].data.pending|
        && s.queues[q].data.pending[i].command.MapBuffer? && s.queues[q].data.pending[i].command.mapping == id;
      assert t.queues[q].data.pending[i] == s.queues[q].data.pending[i];
    }
    if MapStillPending(t, id) {
      var q, i :| 0 <= q < |t.queues| && 0 <= i < |t.queues[q].data.pending|
        && t.queues[q].data.pending[i].command.MapBuffer? && t.queues[q].data.pending[i].command.mapping == id;
      assert s.queues[q].data.pending[i] == t.queues[q].data.pending[i];
    }
  }

  lemma NamedAreAlive(s: State, c: Call)
    requires c.EnqueueKernel? && Enabled(s, c)
    ensures forall b :: b in ArgBuffers(s.blocks, s.kernels[c.k].data, 0) ==> Alive(s.mems, b)
  {
    hide ArgBuffers, HandleIn;
    forall b | b in ArgBuffers(s.blocks, s.kernels[c.k].data, 0) ensures Alive(s.mems, b) {
      ArgBuffersNamed(s.blocks, s.kernels[c.k].data, 0, b);
    }
  }

  lemma KernelCallOk(s: State, q: nat, k: nat, range: seq<nat>, wanted: bool)
    requires MemInv(s) && q < |s.queues| && k < |s.kernels|
    requires forall b :: b in ArgBuffers(s.blocks, s.kernels[k].data, 0) ==> Alive(s.mems, b)
    ensures MemInv(KernelCall(s, q, k, range, wanted))
  {
    hide MemOk, RetainMems, ArgBuffers, Snapshot;
    var d := s.kernels[k].data;
    var s1 := MaybeEvent(s, q, wanted, true);
    MaybeEventFrame(s, q, wanted, true);
    var (blocks, args) := Snapshot(s1.blocks, d.arguments, s1.nodes, 0);
    var bufs := ArgBuffers(s1.blocks, d, 0);
    var s2 := s1.(blocks := blocks, queues := Leak(Retain(s1.queues, q), q), kernels := Retain(s1.kernels, k));
    RetainSamePending(s1.queues, q);
    MemFrame(s, s2, multiset{}, multiset{});
    RetainMemsOk(s2, bufs, multiset{}, multiset{});
    var s3 := RetainMems(s2, bufs);
    var c := RunKernel(k, range, args, bufs);
    var n := Node(s3.nodes, c, EventHandle(s, wanted));
    assert NodeMems(n) == multiset(bufs) && multiset{} + NodeMaps(n) == multiset{};
    AppendOk(s3, q, c, EventHandle(s, wanted), multiset{}, multiset{});
  }

  lemma ReleaseQueueOk(s: State, q: nat)
    requires MemInv(s)
    ensures MemInv(ReleaseQueue(s, q))
  {
    hide MemOk, Finish;
    FinishOk(s, q, multiset{}, multiset{});
    var t := Finish(s, q);
    RetainSamePending(t.queues, q);
    MemFrame(t, ReleaseQueue(s, q), multiset{}, multiset{});
  }

  lemma ReleaseEventOk(s: State, e: nat)
    requires MemInv(s)
    ensures MemInv(ReleaseEvent(s, e))
  {
    hide MemOk, ReleaseQueue;
    if e < |s.events| {
      var s1 := s.(events := Dec(s.events, e));
      MemFrame(s, s1, multiset{}, multiset{});
      var q := s1.events[e].data.queue;
      if s1.events[e].refcount == 0 {
        RetainSamePending(s1.queues, q);
        if q < |s1.queues| && s1.queues[q].data.gpu {
          MemFrame(s1, ReleaseEvent(s, e), multiset{}, multiset{});
        } else {
          ReleaseQueueOk(s1, q);
          MemFrame(ReleaseQueue(s1, q), ReleaseEvent(s, e), multiset{}, multiset{});
        }
      }
    }
  }

  lemma NewQueueOk(s: State, d: QueueData)
    requires MemInv(s) && d.pending == []
    ensures MemInv(s.(queues := Create(s.queues, d, 0)))
  {
    var o := Obj(true, 1, 1, 0, d);
    CollectSnoc(s.queues, o, QueueMems);
    CollectSnoc(s.queues, o, QueueMaps);
    hide Collect, Balanced, CountsOk, ListsOk, ParentsOk;
    assert PendingMems(s.queues) + multiset{} == PendingMems(s.queues) && PendingMaps(s.queues) + multiset{} == PendingMaps(s.queues);
  }

  /** The one thing the application must observe beyond holding references: a buffer is
      unmapped only after its map command has run. */
  ghost predicate UnmapsLate(s: State, c: Call) {
    c.EnqueueUnmap? && FoundMapping(s, c.m, c.mappedPtr).Some? ==> !MapStillPending(s, FoundMapping(s, c.m, c.mappedPtr).value)
  }

  lemma UnmapStep(s: State, c: Call)
    requires MemInv(s) && c.EnqueueUnmap? && Accepted(s, c) && UnmapsLate(s, c)
    ensures MemInv(Effect(s, c))
  {
    hide MemOk, UnmapCall, FindMapping, MapStillPending, Perform;
    FindMappingFacts(s.mappings, s.mems[c.m].data.mappings, c.mappedPtr);
    UnmapCallOk(s, c.q, c.m, FoundMapping(s, c.m, c.mappedPtr).value, c.flush, c.event);
  }

  /** The calls that create, retain and release objects. */
  lemma ObjectStep(s: State, c: Call)
    requires MemInv(s) && Enabled(s, c) && Accepted(s, c)
    requires c.CreateQueue? || c.RetainQueueCall? || c.ReleaseQueueCall? || c.CreateBuffer? || c.CreateSubBuffer?
      || c.RetainMemObject? || c.ReleaseMemObject? || c.RetainEvent? || c.ReleaseEventCall?
    ensures MemInv(Effect(s, c))
  {
    hide MemOk, ReleaseQueue, ReleaseEvent, ReleaseMem;
    match c
    case CreateQueue(context, devIndex, devId, gpu) => NewQueueOk(s, QueueData(context, devIndex, devId, gpu, []));
    case RetainQueueCall(q) =>
      RetainSamePending(s.queues, q);
      MemFrame(s, Effect(s, c), multiset{}, multiset{});
    case ReleaseQueueCall(q) =>
      RetainSamePending(s.queues, q);
      MemFrame(s, s.(queues := GiveUp(s.queues, q)), multiset{}, multiset{});
      ReleaseQueueOk(s.(queues := GiveUp(s.queues, q)), q);
    case CreateBuffer(context, size, ptrs, devices, _) =>
      var leaked := if devices != [] then |devices| - 1 else 0;
      CreateMemOk(s, MemData(None, context, size, ptrs, 0, 0, []), leaked);
      MemFrame(s.(mems := Create(s.mems, MemData(None, context, size, ptrs, 0, 0, []), leaked)), Effect(s, c), multiset{}, multiset{});
    case CreateSubBuffer(m, origin, size, _, garbage) =>
      UsableMem(s, m, multiset{}, multiset{});
      CreateSubOk(s, SubBufferData(s.mems[m].data, m, origin, size, garbage), m);
    case RetainMemObject(m) =>
      UsableMem(s, m, multiset{}, multiset{});
      RetainMemOk(s, m, multiset{}, multiset{});
    case ReleaseMemObject(m) =>
      GiveUpMemOk(s, m, multiset{}, multiset{});
      ReleaseMemOk(s.(mems := GiveUp(s.mems, m)), m, multiset{}, multiset{});
    case RetainEvent(e) => MemFrame(s, Effect(s, c), multiset{}, multiset{});
    case ReleaseEventCall(e) =>
      MemFrame(s, s.(events := GiveUp(s.events, e)), multiset{}, multiset{});
      ReleaseEventOk(s.(events := GiveUp(s.events, e)), e);
  }

  /** The calls that enqueue or run commands, or wait for them. */
  lemma TransferStep(s: State, c: Call)
    requires MemInv(s) && Enabled(s, c) && Accepted(s, c) && (c.EnqueueRead? || c.EnqueueWrite? || c.EnqueueCopy?)
    ensures MemInv(Effect(s, c))
  {
    hide MemOk, RunNow, Defer, DevicePtr;
    match c
    case EnqueueRead(q, m, blocking, offset, cb, ptr, _, event) =>
      var dev := DevicePtr(s, m, DevId(s, q)) + offset;
      RunNowOk(s, q, [m], OpRead(ptr, dev, cb), event);
      DeferOk(s, q, [m], ReadBuffer(ptr, dev, cb, m), event);
    case EnqueueWrite(q, m, blocking, offset, cb, ptr, _, event) =>
      RunNowOk(s, q, [m], OpWrite(ptr, DevicePtr(s, m, DevId(s, q)) + offset, cb), event);
      DeferOk(s, q, [m], WriteBuffer(ptr, DevicePtr(s, m, DevIndex(s, q)) + offset, cb, m), event);
    case EnqueueCopy(q, m1, m2, o1, o2, cb, event) =>
      DeferOk(s, q, [m1, m2],
              CopyBuffer(DevicePtr(s, m1, DevId(s, q)) + o1, DevicePtr(s, m2, DevId(s, q)) + o2, cb, m1, m2), event);
  }

  lemma CommandStep(s: State, c: Call)
    requires MemInv(s) && Enabled(s, c) && Accepted(s, c)
    requires c.EnqueueReadRect? || c.EnqueueWriteRect? || c.EnqueueCopyRect? || c.EnqueueMap? || c.EnqueueKernel? || c.EnqueueMarker? || c.FinishCall? || c.WaitCall?
    ensures MemInv(Effect(s, c))
  {
    hide MemOk, RunNow, RunInto, Defer, MapCall, KernelCall, Finish, WaitForEvents, DevicePtr;
    match c
    case EnqueueReadRect(q, m, ptr, shape, _, event) => RunNowOk(s, q, [m], OpRect(RectRead, DevicePtr(s, m, DevId(s, q)), ptr, shape), event);
    case EnqueueWriteRect(q, m, ptr, shape, _, out) => RunIntoOk(s, q, [m], OpRect(RectWrite, DevicePtr(s, m, DevId(s, q)), ptr, shape), out);
    case EnqueueCopyRect(q, m1, m2, shape, _, event) =>
      RunNowOk(s, q, [m1, m2], OpRect(RectCopy, DevicePtr(s, m1, DevId(s, q)), DevicePtr(s, m2, DevId(s, q)), shape), event);
    case EnqueueMap(q, m, blocking, offset, size, _, hostPtr, event) =>
      MapCallOk(s, q, m, blocking, offset, size, hostPtr, event);
    case EnqueueKernel(q, k, range, _, event) => NamedAreAlive(s, c); KernelCallOk(s, q, k, range, event);
    case EnqueueMarker(q) => DeferOk(s, q, [], Marker, true);
    case FinishCall(q) => FinishOk(s, q, multiset{}, multiset{});
    case WaitCall(es) => WaitOk(s, es, multiset{}, multiset{});
  }

  /** The calls on programs, kernels and host memory do not touch memory objects. */
  lemma OtherStep(s: State, c: Call)
    requires MemInv(s)
    requires c.CreateProgram? || c.RetainProgram? || c.ReleaseProgramCall? || c.CreateKernel? || c.RetainKernel?
      || c.ReleaseKernelCall? || c.SetKernelArg? || c.StoreHost?
    ensures MemInv(Effect(s, c))
  {
    hide MemOk, ReleaseKernel, ReleaseProgram;
    MemFrame(s, Effect(s, c), multiset{}, multiset{});
  }

  /** Every call of an application that keeps the rules keeps the books. */
  lemma MemStep(s: State, c: Call)
    requires MemInv(s) && Enabled(s, c) && UnmapsLate(s, c)
    ensures MemInv(Step(s, c))
  {
    hide MemOk, Effect, Enabled, UnmapsLate, Accepted;
    if Accepted(s, c) {
      if c.EnqueueUnmap? {
        UnmapStep(s, c);
      } else if c.CreateProgram? || c.RetainProgram? || c.ReleaseProgramCall? || c.CreateKernel? || c.RetainKernel?
        || c.ReleaseKernelCall? || c.SetKernelArg? || c.StoreHost? {
        OtherStep(s, c);
      } else if c.CreateQueue? || c.RetainQueueCall? || c.ReleaseQueueCall? || c.CreateBuffer? || c.CreateSubBuffer?
        || c.RetainMemObject? || c.ReleaseMemObject? || c.RetainEvent? || c.ReleaseEventCall? {
        ObjectStep(s, c);
      } else if c.EnqueueRead? || c.EnqueueWrite? || c.EnqueueCopy? {
        TransferStep(s, c);
      } else {
        CommandStep(s, c);
      }
    }
  }
}
