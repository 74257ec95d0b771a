/** Every call, and so every run, keeps device operations inside the memory of the live buffers
    they name; for a deferred write this depends on which device pointer it took. */
module ExtentRuns {
  import opened RefCounts
  import opened Runtime
  import opened Frames
  import opened Platform
  import opened Extents
  import opened MemBooks
  import MemCalls
  import Runs
  import Leaks
  import R = Rect

  // ----- the driver calls of an API call -----

  function WaitIssues(s: State, es: seq<nat>): seq<Issue>
    decreases |es|
  {
    if es == [] then []
    else if es[0] < |s.events| then
      var q := s.events[es[0]].data.queue;
      FinishIssues(s, q) + WaitIssues(Finish(s, q), es[1..])
    else WaitIssues(s, es[1..])
  }

  function ReleaseEventIssues(s: State, e: nat): seq<Issue> {
    if e >= |s.events| then []
    else
      var s1 := s.(events := Dec(s.events, e));
      var q := s1.events[e].data.queue;
      if s1.events[e].refcount != 0 || (q < |s1.queues| && s1.queues[q].data.gpu) then [] else FinishIssues(s1, q)
  }

  function RunNowIssues(s: State, q: nat, ms: seq<nat>, op: Op, wanted: bool): seq<Issue> {
    var s1 := BeforeDrain(s, q, ms, wanted);
    FinishIssues(s1, q) + [Issue(Finish(s1, q).mems, DevId(s, q), ContextOf(s, q), ms, op)]
  }

  /** A map that is about to drain its queue. */
  function Mapped(s: State, q: nat, m: nat, offset: nat, size: nat, hostPtr: int, wanted: bool): State {
    AddMapping(BeforeMap(s, q, m, wanted, true), m, Mapping(true, m, hostPtr, offset, size))
  }

  function MapIssues(s: State, q: nat, m: nat, offset: nat, size: nat, hostPtr: int, wanted: bool): seq<Issue> {
    var s2 := Mapped(s, q, m, offset, size, hostPtr, wanted);
    var t := Finish(s2, q);
    FinishIssues(s2, q) + [Issue(t.mems, DevId(t, q), ContextOf(t, q), [m], MapOp(t, DevId(t, q), m, |s.mappings|))]
  }

  function UnmapOp(s: State, q: nat, m: nat, id: nat): Op
    requires id < |s.mappings|
  {
    OpUnmap(s.mappings[id].hostPtr, DevicePtr(s, m, DevId(s, q)) + s.mappings[id].offset, s.mappings[id].size)
  }

  function UnmapIssues(s: State, q: nat, m: nat, ptr: int, flush: bool): seq<Issue> {
    var found := FoundMapping(s, m, ptr);
    if flush && found.Some? && found.value < |s.mappings| then [Issue(s.mems, DevId(s, q), ContextOf(s, q), [m], UnmapOp(s, q, m, found.value))] else []
  }

  function ContextOf(s: State, q: nat): nat { if q < |s.queues| then s.queues[q].data.context else 0 }

  /** The copies into a new buffer, which is there when they are looked at. */
  function CreateIssues(s: State, c: Call): seq<Issue>
    requires c.CreateBuffer?
  {
    var mems, ops := Effect(s, c).mems, InitOps(c.devicePtrs, c.devices, c.source, c.size);
    seq(|ops|, i requires 0 <= i < |ops| =>
      Issue(mems, if i < |c.devices| then c.devices[i] else 0, c.context, [|s.mems|], ops[i]))
  }

  function CallIssues(s: State, c: Call): seq<Issue> {
    if !Accepted(s, c) then []
    else
      match c
      case EnqueueRead(q, m, blocking, offset, cb, ptr, _, event) =>
        if blocking then RunNowIssues(s, q, [m], OpRead(ptr, DevicePtr(s, m, DevId(s, q)) + offset, cb), event) else []
      case EnqueueWrite(q, m, blocking, offset, cb, ptr, _, event) =>
        if blocking then RunNowIssues(s, q, [m], OpWrite(ptr, DevicePtr(s, m, DevId(s, q)) + offset, cb), event) else []
      case EnqueueReadRect(q, m, ptr, shape, _, event) =>
        RunNowIssues(s, q, [m], OpRect(RectRead, DevicePtr(s, m, DevId(s, q)), ptr, shape), event)
      case EnqueueWriteRect(q, m, ptr, shape, _, _) =>
        RunNowIssues(s, q, [m], OpRect(RectWrite, DevicePtr(s, m, DevId(s, q)), ptr, shape), false)
      case EnqueueCopyRect(q, m1, m2, shape, _, event) =>
        RunNowIssues(s, q, [m1, m2], OpRect(RectCopy, DevicePtr(s, m1, DevId(s, q)), DevicePtr(s, m2, DevId(s, q)), shape), event)
      case CreateBuffer(context, size, ptrs, devices, source) => CreateIssues(s, c)
      case EnqueueMap(q, m, blocking, offset, size, _, hostPtr, event) =>
        if blocking && hostPtr.Some? then MapIssues(s, q, m, offset, size, hostPtr.value, event) else []
      case EnqueueUnmap(q, m, ptr, flush, _) => UnmapIssues(s, q, m, ptr, flush)
      case ReleaseQueueCall(q) => FinishIssues(s.(queues := GiveUp(s.queues, q)), q)
      case FinishCall(q) => FinishIssues(s, q)
      case WaitCall(es) => WaitIssues(s, es)
      case ReleaseEventCall(e) => ReleaseEventIssues(s.(events := GiveUp(s.events, e)), e)
      case StoreHost(ptr, bytes) => [Issue(s.mems, 0, 0, [], HostStore(ptr, bytes))]
      case _ => []
  }

  // ----- they are what the log gains -----

  lemma OneOp(e: Issue)
    ensures Ops([e]) == [e.op]
  {
  }

  lemma {:induction false} WaitLog(s: State, es: seq<nat>)
    ensures WaitForEvents(s, es).log == s.log + Ops(WaitIssues(s, es))
    decreases |es|
  {
    hide Finish, FinishIssues, Ops;
    OpsNone();
    if es != [] {
      if es[0] < |s.events| {
        var q := s.events[es[0]].data.queue;
        FinishLog(s, q);
        WaitLog(Finish(s, q), es[1..]);
        OpsConcat(FinishIssues(s, q), WaitIssues(Finish(s, q), es[1..]));
      } else {
        WaitLog(s, es[1..]);
      }
    }
  }

  lemma RunNowLog(s: State, q: nat, ms: seq<nat>, op: Op, wanted: bool)
    ensures RunNow(s, q, ms, op, wanted).log == s.log + Ops(RunNowIssues(s, q, ms, op, wanted))
  {
    hide Finish, FinishIssues, Ops, TakeMems, DropMems, Perform;
    var s1 := BeforeDrain(s, q, ms, wanted);
    FinishLog(s1, q);
    PerformQuiet(Finish(s1, q), EventHandle(s, wanted), op);
    var last := Issue(Finish(s1, q).mems, DevId(s, q), ContextOf(s, q), ms, op);
    OpsConcat(FinishIssues(s1, q), [last]);
    OneOp(last);
  }

  lemma MapLog(s: State, q: nat, m: nat, offset: nat, size: nat, hostPtr: int, wanted: bool)
    ensures MapCall(s, q, m, true, offset, size, Some(hostPtr), wanted).log == s.log + Ops(MapIssues(s, q, m, offset, size, hostPtr, wanted))
  {
    hide Finish, FinishIssues, Ops, Perform, MapOp;
    var s2 := Mapped(s, q, m, offset, size, hostPtr, wanted);
    assert s2.log == s.log;
    FinishLog(s2, q);
    var t := Finish(s2, q);
    var op := MapOp(t, DevId(t, q), m, |s.mappings|);
    PerformQuiet(t, EventHandle(s, wanted), op);
    var last := Issue(t.mems, DevId(t, q), ContextOf(t, q), [m], op);
    OpsConcat(FinishIssues(s2, q), [last]);
    OneOp(last);
  }

  lemma UnmapLog(s: State, q: nat, m: nat, id: nat, flush: bool, wanted: bool)
    requires id < |s.mappings|
    ensures UnmapCall(s, q, m, id, flush, wanted).log == s.log + if flush then [UnmapOp(s, q, m, id)] else []
  {
    hide ReleaseMem, RemoveMapping, CountMap;
    assert UnmapDevice(s, q, m, id, flush, wanted).log == s.log + if flush then [UnmapOp(s, q, m, id)] else [];
    QuietLog(UnmapDevice(s, q, m, id, flush, wanted), m, id);
  }

  lemma QuietLog(s: State, m: nat, id: nat)
    ensures ReleaseMem(CountMap(RemoveMapping(s, m, id), m, -1), m).log == s.log
  {
  }

  lemma ReleaseEventLog(s: State, e: nat)
    ensures ReleaseEvent(s, e).log == s.log + Ops(ReleaseEventIssues(s, e))
  {
    hide Finish, FinishIssues, Ops;
    OpsNone();
    if e < |s.events| {
      var s1 := s.(events := Dec(s.events, e));
      FinishLog(s1, s1.events[e].data.queue);
    }
  }

  lemma TransferLog(s: State, c: Call)
    requires Accepted(s, c)
    requires c.EnqueueRead? || c.EnqueueWrite? || c.EnqueueReadRect? || c.EnqueueWriteRect? || c.EnqueueCopyRect?
    ensures Effect(s, c).log == s.log + Ops(CallIssues(s, c))
  {
    OpsNone();
    hide Accepted, RunNow, RunInto, RunNowIssues, Ops, RetainMems, DevicePtr, DevId;
    match c
    case EnqueueRead(q, m, blocking, offset, cb, ptr, _, event) =>
      if blocking { RunNowLog(s, q, [m], OpRead(ptr, DevicePtr(s, m, DevId(s, q)) + offset, cb), event); }
    case EnqueueWrite(q, m, blocking, offset, cb, ptr, _, event) =>
      if blocking { RunNowLog(s, q, [m], OpWrite(ptr, DevicePtr(s, m, DevId(s, q)) + offset, cb), event); }
    case EnqueueReadRect(q, m, ptr, shape, _, event) =>
      RunNowLog(s, q, [m], OpRect(RectRead, DevicePtr(s, m, DevId(s, q)), ptr, shape), event);
    case EnqueueWriteRect(q, m, ptr, shape, _, out) =>
      RunIntoQuiet(s, q, [m], OpRect(RectWrite, DevicePtr(s, m, DevId(s, q)), ptr, shape), out);
      RunNowLog(s, q, [m], OpRect(RectWrite, DevicePtr(s, m, DevId(s, q)), ptr, shape), false);
    case EnqueueCopyRect(q, m1, m2, shape, _, event) =>
      RunNowLog(s, q, [m1, m2], OpRect(RectCopy, DevicePtr(s, m1, DevId(s, q)), DevicePtr(s, m2, DevId(s, q)), shape), event);
  }

  lemma DeferLog(s: State, c: Call)
    requires Accepted(s, c) && (c.EnqueueCopy? || c.EnqueueMarker? || c.EnqueueKernel?)
    ensures Effect(s, c).log == s.log + Ops(CallIssues(s, c))
  {
    OpsNone();
    hide Accepted, Ops, RetainMems, Snapshot, ArgBuffers;
    match c
    case EnqueueCopy(q, m1, m2, _, _, _, event) =>
    case EnqueueMarker(q) =>
    case EnqueueKernel(q, k, range, _, event) => if k < |s.kernels| { LaunchQuiet(s, q, k, range, event); }
  }

  lemma MapCallsLog(s: State, c: Call)
    requires Accepted(s, c) && (c.EnqueueMap? || c.EnqueueUnmap?)
    ensures Effect(s, c).log == s.log + Ops(CallIssues(s, c))
  {
    OpsNone();
    hide MapIssues, Ops, FindMapping, Finish, Perform, UnmapCall;
    match c
    case EnqueueMap(q, m, blocking, offset, size, _, hostPtr, event) =>
      if blocking && hostPtr.Some? { MapLog(s, q, m, offset, size, hostPtr.value, event); }
    case EnqueueUnmap(q, m, ptr, flush, event) =>
      var id := FoundMapping(s, m, ptr).value;
      MemCalls.FindMappingFacts(s.mappings, s.mems[m].data.mappings, ptr);
      UnmapLog(s, q, m, id, flush, event);
      OneOp(Issue(s.mems, DevId(s, q), ContextOf(s, q), [m], UnmapOp(s, q, m, id)));
  }

  lemma OtherLog(s: State, c: Call)
    requires Accepted(s, c)
    requires !c.EnqueueRead? && !c.EnqueueWrite? && !c.EnqueueReadRect? && !c.EnqueueWriteRect? && !c.EnqueueCopyRect?
    requires !c.EnqueueCopy? && !c.EnqueueMarker? && !c.CreateBuffer?
    requires !c.EnqueueKernel? && !c.EnqueueMap? && !c.EnqueueUnmap?
    ensures Effect(s, c).log == s.log + Ops(CallIssues(s, c))
  {
    OpsNone();
    hide Ops, Finish, FinishIssues, WaitForEvents, WaitIssues, ReleaseEvent, ReleaseEventIssues, FreeMappings, Orphan, Unlink;
    match c
    case ReleaseQueueCall(q) => FinishLog(s.(queues := GiveUp(s.queues, q)), q);
    case FinishCall(q) => FinishLog(s, q);
    case WaitCall(es) => WaitLog(s, es);
    case ReleaseEventCall(e) => ReleaseEventLog(s.(events := GiveUp(s.events, e)), e);
    case StoreHost(ptr, bytes) => OneOp(Issue(s.mems, 0, 0, [], HostStore(ptr, bytes)));
    case _ =>
  }

  lemma CreateLog(s: State, c: Call)
    requires Accepted(s, c) && c.CreateBuffer?
    ensures Effect(s, c).log == s.log + Ops(CallIssues(s, c))
  {
    hide InitOps;
    assert Ops(CreateIssues(s, c)) == InitOps(c.devicePtrs, c.devices, c.source, c.size);
  }

  /** The log of device operations grows by exactly the issues of the call. */
  lemma StepLog(s: State, c: Call)
    ensures Step(s, c).log == s.log + Ops(CallIssues(s, c))
  {
    hide Effect, Accepted;
    if !Accepted(s, c) { OpsNone(); }
    else if c.EnqueueRead? || c.EnqueueWrite? || c.EnqueueReadRect? || c.EnqueueWriteRect? || c.EnqueueCopyRect? { TransferLog(s, c); }
    else if c.CreateBuffer? { CreateLog(s, c); }
    else if c.EnqueueCopy? || c.EnqueueMarker? || c.EnqueueKernel? { DeferLog(s, c); }
    else if c.EnqueueMap? || c.EnqueueUnmap? { MapCallsLog(s, c); }
    else { OtherLog(s, c); }
  }

  // ----- every call keeps the invariant -----

  /** The queue's device is one of its context. */
  predicate AtHome(contexts: Contexts, s: State, q: nat) { DevId(s, q) in contexts(ContextOf(s, q)) }

  lemma DeviceOf(contexts: Contexts, n: nat, s: State, q: nat, m: nat)
    requires Safe(contexts, n, s) && SameContext(s, q, m)
    ensures DevId(s, q) < n && (AtHome(contexts, s, q) <==> DevId(s, q) in contexts(s.mems[m].data.context))
  {
    assert QueueSafe(contexts, n, s.mems, s.mappings, s.queues[q].data);
  }

  lemma DeferSafe(contexts: Contexts, n: nat, s: State, q: nat, ms: seq<nat>, c: Command, wanted: bool)
    requires Safe(contexts, n, s) && q < |s.queues|
    requires AtHome(contexts, s, q) ==> CommandInside(s.mems, s.mappings, s.queues[q].data, c)
    ensures Safe(contexts, n, Defer(s, q, ms, c, wanted))
  {
    hide Safe, CommandInside, Quiet, MaybeEvent, RetainMems, Append;
    var s1 := BeforeAppend(s, q, ms, wanted);
    BeforeAppendQuiet(s, q, ms, wanted);
    QuietSafe(contexts, n, s, s1);
    QuietIsKept(s, s1);
    assert SameDevice(s.queues[q].data, s1.queues[q].data);
    if AtHome(contexts, s, q) { CommandGrows(s, s1, s.queues[q].data, s1.queues[q].data, c); }
    AppendSafe(contexts, n, s1, q, c, EventHandle(s, wanted));
  }

  lemma ReadSafe(contexts: Contexts, n: nat, s: State, c: Call)
    requires Safe(contexts, n, s) && Accepted(s, c) && c.EnqueueRead? && !c.blocking
    ensures Safe(contexts, n, Effect(s, c))
  {
    hide Safe, Inside, Defer, DevicePtr, AtHome;
    DeviceOf(contexts, n, s, c.q, c.m);
    if AtHome(contexts, s, c.q) { InBuffer(contexts, n, s, c.m, DevId(s, c.q), c.offset, c.cb); }
    DeferSafe(contexts, n, s, c.q, [c.m], ReadBuffer(c.ptr, DevicePtr(s, c.m, DevId(s, c.q)) + c.offset, c.cb, c.m), c.event);
  }

  lemma WriteSafe(contexts: Contexts, n: nat, s: State, c: Call)
    requires Safe(contexts, n, s) && Accepted(s, c) && c.EnqueueWrite? && !c.blocking && SamePointer(s, c)
    ensures Safe(contexts, n, Effect(s, c))
  {
    hide Safe, Inside, Defer, DevicePtr, AtHome, DevIndex;
    DeviceOf(contexts, n, s, c.q, c.m);
    if AtHome(contexts, s, c.q) { InBuffer(contexts, n, s, c.m, DevId(s, c.q), c.offset, c.cb); }
    DeferSafe(contexts, n, s, c.q, [c.m], WriteBuffer(c.ptr, DevicePtr(s, c.m, DevIndex(s, c.q)) + c.offset, c.cb, c.m), c.event);
  }

  lemma CopySafe(contexts: Contexts, n: nat, s: State, c: Call)
    requires Safe(contexts, n, s) && Accepted(s, c) && c.EnqueueCopy?
    ensures Safe(contexts, n, Effect(s, c))
  {
    hide Safe, Inside, Defer, DevicePtr, AtHome;
    DeviceOf(contexts, n, s, c.q, c.src);
    DeviceOf(contexts, n, s, c.q, c.dst);
    var a, b := DevicePtr(s, c.src, DevId(s, c.q)) + c.srcOffset, DevicePtr(s, c.dst, DevId(s, c.q)) + c.dstOffset;
    if AtHome(contexts, s, c.q) { InBuffer(contexts, n, s, c.src, DevId(s, c.q), c.srcOffset, c.cb); }
    if AtHome(contexts, s, c.q) { InBuffer(contexts, n, s, c.dst, DevId(s, c.q), c.dstOffset, c.cb); }
    DeferSafe(contexts, n, s, c.q, [c.src, c.dst], CopyBuffer(a, b, c.cb, c.src, c.dst), c.event);
  }

  lemma AddMappingSafe(contexts: Contexts, n: nat, s: State, q: nat, m: nat, mapping: Mapping)
    requires Safe(contexts, n, s) && SameContext(s, q, m) && mapping.offset + mapping.size <= s.mems[m].data.size
    ensures var t := AddMapping(s, m, mapping);
      Safe(contexts, n, t) && t.queues == s.queues && CommandInside(t.mems, t.mappings, t.queues[q].data, MapBuffer(m, |s.mappings|))
  {
    hide Inside, Placed, MemSafe, QueueSafe;
    var t := AddMapping(s, m, mapping);
    AddMappingKept(s, m, mapping);
    assert forall i :: 0 <= i < |t.mems| ==> NewMappingsFit(s, t, i);
    assert forall r :: 0 <= r < |t.queues| ==> NewNodesFit(contexts, n, s, t, r);
    AdditionsSafe(contexts, n, s, t);
  }

  lemma MappedSafe(contexts: Contexts, n: nat, s: State, q: nat, m: nat, offset: nat, size: nat, hostPtr: int, wanted: bool)
    requires Safe(contexts, n, s) && SameContext(s, q, m) && offset + size <= s.mems[m].data.size
    ensures var t := Mapped(s, q, m, offset, size, hostPtr, wanted);
      Safe(contexts, n, t) && q < |t.queues| && CommandInside(t.mems, t.mappings, t.queues[q].data, MapBuffer(m, |s.mappings|))
  {
    hide Safe, Quiet, AddMapping, CommandInside, MaybeEvent;
    var s1 := BeforeMap(s, q, m, wanted, true);
    BeforeMapQuiet(s, q, m, wanted, true);
    QuietSafe(contexts, n, s, s1);
    assert SameContext(s1, q, m) && s1.mems[m].data == s.mems[m].data by { QuietContext(s, s1, q, m); }
    AddMappingSafe(contexts, n, s1, q, m, Mapping(true, m, hostPtr, offset, size));
  }

  lemma QuietContext(s: State, t: State, q: nat, m: nat)
    requires Quiet(s, t) && SameContext(s, q, m) && t.mems == Retain(s.mems, m)
    ensures SameContext(t, q, m) && t.mems[m].data == s.mems[m].data
  {
  }

  lemma MapSafe(contexts: Contexts, n: nat, s: State, c: Call)
    requires Safe(contexts, n, s) && Accepted(s, c) && c.EnqueueMap? && c.hostPtr.Some?
    ensures Safe(contexts, n, Effect(s, c))
  {
    hide Safe, Quiet, CommandInside, Finish, Perform, CountMap, MapOp, Append;
    var s2 := Mapped(s, c.q, c.m, c.offset, c.size, c.hostPtr.value, c.event);
    MappedSafe(contexts, n, s, c.q, c.m, c.offset, c.size, c.hostPtr.value, c.event);
    if c.blocking {
      MapTailKept(s2, c.q, c.m, |s.mappings|, EventHandle(s, c.event));
      QuietSafe(contexts, n, s2, Effect(s, c));
    } else {
      AppendSafe(contexts, n, s2, c.q, MapBuffer(c.m, |s.mappings|), EventHandle(s, c.event));
    }
  }

  lemma LeakSafe(contexts: Contexts, n: nat, s: State, m: nat)
    requires Safe(contexts, n, s)
    ensures Safe(contexts, n, s.(mems := Leak(s.mems, m)))
  {
    hide Inside, CommandInside, Placed, MemSafe, QueueSafe;
    var t := s.(mems := Leak(s.mems, m));
    assert forall i :: 0 <= i < |t.mems| ==> NewMappingsFit(s, t, i);
    assert forall q :: 0 <= q < |t.queues| ==> NewNodesFit(contexts, n, s, t, q);
    AdditionsSafe(contexts, n, s, t);
  }

  lemma MapFailSafe(contexts: Contexts, n: nat, s: State, c: Call)
    requires Safe(contexts, n, s) && c.EnqueueMap? && c.hostPtr.None?
    ensures Safe(contexts, n, Effect(s, c))
  {
    hide Safe, Quiet, MaybeEvent;
    var s1 := BeforeMap(s, c.q, c.m, c.event, false);
    BeforeMapQuiet(s, c.q, c.m, c.event, false);
    QuietSafe(contexts, n, s, s1);
    LeakSafe(contexts, n, s1, c.m);
    var s2 := s1.(mems := Leak(s1.mems, c.m));
    SameQuiet(s2, Effect(s, c));
    QuietSafe(contexts, n, s2, Effect(s, c));
  }

  lemma LaunchSafe(contexts: Contexts, n: nat, s: State, c: Call)
    requires Safe(contexts, n, s) && Accepted(s, c) && c.EnqueueKernel?
    ensures Safe(contexts, n, Effect(s, c))
  {
    hide Safe, Quiet, Launch, Append, KernelCall;
    var (t, command) := Launch(s, c.q, c.k, c.range, c.event);
    LaunchQuiet(s, c.q, c.k, c.range, c.event);
    QuietSafe(contexts, n, s, t);
    assert c.q < |t.queues| by { QuietQueueCount(s, t); }
    AppendSafe(contexts, n, t, c.q, command, EventHandle(s, c.event));
  }

  lemma QuietQueueCount(s: State, t: State)
    requires Quiet(s, t)
    ensures |t.queues| == |s.queues|
  {
  }

  lemma NewMemSafe(contexts: Contexts, n: nat, s: State, d: MemData, leaked: nat)
    requires Safe(contexts, n, s) && Placed(contexts, n, s.mems, d) && d.mappings == []
    ensures Safe(contexts, n, s.(mems := Create(s.mems, d, leaked)))
  {
    var t := s.(mems := Create(s.mems, d, leaked));
    NewMemGrows(s, d, leaked);
    PlacedGrows(contexts, n, s.mems, t.mems, d, d);
    hide Inside, CommandInside, Placed, MemSafe, QueueSafe;
    assert forall m :: 0 <= m < |t.mems| ==> NewMappingsFit(s, t, m);
    assert forall q :: 0 <= q < |t.queues| ==> NewNodesFit(contexts, n, s, t, q);
    AdditionsSafe(contexts, n, s, t);
  }

  /** The region test of clCreateSubBuffer makes the sub-buffer a stretch of its parent. */
  lemma SubBufferSafe(contexts: Contexts, n: nat, s: State, c: Call)
    requires Safe(contexts, n, s) && Accepted(s, c) && c.CreateSubBuffer?
    ensures Safe(contexts, n, Effect(s, c))
    ensures var t := Effect(s, c); |t.mems| == |s.mems| + 1 && Shifted(t.mems[|s.mems|].data, t.mems[c.m].data, c.origin)
  {
    var p := s.mems[c.m].data;
    var d := SubBufferData(p, c.m, c.origin, c.size, c.garbage);
    assert MemSafe(contexts, n, s.mems, s.mappings, p);
    assert Shifted(d, p, c.origin);
    NewMemSafe(contexts, n, s, d, 0);
    var t := s.(mems := Create(s.mems, d, 0));
    hide Safe, Placed, SubPointers;
    CountersQuiet(t, Effect(s, c));
    hide Quiet;
    QuietSafe(contexts, n, t, Effect(s, c));
  }

  lemma CreateSafe(contexts: Contexts, n: nat, s: State, c: Call)
    requires Safe(contexts, n, s) && OnPlatform(contexts, n, c)
    requires c.CreateQueue? || c.CreateBuffer? || c.CreateProgram?
    ensures Safe(contexts, n, Effect(s, c))
  {
    hide Safe;
    match c
    case CreateBuffer(context, size, ptrs, devices, _) =>
      NewMemSafe(contexts, n, s, MemData(None, context, size, ptrs, 0, 0, []), if devices != [] then |devices| - 1 else 0);
      LogSafe(contexts, n, s.(mems := Effect(s, c).mems), Effect(s, c).log);
    case CreateQueue(context, devIndex, devId, gpu) => NewQueueSafe(contexts, n, s, QueueData(context, devIndex, devId, gpu, []));
    case CreateProgram(_) => ProgramsSafe(contexts, n, s, Effect(s, c).programs);
  }

  lemma LogSafe(contexts: Contexts, n: nat, s: State, log: seq<Op>)
    requires Safe(contexts, n, s)
    ensures Safe(contexts, n, s.(log := log))
  {
    hide MemSafe, QueueSafe;
  }

  lemma NewQueueSafe(contexts: Contexts, n: nat, s: State, d: QueueData)
    requires Safe(contexts, n, s) && d.devId < n && d.pending == []
    ensures Safe(contexts, n, s.(queues := Create(s.queues, d, 0)))
  {
    assert QueueSafe(contexts, n, s.mems, s.mappings, d);
    hide MemSafe, QueueSafe;
  }

  lemma ProgramsSafe(contexts: Contexts, n: nat, s: State, programs: seq<Obj<ProgramData>>)
    requires Safe(contexts, n, s)
    ensures Safe(contexts, n, s.(programs := programs))
  {
    hide MemSafe, QueueSafe;
  }

  /** Every call keeps the invariant, a deferred write when its two pointers agree. */
  lemma SafeStep(contexts: Contexts, n: nat, s: State, c: Call)
    requires Safe(contexts, n, s) && OnPlatform(contexts, n, c) && SamePointer(s, c)
    ensures Safe(contexts, n, Step(s, c))
  {
    hide Safe, Quiet, Effect, Accepted, OnPlatform, SamePointer;
    if Accepted(s, c) {
      if AddsNothing(c) {
        CallQuiet(s, c);
        QuietSafe(contexts, n, s, Effect(s, c));
      } else if c.CreateSubBuffer? {
        SubBufferSafe(contexts, n, s, c);
      } else if c.CreateQueue? || c.CreateBuffer? || c.CreateProgram? {
        CreateSafe(contexts, n, s, c);
      } else {
        CommandSafe(contexts, n, s, c);
      }
    }
  }

  lemma CommandSafe(contexts: Contexts, n: nat, s: State, c: Call)
    requires Safe(contexts, n, s) && Accepted(s, c) && SamePointer(s, c) && !AddsNothing(c) && !Creates(c) && !c.CreateQueue?
    ensures Safe(contexts, n, Effect(s, c))
  {
    hide Safe, Effect, Accepted, SamePointer;
    match c
    case EnqueueRead(_, _, _, _, _, _, _, _) => ReadSafe(contexts, n, s, c);
    case EnqueueWrite(_, _, _, _, _, _, _, _) => WriteSafe(contexts, n, s, c);
    case EnqueueCopy(_, _, _, _, _, _, _) => CopySafe(contexts, n, s, c);
    case EnqueueMap(_, _, _, _, _, _, hostPtr, _) =>
      if hostPtr.Some? { MapSafe(contexts, n, s, c); } else { MapFailSafe(contexts, n, s, c); }
    case EnqueueKernel(_, _, _, _, _) => LaunchSafe(contexts, n, s, c);
    case EnqueueMarker(q) => MarkerSafe(contexts, n, s, c);
  }

  lemma MarkerSafe(contexts: Contexts, n: nat, s: State, c: Call)
    requires Safe(contexts, n, s) && c.EnqueueMarker?
    ensures Safe(contexts, n, Effect(s, c))
  {
    hide Safe, Append, Quiet, RetainMems, MaybeEvent;
    var s1 := BeforeAppend(s, c.q, [], true);
    BeforeAppendQuiet(s, c.q, [], true);
    QuietSafe(contexts, n, s, s1);
    if c.q < |s1.queues| { AppendSafe(contexts, n, s1, c.q, Marker, EventHandle(s, true)); }
    else { AppendNowhere(s1, c.q, Marker, EventHandle(s, true)); }
  }

  lemma AppendNowhere(s: State, q: nat, c: Command, event: Option<nat>)
    requires q >= |s.queues|
    ensures Append(s, q, c, event) == s
  {
  }

  // ----- what is issued is alive and inside -----

  lemma RunNowIssuesOk(contexts: Contexts, n: nat, s: State, q: nat, ms: seq<nat>, op: Op, wanted: bool)
    requires Safe(contexts, n, s) && MemInv(s) && forall i :: 0 <= i < |ms| ==> Usable(s.mems, ms[i])
    requires forall mems :: MemsGrow(s.mems, mems) && (forall m :: m in ms ==> LiveRoot(mems, m)) ==>
      IssueOk(contexts, Issue(mems, DevId(s, q), ContextOf(s, q), ms, op))
    ensures forall e :: e in RunNowIssues(s, q, ms, op, wanted) ==> IssueOk(contexts, e)
  {
    hide Safe, MemOk, Quiet, Finish, BeforeDrain, FinishIssues, IssueOk, LiveRoot, MemsGrow;
    var s1, none: Bag := BeforeDrain(s, q, ms, wanted), multiset{};
    var t := Finish(s1, q);
    BeforeDrainQuiet(s, q, ms, wanted);
    FinishQuiet(s1, q);
    QuietMemsGrow(s, s1, t);
    HeldThroughDrain(s, q, ms, wanted);
    QuietSafe(contexts, n, s, s1);
    FinishIssuesOk(contexts, n, s1, q, none, none);
    HeldLive(t, ms);
  }

  lemma HeldLive(t: State, ms: seq<nat>)
    requires MemInv(t) && forall m :: m in ms ==> Usable(t.mems, m)
    ensures forall m :: m in ms ==> LiveRoot(t.mems, m)
  {
    hide MemOk, LiveRoot;
    forall m | m in ms ensures LiveRoot(t.mems, m) {
      UsableMem(t, m, multiset{}, multiset{});
      RootLive(t, m, multiset{}, multiset{});
    }
  }

  lemma QuietMemsGrow(s: State, t: State, u: State)
    requires Quiet(s, t) && Quiet(t, u)
    ensures MemsGrow(s.mems, u.mems)
  {
    QuietTrans(s, t, u);
  }

  /** The references a blocking command takes last through the drain. */
  lemma HeldThroughDrain(s: State, q: nat, ms: seq<nat>, wanted: bool)
    requires MemInv(s) && forall i :: 0 <= i < |ms| ==> Usable(s.mems, ms[i])
    ensures var s1 := BeforeDrain(s, q, ms, wanted); var t := Finish(s1, q);
      MemInv(s1) && MemInv(t) && forall m :: m in ms ==> Usable(t.mems, m)
  {
    hide MemOk, Finish, TakeMems;
    var s0, none: Bag := MaybeEvent(s, q, wanted, true), multiset{};
    MemCalls.MaybeEventOk(s, q, wanted, true, none, none);
    TakeMemsOk(s0, ms, none, none);
    var s1 := TakeMems(s0, ms);
    FinishOk(s1, q, none, none);
    var t := Finish(s1, q);
    forall m | m in ms ensures Usable(t.mems, m) {
      assert s1.mems[m].app == s0.mems[m].app + multiset(ms)[m];
    }
  }

  lemma TransferIssuesOk(contexts: Contexts, n: nat, s: State, c: Call)
    requires Safe(contexts, n, s) && MemInv(s) && Enabled(s, c) && Accepted(s, c)
    requires c.EnqueueRead? || c.EnqueueWrite?
    ensures forall e :: e in CallIssues(s, c) ==> IssueOk(contexts, e)
  {
    hide Safe, MemOk, RunNowIssues, LiveRoot, Inside, DevicePtr, DevId, ContextOf, MemsGrow;
    DeviceOf(contexts, n, s, c.q, c.m);
    if AtHome(contexts, s, c.q) { InBuffer(contexts, n, s, c.m, DevId(s, c.q), c.offset, c.cb); }
    var addr := DevicePtr(s, c.m, DevId(s, c.q)) + c.offset;
    var op := if c.EnqueueRead? then OpRead(c.ptr, addr, c.cb) else OpWrite(c.ptr, addr, c.cb);
    forall mems | MemsGrow(s.mems, mems) && (forall m :: m in [c.m] ==> LiveRoot(mems, m))
      ensures IssueOk(contexts, Issue(mems, DevId(s, c.q), ContextOf(s, c.q), [c.m], op))
    {
      if AtHome(contexts, s, c.q) { InsideKept(s.mems, mems, c.m, DevId(s, c.q), addr, c.cb); }
    }
    RunNowIssuesOk(contexts, n, s, c.q, [c.m], op, c.event);
  }

  lemma InsideKept(a: Mems, b: Mems, m: nat, dev: nat, addr: int, cb: nat)
    requires MemsGrow(a, b) && Inside(a, m, dev, addr, cb)
    ensures Inside(b, m, dev, addr, cb)
  {
    InsideGrows(a, b, m, dev, addr, cb);
  }

  lemma RectKept(a: Mems, b: Mems, m: nat, dev: nat, base: int, side: R.Side, region: R.Vec)
    requires MemsGrow(a, b) && RectInside(a, m, dev, base, side, region)
    ensures RectInside(b, m, dev, base, side, region)
  {
    hide MemsGrow, Inside, R.Address, R.InRegion;
    forall p | R.InRegion(region, p) ensures Inside(b, m, dev, base + R.Address(side, p), 1) {
      InsideKept(a, b, m, dev, base + R.Address(side, p), 1);
    }
  }

  lemma RectIssuesOk(contexts: Contexts, n: nat, s: State, c: Call)
    requires Safe(contexts, n, s) && MemInv(s) && Enabled(s, c) && Accepted(s, c) && (c.EnqueueReadRect? || c.EnqueueWriteRect?)
    ensures forall e :: e in CallIssues(s, c) ==> IssueOk(contexts, e)
  {
    hide Safe, MemOk, RunNowIssues, LiveRoot, RectInside, DevicePtr, DevId, ContextOf, MemsGrow, R.CornerFits;
    DeviceOf(contexts, n, s, c.q, c.m);
    if AtHome(contexts, s, c.q) { InRect(contexts, n, s, c.m, DevId(s, c.q), c.shape.first, c.shape.region); }
    var base := DevicePtr(s, c.m, DevId(s, c.q));
    var op := OpRect(if c.EnqueueReadRect? then RectRead else RectWrite, base, c.ptr, c.shape);
    forall mems | MemsGrow(s.mems, mems) && (forall m :: m in [c.m] ==> LiveRoot(mems, m))
      ensures IssueOk(contexts, Issue(mems, DevId(s, c.q), ContextOf(s, c.q), [c.m], op))
    {
      if AtHome(contexts, s, c.q) { RectKept(s.mems, mems, c.m, DevId(s, c.q), base, c.shape.first, c.shape.region); }
    }
    RunNowIssuesOk(contexts, n, s, c.q, [c.m], op, if c.EnqueueReadRect? then c.event else false);
  }

  lemma CopyRectIssuesOk(contexts: Contexts, n: nat, s: State, c: Call)
    requires Safe(contexts, n, s) && MemInv(s) && Enabled(s, c) && Accepted(s, c) && c.EnqueueCopyRect?
    ensures forall e :: e in CallIssues(s, c) ==> IssueOk(contexts, e)
  {
    hide Safe, MemOk, RunNowIssues, LiveRoot, RectInside, DevicePtr, DevId, ContextOf, MemsGrow, R.CornerFits;
    DeviceOf(contexts, n, s, c.q, c.src);
    DeviceOf(contexts, n, s, c.q, c.dst);
    var dev := DevId(s, c.q);
    if AtHome(contexts, s, c.q) { InRect(contexts, n, s, c.src, dev, c.shape.first, c.shape.region); }
    if AtHome(contexts, s, c.q) { InRect(contexts, n, s, c.dst, dev, c.shape.second, c.shape.region); }
    var a, b, named := DevicePtr(s, c.src, dev), DevicePtr(s, c.dst, dev), [c.src, c.dst];
    forall mems | MemsGrow(s.mems, mems) && (forall m :: m in named ==> LiveRoot(mems, m))
      ensures IssueOk(contexts, Issue(mems, dev, ContextOf(s, c.q), named, OpRect(RectCopy, a, b, c.shape)))
    {
      if AtHome(contexts, s, c.q) {
        RectKept(s.mems, mems, c.src, dev, a, c.shape.first, c.shape.region);
        RectKept(s.mems, mems, c.dst, dev, b, c.shape.second, c.shape.region);
      }
    }
    RunNowIssuesOk(contexts, n, s, c.q, named, OpRect(RectCopy, a, b, c.shape), c.event);
  }

  /** A blocking map holds its buffer through the drain. */
  lemma MappedOk(s: State, q: nat, m: nat, offset: nat, size: nat, hostPtr: int, wanted: bool)
    requires MemInv(s) && Usable(s.mems, m)
    ensures var t := Mapped(s, q, m, offset, size, hostPtr, wanted); MemOk(t, multiset{}, multiset{m}) && Usable(t.mems, m)
  {
    hide MemOk, MaybeEvent, AddMapping;
    var s0, none: Bag := s.(mems := Retain(s.mems, m)), multiset{};
    UsableMem(s, m, none, none);
    RetainMemOk(s, m, none, none);
    assert none + multiset{m} == multiset{m};
    MemCalls.MaybeEventOk(s0, q, wanted, true, multiset{m}, none);
    MaybeEventQuiet(s0, q, wanted, true);
    var mp := Mapping(true, m, hostPtr, offset, size);
    AddMappingOk(MaybeEvent(s0, q, wanted, true), m, mp);
    AddMappingApps(MaybeEvent(s0, q, wanted, true), m, mp);
  }

  lemma AddMappingApps(s: State, m: nat, mp: Mapping)
    ensures SameApps(s.mems, AddMapping(s, m, mp).mems)
  {
  }

  lemma MapIssuesOk(contexts: Contexts, n: nat, s: State, q: nat, m: nat, offset: nat, size: nat, hostPtr: int, wanted: bool)
    requires Safe(contexts, n, s) && MemInv(s) && Usable(s.mems, m) && SameContext(s, q, m) && offset + size <= s.mems[m].data.size
    ensures forall e :: e in MapIssues(s, q, m, offset, size, hostPtr, wanted) ==> IssueOk(contexts, e)
  {
    var s2, none: Bag, maps := Mapped(s, q, m, offset, size, hostPtr, wanted), multiset{}, multiset{m};
    MappedOk(s, q, m, offset, size, hostPtr, wanted);
    MappedSafe(contexts, n, s, q, m, offset, size, hostPtr, wanted);
    hide Safe, MemOk, Mapped, IssueOk, FinishIssues;
    FinishIssuesOk(contexts, n, s2, q, none, maps);
    FinishOk(s2, q, none, maps);
    FinishQuiet(s2, q);
    var t := Finish(s2, q);
    QuietSafe(contexts, n, s2, t);
    assert Usable(t.mems, m);
    UsableMem(t, m, none, maps);
    RootLive(t, m, none, maps);
    hide Finish, LiveRoot;
    LastMapIssue(contexts, n, s2, t, q, m, |s.mappings|);
  }

  lemma LastMapIssue(contexts: Contexts, n: nat, s: State, t: State, q: nat, m: nat, id: nat)
    requires Safe(contexts, n, t) && Quiet(s, t) && q < |s.queues| && LiveRoot(t.mems, m)
    requires CommandInside(s.mems, s.mappings, s.queues[q].data, MapBuffer(m, id))
    ensures IssueOk(contexts, Issue(t.mems, DevId(t, q), ContextOf(t, q), [m], MapOp(t, DevId(t, q), m, id)))
  {
    QuietIsKept(s, t);
    assert SameDevice(s.queues[q].data, t.queues[q].data);
    CommandGrows(s, t, s.queues[q].data, t.queues[q].data, MapBuffer(m, id));
    assert QueueSafe(contexts, n, t.mems, t.mappings, t.queues[q].data);
    hide Safe, Inside, LiveRoot, Kept, Quiet, IssueOk;
    CommandIssueOk(contexts, n, t, t.queues[q].data, MapBuffer(m, id));
    assert Issue(t.mems, DevId(t, q), ContextOf(t, q), [m], MapOp(t, DevId(t, q), m, id)) in NodeIssues(t, t.queues[q].data, MapBuffer(m, id));
  }

  lemma UnmapIssuesOk(contexts: Contexts, n: nat, s: State, q: nat, m: nat, ptr: int, flush: bool)
    requires Safe(contexts, n, s) && MemInv(s) && Alive(s.mems, m) && SameContext(s, q, m)
    ensures forall e :: e in UnmapIssues(s, q, m, ptr, flush) ==> IssueOk(contexts, e)
  {
    hide MemOk, Safe, LiveRoot, IssueOk, UnmapOp, FindMapping;
    MemCalls.FindMappingFacts(s.mappings, s.mems[m].data.mappings, ptr);
    RootLive(s, m, multiset{}, multiset{});
    var found := FoundMapping(s, m, ptr);
    if found.Some? { UnmapIssueOk(contexts, n, s, q, m, found.value); }
  }

  lemma UnmapIssueOk(contexts: Contexts, n: nat, s: State, q: nat, m: nat, id: nat)
    requires Safe(contexts, n, s) && LiveRoot(s.mems, m) && SameContext(s, q, m)
    requires id in s.mems[m].data.mappings && id < |s.mappings|
    ensures IssueOk(contexts, Issue(s.mems, DevId(s, q), ContextOf(s, q), [m], UnmapOp(s, q, m, id)))
  {
    assert MemSafe(contexts, n, s.mems, s.mappings, s.mems[m].data);
    DeviceOf(contexts, n, s, q, m);
    hide Safe, Inside, LiveRoot, DevicePtr, DevId, Placed;
    if AtHome(contexts, s, q) { InBuffer(contexts, n, s, m, DevId(s, q), s.mappings[id].offset, s.mappings[id].size); }
  }

  lemma {:induction false} WaitIssuesOk(contexts: Contexts, n: nat, s: State, es: seq<nat>)
    requires Safe(contexts, n, s) && MemInv(s)
    ensures forall e :: e in WaitIssues(s, es) ==> IssueOk(contexts, e)
    decreases |es|
  {
    hide Safe, MemOk, Finish, FinishIssues, IssueOk, Quiet;
    if es != [] {
      if es[0] < |s.events| {
        var q, none: Bag := s.events[es[0]].data.queue, multiset{};
        FinishIssuesOk(contexts, n, s, q, none, none);
        FinishOk(s, q, none, none);
        FinishQuiet(s, q);
        QuietSafe(contexts, n, s, Finish(s, q));
        WaitIssuesOk(contexts, n, Finish(s, q), es[1..]);
      } else {
        WaitIssuesOk(contexts, n, s, es[1..]);
      }
    }
  }

  /** A state that differs only in counters of events or queues. */
  lemma CounterFrame(contexts: Contexts, n: nat, s: State, t: State)
    requires Safe(contexts, n, s) && MemInv(s)
    requires t.mems == s.mems && t.mappings == s.mappings && t.programs == s.programs && SamePending(s.queues, t.queues)
    requires forall q {:trigger t.queues[q]} :: 0 <= q < |t.queues| ==> q < |s.queues| && t.queues[q].data == s.queues[q].data
    ensures Safe(contexts, n, t) && MemInv(t)
  {
    hide MemOk, Safe;
    MemFrame(s, t, multiset{}, multiset{});
    CountersQuiet(s, t);
    hide Quiet;
    QuietSafe(contexts, n, s, t);
  }

  lemma DrainIssuesOk(contexts: Contexts, n: nat, s: State, c: Call)
    requires Safe(contexts, n, s) && MemInv(s) && (c.ReleaseQueueCall? || c.ReleaseEventCall?)
    ensures forall e :: e in CallIssues(s, c) ==> IssueOk(contexts, e)
  {
    var none: Bag := multiset{};
    hide Safe, MemOk, FinishIssues, IssueOk;
    match c
    case ReleaseQueueCall(q) =>
      var s1 := s.(queues := GiveUp(s.queues, q));
      CounterFrame(contexts, n, s, s1);
      FinishIssuesOk(contexts, n, s1, q, none, none);
    case ReleaseEventCall(e) =>
      var s1 := s.(events := Dec(GiveUp(s.events, e), e));
      CounterFrame(contexts, n, s, s1);
      if e < |s.events| { FinishIssuesOk(contexts, n, s1, s1.events[e].data.queue, none, none); }
  }

  /** Every driver call an API call leads to stays in the memory of live buffers it names. */
  lemma CallIssuesOk(contexts: Contexts, n: nat, s: State, c: Call)
    requires Safe(contexts, n, s) && MemInv(s) && Enabled(s, c) && OnPlatform(contexts, n, c)
    ensures forall e :: e in CallIssues(s, c) ==> IssueOk(contexts, e)
  {
    hide Safe, MemOk, IssueOk, RunNowIssues, MapIssues, FinishIssues, WaitIssues, ReleaseEventIssues, UnmapIssues;
    if Accepted(s, c) {
      match c
      case EnqueueRead(_, _, _, _, _, _, _, _) => TransferIssuesOk(contexts, n, s, c);
      case EnqueueWrite(_, _, _, _, _, _, _, _) => TransferIssuesOk(contexts, n, s, c);
      case EnqueueReadRect(_, _, _, _, _, _) => RectIssuesOk(contexts, n, s, c);
      case EnqueueWriteRect(_, _, _, _, _, _) => RectIssuesOk(contexts, n, s, c);
      case CreateBuffer(_, _, _, _, _) => CreateIssuesOk(contexts, n, s, c);
      case EnqueueCopyRect(_, _, _, _, _, _) => CopyRectIssuesOk(contexts, n, s, c);
      case EnqueueMap(q, m, blocking, offset, size, _, hostPtr, event) =>
        if blocking && hostPtr.Some? { MapIssuesOk(contexts, n, s, q, m, offset, size, hostPtr.value, event); }
      case EnqueueUnmap(q, m, ptr, flush, _) => UnmapIssuesOk(contexts, n, s, q, m, ptr, flush);
      case ReleaseQueueCall(q) => DrainIssuesOk(contexts, n, s, c);
      case FinishCall(q) => FinishIssuesOk(contexts, n, s, q, multiset{}, multiset{});
      case WaitCall(es) => WaitIssuesOk(contexts, n, s, es);
      case ReleaseEventCall(e) => DrainIssuesOk(contexts, n, s, c);
      case StoreHost(ptr, bytes) => StoreIssueOk(contexts, s, ptr, bytes);
      case _ =>
    }
  }

  /** A new buffer's initial contents go to what its devices have allocated for it. */
  lemma CreateIssuesOk(contexts: Contexts, n: nat, s: State, c: Call)
    requires c.CreateBuffer? && Accepted(s, c) && OnPlatform(contexts, n, c)
    ensures forall e :: e in CreateIssues(s, c) ==> IssueOk(contexts, e)
  {
    var issues, mems, m := CreateIssues(s, c), Effect(s, c).mems, |s.mems|;
    assert |mems| == m + 1 && mems[m].live && mems[m].data == MemData(None, c.context, c.size, c.devicePtrs, 0, 0, []);
    forall i | 0 <= i < |issues| ensures IssueOk(contexts, issues[i]) {
      assert c.devices[i] in c.devices;
      assert LiveRoot(mems, m);
    }
  }

  lemma StoreIssueOk(contexts: Contexts, s: State, ptr: int, bytes: seq<int>)
    ensures IssueOk(contexts, Issue(s.mems, 0, 0, [], HostStore(ptr, bytes)))
  {
  }

  // ----- runs -----

  /** All driver calls of a run, in order. */
  function RunIssues(s: State, cs: seq<Call>): seq<Issue>
    decreases |cs|
  {
    if cs == [] then [] else CallIssues(s, cs[0]) + RunIssues(Step(s, cs[0]), cs[1..])
  }

  /** Every deferred write takes the pointer of its own device. */
  predicate PointersAgree(s: State, cs: seq<Call>)
    decreases |cs|
  {
    cs != [] ==> SamePointer(s, cs[0]) && PointersAgree(Step(s, cs[0]), cs[1..])
  }

  lemma {:induction false} RunLog(s: State, cs: seq<Call>)
    ensures Run(s, cs).log == s.log + Ops(RunIssues(s, cs))
    decreases |cs|
  {
    hide Step, CallIssues, Ops;
    OpsNone();
    if cs != [] {
      StepLog(s, cs[0]);
      RunLog(Step(s, cs[0]), cs[1..]);
      OpsConcat(CallIssues(s, cs[0]), RunIssues(Step(s, cs[0]), cs[1..]));
    }
  }

  lemma {:induction false} RunSafe(contexts: Contexts, n: nat, s: State, cs: seq<Call>)
    requires Safe(contexts, n, s) && Runs.Books(s) && Runs.Lawful(s, cs) && AllOnPlatform(contexts, n, cs) && PointersAgree(s, cs)
    ensures Safe(contexts, n, Run(s, cs)) && forall e :: e in RunIssues(s, cs) ==> IssueOk(contexts, e)
    decreases |cs|
  {
    hide Safe, Step, CallIssues, IssueOk, Enabled, OnPlatform, SamePointer, MemCalls.UnmapsLate;
    if cs != [] {
      var t := Step(s, cs[0]);
      assert OnPlatform(contexts, n, cs[0]) && forall i :: 0 <= i < |cs[1..]| ==> cs[1..][i] == cs[i + 1];
      assert MemInv(s);
      Runs.StepBooks(s, cs[0]);
      hide Runs.Books, MemOk;
      CallIssuesOk(contexts, n, s, cs[0]);
      SafeStep(contexts, n, s, cs[0]);
      RunSafe(contexts, n, t, cs[1..]);
    }
  }

  lemma SafeStart(contexts: Contexts, n: nat)
    ensures Safe(contexts, n, Empty)
  {
  }

  /** In every lawful run on a platform, in which deferred writes take the pointer of their own
      device: the log is the sequence of issued operations; what each of them names has not been
      freed by then; and on a queue whose device is one of its context it stays, on that device,
      in the memory of the buffers it names, as will what is still pending. */
  lemma OperationsStayInBuffers(contexts: Contexts, n: nat, cs: seq<Call>)
    requires Runs.Lawful(Empty, cs) && AllOnPlatform(contexts, n, cs) && PointersAgree(Empty, cs)
    ensures Run(Empty, cs).log == Ops(RunIssues(Empty, cs))
    ensures forall e :: e in RunIssues(Empty, cs) ==> IssueOk(contexts, e)
    ensures var s := Run(Empty, cs); forall q, node :: 0 <= q < |s.queues| && node in Pending(s, q) ==>
      (AtHome(contexts, s, q) ==> CommandInside(s.mems, s.mappings, s.queues[q].data, node.command))
      && forall m :: m in Named(node.command) ==> LiveRoot(s.mems, m)
  {
    hide Runs.Lawful, Runs.Books, Run, IssueOk, RunIssues, Ops, CommandInside, PointersAgree, AllOnPlatform, LiveRoot, Safe, AtHome, Named;
    var s := Run(Empty, cs);
    SafeStart(contexts, n);
    Runs.StartInv();
    RunSafe(contexts, n, Empty, cs);
    RunLog(Empty, cs);
    assert Empty.log + Ops(RunIssues(Empty, cs)) == Ops(RunIssues(Empty, cs));
    Runs.RunBooks(Empty, cs);
    forall q, node | 0 <= q < |s.queues| && node in Pending(s, q)
      ensures AtHome(contexts, s, q) ==> CommandInside(s.mems, s.mappings, s.queues[q].data, node.command)
      ensures forall m :: m in Named(node.command) ==> LiveRoot(s.mems, m)
    {
      PendingInside(contexts, n, s, q, node);
      var i :| 0 <= i < |Pending(s, q)| && Pending(s, q)[i] == node;
      PendingLive(s, q, i);
    }
  }

  lemma PendingInside(contexts: Contexts, n: nat, s: State, q: nat, node: Node)
    requires Safe(contexts, n, s) && q < |s.queues| && node in Pending(s, q)
    ensures AtHome(contexts, s, q) ==> CommandInside(s.mems, s.mappings, s.queues[q].data, node.command)
  {
    assert QueueSafe(contexts, n, s.mems, s.mappings, s.queues[q].data);
  }

  /** What any pending command names is alive, and so is its root. */
  lemma PendingLive(s: State, q: nat, i: nat)
    requires Runs.Books(s) && q < |s.queues| && i < |Pending(s, q)|
    ensures forall m :: m in Named(Pending(s, q)[i].command) ==> LiveRoot(s.mems, m)
  {
    var c := Pending(s, q)[i].command;
    assert MemInv(s);
    forall m | m in Named(c) ensures LiveRoot(s.mems, m) {
      if c.MapBuffer? {
        assert MapNodeOk(s.queues[q].data.pending[i], s.mappings);
        CollectHas(s.mappings, c.mapping, MappingRef);
      } else {
        CollectHas(s.queues, q, QueueMems);
        CollectHas(Pending(s, q), i, NodeMems);
        assert m in NodeMems(Pending(s, q)[i]);
      }
      hide Runs.Books, PendingMems, SubBuffers, LiveMappings, CountsOk, ListsOk, MapNodesOk, ParentsOk;
      Runs.ReferencedIsAlive(s, m);
      hide Balanced;
      RootLive(s, m, multiset{}, multiset{});
    }
  }

  // ----- sub-buffers -----

  ghost predicate AllPlaced(contexts: Contexts, n: nat, mems: Mems) {
    forall m {:trigger mems[m]} :: 0 <= m < |mems| ==> Placed(contexts, n, mems, mems[m].data)
  }

  lemma PlacedStep(contexts: Contexts, n: nat, s: State, c: Call)
    requires AllPlaced(contexts, n, s.mems) && OnPlatform(contexts, n, c)
    ensures AllPlaced(contexts, n, Step(s, c).mems)
  {
    var t := Step(s, c);
    Leaks.StepLeaks(s, c, contexts, n);
    forall m | 0 <= m < |t.mems| ensures Placed(contexts, n, t.mems, t.mems[m].data) {
      if m < |s.mems| {
        hide Step;
        assert SameFixed(s.mems[m].data, t.mems[m].data);
        PlacedGrows(contexts, n, s.mems, t.mems, s.mems[m].data, t.mems[m].data);
      } else {
        NewIsPlaced(contexts, n, s, c, m);
      }
    }
  }

  lemma NewIsPlaced(contexts: Contexts, n: nat, s: State, c: Call, m: nat)
    requires AllPlaced(contexts, n, s.mems) && OnPlatform(contexts, n, c) && |s.mems| <= m < |Step(s, c).mems|
    ensures Placed(contexts, n, Step(s, c).mems, Step(s, c).mems[m].data)
  {
    if Creates(c) && !c.CreateProgram? && Accepted(s, c) {
      if c.CreateSubBuffer? {
        assert Placed(contexts, n, s.mems, s.mems[c.m].data);
        assert Shifted(SubBufferData(s.mems[c.m].data, c.m, c.origin, c.size, c.garbage), s.mems[c.m].data, c.origin);
      }
    } else {
      hide Effect, Placed;
      NoNewMems(s, c);
    }
  }

  lemma NoNewMems(s: State, c: Call)
    requires !Accepted(s, c) || (!c.CreateBuffer? && !c.CreateSubBuffer?)
    ensures |Step(s, c).mems| == |s.mems|
  {
    if MapFails(s, c) {
      hide Step;
      Leaks.MapFailLeaks(s, c);
    } else if !Creates(c) {
      hide Step, MapFails;
      StepKept(s, c);
    }
  }

  lemma {:induction false} RunPlaced(contexts: Contexts, n: nat, s: State, cs: seq<Call>)
    requires AllPlaced(contexts, n, s.mems) && AllOnPlatform(contexts, n, cs)
    ensures AllPlaced(contexts, n, Run(s, cs).mems)
    decreases |cs|
  {
    hide AllPlaced, Step, OnPlatform;
    if cs != [] {
      assert OnPlatform(contexts, n, cs[0]) && forall i :: 0 <= i < |cs[1..]| ==> cs[1..][i] == cs[i + 1];
      PlacedStep(contexts, n, s, cs[0]);
      RunPlaced(contexts, n, Step(s, cs[0]), cs[1..]);
    }
  }

  /** The sub-buffer's bytes are its parent's from `origin` on, on every device of the context; on
      the other devices neither has an address. */
  ghost predicate Stretch(contexts: Contexts, n: nat, s: State, m: nat, p: nat, origin: nat) {
    m < |s.mems| && p < |s.mems| && origin + s.mems[m].data.size <= s.mems[p].data.size
    && forall dev {:trigger DevicePtr(s, m, dev)} :: 0 <= dev < n ==>
      if dev in contexts(s.mems[m].data.context) then
        DevicePtr(s, p, dev) != NULL && DevicePtr(s, m, dev) == DevicePtr(s, p, dev) + origin
      else DevicePtr(s, p, dev) == NULL && DevicePtr(s, m, dev) == NULL
  }

  /** In every run on a platform each sub-buffer is a stretch of its parent. */
  lemma SubBuffersInParents(contexts: Contexts, n: nat, cs: seq<Call>, m: nat)
    requires AllOnPlatform(contexts, n, cs)
    requires m < |Run(Empty, cs).mems| && Run(Empty, cs).mems[m].data.parent.Some?
    ensures var s := Run(Empty, cs); exists origin :: Stretch(contexts, n, s, m, s.mems[m].data.parent.value, origin)
  {
    hide Run, AllOnPlatform;
    RunPlaced(contexts, n, Empty, cs);
    var s := Run(Empty, cs);
    var d := s.mems[m].data;
    assert Placed(contexts, n, s.mems, d);
    var origin := BufferAddress(contexts, n, s.mems, m);
    assert Stretch(contexts, n, s, m, d.parent.value, origin);
  }

  // ----- the deferred write -----

  /** Allocations on different devices do not overlap, and none covers the first addresses. */
  predicate SpreadOut(d: MemData) {
    (forall i :: 0 <= i < |d.devicePtrs| ==> d.devicePtrs[i] == NULL || d.devicePtrs[i] >= d.size)
    && forall i, j :: 0 <= i < |d.devicePtrs| && 0 <= j < |d.devicePtrs| ==>
      d.devicePtrs[i] == d.devicePtrs[j] || d.devicePtrs[i] == NULL || d.devicePtrs[j] == NULL
      || d.devicePtrs[i] + d.size <= d.devicePtrs[j] || d.devicePtrs[j] + d.size <= d.devicePtrs[i]
  }

  /** Bytes addressed through the pointer of one device lie in the memory of another only if the
      pointers are the same. */
  lemma InsideIff(contexts: Contexts, n: nat, s: State, m: nat, dev: nat, index: nat, offset: nat, cb: nat)
    requires m < |s.mems| && Placed(contexts, n, s.mems, s.mems[m].data) && dev in contexts(s.mems[m].data.context) && dev < n
    requires offset + cb <= s.mems[m].data.size && cb > 0 && Root(s.mems, m) < |s.mems| && SpreadOut(s.mems[Root(s.mems, m)].data)
    ensures Inside(s.mems, m, dev, DevicePtr(s, m, index) + offset, cb) <==> DevicePtr(s, m, index) == DevicePtr(s, m, dev)
  {
    var origin := BufferAddress(contexts, n, s.mems, m);
    var r := s.mems[Root(s.mems, m)].data;
    assert DevicePtr(s, m, dev) == r.devicePtrs[dev] + origin;
    if index < n && r.devicePtrs[index] != NULL {
      assert DevicePtr(s, m, index) == r.devicePtrs[index] + origin;
    } else {
      assert DevicePtr(s, m, index) == NULL;
    }
  }

  /** A deferred write of at least one byte keeps the invariant exactly when the pointer at the
      device's position in the context is the pointer at its dev_id. */
  lemma DeferredWriteIff(contexts: Contexts, n: nat, s: State, c: Call)
    requires Safe(contexts, n, s) && Accepted(s, c) && c.EnqueueWrite? && !c.blocking && c.cb > 0 && AtHome(contexts, s, c.q)
    requires Root(s.mems, c.m) < |s.mems| && SpreadOut(s.mems[Root(s.mems, c.m)].data)
    ensures Safe(contexts, n, Step(s, c)) <==> SamePointer(s, c)
  {
    if SamePointer(s, c) {
      WriteSafe(contexts, n, s, c);
    } else {
      assert MemSafe(contexts, n, s.mems, s.mappings, s.mems[c.m].data);
      DeviceOf(contexts, n, s, c.q, c.m);
      InsideIff(contexts, n, s, c.m, DevId(s, c.q), DevIndex(s, c.q), c.offset, c.cb);
      StrayWrite(contexts, n, s, c);
    }
  }

  lemma StrayWrite(contexts: Contexts, n: nat, s: State, c: Call)
    requires Accepted(s, c) && c.EnqueueWrite? && !c.blocking && Root(s.mems, c.m) < |s.mems| && AtHome(contexts, s, c.q)
    requires !Inside(s.mems, c.m, DevId(s, c.q), DevicePtr(s, c.m, DevIndex(s, c.q)) + c.offset, c.cb)
    ensures !Safe(contexts, n, Step(s, c))
  {
    hide Inside, Kept, Quiet, MaybeEvent, RetainMems, DevicePtr;
    var command := WriteBuffer(c.ptr, DevicePtr(s, c.m, DevIndex(s, c.q)) + c.offset, c.cb, c.m);
    var s1 := BeforeAppend(s, c.q, [c.m], c.event);
    BeforeAppendQuiet(s, c.q, [c.m], c.event);
    QuietIsKept(s, s1);
    var t := Step(s, c);
    assert t == Append(s1, c.q, command, EventHandle(s, c.event));
    assert SameDevice(s.queues[c.q].data, s1.queues[c.q].data) && MemsGrow(s.mems, s1.mems) by { KeptParts(s, s1); }
    var node := Node(s1.nodes, command, EventHandle(s, c.event));
    assert t.mems == s1.mems && node in t.queues[c.q].data.pending && t.queues[c.q].data.devId == s.queues[c.q].data.devId;
    InsideGrows(s.mems, t.mems, c.m, DevId(s, c.q), command.devicePtr, c.cb);
    assert !CommandInside(t.mems, t.mappings, t.queues[c.q].data, command);
    assert !QueueSafe(contexts, n, t.mems, t.mappings, t.queues[c.q].data);
  }

  lemma KeptParts(s: State, t: State)
    requires Kept(s, t)
    ensures MemsGrow(s.mems, t.mems) && |s.queues| <= |t.queues|
    ensures forall q :: 0 <= q < |s.queues| ==> SameDevice(s.queues[q].data, t.queues[q].data)
  {
  }

  // ----- a queue on a device outside its context -----

  /** A map on any queue stays in its buffer exactly when the queue's device is one of its context. */
  lemma MapStaysInsideIff(contexts: Contexts, n: nat, s: State, q: nat, m: nat, offset: nat, size: nat)
    requires SameContext(s, q, m) && Placed(contexts, n, s.mems, s.mems[m].data) && DevId(s, q) < n
    requires offset + size <= s.mems[m].data.size
    ensures Inside(s.mems, m, DevId(s, q), DevicePtr(s, m, DevId(s, q)) + offset, size) <==> AtHome(contexts, s, q)
  {
    var origin := BufferAddress(contexts, n, s.mems, m);
  }
}
