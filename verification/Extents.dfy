/** Where device operations reach: the memory that one device holds for one buffer. The invariant
    here says it of what is pending; an issue records an operation with the memory objects as they
    were when the driver was called. */
module Extents {
  import opened RefCounts
  import opened Runtime
  import opened Frames
  import opened Platform
  import opened MemBooks
  import R = Rect

  // ----- the memory of a buffer -----

  /** The buffer whose memory holds a buffer's bytes. */
  function Root(mems: Mems, m: nat): nat {
    if m < |mems| && mems[m].data.parent.Some? then mems[m].data.parent.value else m
  }

  /** The bytes lie in what device `dev` allocated for the root of buffer `m`. */
  predicate Inside(mems: Mems, m: nat, dev: nat, addr: int, cb: nat) {
    m < |mems| && Root(mems, m) < |mems| &&
    var d := mems[Root(mems, m)].data;
    d.parent.None? && dev < |d.devicePtrs| && d.devicePtrs[dev] != NULL
    && d.devicePtrs[dev] <= addr && addr + cb <= d.devicePtrs[dev] + d.size
  }

  /** Every byte of a rectangle does. */
  ghost predicate RectInside(mems: Mems, m: nat, dev: nat, base: int, side: R.Side, region: R.Vec) {
    forall p :: R.InRegion(region, p) ==> Inside(mems, m, dev, base + R.Address(side, p), 1)
  }

  /** Neither the buffer nor its root has been freed. */
  predicate LiveRoot(mems: Mems, m: nat) { Alive(mems, m) && Alive(mems, Root(mems, m)) }

  // ----- issued operations -----

  /** A call of a device function: the memory objects at that moment, the device and the context of
      the queue, and the buffers the command names. */
  datatype Issue = Issue(mems: Mems, dev: nat, context: nat, named: seq<nat>, op: Op)

  function Ops(issues: seq<Issue>): seq<Op> {
    seq(|issues|, i requires 0 <= i < |issues| => issues[i].op)
  }

  /** The operation stays in the memory that the device has for the buffers the command names. What
      a kernel does with its buffers is its own affair. */
  ghost predicate IssueInside(e: Issue) {
    match e.op
    case OpRead(_, d, cb) => |e.named| == 1 && Inside(e.mems, e.named[0], e.dev, d, cb)
    case OpWrite(_, d, cb) => |e.named| == 1 && Inside(e.mems, e.named[0], e.dev, d, cb)
    case OpCopy(a, b, cb) => |e.named| == 2 && Inside(e.mems, e.named[0], e.dev, a, cb) && Inside(e.mems, e.named[1], e.dev, b, cb)
    case OpRect(kind, first, second, shape) =>
      |e.named| == (if kind.RectCopy? then 2 else 1)
      && RectInside(e.mems, e.named[0], e.dev, first, shape.first, shape.region)
      && (kind.RectCopy? ==> RectInside(e.mems, e.named[1], e.dev, second, shape.second, shape.region))
    case OpMap(d, offset, size, _) => |e.named| == 1 && Inside(e.mems, e.named[0], e.dev, d + offset, size)
    case OpUnmap(_, d, size) => |e.named| == 1 && Inside(e.mems, e.named[0], e.dev, d, size)
    case OpCreate(_, d, size) => |e.named| == 1 && Inside(e.mems, e.named[0], e.dev, d, size)
    case OpRun(_, _, _) => true
    case HostStore(_, _) => true
  }

  /** None of the buffers named has been freed; and if the queue's device is one of its context, the
      operation stays in their memory. */
  ghost predicate IssueOk(contexts: Contexts, e: Issue) {
    (forall m :: m in e.named ==> LiveRoot(e.mems, m))
    && (e.dev in contexts(e.context) ==> IssueInside(e))
  }

  // ----- the invariant -----

  predicate Shifted(d: MemData, p: MemData, origin: nat) {
    origin + d.size <= p.size && d.devicePtrs == SubPointers(p.devicePtrs, origin)
  }

  /** A buffer is allocated on the devices of its context; a sub-buffer is a stretch of one. */
  ghost predicate Placed(contexts: Contexts, n: nat, mems: Mems, d: MemData) {
    if d.parent.None? then Allocated(contexts(d.context), n, d.devicePtrs)
    else
      var p := d.parent.value;
      p < |mems| && mems[p].data.parent.None? && mems[p].data.context == d.context
      && Allocated(contexts(d.context), n, mems[p].data.devicePtrs)
      && exists origin :: Shifted(d, mems[p].data, origin)
  }

  predicate MappingFits(mappings: seq<Mapping>, id: nat, size: nat) {
    id < |mappings| && mappings[id].offset + mappings[id].size <= size
  }

  ghost predicate MemSafe(contexts: Contexts, n: nat, mems: Mems, mappings: seq<Mapping>, d: MemData) {
    Placed(contexts, n, mems, d) && forall id :: id in d.mappings ==> MappingFits(mappings, id, d.size)
  }

  /** A pending command of queue `d` will stay in the memory of the buffers it names. */
  predicate CommandInside(mems: Mems, mappings: seq<Mapping>, d: QueueData, c: Command) {
    match c
    case ReadBuffer(_, a, cb, m) => Inside(mems, m, d.devId, a, cb)
    case WriteBuffer(_, a, cb, m) => Inside(mems, m, d.devId, a, cb)
    case CopyBuffer(a, b, cb, m1, m2) => Inside(mems, m1, d.devId, a, cb) && Inside(mems, m2, d.devId, b, cb)
    case MapBuffer(m, id) => m < |mems| && mems[m].data.context == d.context && MappingFits(mappings, id, mems[m].data.size)
    case RunKernel(_, _, _, _) => true
    case Marker => true
  }

  ghost predicate QueueSafe(contexts: Contexts, n: nat, mems: Mems, mappings: seq<Mapping>, d: QueueData) {
    d.devId < n
    && (d.devId in contexts(d.context) ==> forall node :: node in d.pending ==> CommandInside(mems, mappings, d, node.command))
  }

  ghost predicate Safe(contexts: Contexts, n: nat, s: State) {
    (forall m {:trigger s.mems[m]} :: 0 <= m < |s.mems| ==> MemSafe(contexts, n, s.mems, s.mappings, s.mems[m].data))
    && (forall q {:trigger s.queues[q]} :: 0 <= q < |s.queues| ==> QueueSafe(contexts, n, s.mems, s.mappings, s.queues[q].data))
  }

  // ----- what is inside stays inside -----

  lemma InsideGrows(a: Mems, b: Mems, m: nat, dev: nat, addr: int, cb: nat)
    requires MemsGrow(a, b) && m < |a| && Root(a, m) < |a|
    ensures Inside(b, m, dev, addr, cb) <==> Inside(a, m, dev, addr, cb)
  {
    assert SameFixed(a[m].data, b[m].data);
    assert SameFixed(a[Root(a, m)].data, b[Root(a, m)].data);
  }

  lemma CommandGrows(s: State, t: State, d: QueueData, e: QueueData, c: Command)
    requires Grow(s, t) && CommandInside(s.mems, s.mappings, d, c) && SameDevice(d, e)
    ensures CommandInside(t.mems, t.mappings, e, c)
  {
    match c
    case ReadBuffer(_, a, cb, m) => InsideGrows(s.mems, t.mems, m, d.devId, a, cb);
    case WriteBuffer(_, a, cb, m) => InsideGrows(s.mems, t.mems, m, d.devId, a, cb);
    case CopyBuffer(a, b, cb, m1, m2) =>
      InsideGrows(s.mems, t.mems, m1, d.devId, a, cb);
      InsideGrows(s.mems, t.mems, m2, d.devId, b, cb);
    case MapBuffer(m, id) => assert SameFixed(s.mems[m].data, t.mems[m].data);
    case _ =>
  }

  lemma PlacedGrows(contexts: Contexts, n: nat, a: Mems, b: Mems, d: MemData, e: MemData)
    requires MemsGrow(a, b) && Placed(contexts, n, a, d) && SameFixed(d, e)
    ensures Placed(contexts, n, b, e)
  {
    if d.parent.Some? {
      var p := d.parent.value;
      var origin :| Shifted(d, a[p].data, origin);
      assert SameFixed(a[p].data, b[p].data);
      assert Shifted(e, b[p].data, origin);
    }
  }

  /** A step keeps the invariant when what it adds is in order. */
  ghost predicate Additions(contexts: Contexts, n: nat, s: State, t: State) {
    Grow(s, t)
    && (forall m {:trigger t.mems[m]} :: 0 <= m < |t.mems| ==> NewMappingsFit(s, t, m))
    && (forall m {:trigger t.mems[m]} :: |s.mems| <= m < |t.mems| ==> Placed(contexts, n, t.mems, t.mems[m].data))
    && (forall q {:trigger t.queues[q]} :: 0 <= q < |t.queues| ==> NewNodesFit(contexts, n, s, t, q))
  }

  ghost predicate NewMappingsFit(s: State, t: State, m: nat)
    requires m < |t.mems|
  {
    forall id :: id in t.mems[m].data.mappings ==>
      (m < |s.mems| && id in s.mems[m].data.mappings) || MappingFits(t.mappings, id, t.mems[m].data.size)
  }

  ghost predicate NewNodesFit(contexts: Contexts, n: nat, s: State, t: State, q: nat)
    requires q < |t.queues|
  {
    var d := t.queues[q].data;
    (q >= |s.queues| ==> d.devId < n)
    && (d.devId in contexts(d.context) ==>
      forall node :: node in d.pending ==>
        (q < |s.queues| && node in s.queues[q].data.pending) || CommandInside(t.mems, t.mappings, d, node.command))
  }

  lemma AdditionsMem(contexts: Contexts, n: nat, s: State, t: State, m: nat)
    requires Safe(contexts, n, s) && Additions(contexts, n, s, t) && m < |t.mems|
    ensures MemSafe(contexts, n, t.mems, t.mappings, t.mems[m].data)
  {
    hide CommandInside, QueueSafe, Placed;
    assert NewMappingsFit(s, t, m);
    if m < |s.mems| {
      assert MemSafe(contexts, n, s.mems, s.mappings, s.mems[m].data) && SameFixed(s.mems[m].data, t.mems[m].data);
      PlacedGrows(contexts, n, s.mems, t.mems, s.mems[m].data, t.mems[m].data);
    }
  }

  lemma AdditionsQueue(contexts: Contexts, n: nat, s: State, t: State, q: nat)
    requires Safe(contexts, n, s) && Additions(contexts, n, s, t) && q < |t.queues|
    ensures QueueSafe(contexts, n, t.mems, t.mappings, t.queues[q].data)
  {
    hide CommandInside, MemSafe, NewMappingsFit, Placed;
    assert NewNodesFit(contexts, n, s, t, q);
    if q < |s.queues| {
      assert QueueSafe(contexts, n, s.mems, s.mappings, s.queues[q].data) && SameDevice(s.queues[q].data, t.queues[q].data);
      forall node | node in s.queues[q].data.pending && s.queues[q].data.devId in contexts(s.queues[q].data.context)
        ensures CommandInside(t.mems, t.mappings, t.queues[q].data, node.command)
      {
        CommandGrows(s, t, s.queues[q].data, t.queues[q].data, node.command);
      }
    }
  }

  lemma AdditionsSafe(contexts: Contexts, n: nat, s: State, t: State)
    requires Safe(contexts, n, s) && Additions(contexts, n, s, t)
    ensures Safe(contexts, n, t)
  {
    forall m | 0 <= m < |t.mems| ensures MemSafe(contexts, n, t.mems, t.mappings, t.mems[m].data) {
      AdditionsMem(contexts, n, s, t, m);
    }
    forall q | 0 <= q < |t.queues| ensures QueueSafe(contexts, n, t.mems, t.mappings, t.queues[q].data) {
      AdditionsQueue(contexts, n, s, t, q);
    }
  }

  lemma QuietSafe(contexts: Contexts, n: nat, s: State, t: State)
    requires Safe(contexts, n, s) && Quiet(s, t)
    ensures Safe(contexts, n, t)
  {
    hide CommandInside, Placed, MemSafe, QueueSafe;
    QuietIsKept(s, t);
    assert forall m :: 0 <= m < |t.mems| ==> NewMappingsFit(s, t, m);
    assert forall q :: 0 <= q < |t.queues| ==> NewNodesFit(contexts, n, s, t, q);
    assert Additions(contexts, n, s, t);
    hide Additions, Quiet, Kept;
    AdditionsSafe(contexts, n, s, t);
  }

  lemma AppendSafe(contexts: Contexts, n: nat, s: State, q: nat, c: Command, event: Option<nat>)
    requires Safe(contexts, n, s) && q < |s.queues|
    requires var d := s.queues[q].data; d.devId in contexts(d.context) ==> CommandInside(s.mems, s.mappings, d, c)
    ensures Safe(contexts, n, Append(s, q, c, event))
  {
    hide Placed, MemSafe, QueueSafe, Inside, MappingFits;
    var t := Append(s, q, c, event);
    AppendKept(s, q, c, event);
    assert CommandInside(s.mems, s.mappings, s.queues[q].data, c) ==> CommandInside(t.mems, t.mappings, t.queues[q].data, c);
    hide CommandInside;
    assert forall m :: 0 <= m < |t.mems| ==> NewMappingsFit(s, t, m);
    assert forall i :: 0 <= i < |t.queues| ==> NewNodesFit(contexts, n, s, t, i);
    AdditionsSafe(contexts, n, s, t);
  }

  // ----- addresses -----

  /** A buffer's addresses are its root's, all shifted alike; it has none where the root has none. */
  lemma BufferAddress(contexts: Contexts, n: nat, mems: Mems, m: nat) returns (origin: nat)
    requires m < |mems| && Placed(contexts, n, mems, mems[m].data)
    ensures Root(mems, m) < |mems| && mems[Root(mems, m)].data.parent.None?
    ensures var d, r := mems[m].data, mems[Root(mems, m)].data;
      origin + d.size <= r.size && Allocated(contexts(d.context), n, r.devicePtrs) && d.devicePtrs == SubPointers(r.devicePtrs, origin)
  {
    var d := mems[m].data;
    origin := 0;
    if d.parent.Some? {
      origin :| Shifted(d, mems[d.parent.value].data, origin);
    } else {
      assert d.devicePtrs == SubPointers(d.devicePtrs, 0);
    }
  }

  /** A stretch of a buffer lies, at the address its device has, in the memory of its root. */
  lemma InBuffer(contexts: Contexts, n: nat, s: State, m: nat, dev: nat, offset: nat, cb: nat)
    requires Safe(contexts, n, s) && m < |s.mems| && dev in contexts(s.mems[m].data.context) && dev < n
    requires offset + cb <= s.mems[m].data.size
    ensures Inside(s.mems, m, dev, DevicePtr(s, m, dev) + offset, cb)
  {
    assert MemSafe(contexts, n, s.mems, s.mappings, s.mems[m].data);
    hide Safe;
    var origin := BufferAddress(contexts, n, s.mems, m);
  }

  /** A rectangle that passes the corner test lies in the memory of one root, byte by byte. */
  lemma InRect(contexts: Contexts, n: nat, s: State, m: nat, dev: nat, side: R.Side, region: R.Vec)
    requires Safe(contexts, n, s) && m < |s.mems| && dev in contexts(s.mems[m].data.context) && dev < n
    requires R.CornerFits(side, region, s.mems[m].data.size)
    ensures RectInside(s.mems, m, dev, DevicePtr(s, m, dev), side, region)
  {
    hide Safe, Inside, DevicePtr, R.CornerFits, R.Address;
    R.CornerFitsIff(side, region, s.mems[m].data.size);
    forall p | R.InRegion(region, p) ensures Inside(s.mems, m, dev, DevicePtr(s, m, dev) + R.Address(side, p), 1) {
      InBuffer(contexts, n, s, m, dev, R.Address(side, p), 1);
    }
  }

  // ----- the drain -----

  /** The buffers a pending command names. */
  function Named(c: Command): seq<nat> { if c.MapBuffer? then [c.buffer] else CommandMems(c) }

  function NodeIssues(s: State, d: QueueData, c: Command): seq<Issue> {
    if c.Marker? then [] else [Issue(s.mems, d.devId, d.context, Named(c), CommandOp(s, d.devId, c))]
  }

  /** The driver calls clFinish makes. */
  function FinishIssues(s: State, q: nat): seq<Issue>
    decreases |Pending(s, q)|
  {
    if Pending(s, q) == [] then []
    else NodeIssues(s, s.queues[q].data, Pending(s, q)[0].command) + FinishIssues(ExecuteHead(s, q), q)
  }

  lemma ExecuteHeadLog(s: State, q: nat)
    requires Pending(s, q) != []
    ensures ExecuteHead(s, q).log == s.log + Ops(NodeIssues(s, s.queues[q].data, Pending(s, q)[0].command))
  {
    var d, node := s.queues[q].data, Pending(s, q)[0];
    var s1 := SetPending(s, q, Pending(s, q)[1..]);
    if !node.command.Marker? {
      assert CommandOp(s1, d.devId, node.command) == CommandOp(s, d.devId, node.command) by { hide LoadAll; }
      hide CommandOp, Perform, Finalize;
      PerformQuiet(s1, node.event, CommandOp(s, d.devId, node.command));
    }
  }

  lemma OpsConcat(a: seq<Issue>, b: seq<Issue>)
    ensures Ops(a + b) == Ops(a) + Ops(b)
  {
  }

  lemma {:induction false} FinishLog(s: State, q: nat)
    ensures Finish(s, q).log == s.log + Ops(FinishIssues(s, q))
    decreases |Pending(s, q)|
  {
    hide ExecuteHead, NodeIssues, Ops;
    if Pending(s, q) == [] {
      assert Ops([]) == [] by { OpsNone(); }
    } else {
      var first := NodeIssues(s, s.queues[q].data, Pending(s, q)[0].command);
      ExecuteHeadLog(s, q);
      FinishLog(ExecuteHead(s, q), q);
      OpsConcat(first, FinishIssues(ExecuteHead(s, q), q));
    }
  }

  lemma OpsNone()
    ensures Ops([]) == []
  {
  }

  // ----- what a command names is alive when it is executed -----

  lemma RootLive(s: State, m: nat, refs: Bag, maps: Bag)
    requires MemOk(s, refs, maps) && Alive(s.mems, m)
    ensures LiveRoot(s.mems, m)
  {
    hide CountsOk, ListsOk, MapNodesOk, ParentsOk, Balanced, PendingMems, LiveMappings;
    if s.mems[m].data.parent.Some? {
      CollectHas(s.mems, m, ParentRef);
      UsableIsAlive(s.mems, PendingMems(s.queues) + refs + SubBuffers(s.mems) + LiveMappings(s.mappings), s.mems[m].data.parent.value);
    }
  }

  lemma NamedIsReferenced(s: State, q: nat, m: nat)
    requires Pending(s, q) != [] && m in CommandMems(Pending(s, q)[0].command)
    ensures m in PendingMems(s.queues)
  {
    CollectHas(s.queues, q, QueueMems);
    CollectHas(Pending(s, q), 0, NodeMems);
    assert m in NodeMems(Pending(s, q)[0]);
  }

  lemma NamedLive(s: State, q: nat, m: nat, refs: Bag, maps: Bag)
    requires MemOk(s, refs, maps) && Pending(s, q) != [] && m in Named(Pending(s, q)[0].command)
    ensures LiveRoot(s.mems, m)
  {
    var node := s.queues[q].data.pending[0];
    if node.command.MapBuffer? {
      assert MapNodeOk(node, s.mappings);
      CollectHas(s.mappings, node.command.mapping, MappingRef);
    } else {
      NamedIsReferenced(s, q, m);
    }
    hide PendingMems, SubBuffers, LiveMappings, CountsOk, ListsOk, MapNodesOk, ParentsOk;
    UsableIsAlive(s.mems, PendingMems(s.queues) + refs + SubBuffers(s.mems) + LiveMappings(s.mappings), m);
    hide Balanced;
    RootLive(s, m, refs, maps);
  }

  lemma CommandIssueOk(contexts: Contexts, n: nat, s: State, d: QueueData, c: Command)
    requires Safe(contexts, n, s) && d.devId < n && forall m :: m in Named(c) ==> LiveRoot(s.mems, m)
    requires d.devId in contexts(d.context) ==> CommandInside(s.mems, s.mappings, d, c)
    ensures forall e :: e in NodeIssues(s, d, c) ==> IssueOk(contexts, e)
  {
    hide Safe, Inside, LiveRoot, LoadAll, DevicePtr;
    if c.MapBuffer? && d.devId in contexts(d.context) {
      InBuffer(contexts, n, s, c.buffer, d.devId, s.mappings[c.mapping].offset, s.mappings[c.mapping].size);
    }
  }

  lemma HeadIssueOk(contexts: Contexts, n: nat, s: State, q: nat, refs: Bag, maps: Bag)
    requires Safe(contexts, n, s) && MemOk(s, refs, maps) && Pending(s, q) != []
    ensures forall e :: e in NodeIssues(s, s.queues[q].data, Pending(s, q)[0].command) ==> IssueOk(contexts, e)
  {
    var d, c := s.queues[q].data, Pending(s, q)[0].command;
    assert QueueSafe(contexts, n, s.mems, s.mappings, d) && Pending(s, q)[0] in d.pending;
    hide MemOk, Safe, NodeIssues, IssueOk, LiveRoot, CommandInside;
    forall m | m in Named(c) ensures LiveRoot(s.mems, m) { NamedLive(s, q, m, refs, maps); }
    CommandIssueOk(contexts, n, s, d, c);
  }

  /** Every driver call of a drain stays in the memory of live buffers. */
  lemma {:induction false} FinishIssuesOk(contexts: Contexts, n: nat, s: State, q: nat, refs: Bag, maps: Bag)
    requires Safe(contexts, n, s) && MemOk(s, refs, maps)
    ensures forall e :: e in FinishIssues(s, q) ==> IssueOk(contexts, e)
    decreases |Pending(s, q)|
  {
    hide MemOk, Safe, NodeIssues, IssueOk, ExecuteHead, Quiet;
    if Pending(s, q) != [] {
      HeadIssueOk(contexts, n, s, q, refs, maps);
      ExecuteHeadOk(s, q, refs, maps);
      ExecuteHeadQuiet(s, q);
      QuietSafe(contexts, n, s, ExecuteHead(s, q));
      FinishIssuesOk(contexts, n, ExecuteHead(s, q), q, refs, maps);
    }
  }
}
