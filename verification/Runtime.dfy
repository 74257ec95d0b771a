/** The state of the host runtime and what each API call does to it: in-order command queues,
    reference-counted objects, mappings, kernel arguments, and the device operations issued.
    Calls are modelled as functions from state to state; object identities are arena indices. */
module Runtime {
  import opened RefCounts
  import Rect

  // ----- the state -----

  const NULL := 0

  /** Values of an event's `status` field. */
  const CL_COMPLETE := 0
  const CL_RUNNING := 1
  const CL_SUBMITTED := 2
  const CL_QUEUED := 3

  /** What an argument block holds: plain bytes, or the handle of a buffer. */
  datatype Value = Bytes(bytes: seq<int>) | Handle(mem: nat)

  /** struct pocl_argument: `block` is the `value` pointer. */
  datatype Argument = Argument(size: nat, block: Option<nat>)

  /** The heap of argument blocks. The owner is a book: whose pointer reaches the block. */
  datatype Owner = OfKernel(kernel: nat, index: nat) | OfNode(node: nat, index: nat)
  datatype Block = Freed | Block(value: Value, owner: Owner)

  /** The union _cl_command_t. */
  datatype Command =
    | ReadBuffer(hostPtr: int, devicePtr: int, cb: nat, buffer: nat)
    | WriteBuffer(hostPtr: int, devicePtr: int, cb: nat, buffer: nat)
    | CopyBuffer(srcPtr: int, dstPtr: int, cb: nat, src: nat, dst: nat)
    | MapBuffer(buffer: nat, mapping: nat)
    | RunKernel(kernel: nat, range: seq<nat>, arguments: seq<Argument>, argBuffers: seq<nat>)
    | Marker

  /** _cl_command_node; `id` stands for the node's address. */
  datatype Node = Node(id: nat, command: Command, event: Option<nat>)

  /** mem_mapping_t; `live` while it is linked into its buffer's list. */
  datatype Mapping = Mapping(live: bool, buffer: nat, hostPtr: int, offset: nat, size: nat)

  /** A sub-buffer's map_count is never initialised; `mapBase` is what it started from. */
  datatype MemData = MemData(
    parent: Option<nat>, context: nat, size: nat, devicePtrs: seq<int>,
    mapCount: int, mapBase: int, mappings: seq<nat>)

  /** `devIndex` is the device's position in its context, `devId` its dev_id. */
  datatype QueueData = QueueData(context: nat, devIndex: nat, devId: nat, gpu: bool, pending: seq<Node>)

  /** `trail` lists the values written to the status field, the last one being current. */
  datatype EventData = EventData(queue: nat, inOrder: bool, trail: seq<int>)

  datatype KernelData = KernelData(
    program: Option<nat>, context: nat, isPointer: seq<bool>, isLocal: seq<bool>, arguments: seq<Argument>)

  datatype ProgramData = ProgramData(context: nat, kernels: seq<nat>)

  /** A call through one of the device's function pointers. */
  datatype Op =
    | OpRead(hostPtr: int, devicePtr: int, cb: nat)
    | OpWrite(hostPtr: int, devicePtr: int, cb: nat)
    | OpCopy(srcPtr: int, dstPtr: int, cb: nat)
    | OpRect(kind: RectKind, first: int, second: int, shape: Rect.Shape)
    | OpMap(devicePtr: int, offset: nat, size: nat, hostPtr: int)
    | OpUnmap(hostPtr: int, devicePtr: int, size: nat)
    | OpRun(kernel: nat, range: seq<nat>, arguments: seq<(nat, Option<Value>)>)
    | OpCreate(hostPtr: int, devicePtr: int, cb: nat)  // the copy an allocation makes of its initial contents
    | HostStore(hostPtr: int, bytes: seq<int>)

  datatype RectKind = RectRead | RectWrite | RectCopy

  datatype State = State(
    mems: seq<Obj<MemData>>,
    mappings: seq<Mapping>,
    queues: seq<Obj<QueueData>>,
    events: seq<Obj<EventData>>,
    kernels: seq<Obj<KernelData>>,
    programs: seq<Obj<ProgramData>>,
    blocks: seq<Block>,
    nodes: nat,      // command nodes allocated so far
    log: seq<Op>)    // device operations issued so far

  const Empty: State := State([], [], [], [], [], [], [], 0, [])

  // ----- events -----

  /** A new event is QUEUED and retains its queue. */
  function NewEvent(s: State, q: nat, inOrder: bool): State {
    s.(events := Create(s.events, EventData(q, inOrder, [CL_QUEUED]), 0), queues := Retain(s.queues, q))
  }

  /** The event output parameter: an event is made only when the caller asked for one. */
  function MaybeEvent(s: State, q: nat, wanted: bool, inOrder: bool): State {
    if wanted then NewEvent(s, q, inOrder) else s
  }

  function EventHandle(s: State, wanted: bool): Option<nat> {
    if wanted then Some(|s.events|) else None
  }

  function WriteStatus(s: State, event: Option<nat>, values: seq<int>): State {
    if event.Some? && event.value < |s.events| then
      var d := s.events[event.value].data;
      s.(events := SetData(s.events, event.value, d.(trail := d.trail + values)))
    else s
  }

  /** POCL_UPDATE_EVENT_SUBMITTED, RUNNING and COMPLETE. The assertion inside each macro is an
      assignment of the previous status, so each macro writes the field twice. */
  function MarkSubmitted(s: State, event: Option<nat>): State { WriteStatus(s, event, [CL_QUEUED, CL_SUBMITTED]) }

  function MarkRunning(s: State, event: Option<nat>): State { WriteStatus(s, event, [CL_SUBMITTED, CL_RUNNING]) }

  function MarkComplete(s: State, event: Option<nat>): State { WriteStatus(s, event, [CL_RUNNING, CL_COMPLETE]) }

  /** One device operation between the status updates of its event. */
  function Perform(s: State, event: Option<nat>, op: Op): State {
    var s1 := MarkRunning(MarkSubmitted(s, event), event);
    MarkComplete(s1.(log := s1.log + [op]), event)
  }

  // ----- releasing memory objects, programs and kernels -----

  function FreeMappings(mappings: seq<Mapping>, ids: seq<nat>): seq<Mapping>
    decreases |ids|
  {
    if ids == [] then mappings
    else
      var i := ids[0];
      FreeMappings(if i < |mappings| then mappings[i := mappings[i].(live := false)] else mappings, ids[1..])
  }

  /** What the functions below leave alone. */
  predicate SameButMems(s: State, r: State) {
    r == s.(mems := r.mems, mappings := r.mappings)
  }

  predicate SameButPrograms(s: State, r: State) {
    r == s.(kernels := r.kernels, programs := r.programs)
  }

  /** clReleaseMemObject. The last release of a sub-buffer only decrements its parent. */
  function ReleaseMem(s: State, m: nat): (r: State)
    ensures SameButMems(s, r)
  {
    if m >= |s.mems| then s
    else
      var d := s.mems[m].data;
      var s1 := s.(mems := Release(s.mems, m));
      if s1.mems[m].refcount != 0 then s1
      else
        var ms := if d.parent.Some? then Dec(s1.mems, d.parent.value) else s1.mems;
        s1.(mems := SetData(ms, m, d.(mappings := [])), mappings := FreeMappings(s1.mappings, d.mappings))
  }

  /** The buffers a queued command holds a reference to. A map command has none of its own:
      the mapping holds it. */
  function CommandMems(c: Command): seq<nat> {
    match c
    case ReadBuffer(_, _, _, m) => [m]
    case WriteBuffer(_, _, _, m) => [m]
    case CopyBuffer(_, _, _, m1, m2) => [m1, m2]
    case MapBuffer(_, _) => []
    case RunKernel(_, _, _, bufs) => bufs
    case Marker => []
  }

  function ReleaseMems(s: State, ms: seq<nat>): (r: State)
    ensures SameButMems(s, r)
    decreases |ms|
  {
    if ms == [] then s else ReleaseMems(ReleaseMem(s, ms[0]), ms[1..])
  }

  function RetainMems(s: State, ms: seq<nat>): (r: State)
    ensures SameButMems(s, r)
    decreases |ms|
  {
    if ms == [] then s else RetainMems(s.(mems := Retain(s.mems, ms[0])), ms[1..])
  }

  /** The loop that clears `k->program` along the kernel list of a destroyed program. */
  function Orphan(kernels: seq<Obj<KernelData>>, ks: seq<nat>): seq<Obj<KernelData>>
    decreases |ks|
  {
    if ks == [] then kernels
    else
      var k := ks[0];
      Orphan(if k < |kernels| then SetData(kernels, k, kernels[k].data.(program := None)) else kernels, ks[1..])
  }

  /** clReleaseProgram. */
  function ReleaseProgram(s: State, p: nat): (r: State)
    ensures SameButPrograms(s, r)
  {
    if p >= |s.programs| then s
    else
      var s1 := s.(programs := Release(s.programs, p));
      if s1.programs[p].refcount != 0 then s1
      else s1.(kernels := Orphan(s1.kernels, s1.programs[p].data.kernels))
  }

  /** `l` without its first `x`: what the pointer-to-pointer walk of clReleaseKernel leaves. */
  function Unlink(l: seq<nat>, x: nat): seq<nat> {
    if l == [] then [] else if l[0] == x then l[1..] else [l[0]] + Unlink(l[1..], x)
  }

  ghost predicate NoDuplicates(l: seq<nat>) {
    forall i, j :: 0 <= i < j < |l| ==> l[i] != l[j]
  }

  lemma {:induction false} UnlinkFacts(l: seq<nat>, x: nat)
    requires NoDuplicates(l) && x in l
    ensures NoDuplicates(Unlink(l, x)) && |Unlink(l, x)| == |l| - 1
    ensures forall y :: y in Unlink(l, x) <==> y in l && y != x
    decreases |l|
  {
    hide NoDuplicates;
    HeadOnce(l);
    assert l == [l[0]] + l[1..];
    if l[0] != x {
      var r := Unlink(l[1..], x);
      assert x in l[1..];
      UnlinkFacts(l[1..], x);
      assert l[0] !in r;
      ConsOnce(l[0], r);
    }
  }

  lemma HeadOnce(l: seq<nat>)
    requires NoDuplicates(l) && l != []
    ensures l[0] !in l[1..] && NoDuplicates(l[1..])
  {
  }

  lemma ConsOnce(x: nat, l: seq<nat>)
    requires NoDuplicates(l) && x !in l
    ensures NoDuplicates([x] + l)
  {
  }

  /** clReleaseKernel. A kernel missing from its program's list is reported and not freed. */
  function ReleaseKernel(s: State, k: nat): (r: State)
    ensures SameButPrograms(s, r)
  {
    if k >= |s.kernels| then s
    else
      var d := s.kernels[k].data;
      var freed := s.(kernels := Release(s.kernels, k));
      if freed.kernels[k].refcount != 0 || d.program.None? || d.program.value >= |s.programs| then freed
      else
        var p := d.program.value;
        var list := s.programs[p].data.kernels;
        if k !in list then s.(kernels := Dec(s.kernels, k))
        else
          ReleaseProgram(
            freed.(programs := SetData(s.programs, p, s.programs[p].data.(kernels := Unlink(list, k)))), p)
  }

  // ----- kernel arguments -----

  function Load(blocks: seq<Block>, a: Argument): (nat, Option<Value>) {
    (a.size,
     if a.block.Some? && a.block.value < |blocks| && blocks[a.block.value].Block?
     then Some(blocks[a.block.value].value) else None)
  }

  function LoadAll(blocks: seq<Block>, arguments: seq<Argument>): seq<(nat, Option<Value>)> {
    seq(|arguments|, i requires 0 <= i < |arguments| => Load(blocks, arguments[i]))
  }

  function FreeBlock(blocks: seq<Block>, b: Option<nat>): seq<Block> {
    if b.Some? && b.value < |blocks| then blocks[b.value := Freed] else blocks
  }

  function FreeBlocks(blocks: seq<Block>, arguments: seq<Argument>): seq<Block>
    decreases |arguments|
  {
    if arguments == [] then blocks else FreeBlocks(FreeBlock(blocks, arguments[0].block), arguments[1..])
  }

  /** The copy loop of clEnqueueNDRangeKernel, from argument `i` on: every value gets a block
      of its own. */
  function Snapshot(blocks: seq<Block>, arguments: seq<Argument>, node: nat, i: nat): (seq<Block>, seq<Argument>)
    decreases |arguments| - i
  {
    if i >= |arguments| then (blocks, [])
    else
      var a := arguments[i];
      var v := Load(blocks, a).1;
      if v.None? then
        var (bs, rest) := Snapshot(blocks, arguments, node, i + 1);
        (bs, [a.(block := None)] + rest)
      else
        var (bs, rest) := Snapshot(blocks + [Block(v.value, OfNode(node, i))], arguments, node, i + 1);
        (bs, [a.(block := Some(|blocks|))] + rest)
  }

  /** An argument of a kernel that points to global memory. */
  predicate IsGlobal(d: KernelData, i: nat) {
    i < |d.isPointer| && i < |d.isLocal| && d.isPointer[i] && !d.isLocal[i]
  }

  /** The buffer whose handle an argument's block holds. */
  function HandleIn(blocks: seq<Block>, a: Argument): Option<nat> {
    if a.block.Some? && a.block.value < |blocks| then
      match blocks[a.block.value]
      case Block(Handle(m), _) => Some(m)
      case _ => None
    else None
  }

  /** The buffers a launch retains: global pointer arguments that are set, from `i` on. */
  function ArgBuffers(blocks: seq<Block>, d: KernelData, i: nat): seq<nat>
    decreases |d.arguments| - i
  {
    if i >= |d.arguments| || i >= |d.isPointer| || i >= |d.isLocal| then []
    else
      var v := Load(blocks, d.arguments[i]).1;
      (if !d.isLocal[i] && d.isPointer[i] && v.Some? && v.value.Handle? then [v.value.mem] else [])
      + ArgBuffers(blocks, d, i + 1)
  }

  /** What a launch retains is named by one of its global pointer arguments. */
  lemma {:induction false} ArgBuffersNamed(blocks: seq<Block>, d: KernelData, i: nat, b: nat)
    requires b in ArgBuffers(blocks, d, i)
    ensures exists j :: i <= j < |d.arguments| && IsGlobal(d, j) && HandleIn(blocks, d.arguments[j]) == Some(b)
    decreases |d.arguments| - i
  {
    if i < |d.arguments| && i < |d.isPointer| && i < |d.isLocal| {
      if b in ArgBuffers(blocks, d, i + 1) {
        ArgBuffersNamed(blocks, d, i + 1, b);
      } else {
        assert IsGlobal(d, i) && HandleIn(blocks, d.arguments[i]) == Some(b);
      }
    }
  }

  // ----- the queue -----

  function Append(s: State, q: nat, command: Command, event: Option<nat>): State {
    if q < |s.queues| then
      var d := s.queues[q].data;
      s.(queues := SetData(s.queues, q, d.(pending := d.pending + [Node(s.nodes, command, event)])), nodes := s.nodes + 1)
    else s
  }

  function DevicePtr(s: State, m: nat, dev: nat): int {
    if m < |s.mems| && dev < |s.mems[m].data.devicePtrs| then s.mems[m].data.devicePtrs[dev] else 0
  }

  /** The device operation a queued command issues when it is executed; a marker issues none. */
  function CommandOp(s: State, devId: nat, c: Command): Op
    requires !c.Marker?
  {
    match c
    case ReadBuffer(h, d, cb, _) => OpRead(h, d, cb)
    case WriteBuffer(h, d, cb, _) => OpWrite(h, d, cb)
    case CopyBuffer(a, b, cb, _, _) => OpCopy(a, b, cb)
    case MapBuffer(m, id) => MapOp(s, devId, m, id)
    case RunKernel(k, r, args, _) => OpRun(k, r, LoadAll(s.blocks, args))
  }

  /** The second call of `map_mem`, in pocl_map_mem_cmd. */
  function MapOp(s: State, devId: nat, m: nat, id: nat): Op {
    if id < |s.mappings| then
      OpMap(DevicePtr(s, m, devId), s.mappings[id].offset, s.mappings[id].size, s.mappings[id].hostPtr)
    else OpMap(0, 0, 0, 0)
  }

  function CountMap(s: State, m: nat, delta: int): State {
    if m < |s.mems| then
      var d := s.mems[m].data;
      s.(mems := SetData(s.mems, m, d.(mapCount := d.mapCount + delta)))
    else s
  }

  /** What clFinish gives back after the device operation of a command. */
  function Finalize(s: State, d: QueueData, c: Command): (r: State)
    ensures r.queues == s.queues && r.events == s.events && r.nodes == s.nodes && r.log == s.log
  {
    var s1 := ReleaseMems(s, CommandMems(c));
    match c
    case MapBuffer(m, _) => CountMap(s1, m, 1)
    case RunKernel(k, _, args, _) =>
      var s2 := s1.(blocks := FreeBlocks(s1.blocks, args));
      if d.gpu then s2.(kernels := Leak(s2.kernels, k)) else ReleaseKernel(s2, k)
    case _ => s1
  }

  /** One round of the drain loop of clFinish. */
  function Execute(s: State, d: QueueData, node: Node): (r: State)
    ensures r.queues == s.queues && |r.events| == |s.events| && r.nodes == s.nodes
  {
    if node.command.Marker? then MarkComplete(s, node.event)
    else Finalize(Perform(s, node.event, CommandOp(s, d.devId, node.command)), d, node.command)
  }

  function Pending(s: State, q: nat): seq<Node> {
    if q < |s.queues| then s.queues[q].data.pending else []
  }

  function SetPending(s: State, q: nat, nodes: seq<Node>): State {
    if q < |s.queues| then s.(queues := SetData(s.queues, q, s.queues[q].data.(pending := nodes))) else s
  }

  /** Takes the first pending command off the list and executes it. */
  function ExecuteHead(s: State, q: nat): (r: State)
    requires Pending(s, q) != []
    ensures |r.queues| == |s.queues| && Pending(r, q) == Pending(s, q)[1..] && r.nodes == s.nodes
    ensures |r.events| == |s.events|
  {
    Execute(SetPending(s, q, Pending(s, q)[1..]), s.queues[q].data, Pending(s, q)[0])
  }

  /** clFinish: every pending command, in order. */
  function Finish(s: State, q: nat): (r: State)
    ensures Pending(r, q) == [] && |r.events| == |s.events| && |r.queues| == |s.queues|
    decreases |Pending(s, q)|
  {
    if Pending(s, q) == [] then s else Finish(ExecuteHead(s, q), q)
  }

  /** clWaitForEvents: drains the queue of each listed event. */
  function WaitForEvents(s: State, es: seq<nat>): State
    decreases |es|
  {
    if es == [] then s
    else WaitForEvents(if es[0] < |s.events| then Finish(s, s.events[es[0]].data.queue) else s, es[1..])
  }

  // ----- releasing queues and events -----

  /** clReleaseCommandQueue: flush, then decrement, then free. */
  function ReleaseQueue(s: State, q: nat): State {
    var s1 := Finish(s, q);
    s1.(queues := Release(s1.queues, q))
  }

  /** clReleaseEvent. The last release goes through the queue's release, except on a GPU. */
  function ReleaseEvent(s: State, e: nat): State {
    if e >= |s.events| then s
    else
      var s1 := s.(events := Dec(s.events, e));
      var q := s1.events[e].data.queue;
      if s1.events[e].refcount != 0 then s1
      else
        var s2 := if q < |s1.queues| && s1.queues[q].data.gpu then s1.(queues := Leak(s1.queues, q)) else ReleaseQueue(s1, q);
        if e < |s2.events| then s2.(events := s2.events[e := s2.events[e].(live := false)]) else s2
  }

  // ----- API calls -----

  datatype Call =
    | CreateQueue(context: nat, devIndex: nat, devId: nat, gpu: bool)
    | RetainQueueCall(q: nat)
    | ReleaseQueueCall(q: nat)
    | CreateBuffer(context: nat, size: nat, devicePtrs: seq<int>, devices: seq<nat>, source: Option<int>)
    | CreateSubBuffer(m: nat, origin: nat, size: nat, flagsOk: bool, garbage: int)
    | RetainMemObject(m: nat)
    | ReleaseMemObject(m: nat)
    | EnqueueRead(q: nat, m: nat, blocking: bool, offset: nat, cb: nat, ptr: int, argsOk: bool, event: bool)
    | EnqueueWrite(q: nat, m: nat, blocking: bool, offset: nat, cb: nat, ptr: int, argsOk: bool, event: bool)
    | EnqueueCopy(q: nat, src: nat, dst: nat, srcOffset: nat, dstOffset: nat, cb: nat, event: bool)
    | EnqueueReadRect(q: nat, m: nat, ptr: int, shape: Rect.Shape, argsOk: bool, event: bool)
    | EnqueueWriteRect(q: nat, m: nat, ptr: int, shape: Rect.Shape, argsOk: bool, out: Option<nat>)
    | EnqueueCopyRect(q: nat, src: nat, dst: nat, shape: Rect.Shape, argsOk: bool, event: bool)
    | EnqueueMap(q: nat, m: nat, blocking: bool, offset: nat, size: nat, flagsOk: bool, hostPtr: Option<int>, event: bool)
    | EnqueueUnmap(q: nat, m: nat, mappedPtr: int, flush: bool, event: bool)
    | EnqueueKernel(q: nat, k: nat, range: seq<nat>, argsOk: bool, event: bool)
    | EnqueueMarker(q: nat)
    | FinishCall(q: nat)
    | WaitCall(es: seq<nat>)
    | RetainEvent(e: nat)
    | ReleaseEventCall(e: nat)
    | CreateProgram(context: nat)
    | RetainProgram(p: nat)
    | ReleaseProgramCall(p: nat)
    | CreateKernel(p: nat, isPointer: seq<bool>, isLocal: seq<bool>, localSizes: seq<nat>)
    | RetainKernel(k: nat)
    | ReleaseKernelCall(k: nat)
    | SetKernelArg(k: nat, index: nat, size: nat, value: Option<Value>)
    | StoreHost(ptr: int, bytes: seq<int>)  // the application writes its own memory

  predicate SameContext(s: State, q: nat, m: nat) {
    q < |s.queues| && m < |s.mems| && s.queues[q].data.context == s.mems[m].data.context
  }

  predicate InRange(s: State, m: nat, offset: nat, cb: nat) {
    m < |s.mems| && offset + cb <= s.mems[m].data.size
  }

  /** The bounds test of the rectangle calls. */
  predicate RectFits(s: State, m: nat, side: Rect.Side, region: Rect.Vec) {
    m < |s.mems| && Rect.CornerFits(side, region, s.mems[m].data.size)
  }

  function DevId(s: State, q: nat): nat { if q < |s.queues| then s.queues[q].data.devId else 0 }

  function DevIndex(s: State, q: nat): nat { if q < |s.queues| then s.queues[q].data.devIndex else 0 }

  /** A deferred write takes its device pointer at the device's position in the context, every
      other command at the device's dev_id. */
  predicate SamePointer(s: State, c: Call) {
    c.EnqueueWrite? && !c.blocking ==> DevicePtr(s, c.m, DevIndex(s, c.q)) == DevicePtr(s, c.m, DevId(s, c.q))
  }

  function TakeMems(s: State, ms: seq<nat>): (r: State)
    ensures SameButMems(s, r)
    decreases |ms|
  {
    if ms == [] then s else TakeMems(s.(mems := Take(Retain(s.mems, ms[0]), ms[0])), ms[1..])
  }

  function DropMems(s: State, ms: seq<nat>): (r: State)
    ensures SameButMems(s, r)
    decreases |ms|
  {
    if ms == [] then s else DropMems(ReleaseMem(s.(mems := GiveUp(s.mems, ms[0])), ms[0]), ms[1..])
  }

  /** A blocking command: retain the buffers, drain the queue, run, release the buffers. */
  function RunNow(s: State, q: nat, ms: seq<nat>, op: Op, wanted: bool): State {
    var s1 := TakeMems(MaybeEvent(s, q, wanted, true), ms);
    DropMems(Perform(Finish(s1, q), EventHandle(s, wanted), op), ms)
  }

  /** clEnqueueWriteBufferRect makes no event, and yet updates the status through its event argument:
      `out` is the event whose handle the caller's variable still holds. */
  function RunInto(s: State, q: nat, ms: seq<nat>, op: Op, out: Option<nat>): State {
    DropMems(Perform(Finish(TakeMems(s, ms), q), out, op), ms)
  }

  /** No event is named by the caller's variable. */
  predicate OutUnset(s: State, c: Call) {
    c.EnqueueWriteRect? && c.out.Some? ==> c.out.value >= |s.events|
  }

  lemma {:induction false} DropMemsEvents(s: State, events: seq<Obj<EventData>>, ms: seq<nat>)
    ensures DropMems(s.(events := events), ms) == DropMems(s, ms).(events := events)
    decreases |ms|
  {
    if ms != [] {
      var t := s.(mems := GiveUp(s.mems, ms[0]));
      assert ReleaseMem(t.(events := events), ms[0]) == ReleaseMem(t, ms[0]).(events := events);
      hide ReleaseMem;
      DropMemsEvents(ReleaseMem(t, ms[0]), events, ms[1..]);
    }
  }

  /** It differs from a blocking command without an event in the events alone. */
  lemma RunIntoIs(s: State, q: nat, ms: seq<nat>, op: Op, out: Option<nat>)
    ensures var t := Finish(TakeMems(s, ms), q);
      RunInto(s, q, ms, op, out) == RunNow(s, q, ms, op, false).(events := Perform(t, out, op).events)
      && RunNow(s, q, ms, op, false).events == t.events
      && (out.Some? && out.value < |t.events| ==>
        Perform(t, out, op).events == SetData(t.events, out.value, t.events[out.value].data.(
          trail := t.events[out.value].data.trail + [CL_QUEUED, CL_SUBMITTED, CL_SUBMITTED, CL_RUNNING, CL_RUNNING, CL_COMPLETE])))
      && (out.None? || out.value >= |t.events| ==> Perform(t, out, op).events == t.events)
  {
    hide TakeMems, Finish, DropMems;
    var t := Finish(TakeMems(s, ms), q);
    var u := Perform(t, None, op);
    assert Perform(t, out, op) == u.(events := Perform(t, out, op).events);
    DropMemsEvents(u, Perform(t, out, op).events, ms);
    if out.Some? && out.value < |t.events| {
      var trail := t.events[out.value].data.trail;
      assert ((trail + [CL_QUEUED, CL_SUBMITTED]) + [CL_SUBMITTED, CL_RUNNING]) + [CL_RUNNING, CL_COMPLETE]
        == trail + [CL_QUEUED, CL_SUBMITTED, CL_SUBMITTED, CL_RUNNING, CL_RUNNING, CL_COMPLETE];
    }
  }

  /** A deferred command: retain the buffers and append a node. */
  function Defer(s: State, q: nat, ms: seq<nat>, c: Command, wanted: bool): State {
    Append(RetainMems(MaybeEvent(s, q, wanted, true), ms), q, c, EventHandle(s, wanted))
  }

  function AddMapping(s: State, m: nat, mapping: Mapping): State {
    if m < |s.mems| then
      var d := s.mems[m].data;
      s.(mappings := s.mappings + [mapping], mems := SetData(s.mems, m, d.(mappings := d.mappings + [|s.mappings|])))
    else s
  }

  /** clEnqueueMapBuffer; `hostPtr` is where the first call of `map_mem`, or the buffer's own
      host pointer, says the mapping will be. A failed map keeps its reference. */
  function MapCall(s: State, q: nat, m: nat, blocking: bool, offset: nat, size: nat, hostPtr: Option<int>, wanted: bool): State {
    var event, id := EventHandle(s, wanted), |s.mappings|;
    var s0 := s.(mems := Retain(s.mems, m));
    var s1 := MaybeEvent(s0, q, wanted, hostPtr.Some?);
    if hostPtr.None? then MarkComplete(s1.(mems := Leak(s1.mems, m)), event)
    else
      var s2 := AddMapping(s1, m, Mapping(true, m, hostPtr.value, offset, size));
      if !blocking then Append(s2, q, MapBuffer(m, id), event)
      else
        var s3 := Finish(s2, q);
        CountMap(Perform(s3, event, MapOp(s3, DevId(s3, q), m, id)), m, 1)
  }

  /** The mapping search of clEnqueueUnmapMemObject: the first mapping at `ptr`. */
  function FindMapping(mappings: seq<Mapping>, ids: seq<nat>, ptr: int): Option<nat> {
    if ids == [] then None
    else if ids[0] < |mappings| && mappings[ids[0]].hostPtr == ptr then Some(ids[0])
    else FindMapping(mappings, ids[1..], ptr)
  }

  function FoundMapping(s: State, m: nat, ptr: int): Option<nat> {
    if m < |s.mems| then FindMapping(s.mappings, s.mems[m].data.mappings, ptr) else None
  }

  function RemoveMapping(s: State, m: nat, id: nat): State {
    if m < |s.mems| && id < |s.mappings| then
      var d := s.mems[m].data;
      s.(mappings := s.mappings[id := s.mappings[id].(live := false)],
         mems := SetData(s.mems, m, d.(mappings := Unlink(d.mappings, id))))
    else s
  }

  /** The event and device part of clEnqueueUnmapMemObject. */
  function UnmapDevice(s: State, q: nat, m: nat, id: nat, flush: bool, wanted: bool): State {
    var event := EventHandle(s, wanted);
    var s1 := MarkRunning(MarkSubmitted(MaybeEvent(s, q, wanted, false), event), event);
    var s2 := if flush && id < |s.mappings| then
                s1.(log := s1.log + [OpUnmap(s.mappings[id].hostPtr, DevicePtr(s, m, DevId(s, q)) + s.mappings[id].offset,
                                             s.mappings[id].size)])
              else s1;
    MarkComplete(s2, event)
  }

  /** clEnqueueUnmapMemObject acts at once. */
  function UnmapCall(s: State, q: nat, m: nat, id: nat, flush: bool, wanted: bool): State {
    ReleaseMem(CountMap(RemoveMapping(UnmapDevice(s, q, m, id, flush, wanted), m, id), m, -1), m)
  }

  /** clEnqueueNDRangeKernel, from the event on. The reference to the queue is never returned. */
  function KernelCall(s: State, q: nat, k: nat, range: seq<nat>, wanted: bool): State {
    if k >= |s.kernels| then s
    else
      var d := s.kernels[k].data;
      var s1 := MaybeEvent(s, q, wanted, true);
      var (blocks, args) := Snapshot(s1.blocks, d.arguments, s1.nodes, 0);
      var bufs := ArgBuffers(s1.blocks, d, 0);
      var s2 := s1.(blocks := blocks, queues := Leak(Retain(s1.queues, q), q), kernels := Retain(s1.kernels, k));
      Append(RetainMems(s2, bufs), q, RunKernel(k, range, args, bufs), EventHandle(s, wanted))
  }

  function SetArg(s: State, k: nat, index: nat, size: nat, value: Option<Value>): State {
    if k < |s.kernels| && index < |s.kernels[k].data.arguments| then
      var d := s.kernels[k].data;
      var blocks := FreeBlock(s.blocks, d.arguments[index].block);
      var a := Argument(size, if value.Some? then Some(|blocks|) else None);
      s.(blocks := if value.Some? then blocks + [Block(value.value, OfKernel(k, index))] else blocks,
         kernels := SetData(s.kernels, k, d.(arguments := d.arguments[index := a])))
    else s
  }

  /** The pointers of a sub-buffer; null where the parent has none, for a device that is not in
      the context. */
  function SubPointers(ptrs: seq<int>, origin: nat): seq<int> {
    seq(|ptrs|, i requires 0 <= i < |ptrs| => if ptrs[i] == NULL then NULL else ptrs[i] + origin)
  }

  function SubBufferData(d: MemData, m: nat, origin: nat, size: nat, garbage: int): MemData {
    MemData(Some(m), d.context, size, SubPointers(d.devicePtrs, origin),
            garbage, garbage, [])
  }

  function NewKernelArgs(numArgs: nat, localSizes: seq<nat>): seq<Argument> {
    seq(numArgs, i => Argument(0, None))
    + seq(|localSizes|, i requires 0 <= i < |localSizes| => Argument(localSizes[i], None))
  }

  function AddKernel(s: State, p: nat, isPointer: seq<bool>, isLocal: seq<bool>, localSizes: seq<nat>): State {
    if p < |s.programs| then
      var d := s.programs[p].data;
      s.(kernels := Create(s.kernels, KernelData(Some(p), d.context, isPointer, isLocal, NewKernelArgs(|isPointer|, localSizes)), 0),
         programs := Retain(SetData(s.programs, p, d.(kernels := [|s.kernels|] + d.kernels)), p))
    else s
  }

  /** The copies that the allocations of a new buffer make when it is created from host memory: one
      for each device of the context, at once, whatever is pending. */
  function InitOps(ptrs: seq<int>, devices: seq<nat>, source: Option<int>, size: nat): seq<Op> {
    if source.None? then []
    else
      seq(|devices|, i requires 0 <= i < |devices| =>
        OpCreate(source.value, if devices[i] < |ptrs| then ptrs[devices[i]] else NULL, size))
  }

  /** The application names only objects it holds references to; a launched kernel's buffer
      arguments are still there. */
  predicate Enabled(s: State, c: Call) {
    match c
    case CreateQueue(_, _, _, _) => true
    case RetainQueueCall(q) => Usable(s.queues, q)
    case ReleaseQueueCall(q) => Usable(s.queues, q)
    case CreateBuffer(_, _, _, _, _) => true
    case CreateSubBuffer(m, _, _, _, _) => Usable(s.mems, m)
    case RetainMemObject(m) => Usable(s.mems, m)
    case ReleaseMemObject(m) => Usable(s.mems, m)
    case EnqueueRead(q, m, _, _, _, _, _, _) => Usable(s.queues, q) && Usable(s.mems, m)
    case EnqueueWrite(q, m, _, _, _, _, _, _) => Usable(s.queues, q) && Usable(s.mems, m)
    case EnqueueCopy(q, m1, m2, _, _, _, _) => Usable(s.queues, q) && Usable(s.mems, m1) && Usable(s.mems, m2)
    case EnqueueReadRect(q, m, _, _, _, _) => Usable(s.queues, q) && Usable(s.mems, m)
    case EnqueueWriteRect(q, m, _, _, _, _) => Usable(s.queues, q) && Usable(s.mems, m)
    case EnqueueCopyRect(q, m1, m2, _, _, _) => Usable(s.queues, q) && Usable(s.mems, m1) && Usable(s.mems, m2)
    case EnqueueMap(q, m, _, _, _, _, _, _) => Usable(s.queues, q) && Usable(s.mems, m)
    case EnqueueUnmap(q, m, _, _, _) => Usable(s.queues, q) && Alive(s.mems, m)
    case EnqueueKernel(q, k, _, _, _) =>
      Usable(s.queues, q) && Usable(s.kernels, k)
      && forall i :: 0 <= i < |s.kernels[k].data.arguments| && IsGlobal(s.kernels[k].data, i) ==>
        var b := HandleIn(s.blocks, s.kernels[k].data.arguments[i]); b.Some? ==> Alive(s.mems, b.value)
    case EnqueueMarker(q) => Usable(s.queues, q)
    case FinishCall(q) => Usable(s.queues, q)
    case WaitCall(es) => forall i :: 0 <= i < |es| ==> Usable(s.events, es[i])
    case RetainEvent(e) => Usable(s.events, e)
    case ReleaseEventCall(e) => Usable(s.events, e)
    case CreateProgram(_) => true
    case RetainProgram(p) => Usable(s.programs, p)
    case ReleaseProgramCall(p) => Usable(s.programs, p)
    case CreateKernel(p, _, _, _) => Usable(s.programs, p)
    case RetainKernel(k) => Usable(s.kernels, k)
    case ReleaseKernelCall(k) => Usable(s.kernels, k)
    case SetKernelArg(k, _, _, _) => Usable(s.kernels, k)
    case StoreHost(_, _) => true
  }

  /** The argument checks at the head of each call; a call that fails them returns an error
      code and changes nothing. */
  predicate Accepted(s: State, c: Call) {
    match c
    case CreateBuffer(_, size, _, _, _) => size > 0
    case CreateSubBuffer(m, origin, size, flagsOk, _) =>
      m < |s.mems| && s.mems[m].data.parent.None? && size > 0 && origin + size <= s.mems[m].data.size && flagsOk
    case EnqueueRead(q, m, _, offset, cb, _, argsOk, _) => SameContext(s, q, m) && InRange(s, m, offset, cb) && argsOk
    case EnqueueWrite(q, m, _, offset, cb, _, argsOk, _) => SameContext(s, q, m) && InRange(s, m, offset, cb) && argsOk
    case EnqueueCopy(q, m1, m2, o1, o2, cb, _) =>
      SameContext(s, q, m1) && SameContext(s, q, m2) && InRange(s, m1, o1, cb) && InRange(s, m2, o2, cb)
    case EnqueueReadRect(q, m, _, shape, argsOk, _) => SameContext(s, q, m) && argsOk && RectFits(s, m, shape.first, shape.region)
    case EnqueueWriteRect(q, m, _, shape, argsOk, _) => SameContext(s, q, m) && argsOk && RectFits(s, m, shape.first, shape.region)
    case EnqueueCopyRect(q, m1, m2, shape, argsOk, _) =>
      SameContext(s, q, m1) && SameContext(s, q, m2) && argsOk
      && RectFits(s, m1, shape.first, shape.region) && RectFits(s, m2, shape.second, shape.region)
    case EnqueueMap(q, m, _, offset, size, flagsOk, _, _) => SameContext(s, q, m) && InRange(s, m, offset, size) && flagsOk
    case EnqueueUnmap(q, m, ptr, _, _) => SameContext(s, q, m) && FoundMapping(s, m, ptr).Some?
    case EnqueueKernel(q, k, _, argsOk, _) =>
      q < |s.queues| && k < |s.kernels| && s.queues[q].data.context == s.kernels[k].data.context && argsOk
    case SetKernelArg(k, index, _, _) => k < |s.kernels| && index <= |s.kernels[k].data.isPointer|
    case _ => true
  }

  /** What an accepted call does. */
  function Effect(s: State, c: Call): State {
    match c
    case CreateQueue(context, devIndex, devId, gpu) =>
      s.(queues := Create(s.queues, QueueData(context, devIndex, devId, gpu, []), 0))
    case RetainQueueCall(q) => s.(queues := Take(Retain(s.queues, q), q))
    case ReleaseQueueCall(q) => ReleaseQueue(s.(queues := GiveUp(s.queues, q)), q)
    case CreateBuffer(context, size, ptrs, devices, source) =>
      s.(mems := Create(s.mems, MemData(None, context, size, ptrs, 0, 0, []), if devices != [] then |devices| - 1 else 0),
         log := s.log + InitOps(ptrs, devices, source, size))
    case CreateSubBuffer(m, origin, size, _, garbage) =>
      if m < |s.mems| then
        s.(mems := Retain(Create(s.mems, SubBufferData(s.mems[m].data, m, origin, size, garbage), 0), m))
      else s
    case RetainMemObject(m) => s.(mems := Take(Retain(s.mems, m), m))
    case ReleaseMemObject(m) => ReleaseMem(s.(mems := GiveUp(s.mems, m)), m)
    case EnqueueRead(q, m, blocking, offset, cb, ptr, _, event) =>
      var dev := DevicePtr(s, m, DevId(s, q)) + offset;
      if blocking then RunNow(s, q, [m], OpRead(ptr, dev, cb), event)
      else Defer(s, q, [m], ReadBuffer(ptr, dev, cb, m), event)
    case EnqueueWrite(q, m, blocking, offset, cb, ptr, _, event) =>
      if blocking then RunNow(s, q, [m], OpWrite(ptr, DevicePtr(s, m, DevId(s, q)) + offset, cb), event)
      else Defer(s, q, [m], WriteBuffer(ptr, DevicePtr(s, m, DevIndex(s, q)) + offset, cb, m), event)
    case EnqueueCopy(q, m1, m2, o1, o2, cb, event) =>
      Defer(s, q, [m1, m2], CopyBuffer(DevicePtr(s, m1, DevId(s, q)) + o1, DevicePtr(s, m2, DevId(s, q)) + o2, cb, m1, m2), event)
    case EnqueueReadRect(q, m, ptr, shape, _, event) =>
      RunNow(s, q, [m], OpRect(RectRead, DevicePtr(s, m, DevId(s, q)), ptr, shape), event)
    case EnqueueWriteRect(q, m, ptr, shape, _, out) =>
      RunInto(s, q, [m], OpRect(RectWrite, DevicePtr(s, m, DevId(s, q)), ptr, shape), out)
    case EnqueueCopyRect(q, m1, m2, shape, _, event) =>
      RunNow(s, q, [m1, m2], OpRect(RectCopy, DevicePtr(s, m1, DevId(s, q)), DevicePtr(s, m2, DevId(s, q)), shape), event)
    case EnqueueMap(q, m, blocking, offset, size, _, hostPtr, event) => MapCall(s, q, m, blocking, offset, size, hostPtr, event)
    case EnqueueUnmap(q, m, ptr, flush, event) =>
      if FoundMapping(s, m, ptr).Some? then UnmapCall(s, q, m, FoundMapping(s, m, ptr).value, flush, event) else s
    case EnqueueKernel(q, k, range, _, event) => KernelCall(s, q, k, range, event)
    case EnqueueMarker(q) => Defer(s, q, [], Marker, true)
    case FinishCall(q) => Finish(s, q)
    case WaitCall(es) => WaitForEvents(s, es)
    case RetainEvent(e) => s.(events := Take(Retain(s.events, e), e))
    case ReleaseEventCall(e) => ReleaseEvent(s.(events := GiveUp(s.events, e)), e)
    case CreateProgram(context) => s.(programs := Create(s.programs, ProgramData(context, []), 0))
    case RetainProgram(p) => s.(programs := Take(Retain(s.programs, p), p))
    case ReleaseProgramCall(p) => ReleaseProgram(s.(programs := GiveUp(s.programs, p)), p)
    case CreateKernel(p, isPointer, isLocal, localSizes) => AddKernel(s, p, isPointer, isLocal, localSizes)
    case RetainKernel(k) => s.(kernels := Take(Retain(s.kernels, k), k))
    case ReleaseKernelCall(k) => ReleaseKernel(s.(kernels := GiveUp(s.kernels, k)), k)
    case SetKernelArg(k, index, size, value) => SetArg(s, k, index, size, value)
    case StoreHost(ptr, bytes) => s.(log := s.log + [HostStore(ptr, bytes)])
  }

  function Step(s: State, c: Call): State {
    if Accepted(s, c) then Effect(s, c) else s
  }

  /** A run: one call after another. */
  function Run(s: State, cs: seq<Call>): State
    decreases |cs|
  {
    if cs == [] then s else Run(Step(s, cs[0]), cs[1..])
  }
}
