/** The runtime as the source has it: objects whose fields are updated in place, command and
    mapping lists linked through the macros, and the loops of clFinish, clWaitForEvents,
    clReleaseMemObject, clReleaseProgram, clReleaseKernel, clCreateBuffer, clCreateSubBuffer,
    clEnqueueUnmapMemObject and clEnqueueNDRangeKernel. Each method moves the state exactly as the
    function that specifies it; the API calls keep the invariants of the runtime. */
module Host {
  import opened RefCounts
  import opened Runtime
  import P = Platform
  import L = ListNodes
  import T = ListTables
  import EventBooks
  import MemBooks
  import MemCalls
  import Runs
  import SimBooks
  import SimCalls
  import Simulation
  import Deferral
  import Limits
  import Frames
  import EventCalls

  /** The queues with their command lists, and the buffers with their mapping lists. */
  function WithCommands(queues: seq<Obj<QueueData>>, lists: seq<seq<Node>>): (r: seq<Obj<QueueData>>)
    ensures |r| == |queues|
  {
    seq(|queues|, q requires 0 <= q < |queues| =>
      queues[q].(data := queues[q].data.(pending := if q < |lists| then lists[q] else [])))
  }

  function WithMappings(mems: seq<Obj<MemData>>, lists: seq<seq<nat>>): (r: seq<Obj<MemData>>)
    ensures |r| == |mems|
  {
    seq(|mems|, m requires 0 <= m < |mems| =>
      mems[m].(data := mems[m].data.(mappings := if m < |lists| then lists[m] else [])))
  }

  class Host {
    var mems: seq<Obj<MemData>>        // the mapping lists are in `maps`
    var mappings: seq<Mapping>
    var queues: seq<Obj<QueueData>>    // the command lists are in `commands`
    var events: seq<Obj<EventData>>
    var kernels: seq<Obj<KernelData>>
    var programs: seq<Obj<ProgramData>>
    var blocks: seq<Block>
    var nodes: nat
    var log: seq<Op>
    const commands: T.CommandLists<Node>
    const maps: T.MappingLists<nat>

    ghost predicate Valid()
      reads this, commands, commands.nodes, maps, maps.nodes
    {
      commands.Valid() && maps.Valid() && |commands.roots| == |queues| && |maps.heads| == |mems|
    }

    ghost function View(): State
      reads this, commands, maps
    {
      State(WithMappings(mems, maps.Contents()), mappings, WithCommands(queues, commands.Contents()), events, kernels, programs,
            blocks, nodes, log)
    }

    /** The fields alone, without the lists. */
    function Fields(): State
      reads this
    {
      State(mems, mappings, queues, events, kernels, programs, blocks, nodes, log)
    }

    constructor ()
      ensures Valid() && View() == Empty && fresh(commands) && fresh(maps) && fresh(commands.nodes) && fresh(maps.nodes)
    {
      commands := new T.CommandLists();
      maps := new T.MappingLists();
      mems, mappings, queues, events, kernels, programs, blocks, nodes, log := [], [], [], [], [], [], [], 0, [];
    }

    /** One of the POCL_UPDATE_EVENT macros. */
    method UpdateStatus(event: Option<nat>, before: int, after: int)
      modifies this`events
      ensures View() == WriteStatus(old(View()), event, [before, after])
    {
      if event.Some? && event.value < |events| {
        var o := events[event.value];
        events := events[event.value := o.(data := o.data.(trail := o.data.trail + [before, after]))];
      }
    }

    // ----- creating -----

    method CreateCommandQueue(context: nat, devIndex: nat, devId: nat, gpu: bool)
      requires Valid()
      modifies this`queues, commands
      ensures Valid() && View() == Step(old(View()), CreateQueue(context, devIndex, devId, gpu))
      ensures commands.nodes == old(commands.nodes)
    {
      queues := Create(queues, QueueData(context, devIndex, devId, gpu, []), 0);
      commands.NewQueue();
    }

    /** clCreateBuffer: a null pointer for every device of the platform, then an allocation for each
        device of the context, with a reference for each but the first, and a copy of the initial
        contents when the buffer is created from host memory. `addresses` is what the drivers'
        malloc returns. */
    method CreateBufferObject(context: nat, size: nat, devices: seq<nat>, n: nat, addresses: seq<int>, source: Option<int>)
      returns (ptrs: seq<int>)
      requires Valid() && NoDuplicates(devices)
      requires |addresses| == |devices| && forall i :: 0 <= i < |devices| ==> devices[i] < n && addresses[i] > NULL
      modifies this`mems, this`log, maps
      ensures Valid() && View() == Step(old(View()), CreateBuffer(context, size, ptrs, devices, source))
      ensures size > 0 ==> P.Allocated(devices, n, ptrs) && forall i :: 0 <= i < |devices| ==> ptrs[devices[i]] == addresses[i]
      ensures maps.nodes == old(maps.nodes)
    {
      if size == 0 { return []; }
      var ops;
      ptrs, ops := Allocate(size, devices, n, addresses, source);
      hide P.Allocated, WithMappings, WithCommands, T.AllElems, Step, Valid, InitOps;
      var count := if devices == [] then 1 else |devices|;
      var o := Obj(true, count, 1, count - 1, MemData(None, context, size, ptrs, 0, 0, []));
      CreateStep(View(), CreateBuffer(context, size, ptrs, devices, source));
      AddMem(o);
      log := log + ops;
    }

    /** The two loops over the devices. */
    method Allocate(size: nat, devices: seq<nat>, n: nat, addresses: seq<int>, source: Option<int>) returns (ptrs: seq<int>, ops: seq<Op>)
      requires NoDuplicates(devices)
      requires |addresses| == |devices| && forall i :: 0 <= i < |devices| ==> devices[i] < n && addresses[i] > NULL
      ensures P.Allocated(devices, n, ptrs) && ops == InitOps(ptrs, devices, source, size)
      ensures forall i :: 0 <= i < |devices| ==> ptrs[devices[i]] == addresses[i]
    {
      ptrs, ops := seq(n, i => NULL), [];
      var i := 0;
      assert Placed(devices, addresses, n, ptrs, 0) by { NonePlaced(devices, addresses, n, ptrs); }
      hide NoDuplicates, P.Allocated, Placed, InitOps;
      while i < |devices|
        invariant 0 <= i <= |devices| && Placed(devices, addresses, n, ptrs, i)
        invariant |ops| == (if source.Some? then i else 0)
        invariant forall j :: 0 <= j < |ops| ==> ops[j] == OpCreate(source.value, addresses[j], size)
      {
        PlaceOne(devices, addresses, n, ptrs, i);
        ptrs := ptrs[devices[i] := addresses[i]];
        if source.Some? { ops := ops + [OpCreate(source.value, addresses[i], size)]; }
        i := i + 1;
      }
      AllPlaced(devices, addresses, n, ptrs, source, size, ops);
    }

    method AddMem(o: Obj<MemData>)
      requires Valid() && o.data.mappings == []
      modifies this`mems, maps
      ensures Valid() && View() == old(View()).(mems := old(View()).mems + [o]) && mems == old(mems) + [o]
      ensures maps.nodes == old(maps.nodes)
    {
      hide WithMappings, WithCommands, T.AllElems;
      MappingsSnoc(mems, maps.Contents(), o);
      mems := mems + [o];
      maps.NewBuffer();
    }

    method RetainMem(m: nat)
      requires Valid()
      modifies this`mems
      ensures Valid() && View() == old(View()).(mems := Retain(old(View()).mems, m))
      ensures |mems| == |old(mems)|
    {
      hide WithMappings, WithCommands, Retain;
      MemCounters(mems, maps.Contents(), m);
      SameRetained(mems, m);
      mems := Retain(mems, m);
    }

    /** A reference that is never given back. */
    method LeakMem(m: nat)
      requires Valid()
      modifies this`mems
      ensures Valid() && View() == old(View()).(mems := Leak(old(View()).mems, m))
    {
      hide WithMappings, WithCommands, Leak;
      MemCounters(mems, maps.Contents(), m);
      SameRetained(mems, m);
      mems := Leak(mems, m);
    }

    /** clCreateSubBuffer: the parent's pointers, shifted, for the devices of the context. */
    method CreateSubBufferObject(m: nat, origin: nat, size: nat, flagsOk: bool, garbage: int, devices: seq<nat>) returns (ok: bool)
      requires Valid() && m < |mems| && P.Allocated(devices, |mems[m].data.devicePtrs|, mems[m].data.devicePtrs)
      requires forall i :: 0 <= i < |devices| ==> devices[i] < |mems[m].data.devicePtrs|
      modifies this`mems, maps
      ensures var c := CreateSubBuffer(m, origin, size, flagsOk, garbage);
        Valid() && ok == Accepted(old(View()), c) && View() == Step(old(View()), c)
      ensures maps.nodes == old(maps.nodes)
    {
      hide Step, Accepted, WithMappings, WithCommands, T.AllElems, P.Allocated, Retain, SubPointers;
      ghost var s, c := View(), CreateSubBuffer(m, origin, size, flagsOk, garbage);
      SubStep(s, c);
      BufferHere(s, mems, maps.Contents(), m);
      hide Valid;
      var p := mems[m].data;
      if p.parent.Some? || size == 0 || size + origin > p.size || !flagsOk { return false; }
      var ptrs := ShiftPointers(p.devicePtrs, origin, devices);
      AddMem(Obj(true, 1, 1, 0, MemData(Some(m), p.context, size, ptrs, garbage, garbage, [])));
      RetainMem(m);
      return true;
    }

    method ShiftPointers(parents: seq<int>, origin: nat, devices: seq<nat>) returns (ptrs: seq<int>)
      requires P.Allocated(devices, |parents|, parents) && forall i :: 0 <= i < |devices| ==> devices[i] < |parents|
      ensures ptrs == SubPointers(parents, origin)
    {
      ptrs := seq(|parents|, i => NULL);
      var i := 0;
      while i < |devices|
        invariant 0 <= i <= |devices| && |ptrs| == |parents|
        invariant forall d :: 0 <= d < |ptrs| ==> ptrs[d] == if d in devices[..i] then parents[d] + origin else NULL
      {
        ptrs := ptrs[devices[i] := parents[devices[i]] + origin];
        assert devices[..i + 1] == devices[..i] + [devices[i]];
        i := i + 1;
      }
      assert devices[..i] == devices;
    }

    // ----- releasing -----

    /** clReleaseMemObject, with the loop that frees the mappings. */
    method ReleaseMemObject(m: nat)
      requires Valid()
      modifies this`mems, this`mappings, maps
      ensures Valid() && View() == ReleaseMem(old(View()), m) && maps.nodes == old(maps.nodes)
    {
      if m >= |mems| { return; }
      hide WithMappings, WithCommands, FreeMappings, ReleaseMem, T.Elems, T.AllElems, Release, Dec;
      ReleasedState(View(), mems, maps.Contents(), m);
      var parent := mems[m].data.parent;
      mems := Release(mems, m);
      if mems[m].refcount == 0 { DestroyMem(m, parent); }
    }

    /** The end of a buffer: its parent's counter, its mappings and its list. */
    method DestroyMem(m: nat, parent: Option<nat>)
      requires Valid() && m < |mems|
      modifies this`mems, this`mappings, maps
      ensures Valid() && maps.nodes == old(maps.nodes)
      ensures mems == if parent.Some? then Dec(old(mems), parent.value) else old(mems)
      ensures mappings == FreeMappings(old(mappings), old(maps.Contents())[m])
      ensures maps.Contents() == old(maps.Contents())[m := []]
    {
      hide FreeMappings, T.Elems, T.AllElems, Dec;
      FreeAll(maps.heads[m], maps.lists[m]);
      maps.Clear(m);
      if parent.Some? {
        SameCount(mems, parent.value);
        mems := Dec(mems, parent.value);
      }
    }

    method FreeAll(head: L.Node?<nat>, ghost list: seq<L.Node<nat>>)
      requires L.IsDL(head, list)
      modifies this`mappings
      ensures mappings == FreeMappings(old(mappings), T.Elems(list))
    {
      var node := head;
      ghost var i, ids := 0, T.Elems(list);
      assert ids[0..] == ids;
      while node != null
        invariant 0 <= i <= |list| && node == if i < |list| then list[i] else null
        invariant FreeMappings(mappings, ids[i..]) == FreeMappings(old(mappings), ids)
        decreases |list| - i
      {
        var id := node.elem;
        assert ids[i..][0] == id && ids[i..][1..] == ids[i + 1..];
        if id < |mappings| { mappings := mappings[id := mappings[id].(live := false)]; }
        node, i := node.next, i + 1;
      }
      assert ids[i..] == [];
    }

    /** clReleaseProgram, with the loop over the kernel list. */
    method ReleaseProgramObject(p: nat)
      modifies this`programs, this`kernels
      ensures View() == ReleaseProgram(old(View()), p)
    {
      if p >= |programs| { return; }
      programs := Release(programs, p);
      if programs[p].refcount == 0 {
        var list, i := programs[p].data.kernels, 0;
        assert list[0..] == list;
        while i < |list|
          modifies this`kernels
          invariant 0 <= i <= |list|
          invariant Orphan(kernels, list[i..]) == Orphan(old(kernels), list)
        {
          var k := list[i];
          assert list[i..][1..] == list[i + 1..];
          if k < |kernels| { kernels := SetData(kernels, k, kernels[k].data.(program := None)); }
          i := i + 1;
        }
        assert list[i..] == [];
      }
    }

    /** clReleaseKernel, with the walk along the program's list. */
    method ReleaseKernelObject(k: nat)
      modifies this`programs, this`kernels
      ensures View() == ReleaseKernel(old(View()), k)
    {
      if k >= |kernels| { return; }
      var d := kernels[k].data;
      if kernels[k].refcount - 1 != 0 || d.program.None? || d.program.value >= |programs| {
        kernels := Release(kernels, k);
        return;
      }
      var p := d.program.value;
      var list, pk := programs[p].data.kernels, 0;
      while pk < |list| && list[pk] != k
        invariant 0 <= pk <= |list|
        invariant k !in list[..pk]
      {
        pk := pk + 1;
      }
      if pk == |list| {
        kernels := Dec(kernels, k);
        return;
      }
      UnlinkAt(list, k, pk);
      kernels := Release(kernels, k);
      programs := SetData(programs, p, programs[p].data.(kernels := list[..pk] + list[pk + 1..]));
      ReleaseProgramObject(p);
    }

    /** What clFinish does for one node. */
    method ExecuteNode(d: QueueData, node: Node)
      requires Valid()
      modifies this`events, this`log, this`mems, this`mappings, this`blocks, this`kernels, this`programs, maps
      ensures Valid() && View() == Execute(old(View()), d, node) && maps.nodes == old(maps.nodes)
    {
      hide WithMappings, WithCommands, T.AllElems, ReleaseMems, Perform, CommandOp, CountMap, FreeBlocks, Runtime.ReleaseKernel, Leak;
      if node.command.Marker? {
        UpdateStatus(node.event, CL_RUNNING, CL_COMPLETE);
        return;
      }
      FieldPointers(mems, maps.Contents());
      SameOp(Fields(), View(), d.devId, node.command);
      Issue(node.event, CommandOp(Fields(), d.devId, node.command));
      ghost var s := View();
      ReleaseBuffers(CommandMems(node.command));
      match node.command
      case MapBuffer(m, _) => CountMapping(m, 1);
      case RunKernel(k, _, args, _) =>
        FreeArguments(args);
        if d.gpu { kernels := Leak(kernels, k); } else { ReleaseKernelObject(k); }
      case _ =>
    }

    method CountMapping(m: nat, delta: int)
      requires Valid()
      modifies this`mems
      ensures Valid() && View() == CountMap(old(View()), m, delta)
    {
      if m < |mems| {
        mems := SetData(mems, m, mems[m].data.(mapCount := mems[m].data.mapCount + delta));
        assert View().mems == CountMap(old(View()), m, delta).mems;
      }
    }

    /** One device call between the status updates. */
    method Issue(event: Option<nat>, op: Op)
      modifies this`events, this`log
      ensures View() == Perform(old(View()), event, op)
    {
      hide MarkSubmitted, MarkRunning, MarkComplete;
      Submit(event);
      Start(event);
      log := log + [op];
      Complete(event);
    }

    method ReleaseBuffers(ms: seq<nat>)
      requires Valid()
      modifies this`mems, this`mappings, maps
      ensures Valid() && View() == ReleaseMems(old(View()), ms) && maps.nodes == old(maps.nodes)
    {
      var i := 0;
      assert ms[0..] == ms;
      while i < |ms|
        invariant 0 <= i <= |ms| && Valid() && maps.nodes == old(maps.nodes)
        invariant ReleaseMems(View(), ms[i..]) == ReleaseMems(old(View()), ms)
      {
        assert ms[i..][1..] == ms[i + 1..];
        ReleaseMemObject(ms[i]);
        i := i + 1;
      }
      assert ms[i..] == [];
    }

    method FreeArguments(args: seq<Argument>)
      modifies this`blocks
      ensures blocks == FreeBlocks(old(blocks), args)
    {
      var i := 0;
      assert args[0..] == args;
      while i < |args|
        invariant 0 <= i <= |args|
        invariant FreeBlocks(blocks, args[i..]) == FreeBlocks(old(blocks), args)
      {
        assert args[i..][1..] == args[i + 1..];
        blocks := FreeBlock(blocks, args[i].block);
        i := i + 1;
      }
    }

    /** clFinish: the list is walked first and freed afterwards, so it stays in place while its
        commands are executed. */
    method FinishQueue(q: nat)
      requires Valid() && q < |queues|
      modifies this`events, this`log, this`mems, this`mappings, this`blocks, this`kernels, this`programs, maps, commands
      ensures Valid() && View() == Finish(old(View()), q)
      ensures maps.nodes == old(maps.nodes) && commands.nodes == old(commands.nodes)
    {
      hide Finish, Execute, WithMappings, WithCommands, T.Elems, T.AllElems, SetPending;
      var d, node := queues[q].data, commands.roots[q];
      ghost var i, list, heap := 0, T.Elems(commands.lists[q]), commands.lists[q];
      StartOfList(View(), queues, commands.Contents(), q);
      ElemsAt(heap);
      while node != null
        invariant Valid() && maps.nodes == old(maps.nodes) && commands.lists == old(commands.lists) && commands.nodes == old(commands.nodes)
        invariant 0 <= i <= |heap| && node == if i < |heap| then heap[i] else null
        invariant Finish(SetPending(View(), q, list[i..]), q) == Finish(old(View()), q)
        decreases |heap| - i
      {
        ghost var s := View();
        assert list[i..][0] == node.elem && list[i..][1..] == list[i + 1..];
        ExecuteHeadCommutes(s, q, list[i..]);
        SameData(s, queues, commands.Contents(), q, node.elem);
        ExecuteNode(d, node.elem);
        node, i := node.next, i + 1;
      }
      assert list[i..] == [];
      ghost var s, lists := View(), commands.Contents();
      NothingLeft(s, queues, lists, q);
      commands.Clear(q);
    }

    /** clWaitForEvents. */
    method WaitForEventList(es: seq<nat>)
      requires Valid() && forall i :: 0 <= i < |es| ==> es[i] < |events|
      requires forall e :: 0 <= e < |events| ==> events[e].data.queue < |queues|
      modifies this`events, this`log, this`mems, this`mappings, this`blocks, this`kernels, this`programs, maps, commands
      ensures Valid() && View() == WaitForEvents(old(View()), es)
      ensures maps.nodes == old(maps.nodes) && commands.nodes == old(commands.nodes)
    {
      var i := 0;
      while i < |es|
        invariant Valid() && maps.nodes == old(maps.nodes) && commands.nodes == old(commands.nodes)
        invariant 0 <= i <= |es| && |events| == |old(events)| && |queues| == |old(queues)|
        invariant forall e :: 0 <= e < |events| ==> events[e].data.queue == old(events)[e].data.queue
        invariant WaitForEvents(View(), es[i..]) == WaitForEvents(old(View()), es)
      {
        assert es[i..][1..] == es[i + 1..];
        FinishKeepsQueues(View(), events[es[i]].data.queue);
        FinishQueue(events[es[i]].data.queue);
        i := i + 1;
      }
    }

    /** The body of clReleaseCommandQueue: flush, then decrement, then free. */
    method FlushAndRelease(q: nat)
      requires Valid() && q < |queues|
      modifies this, maps, commands
      ensures Valid() && View() == ReleaseQueue(old(View()), q)
      ensures maps.nodes == old(maps.nodes) && commands.nodes == old(commands.nodes)
    {
      FinishQueue(q);
      QueueCounters(queues, commands.Contents(), q);
      queues := Release(queues, q);
    }

    /** The body of clReleaseEvent. */
    method DropEvent(e: nat)
      requires Valid() && e < |events| && events[e].data.queue < |queues|
      modifies this, maps, commands
      ensures Valid() && View() == ReleaseEvent(old(View()), e)
      ensures maps.nodes == old(maps.nodes) && commands.nodes == old(commands.nodes)
    {
      hide ReleaseQueue;
      events := Dec(events, e);
      if events[e].refcount == 0 {
        var q := events[e].data.queue;
        if queues[q].data.gpu {
          QueueCounters(queues, commands.Contents(), q);
          queues := Leak(queues, q);
        } else {
          ghost var s := View();
          ReleaseQueueEvents(s, q);
          FlushAndRelease(q);
        }
        events := events[e := events[e].(live := false)];
      }
    }

    /** clReleaseCommandQueue, called by an application that holds a reference: afterwards nothing is
        pending on the queue, and each of its events is complete. */
    method ReleaseCommandQueue(q: nat)
      requires Valid() && Runs.Inv(View()) && Enabled(View(), ReleaseQueueCall(q))
      modifies this, maps, commands
      ensures Valid() && View() == Step(old(View()), ReleaseQueueCall(q)) && Runs.Inv(View())
      ensures Drained(old(View()), View(), q)
    {
      hide Runs.Inv, ReleaseQueue, Enabled, WithCommands, WithMappings, T.AllElems, Drained, Step;
      ghost var s := View();
      QueueGiveUp(queues, commands.Contents(), q);
      queues := GiveUp(queues, q);
      ReleasedQueue(s, q);
      assert q < |queues| by { SameLength(s, queues, q); }
      FlushAndRelease(q);
    }

    /** clReleaseEvent, called by an application that holds a reference. The last release frees the
        event; a pending node of its queue still names it exactly when the queue is on a GPU and
        the event's command was pending. */
    method ReleaseEventObject(e: nat)
      requires Valid() && Runs.Inv(View()) && Enabled(View(), ReleaseEventCall(e))
      modifies this, maps, commands
      ensures Valid() && View() == Step(old(View()), ReleaseEventCall(e)) && Runs.Inv(View())
      ensures EventGone(old(View()), View(), e)
    {
      hide Runs.Inv, Runtime.ReleaseEvent, Enabled, WithCommands, WithMappings, T.AllElems, EventGone, Step;
      ghost var s := View();
      ReleasedEvent(s, e);
      EventFields(s, events, queues, e);
      events := GiveUp(events, e);
      DropEvent(e);
    }

    // ----- enqueueing -----

    /** The event output parameter of an enqueue call. */
    method MakeEvent(q: nat, wanted: bool, inOrder: bool) returns (event: Option<nat>)
      requires Valid()
      modifies this`events, this`queues
      ensures Valid() && event == EventHandle(old(View()), wanted)
      ensures View() == MaybeEvent(old(View()), q, wanted, inOrder)
      ensures |queues| == |old(queues)|
    {
      event := None;
      if wanted {
        event := Some(|events|);
        events := events + [Obj(true, 1, 1, 0, EventData(q, inOrder, [CL_QUEUED]))];
        QueueCounters(queues, commands.Contents(), q);
        queues := Retain(queues, q);
      }
    }

    /** LL_APPEND on the queue's root. */
    method AppendNode(q: nat, command: Command, event: Option<nat>)
      requires Valid() && q < |queues|
      modifies this`nodes, commands, commands.nodes
      ensures Valid() && View() == Append(old(View()), q, command, event)
      ensures fresh(commands.nodes - old(commands.nodes))
    {
      ghost var lists := commands.Contents();
      commands.Append(q, Node(nodes, command, event));
      AppendCommands(queues, lists, q, Node(nodes, command, event));
      nodes := nodes + 1;
    }

    /** The blocking half of the transfer calls: retain, drain, run, release. */
    method RunBlocking(q: nat, ms: seq<nat>, op: Op, wanted: bool)
      requires Valid() && q < |queues|
      modifies this, maps, commands
      ensures Valid() && View() == RunNow(old(View()), q, ms, op, wanted)
      ensures maps.nodes == old(maps.nodes) && commands.nodes == old(commands.nodes)
    {
      hide Finish, Perform, TakeMems, DropMems, MaybeEvent;
      var event := MakeEvent(q, wanted, true);
      RetainForCall(ms);
      FinishQueue(q);
      Issue(event, op);
      ReleaseForCall(ms);
    }

    method RetainForCall(ms: seq<nat>)
      requires Valid()
      modifies this`mems
      ensures Valid() && View() == TakeMems(old(View()), ms)
    {
      var i := 0;
      assert ms[0..] == ms;
      while i < |ms|
        invariant 0 <= i <= |ms| && Valid()
        invariant TakeMems(View(), ms[i..]) == TakeMems(old(View()), ms)
      {
        assert ms[i..][1..] == ms[i + 1..];
        MemCounters(mems, maps.Contents(), ms[i]);
        mems := Take(Retain(mems, ms[i]), ms[i]);
        i := i + 1;
      }
      assert ms[i..] == [];
    }

    method ReleaseForCall(ms: seq<nat>)
      requires Valid()
      modifies this`mems, this`mappings, maps
      ensures Valid() && View() == DropMems(old(View()), ms) && maps.nodes == old(maps.nodes)
    {
      hide WithMappings, WithCommands, ReleaseMem, GiveUp, T.AllElems;
      var i := 0;
      assert ms[0..] == ms;
      while i < |ms|
        invariant 0 <= i <= |ms| && Valid() && maps.nodes == old(maps.nodes)
        invariant DropMems(View(), ms[i..]) == DropMems(old(View()), ms)
      {
        assert ms[i..][1..] == ms[i + 1..];
        MemCounters(mems, maps.Contents(), ms[i]);
        SameHeld(mems, ms[i]);
        mems := GiveUp(mems, ms[i]);
        ReleaseMemObject(ms[i]);
        i := i + 1;
      }
      assert ms[i..] == [];
    }

    method RetainBuffers(ms: seq<nat>)
      requires Valid()
      modifies this`mems
      ensures Valid() && View() == RetainMems(old(View()), ms)
    {
      var i := 0;
      assert ms[0..] == ms;
      while i < |ms|
        invariant 0 <= i <= |ms| && Valid()
        invariant RetainMems(View(), ms[i..]) == RetainMems(old(View()), ms)
      {
        assert ms[i..][1..] == ms[i + 1..];
        MemCounters(mems, maps.Contents(), ms[i]);
        mems := Retain(mems, ms[i]);
        i := i + 1;
      }
      assert ms[i..] == [];
    }

    /** The deferred half: retain and append. */
    method DeferCommand(q: nat, ms: seq<nat>, c: Command, wanted: bool)
      requires Valid() && q < |queues|
      modifies this, commands, commands.nodes
      ensures Valid() && View() == Defer(old(View()), q, ms, c, wanted)
      ensures fresh(commands.nodes - old(commands.nodes))
    {
      hide RetainMems, Append, MaybeEvent;
      var event := MakeEvent(q, wanted, true);
      RetainBuffers(ms);
      AppendNode(q, c, event);
    }

    method ReadOrRefuse(q: nat, m: nat, blocking: bool, offset: nat, cb: nat, ptr: int, argsOk: bool, event: bool) returns (ok: bool)
      requires Valid() && q < |queues| && m < |mems|
      modifies this, maps, commands, commands.nodes
      ensures var c := EnqueueRead(q, m, blocking, offset, cb, ptr, argsOk, event);
        Valid() && ok == Accepted(old(View()), c) && View() == Step(old(View()), c)
      ensures maps.nodes == old(maps.nodes) && fresh(commands.nodes - old(commands.nodes))
    {
      hide RunNow, Defer, WithMappings, WithCommands, T.AllElems, Step, Accepted, DevicePtr;
      ghost var s := View();
      InRangeHere(s, mems, queues, maps.Contents(), commands.Contents(), q, m);
      SameDevicePtr(s, Fields(), m);
      ReadStep(s, EnqueueRead(q, m, blocking, offset, cb, ptr, argsOk, event));
      if queues[q].data.context != mems[m].data.context || !argsOk || offset + cb > mems[m].data.size {
        return false;
      }
      var dev := DevicePtr(Fields(), m, queues[q].data.devId) + offset;
      if blocking {
        RunBlocking(q, [m], OpRead(ptr, dev, cb), event);
      } else {
        DeferCommand(q, [m], ReadBuffer(ptr, dev, cb, m), event);
      }
      return true;
    }

    /** clEnqueueReadBuffer. A refused call changes nothing. A blocking read leaves nothing pending; a
        deferred one issues nothing. Either way, what has been issued followed by what is pending
        grows by exactly this read. */
    method EnqueueReadBuffer(q: nat, m: nat, blocking: bool, offset: nat, cb: nat, ptr: int, argsOk: bool, event: bool)
      returns (ok: bool)
      requires Valid() && Runs.Inv(View()) && Enabled(View(), EnqueueRead(q, m, blocking, offset, cb, ptr, argsOk, event))
      modifies this, maps, commands, commands.nodes
      ensures Valid() && Runs.Inv(View()) && fresh(commands.nodes - old(commands.nodes))
      ensures ok == Accepted(old(View()), EnqueueRead(q, m, blocking, offset, cb, ptr, argsOk, event))
      ensures View() == Step(old(View()), EnqueueRead(q, m, blocking, offset, cb, ptr, argsOk, event))
      ensures DrainsOrDefers(old(View()), View(), ok, q, blocking)
      ensures Adds(old(View()), View(), q,
                   if ok then [OpRead(ptr, DevicePtr(old(View()), m, DevId(old(View()), q)) + offset, cb)] else [])
    {
      hide Runs.Inv, Enabled, WithMappings, WithCommands, T.AllElems, DrainsOrDefers, Adds, Step, Accepted;
      ghost var s, c := View(), EnqueueRead(q, m, blocking, offset, cb, ptr, argsOk, event);
      NamesObjects(s, c, q, m);
      ReadMeans(s, c);
      ok := ReadOrRefuse(q, m, blocking, offset, cb, ptr, argsOk, event);
    }

    method WriteOrRefuse(q: nat, m: nat, blocking: bool, offset: nat, cb: nat, ptr: int, argsOk: bool, event: bool) returns (ok: bool)
      requires Valid() && q < |queues| && m < |mems|
      modifies this, maps, commands, commands.nodes
      ensures var c := EnqueueWrite(q, m, blocking, offset, cb, ptr, argsOk, event);
        Valid() && ok == Accepted(old(View()), c) && View() == Step(old(View()), c)
      ensures maps.nodes == old(maps.nodes) && fresh(commands.nodes - old(commands.nodes))
    {
      hide RunNow, Defer, WithMappings, WithCommands, T.AllElems, Step, Accepted, DevicePtr;
      ghost var s := View();
      InRangeHere(s, mems, queues, maps.Contents(), commands.Contents(), q, m);
      SameDevicePtr(s, Fields(), m);
      WriteStep(s, EnqueueWrite(q, m, blocking, offset, cb, ptr, argsOk, event));
      if queues[q].data.context != mems[m].data.context || !argsOk || offset + cb > mems[m].data.size {
        return false;
      }
      if blocking {
        RunBlocking(q, [m], OpWrite(ptr, DevicePtr(Fields(), m, queues[q].data.devId) + offset, cb), event);
      } else {
        DeferCommand(q, [m], WriteBuffer(ptr, DevicePtr(Fields(), m, queues[q].data.devIndex) + offset, cb, m), event);
      }
      return true;
    }

    /** clEnqueueWriteBuffer. The blocking write takes the device pointer at dev_id, the deferred one
        at the device's position in the context; where they agree, what has been issued followed
        by what is pending grows by exactly this write. */
    method EnqueueWriteBuffer(q: nat, m: nat, blocking: bool, offset: nat, cb: nat, ptr: int, argsOk: bool, event: bool)
      returns (ok: bool)
      requires Valid() && Runs.Inv(View()) && Enabled(View(), EnqueueWrite(q, m, blocking, offset, cb, ptr, argsOk, event))
      modifies this, maps, commands, commands.nodes
      ensures Valid() && Runs.Inv(View()) && fresh(commands.nodes - old(commands.nodes))
      ensures ok == Accepted(old(View()), EnqueueWrite(q, m, blocking, offset, cb, ptr, argsOk, event))
      ensures View() == Step(old(View()), EnqueueWrite(q, m, blocking, offset, cb, ptr, argsOk, event))
      ensures DrainsOrDefers(old(View()), View(), ok, q, blocking)
      ensures SamePointer(old(View()), EnqueueWrite(q, m, blocking, offset, cb, ptr, argsOk, event)) ==>
        Adds(old(View()), View(), q,
             if ok then [OpWrite(ptr, DevicePtr(old(View()), m, DevId(old(View()), q)) + offset, cb)] else [])
    {
      hide Runs.Inv, Enabled, WithMappings, WithCommands, T.AllElems, DrainsOrDefers, Adds, Step, Accepted, SamePointer;
      ghost var s, c := View(), EnqueueWrite(q, m, blocking, offset, cb, ptr, argsOk, event);
      NamesObjects(s, c, q, m);
      WriteMeans(s, c);
      ok := WriteOrRefuse(q, m, blocking, offset, cb, ptr, argsOk, event);
    }

    method MapOrRefuse(q: nat, m: nat, blocking: bool, offset: nat, size: nat, flagsOk: bool, hostPtr: Option<int>, event: bool)
      returns (ok: bool)
      requires Valid() && q < |queues| && m < |mems|
      modifies this, maps, maps.nodes, commands, commands.nodes
      ensures var c := EnqueueMap(q, m, blocking, offset, size, flagsOk, hostPtr, event);
        Valid() && ok == Accepted(old(View()), c) && View() == Step(old(View()), c)
      ensures fresh(commands.nodes - old(commands.nodes)) && fresh(maps.nodes - old(maps.nodes))
    {
      InRangeHere(View(), mems, queues, maps.Contents(), commands.Contents(), q, m);
      hide MapCall, WithMappings, WithCommands, T.AllElems;
      if queues[q].data.context != mems[m].data.context || offset + size > mems[m].data.size || !flagsOk {
        return false;
      }
      MapAccepted(q, m, blocking, offset, size, hostPtr, event);
      return true;
    }

    /** clEnqueueMapBuffer; `hostPtr` is where the driver or the buffer says the mapping will be. An
        accepted map that finds a place adds exactly the new mapping, a blocking one leaves nothing
        pending, and issued plus pending operations grow by the map. */
    method EnqueueMapBuffer(q: nat, m: nat, blocking: bool, offset: nat, size: nat, flagsOk: bool, hostPtr: Option<int>, event: bool)
      returns (ok: bool)
      requires Valid() && Runs.Inv(View()) && Enabled(View(), EnqueueMap(q, m, blocking, offset, size, flagsOk, hostPtr, event))
      modifies this, maps, maps.nodes, commands, commands.nodes
      ensures Valid() && Runs.Inv(View())
      ensures fresh(commands.nodes - old(commands.nodes)) && fresh(maps.nodes - old(maps.nodes))
      ensures ok == Accepted(old(View()), EnqueueMap(q, m, blocking, offset, size, flagsOk, hostPtr, event))
      ensures View() == Step(old(View()), EnqueueMap(q, m, blocking, offset, size, flagsOk, hostPtr, event))
      ensures ok && hostPtr.Some? ==> Maps(old(View()), View(), q, m, blocking, Mapping(true, m, hostPtr.value, offset, size))
      ensures Adds(old(View()), View(), q,
                   if ok && hostPtr.Some? then [OpMap(DevicePtr(old(View()), m, DevId(old(View()), q)), offset, size, hostPtr.value)] else [])
    {
      hide Runs.Inv, Enabled, WithMappings, WithCommands, T.AllElems, Maps, Adds, Step, Accepted;
      ghost var s, c := View(), EnqueueMap(q, m, blocking, offset, size, flagsOk, hostPtr, event);
      NamesObjects(s, c, q, m);
      MapMeans(s, c);
      ok := MapOrRefuse(q, m, blocking, offset, size, flagsOk, hostPtr, event);
    }

    /** DL_APPEND of a new mapping. */
    method LinkMapping(m: nat, mapping: Mapping)
      requires Valid() && m < |mems|
      modifies this`mappings, maps, maps.nodes
      ensures Valid() && View() == AddMapping(old(View()), m, mapping) && fresh(maps.nodes - old(maps.nodes))
      ensures mappings == old(mappings) + [mapping]
    {
      ghost var lists, id := maps.Contents(), |mappings|;
      maps.Append(m, |mappings|);
      mappings := mappings + [mapping];
      AppendMapping(mems, lists, m, id);
    }

    method MapAccepted(q: nat, m: nat, blocking: bool, offset: nat, size: nat, hostPtr: Option<int>, wanted: bool)
      requires Valid() && q < |queues| && m < |mems|
      modifies this, maps, maps.nodes, commands, commands.nodes
      ensures Valid() && View() == MapCall(old(View()), q, m, blocking, offset, size, hostPtr, wanted)
      ensures fresh(commands.nodes - old(commands.nodes)) && fresh(maps.nodes - old(maps.nodes))
    {
      hide Valid, Finish, WithMappings, WithCommands, Perform, AddMapping, Append, CountMap, MaybeEvent, MarkComplete, Retain, Leak,
        T.AllElems;
      var id := |mappings|;
      RetainMem(m);
      var event := MakeEvent(q, wanted, hostPtr.Some?);
      if hostPtr.None? {
        LeakMem(m);
        Complete(event);
        return;
      }
      LinkMapping(m, Mapping(true, m, hostPtr.value, offset, size));
      if !blocking {
        AppendNode(q, MapBuffer(m, id), event);
      } else {
        MapNow(q, m, id, event);
      }
    }

    /** The blocking end of a map: drain, map, count. */
    method MapNow(q: nat, m: nat, id: nat, event: Option<nat>)
      requires Valid() && q < |queues|
      modifies this`events, this`log, this`mems, this`mappings, this`blocks, this`kernels, this`programs, maps, commands
      ensures Valid()
      ensures var t := Finish(old(View()), q); View() == CountMap(Perform(t, event, MapOp(t, DevId(t, q), m, id)), m, 1)
      ensures maps.nodes == old(maps.nodes) && commands.nodes == old(commands.nodes)
    {
      hide Finish, WithMappings, WithCommands, Perform, CountMap, MapOp, DevId, T.AllElems;
      FinishQueue(q);
      SameMapOp(View(), mems, maps.Contents(), queues, commands.Contents(), Fields(), q, m, id);
      Issue(event, MapOp(Fields(), DevId(Fields(), q), m, id));
      CountMapping(m, 1);
    }

    method Complete(event: Option<nat>)
      modifies this`events
      ensures View() == MarkComplete(old(View()), event) && Valid() == old(Valid())
    {
      UpdateStatus(event, CL_RUNNING, CL_COMPLETE);
    }

    /** The search along the mapping list and DL_DELETE of what it finds. */
    method UnmapOrRefuse(q: nat, m: nat, mappedPtr: int, flush: bool, event: bool) returns (ok: bool)
      requires Valid() && q < |queues| && m < |mems|
      requires forall i :: 0 <= i < |maps.Contents()[m]| ==> maps.Contents()[m][i] < |mappings|
      modifies this, maps, maps.nodes
      ensures var c := EnqueueUnmap(q, m, mappedPtr, flush, event);
        Valid() && ok == Accepted(old(View()), c) && View() == Step(old(View()), c)
      ensures maps.nodes == old(maps.nodes)
    {
      hide WithMappings, WithCommands, T.AllElems, T.Elems, UnmapCall, Unlink, Step, Accepted;
      InRangeHere(View(), mems, queues, maps.Contents(), commands.Contents(), q, m);
      UnmapStep(View(), EnqueueUnmap(q, m, mappedPtr, flush, event));
      if queues[q].data.context != mems[m].data.context { return false; }
      var node := maps.heads[m];
      ghost var i, list, ids := 0, maps.lists[m], maps.Contents()[m];
      IdsAt(list);
      assert ids[0..] == ids;
      while node != null && mappings[node.elem].hostPtr != mappedPtr
        invariant 0 <= i <= |list| && node == if i < |list| then list[i] else null
        invariant FindMapping(mappings, ids[i..], mappedPtr) == FindMapping(mappings, ids, mappedPtr)
        invariant forall j :: 0 <= j < i ==> mappings[ids[j]].hostPtr != mappedPtr
        decreases |list| - i
      {
        assert ids[i..][0] == node.elem && ids[i..][1..] == ids[i + 1..];
        node, i := node.next, i + 1;
      }
      if node == null {
        assert ids[i..] == [];
        return false;
      }
      assert ids[i..][0] == node.elem && FindMapping(mappings, ids, mappedPtr) == Some(node.elem);
      assert node.elem !in ids[..i];
      UnlinkAt(ids, node.elem, i);
      UnmapFound(q, m, node, i, flush, event);
      return true;
    }

    /** clEnqueueUnmapMemObject. It succeeds exactly when some mapping of the buffer is at the pointer. */
    method EnqueueUnmapMemObject(q: nat, m: nat, mappedPtr: int, flush: bool, event: bool) returns (ok: bool)
      requires Valid() && Runs.Inv(View()) && Enabled(View(), EnqueueUnmap(q, m, mappedPtr, flush, event))
      requires MemCalls.UnmapsLate(View(), EnqueueUnmap(q, m, mappedPtr, flush, event))
      modifies this, maps, maps.nodes
      ensures Valid() && Runs.Inv(View()) && maps.nodes == old(maps.nodes)
      ensures View() == Step(old(View()), EnqueueUnmap(q, m, mappedPtr, flush, event))
      ensures ok <==> SameContext(old(View()), q, m) && MappedAt(old(View()), m, mappedPtr)
    {
      hide Runs.Inv, Enabled, WithMappings, WithCommands, T.AllElems, MemCalls.UnmapsLate, Step, Accepted, MappedAt, SameContext;
      ghost var s, c := View(), EnqueueUnmap(q, m, mappedPtr, flush, event);
      NamesObjects(s, c, q, m);
      Runs.StepInv(s, c);
      ListedIds(s, m);
      UnmapAccepted(s, c);
      assert s.mems[m].data.mappings == maps.Contents()[m] by {
        InRangeHere(s, mems, queues, maps.Contents(), commands.Contents(), q, m);
      }
      ok := UnmapOrRefuse(q, m, mappedPtr, flush, event);
    }

    /** The mapping found is the k-th of the list. */
    method UnmapFound(q: nat, m: nat, node: L.Node<nat>, ghost k: nat, flush: bool, wanted: bool)
      requires Valid() && q < |queues| && m < |mems| && node.elem < |mappings|
      requires k < |maps.lists[m]| && maps.lists[m][k] == node
      requires Unlink(maps.Contents()[m], node.elem) == L.Without(maps.Contents()[m], k)
      modifies this, maps, maps.nodes
      ensures Valid() && View() == UnmapCall(old(View()), q, m, node.elem, flush, wanted) && maps.nodes == old(maps.nodes)
    {
      hide UnmapDevice, ReleaseMem, Unlink, CountMap, WithMappings, WithCommands, T.AllElems;
      var id := node.elem;
      UnmapOnDevice(q, m, id, flush, wanted);
      UnlinkMapping(m, node, k);
      CountMapping(m, -1);
      ReleaseMemObject(m);
    }

    method UnlinkMapping(m: nat, node: L.Node<nat>, ghost k: nat)
      requires Valid() && m < |mems| && node.elem < |mappings|
      requires k < |maps.lists[m]| && maps.lists[m][k] == node
      requires Unlink(maps.Contents()[m], node.elem) == L.Without(maps.Contents()[m], k)
      modifies this`mappings, maps, maps.nodes
      ensures Valid() && View() == RemoveMapping(old(View()), m, node.elem) && maps.nodes == old(maps.nodes)
    {
      hide Unlink, T.AllElems;
      ghost var lists := maps.Contents();
      mappings := mappings[node.elem := mappings[node.elem].(live := false)];
      maps.Delete(m, node, k);
      ListReplaced(mems, lists, m, L.Without(lists[m], k));
    }

    method UnmapOnDevice(q: nat, m: nat, id: nat, flush: bool, wanted: bool)
      requires Valid() && q < |queues| && m < |mems| && id < |mappings|
      modifies this`events, this`queues, this`log
      ensures Valid() && View() == UnmapDevice(old(View()), q, m, id, flush, wanted)
    {
      hide WithMappings, WithCommands, T.AllElems, MaybeEvent, MarkSubmitted, MarkRunning, MarkComplete, DevicePtr, DevId;
      InRangeHere(View(), mems, queues, maps.Contents(), commands.Contents(), q, m);
      SameDevicePtr(View(), Fields(), m);
      SameDevId(View(), Fields(), q);
      var op := OpUnmap(mappings[id].hostPtr, DevicePtr(Fields(), m, DevId(Fields(), q)) + mappings[id].offset, mappings[id].size);
      var event := MakeEvent(q, wanted, false);
      Submit(event);
      Start(event);
      if flush { log := log + [op]; }
      Complete(event);
    }

    method Submit(event: Option<nat>)
      modifies this`events
      ensures View() == MarkSubmitted(old(View()), event) && Valid() == old(Valid())
    {
      UpdateStatus(event, CL_QUEUED, CL_SUBMITTED);
    }

    method Start(event: Option<nat>)
      modifies this`events
      ensures View() == MarkRunning(old(View()), event) && Valid() == old(Valid())
    {
      UpdateStatus(event, CL_SUBMITTED, CL_RUNNING);
    }

    /** clEnqueueNDRangeKernel, once the launch is accepted: the argument copy loop, the loop
        that collects and retains the buffers, and the append. */
    method LaunchKernel(q: nat, k: nat, range: seq<nat>, wanted: bool)
      requires Valid() && q < |queues| && k < |kernels|
      modifies this, commands, commands.nodes
      ensures Valid() && View() == KernelCall(old(View()), q, k, range, wanted)
      ensures fresh(commands.nodes - old(commands.nodes))
    {
      hide RetainMems, Append, Snapshot, ArgBuffers, MaybeEvent, WithCommands, WithMappings, T.AllElems, Leak, Retain;
      var d := kernels[k].data;
      var event := MakeEvent(q, wanted, true);
      var bufs := CollectBuffers(d);
      var args := CopyArguments(d.arguments, nodes);
      LaunchCounters(queues, commands.Contents(), q);
      SameQueueCount(queues, q);
      ghost var s1 := View();
      queues := Leak(Retain(queues, q), q);
      kernels := Retain(kernels, k);
      assert View() == s1.(queues := Leak(Retain(s1.queues, q), q), kernels := Retain(s1.kernels, k));
      hide Valid;
      RetainBuffers(bufs);
      AppendNode(q, RunKernel(k, range, args, bufs), event);
    }

    method CopyArguments(arguments: seq<Argument>, node: nat) returns (args: seq<Argument>)
      modifies this`blocks
      ensures blocks == Snapshot(old(blocks), arguments, node, 0).0 && args == Snapshot(old(blocks), arguments, node, 0).1
    {
      args := [];
      var i := 0;
      ghost var all := Snapshot(blocks, arguments, node, 0);
      assert [] + all.1 == all.1;
      while i < |arguments|
        invariant 0 <= i <= |arguments|
        invariant var r := Snapshot(blocks, arguments, node, i); r.0 == all.0 && args + r.1 == all.1
      {
        ghost var rest := Snapshot(blocks, arguments, node, i).1;
        var a := arguments[i];
        var v := Load(blocks, a).1;
        if v.None? {
          args := args + [a.(block := None)];
        } else {
          args := args + [a.(block := Some(|blocks|))];
          blocks := blocks + [Block(v.value, OfNode(node, i))];
        }
        assert args + rest[1..] == args[..|args| - 1] + ([args[|args| - 1]] + rest[1..]);
        i := i + 1;
      }
      assert args + [] == args;
    }

    method CollectBuffers(d: KernelData) returns (bufs: seq<nat>)
      ensures bufs == ArgBuffers(blocks, d, 0)
    {
      bufs := [];
      var i := 0;
      while i < |d.arguments| && i < |d.isPointer| && i < |d.isLocal|
        invariant 0 <= i <= |d.arguments|
        invariant bufs + ArgBuffers(blocks, d, i) == ArgBuffers(blocks, d, 0)
      {
        var v := Load(blocks, d.arguments[i]).1;
        ghost var rest := ArgBuffers(blocks, d, i + 1);
        if !d.isLocal[i] && d.isPointer[i] && v.Some? && v.value.Handle? {
          assert bufs + ([v.value.mem] + rest) == (bufs + [v.value.mem]) + rest;
          bufs := bufs + [v.value.mem];
        }
        i := i + 1;
      }
    }

    /** clSetKernelArg. `given` says that the caller passed a value, `value` what is stored: nothing
        when no value, or a null handle, was passed. An index just behind the arguments passes
        the test; the call then looks at arg_is_pointer beyond its end when a value is given, and
        writes beyond dyn_arguments when the kernel has no locals. */
    method SetKernelArgument(k: nat, index: nat, size: nat, given: bool, value: Option<Value>) returns (o: ArgOutcome)
      requires k < |kernels| && |kernels[k].data.isPointer| <= |kernels[k].data.arguments| && (value.Some? ==> given)
      modifies this`blocks, this`kernels
      ensures o.Refused? <==> index > |old(kernels)[k].data.isPointer|
      ensures var d := old(kernels)[k].data;
        o.OutOfBounds? <==> index == |d.isPointer| && (given || |d.arguments| == |d.isPointer|)
      ensures View() == if o.OutOfBounds? then old(View()) else Step(old(View()), SetKernelArg(k, index, size, value))
    {
      ArgStep(View(), SetKernelArg(k, index, size, value));
      hide Step, WithMappings, WithCommands, T.AllElems;
      var d := kernels[k].data;
      if index > |d.isPointer| { return Refused; }
      if index >= |d.arguments| || (given && index >= |d.isPointer|) { return OutOfBounds; }
      blocks := FreeBlock(blocks, d.arguments[index].block);
      var a := Argument(size, None);
      if value.Some? {
        a := Argument(size, Some(|blocks|));
        blocks := blocks + [Block(value.value, OfKernel(k, index))];
      }
      kernels := SetData(kernels, k, d.(arguments := d.arguments[index := a]));
      return Stored;
    }
  }

  datatype ArgOutcome = Refused | OutOfBounds | Stored

  // ----- lists and counters -----

  lemma MemCounters(mems: seq<Obj<MemData>>, lists: seq<seq<nat>>, m: nat)
    ensures WithMappings(Retain(mems, m), lists) == Retain(WithMappings(mems, lists), m)
    ensures WithMappings(Take(Retain(mems, m), m), lists) == Take(Retain(WithMappings(mems, lists), m), m)
    ensures WithMappings(GiveUp(mems, m), lists) == GiveUp(WithMappings(mems, lists), m)
    ensures WithMappings(Leak(mems, m), lists) == Leak(WithMappings(mems, lists), m)
  {
  }

  lemma ReleaseCommutes(mems: seq<Obj<MemData>>, lists: seq<seq<nat>>, m: nat)
    ensures WithMappings(Release(mems, m), lists) == Release(WithMappings(mems, lists), m)
  {
  }

  lemma SameHeld(mems: seq<Obj<MemData>>, m: nat)
    ensures |GiveUp(mems, m)| == |mems|
  {
  }

  lemma SameCount(mems: seq<Obj<MemData>>, m: nat)
    ensures |Release(mems, m)| == |mems| && |Dec(mems, m)| == |mems|
  {
  }

  /** clReleaseMemObject in terms of the fields and the lists. */
  lemma ReleasedState(s: State, mems: seq<Obj<MemData>>, lists: seq<seq<nat>>, m: nat)
    requires m < |mems| == |lists| && s.mems == WithMappings(mems, lists)
    ensures |Release(mems, m)| == |mems|
    ensures var parent := mems[m].data.parent;
      var ms := if parent.Some? then Dec(Release(mems, m), parent.value) else Release(mems, m);
      ReleaseMem(s, m) == if Release(mems, m)[m].refcount != 0 then s.(mems := WithMappings(Release(mems, m), lists))
                          else s.(mems := WithMappings(ms, lists[m := []]), mappings := FreeMappings(s.mappings, lists[m]))
  {
    hide FreeMappings;
    ReleaseCommutes(mems, lists, m);
    ReleasedView(mems, lists, m, mems[m].data.parent);
  }

  /** A destroyed buffer: its counter, its parent's, and its list. */
  lemma ReleasedView(mems: seq<Obj<MemData>>, lists: seq<seq<nat>>, m: nat, parent: Option<nat>)
    requires m < |mems| == |lists| && parent == mems[m].data.parent
    ensures var all := WithMappings(mems, lists);
      var ms := if parent.Some? then Dec(Release(mems, m), parent.value) else Release(mems, m);
      var ns := if parent.Some? then Dec(Release(all, m), parent.value) else Release(all, m);
      WithMappings(ms, lists[m := []]) == SetData(ns, m, all[m].data.(mappings := []))
  {
  }

  lemma QueueCounters(queues: seq<Obj<QueueData>>, lists: seq<seq<Node>>, q: nat)
    ensures WithCommands(Retain(queues, q), lists) == Retain(WithCommands(queues, lists), q)
    ensures WithCommands(Release(queues, q), lists) == Release(WithCommands(queues, lists), q)
    ensures WithCommands(Leak(queues, q), lists) == Leak(WithCommands(queues, lists), q)
  {
  }

  lemma SameQueueCount(queues: seq<Obj<QueueData>>, q: nat)
    ensures |Leak(Retain(queues, q), q)| == |queues|
  {
  }

  lemma LaunchCounters(queues: seq<Obj<QueueData>>, lists: seq<seq<Node>>, q: nat)
    ensures WithCommands(Leak(Retain(queues, q), q), lists) == Leak(Retain(WithCommands(queues, lists), q), q)
  {
  }

  lemma ClearCommands(queues: seq<Obj<QueueData>>, lists: seq<seq<Node>>, q: nat)
    requires q < |queues| == |lists|
    ensures var all := WithCommands(queues, lists);
      WithCommands(queues, lists[q := []]) == SetData(all, q, all[q].data.(pending := []))
  {
  }

  lemma AppendCommands(queues: seq<Obj<QueueData>>, lists: seq<seq<Node>>, q: nat, n: Node)
    requires q < |queues| == |lists|
    ensures var all := WithCommands(queues, lists);
      WithCommands(queues, lists[q := lists[q] + [n]]) == SetData(all, q, all[q].data.(pending := all[q].data.pending + [n]))
  {
  }

  /** The operation of a command does not look at the lists. */
  lemma SameOp(s: State, t: State, devId: nat, c: Command)
    requires !c.Marker? && s.mappings == t.mappings && s.blocks == t.blocks && |s.mems| == |t.mems|
    requires forall m :: 0 <= m < |s.mems| ==> s.mems[m].data.devicePtrs == t.mems[m].data.devicePtrs
    ensures CommandOp(s, devId, c) == CommandOp(t, devId, c)
  {
    hide LoadAll;
  }

  lemma ElemsAt(heap: seq<L.Node<Node>>)
    ensures |T.Elems(heap)| == |heap| && forall i :: 0 <= i < |heap| ==> T.Elems(heap)[i] == heap[i].elem
  {
  }

  lemma StartOfList(s: State, queues: seq<Obj<QueueData>>, lists: seq<seq<Node>>, q: nat)
    requires q < |queues| == |lists| && s.queues == WithCommands(queues, lists)
    ensures SetPending(s, q, lists[q][0..]) == s
  {
    assert lists[q][0..] == lists[q];
    assert s.queues[q := s.queues[q]] == s.queues;
  }

  /** A queue's fields serve for its node as well as the fields with the list. */
  lemma SameData(s: State, queues: seq<Obj<QueueData>>, lists: seq<seq<Node>>, q: nat, n: Node)
    requires q < |queues| == |lists| && s.queues == WithCommands(queues, lists)
    ensures q < |s.queues| && Execute(s, s.queues[q].data, n) == Execute(s, queues[q].data, n)
  {
    ExecuteIgnoresList(s, queues[q].data, lists[q], n);
    hide Execute;
  }

  lemma NothingLeft(s: State, queues: seq<Obj<QueueData>>, lists: seq<seq<Node>>, q: nat)
    requires q < |queues| == |lists| && s.queues == WithCommands(queues, lists)
    ensures Finish(SetPending(s, q, []), q) == SetPending(s, q, []) == s.(queues := WithCommands(queues, lists[q := []]))
  {
    ClearCommands(queues, lists, q);
    FinishNothing(SetPending(s, q, []), q);
  }

  lemma QueueGiveUp(queues: seq<Obj<QueueData>>, lists: seq<seq<Node>>, q: nat)
    ensures WithCommands(GiveUp(queues, q), lists) == GiveUp(WithCommands(queues, lists), q) && |GiveUp(queues, q)| == |queues|
  {
  }

  lemma SameRetained(mems: seq<Obj<MemData>>, m: nat)
    ensures |Retain(mems, m)| == |mems| && |Leak(mems, m)| == |mems|
  {
  }

  lemma AppendMapping(mems: seq<Obj<MemData>>, lists: seq<seq<nat>>, m: nat, id: nat)
    requires m < |mems| == |lists|
    ensures var all := WithMappings(mems, lists);
      WithMappings(mems, lists[m := lists[m] + [id]]) == SetData(all, m, all[m].data.(mappings := all[m].data.mappings + [id]))
  {
  }

  lemma ListReplaced(mems: seq<Obj<MemData>>, lists: seq<seq<nat>>, m: nat, list: seq<nat>)
    requires m < |mems| == |lists|
    ensures var all := WithMappings(mems, lists);
      WithMappings(mems, lists[m := list]) == SetData(all, m, all[m].data.(mappings := list)) && all[m].data.mappings == lists[m]
  {
  }

  lemma IdsAt(heap: seq<L.Node<nat>>)
    ensures |T.Elems(heap)| == |heap| && forall i :: 0 <= i < |heap| ==> T.Elems(heap)[i] == heap[i].elem
  {
  }

  /** The fields of a queue and a buffer are those of the state. */
  lemma InRangeHere(s: State, mems: seq<Obj<MemData>>, queues: seq<Obj<QueueData>>, maps: seq<seq<nat>>, lists: seq<seq<Node>>,
                    q: nat, m: nat)
    requires s.mems == WithMappings(mems, maps) && s.queues == WithCommands(queues, lists) && q < |s.queues| && m < |s.mems|
    requires |maps| == |mems|
    ensures q < |queues| && m < |mems|
    ensures s.queues[q].data == queues[q].data.(pending := s.queues[q].data.pending)
    ensures s.mems[m].data == mems[m].data.(mappings := maps[m])
  {
  }

  lemma SameMapOp(s: State, mems: seq<Obj<MemData>>, maps: seq<seq<nat>>, queues: seq<Obj<QueueData>>, lists: seq<seq<Node>>,
                  t: State, q: nat, m: nat, id: nat)
    requires s.mems == WithMappings(mems, maps) && s.queues == WithCommands(queues, lists) && |maps| == |mems|
    requires t.mems == mems && t.queues == queues && s.mappings == t.mappings
    ensures MapOp(s, DevId(s, q), m, id) == MapOp(t, DevId(t, q), m, id)
  {
  }

  /** Every id on a mapping list is that of a mapping. */
  lemma ListedIds(s: State, m: nat)
    requires Runs.Inv(s) && m < |s.mems|
    ensures forall i :: 0 <= i < |s.mems[m].data.mappings| ==> s.mems[m].data.mappings[i] < |s.mappings|
  {
    assert MemBooks.ListsOk(s.mems, s.mappings);
  }

  // ----- what a call means for its caller -----

  /** The invariants are kept, and issued plus pending operations grow by the eager ones. */
  lemma AfterCall(s: State, c: Call, q: nat)
    requires Runs.Inv(s) && Enabled(s, c) && !c.EnqueueUnmap? && !c.StoreHost? && !c.CreateBuffer? && !c.EnqueueWriteRect?
    ensures Runs.Inv(Step(s, c))
    ensures SimCalls.Solo(s, q) && Simulation.OnQueue(c, q) && SamePointer(s, c) ==>
      SimBooks.Projected(Step(s, c), q) == SimBooks.Projected(s, q) + Simulation.EagerOps(s, c)
  {
    hide Runs.Inv, Enabled, Step, SimBooks.SimOk, SimCalls.Solo, SimBooks.Projected, Simulation.EagerOps, SamePointer, Simulation.OnQueue;
    Runs.StepInv(s, c);
    if SimCalls.Solo(s, q) && Simulation.OnQueue(c, q) && SamePointer(s, c) {
      KeepsSim(s);
      Deferral.SimStep(s, c, q);
    }
  }

  lemma KeepsSim(s: State)
    requires Runs.Inv(s)
    ensures SimBooks.SimOk(s)
  {
  }

  lemma RunNowDrains(s: State, q: nat, ms: seq<nat>, op: Op, wanted: bool)
    ensures Pending(RunNow(s, q, ms, op, wanted), q) == []
  {
    hide Finish, TakeMems, DropMems;
  }

  lemma DeferIssuesNothing(s: State, q: nat, ms: seq<nat>, c: Command, wanted: bool)
    ensures Defer(s, q, ms, c, wanted).log == s.log
  {
  }

  /** A blocking command leaves nothing pending, a deferred one issues nothing. */
  predicate DrainsOrDefers(s: State, t: State, ok: bool, q: nat, blocking: bool) {
    ok ==> if blocking then Pending(t, q) == [] else t.log == s.log
  }

  /** With all commands on one queue: issued plus pending operations grow by `ops`. */
  ghost predicate Adds(s: State, t: State, q: nat, ops: seq<Op>) {
    SimCalls.Solo(s, q) ==> SimBooks.Projected(t, q) == SimBooks.Projected(s, q) + ops
  }

  predicate Maps(s: State, t: State, q: nat, m: nat, blocking: bool, mapping: Mapping) {
    |t.mappings| == |s.mappings| + 1 && t.mappings[|s.mappings|].(live := true) == mapping
    && (blocking ==> Pending(t, q) == [])
  }

  predicate MappedAt(s: State, m: nat, ptr: int) {
    m < |s.mems|
    && exists id :: id in s.mems[m].data.mappings && id < |s.mappings| && s.mappings[id].hostPtr == ptr
  }

  /** Nothing is pending on the queue, and its events are complete. */
  ghost predicate Drained(s: State, t: State, q: nat) {
    Pending(t, q) == [] && |t.events| == |s.events|
    && forall e :: 0 <= e < |s.events| && s.events[e].data.queue == q ==> EventBooks.Ran(t.events[e].data.trail)
  }

  /** If it was the last reference the event is freed, and who still names it is known. */
  ghost predicate EventGone(s: State, t: State, e: nat) {
    e < |s.events| && (s.events[e].refcount == 1 ==>
      var q := s.events[e].data.queue;
      q < |s.queues| && e < |t.events| && !t.events[e].live
      && (e in EventBooks.EventsOf(Pending(t, q)) <==> s.queues[q].data.gpu && e in EventBooks.EventsOf(Pending(s, q))))
  }

  /** An enabled call names a queue and a buffer that exist. */
  lemma NamesObjects(s: State, c: Call, q: nat, m: nat)
    requires Enabled(s, c)
    requires (c.EnqueueRead? && c.q == q && c.m == m) || (c.EnqueueWrite? && c.q == q && c.m == m)
      || (c.EnqueueMap? && c.q == q && c.m == m) || (c.EnqueueUnmap? && c.q == q && c.m == m)
    ensures q < |s.queues| && m < |s.mems|
  {
  }

  /** The cases of an enqueued read. */
  lemma ReadStep(s: State, c: Call)
    requires c.EnqueueRead? && c.q < |s.queues| && c.m < |s.mems|
    ensures Accepted(s, c) <==>
      s.queues[c.q].data.context == s.mems[c.m].data.context && c.argsOk && c.offset + c.cb <= s.mems[c.m].data.size
    ensures var addr := DevicePtr(s, c.m, s.queues[c.q].data.devId) + c.offset;
      Step(s, c) == if !Accepted(s, c) then s
                    else if c.blocking then RunNow(s, c.q, [c.m], OpRead(c.ptr, addr, c.cb), c.event)
                    else Defer(s, c.q, [c.m], ReadBuffer(c.ptr, addr, c.cb, c.m), c.event)
  {
    hide RunNow, Defer, DevicePtr;
  }

  lemma WriteStep(s: State, c: Call)
    requires c.EnqueueWrite? && c.q < |s.queues| && c.m < |s.mems|
    ensures Accepted(s, c) <==>
      s.queues[c.q].data.context == s.mems[c.m].data.context && c.argsOk && c.offset + c.cb <= s.mems[c.m].data.size
    ensures var addr, deferred := DevicePtr(s, c.m, s.queues[c.q].data.devId) + c.offset, DevicePtr(s, c.m, s.queues[c.q].data.devIndex) + c.offset;
      Step(s, c) == if !Accepted(s, c) then s
                    else if c.blocking then RunNow(s, c.q, [c.m], OpWrite(c.ptr, addr, c.cb), c.event)
                    else Defer(s, c.q, [c.m], WriteBuffer(c.ptr, deferred, c.cb, c.m), c.event)
  {
    hide RunNow, Defer, DevicePtr;
  }

  lemma UnmapStep(s: State, c: Call)
    requires c.EnqueueUnmap? && c.q < |s.queues| && c.m < |s.mems|
    ensures var found := FindMapping(s.mappings, s.mems[c.m].data.mappings, c.mappedPtr);
      (Accepted(s, c) <==> s.queues[c.q].data.context == s.mems[c.m].data.context && found.Some?)
      && Step(s, c) == if Accepted(s, c) then UnmapCall(s, c.q, c.m, found.value, c.flush, c.event) else s
  {
    hide UnmapCall, FindMapping;
  }

  lemma ArgStep(s: State, c: Call)
    requires c.SetKernelArg? && c.k < |s.kernels|
    ensures Step(s, c) == if c.index <= |s.kernels[c.k].data.isPointer| then SetArg(s, c.k, c.index, c.size, c.value) else s
  {
    hide SetArg;
  }

  /** The first `i` devices have their pointers, and no other device has one. */
  predicate Placed(devices: seq<nat>, addresses: seq<int>, n: nat, ptrs: seq<int>, i: nat) {
    i <= |devices| == |addresses| && |ptrs| == n
    && (forall d :: 0 <= d < n ==> ptrs[d] >= 0 && (ptrs[d] != NULL <==> d in devices[..i]))
    && forall j :: 0 <= j < i ==> devices[j] < n && ptrs[devices[j]] == addresses[j]
  }

  lemma NonePlaced(devices: seq<nat>, addresses: seq<int>, n: nat, ptrs: seq<int>)
    requires |devices| == |addresses| && |ptrs| == n && forall d :: 0 <= d < n ==> ptrs[d] == NULL
    ensures Placed(devices, addresses, n, ptrs, 0)
  {
  }

  lemma PlaceOne(devices: seq<nat>, addresses: seq<int>, n: nat, ptrs: seq<int>, i: nat)
    requires Placed(devices, addresses, n, ptrs, i) && i < |devices| && devices[i] < n && addresses[i] > NULL && NoDuplicates(devices)
    ensures |ptrs| == n && Placed(devices, addresses, n, ptrs[devices[i] := addresses[i]], i + 1)
  {
    assert devices[..i + 1] == devices[..i] + [devices[i]];
  }

  lemma AllPlaced(devices: seq<nat>, addresses: seq<int>, n: nat, ptrs: seq<int>, source: Option<int>, size: nat, ops: seq<Op>)
    requires Placed(devices, addresses, n, ptrs, |devices|) && |ops| == (if source.Some? then |devices| else 0)
    requires forall j :: 0 <= j < |ops| ==> ops[j] == OpCreate(source.value, addresses[j], size)
    ensures P.Allocated(devices, n, ptrs) && ops == InitOps(ptrs, devices, source, size)
    ensures forall i :: 0 <= i < |devices| ==> devices[i] < |ptrs| && ptrs[devices[i]] == addresses[i]
  {
    assert devices[..|devices|] == devices;
  }

  /** What clCreateBuffer and clCreateSubBuffer add. */
  lemma CreateStep(s: State, c: Call)
    requires c.CreateBuffer? && c.size > 0
    ensures Step(s, c) == s.(
      mems := s.mems + [Obj(true, if c.devices != [] then |c.devices| else 1, 1, if c.devices != [] then |c.devices| - 1 else 0,
                            MemData(None, c.context, c.size, c.devicePtrs, 0, 0, []))],
      log := s.log + InitOps(c.devicePtrs, c.devices, c.source, c.size))
  {
    hide InitOps;
  }

  lemma SubStep(s: State, c: Call)
    requires c.CreateSubBuffer? && c.m < |s.mems|
    ensures var p := s.mems[c.m].data;
      (Accepted(s, c) <==> p.parent.None? && c.size > 0 && c.size + c.origin <= p.size && c.flagsOk)
      && Step(s, c) == if !Accepted(s, c) then s
                       else s.(mems := Retain(s.mems + [Obj(true, 1, 1, 0, SubBufferData(p, c.m, c.origin, c.size, c.garbage))], c.m))
  {
    hide SubBufferData;
  }

  lemma MappingsSnoc(mems: seq<Obj<MemData>>, lists: seq<seq<nat>>, o: Obj<MemData>)
    requires |mems| == |lists| && o.data.mappings == []
    ensures WithMappings(mems + [o], lists + [[]]) == WithMappings(mems, lists) + [o]
  {
  }

  lemma BufferHere(s: State, mems: seq<Obj<MemData>>, maps: seq<seq<nat>>, m: nat)
    requires s.mems == WithMappings(mems, maps) && m < |mems| == |maps|
    ensures m < |s.mems| && s.mems[m].data == mems[m].data.(mappings := maps[m])
  {
  }

  lemma FieldPointers(mems: seq<Obj<MemData>>, maps: seq<seq<nat>>)
    ensures forall m :: 0 <= m < |mems| ==> WithMappings(mems, maps)[m].data.devicePtrs == mems[m].data.devicePtrs
  {
  }

  lemma SameDevicePtr(s: State, t: State, m: nat)
    requires |s.mems| == |t.mems| && (m < |s.mems| ==> s.mems[m].data.devicePtrs == t.mems[m].data.devicePtrs)
    ensures forall dev: nat :: DevicePtr(s, m, dev) == DevicePtr(t, m, dev)
  {
  }

  lemma SameDevId(s: State, t: State, q: nat)
    requires |s.queues| == |t.queues| && (q < |s.queues| ==> s.queues[q].data.devId == t.queues[q].data.devId)
    ensures DevId(s, q) == DevId(t, q)
  {
  }

  lemma EagerTransfer(s: State, c: Call)
    requires c.EnqueueRead? || c.EnqueueWrite?
    ensures Simulation.OnQueue(c, c.q) && (c.EnqueueRead? ==> SamePointer(s, c))
    ensures var addr := DevicePtr(s, c.m, DevId(s, c.q)) + c.offset;
      Simulation.EagerOps(s, c) == if Accepted(s, c) then [if c.EnqueueRead? then OpRead(c.ptr, addr, c.cb) else OpWrite(c.ptr, addr, c.cb)] else []
  {
    hide Accepted, DevicePtr, DevId;
  }

  lemma ReadMeans(s: State, c: Call)
    requires Runs.Inv(s) && Enabled(s, c) && c.EnqueueRead? && c.q < |s.queues| && c.m < |s.mems|
    ensures Runs.Inv(Step(s, c)) && DrainsOrDefers(s, Step(s, c), Accepted(s, c), c.q, c.blocking)
    ensures Adds(s, Step(s, c), c.q, if Accepted(s, c) then [OpRead(c.ptr, DevicePtr(s, c.m, DevId(s, c.q)) + c.offset, c.cb)] else [])
  {
    hide Runs.Inv, RunNow, Defer, Accepted, Enabled, Step, SamePointer, DevicePtr, DevId, Simulation.EagerOps, Simulation.OnQueue,
      SimBooks.SimOk, SimCalls.Solo, SimBooks.Projected;
    AfterCall(s, c, c.q);
    EagerTransfer(s, c);
    ReadStep(s, c);
    var addr := DevicePtr(s, c.m, s.queues[c.q].data.devId) + c.offset;
    RunNowDrains(s, c.q, [c.m], OpRead(c.ptr, addr, c.cb), c.event);
    DeferIssuesNothing(s, c.q, [c.m], ReadBuffer(c.ptr, addr, c.cb, c.m), c.event);
  }

  lemma WriteMeans(s: State, c: Call)
    requires Runs.Inv(s) && Enabled(s, c) && c.EnqueueWrite? && c.q < |s.queues| && c.m < |s.mems|
    ensures Runs.Inv(Step(s, c)) && DrainsOrDefers(s, Step(s, c), Accepted(s, c), c.q, c.blocking)
    ensures SamePointer(s, c) ==>
      Adds(s, Step(s, c), c.q, if Accepted(s, c) then [OpWrite(c.ptr, DevicePtr(s, c.m, DevId(s, c.q)) + c.offset, c.cb)] else [])
  {
    hide Runs.Inv, RunNow, Defer, Accepted, Enabled, Step, SamePointer, DevicePtr, DevId, Simulation.EagerOps, Simulation.OnQueue,
      SimBooks.SimOk, SimCalls.Solo, SimBooks.Projected;
    AfterCall(s, c, c.q);
    EagerTransfer(s, c);
    WriteStep(s, c);
    var d := s.queues[c.q].data;
    RunNowDrains(s, c.q, [c.m], OpWrite(c.ptr, DevicePtr(s, c.m, d.devId) + c.offset, c.cb), c.event);
    DeferIssuesNothing(s, c.q, [c.m], WriteBuffer(c.ptr, DevicePtr(s, c.m, d.devIndex) + c.offset, c.cb, c.m), c.event);
  }

  lemma MapMeans(s: State, c: Call)
    requires Runs.Inv(s) && Enabled(s, c) && c.EnqueueMap?
    ensures Runs.Inv(Step(s, c))
    ensures Accepted(s, c) && c.hostPtr.Some? ==>
      Maps(s, Step(s, c), c.q, c.m, c.blocking, Mapping(true, c.m, c.hostPtr.value, c.offset, c.size))
    ensures Adds(s, Step(s, c), c.q,
      if Accepted(s, c) && c.hostPtr.Some? then [OpMap(DevicePtr(s, c.m, DevId(s, c.q)), c.offset, c.size, c.hostPtr.value)] else [])
  {
    hide Runs.Inv, MapCall, Accepted, Enabled, SimBooks.SimOk, SimCalls.Solo, SimBooks.Projected, Maps;
    AfterCall(s, c, c.q);
    if Accepted(s, c) && c.hostPtr.Some? {
      assert c.m < |s.mems| by { NamesObjects(s, c, c.q, c.m); }
      MapFacts(s, c.q, c.m, c.blocking, c.offset, c.size, c.hostPtr.value, c.event);
    }
  }

  /** A map that finds a place: its mapping is new, and a blocking one drains. */
  lemma MapFacts(s: State, q: nat, m: nat, blocking: bool, offset: nat, size: nat, hostPtr: int, wanted: bool)
    requires m < |s.mems|
    ensures Maps(s, MapCall(s, q, m, blocking, offset, size, Some(hostPtr), wanted), q, m, blocking, Mapping(true, m, hostPtr, offset, size))
  {
    hide Finish, Perform, MapOp, CountMap, Append;
    var id, event := |s.mappings|, EventHandle(s, wanted);
    var s2 := AddMapping(MaybeEvent(s.(mems := Retain(s.mems, m)), q, wanted, true), m, Mapping(true, m, hostPtr, offset, size));
    assert s2.mappings == s.mappings + [Mapping(true, m, hostPtr, offset, size)];
    if blocking { TailDrains(s2, q, m, id, event); } else { AppendMaps(s2, q, MapBuffer(m, id), event); }
  }

  lemma AppendMaps(s: State, q: nat, c: Command, event: Option<nat>)
    ensures Append(s, q, c, event).mappings == s.mappings
  {
  }

  lemma TailDrains(s: State, q: nat, m: nat, id: nat, event: Option<nat>)
    ensures var t := Finish(s, q); var u := CountMap(Perform(t, event, MapOp(t, DevId(t, q), m, id)), m, 1);
      Pending(u, q) == [] && |u.mappings| == |s.mappings|
      && forall i :: 0 <= i < |s.mappings| ==> u.mappings[i] == s.mappings[i].(live := u.mappings[i].live)
  {
    hide Finish, MapOp;
    FinishMaps(s, q);
  }

  lemma FinishMaps(s: State, q: nat)
    ensures var t := Finish(s, q);
      |t.mappings| == |s.mappings| && forall i :: 0 <= i < |s.mappings| ==> t.mappings[i] == s.mappings[i].(live := t.mappings[i].live)
  {
    Frames.FinishSameMaps(s, q);
  }

  lemma UnmapAccepted(s: State, c: Call)
    requires c.EnqueueUnmap? && c.m < |s.mems| && forall i :: 0 <= i < |s.mems[c.m].data.mappings| ==> s.mems[c.m].data.mappings[i] < |s.mappings|
    ensures Accepted(s, c) <==> SameContext(s, c.q, c.m) && MappedAt(s, c.m, c.mappedPtr)
  {
    MemCalls.FindMappingFacts(s.mappings, s.mems[c.m].data.mappings, c.mappedPtr);
  }

  lemma SameLength(s: State, queues: seq<Obj<QueueData>>, q: nat)
    requires |s.queues| == |queues| && q < |s.queues|
    ensures q < |queues|
  {
  }

  lemma EventFields(s: State, events: seq<Obj<EventData>>, queues: seq<Obj<QueueData>>, e: nat)
    requires s.events == events && |s.queues| == |queues| && e < |s.events| && s.events[e].data.queue < |s.queues|
    ensures e < |GiveUp(events, e)| && GiveUp(events, e)[e].data.queue < |queues|
  {
  }

  /** What the release of a queue by the application comes to. */
  lemma ReleasedQueue(s: State, q: nat)
    requires Runs.Inv(s) && Enabled(s, ReleaseQueueCall(q))
    ensures q < |s.queues| && Runs.Inv(Step(s, ReleaseQueueCall(q))) && Drained(s, Step(s, ReleaseQueueCall(q)), q)
    ensures Step(s, ReleaseQueueCall(q)) == ReleaseQueue(s.(queues := GiveUp(s.queues, q)), q)
  {
    hide Finish, Runs.Inv;
    var t := Step(s, ReleaseQueueCall(q));
    assert Pending(t, q) == [];
    Runs.StepInv(s, ReleaseQueueCall(q));
    FinishKeepsQueues(s.(queues := GiveUp(s.queues, q)), q);
    hide Enabled, EventBooks.Ran;
    forall e | 0 <= e < |s.events| && s.events[e].data.queue == q ensures EventBooks.Ran(t.events[e].data.trail) {
      NotPendingIsComplete(t, e);
    }
  }

  lemma NotPendingIsComplete(t: State, e: nat)
    requires Runs.Inv(t) && e < |t.events| && Pending(t, t.events[e].data.queue) == []
    ensures EventBooks.Ran(t.events[e].data.trail)
  {
    assert EventBooks.EventInv(t);
    hide Runs.Inv, EventBooks.CountsOk, EventBooks.NodeEventsOk, EventBooks.QueuesOk, EventBooks.FlightOk, EventBooks.CompletedFirst;
    assert EventBooks.EventsOf([]) == {};
  }

  lemma ReleasedEvent(s: State, e: nat)
    requires Runs.Inv(s) && Enabled(s, ReleaseEventCall(e))
    ensures e < |s.events| && s.events[e].data.queue < |s.queues|
    ensures Runs.Inv(Step(s, ReleaseEventCall(e))) && EventGone(s, Step(s, ReleaseEventCall(e)), e)
    ensures Step(s, ReleaseEventCall(e)) == Runtime.ReleaseEvent(s.(events := GiveUp(s.events, e)), e)
  {
    hide Runtime.ReleaseEvent, EventBooks.EventInv, Runs.Inv, Runs.Books, EventBooks.EventsOf, Step, Enabled;
    Runs.StepInv(s, ReleaseEventCall(e));
    assert EventBooks.EventInv(s) by { EventPart(s); }
    ReleasesUsable(s, e);
    EventCalls.UsableEvent(s, e);
    if s.events[e].refcount == 1 { Limits.LastReleaseIff(s, e); }
  }

  lemma EventPart(s: State)
    requires Runs.Inv(s)
    ensures EventBooks.EventInv(s)
  {
  }

  lemma ReleasesUsable(s: State, e: nat)
    requires Enabled(s, ReleaseEventCall(e))
    ensures Usable(s.events, e)
    ensures Step(s, ReleaseEventCall(e)) == Runtime.ReleaseEvent(s.(events := GiveUp(s.events, e)), e)
  {
    hide Runtime.ReleaseEvent;
  }

  lemma ReleaseQueueEvents(s: State, q: nat)
    ensures |ReleaseQueue(s, q).events| == |s.events|
  {
  }

  lemma {:induction false} UnlinkAt(l: seq<nat>, x: nat, k: nat)
    requires k < |l| && l[k] == x && x !in l[..k]
    ensures Unlink(l, x) == l[..k] + l[k + 1..]
    decreases |l|
  {
    if k > 0 {
      assert l[0] in l[..k];
      assert l[1..][..k - 1] == l[..k][1..];
      UnlinkAt(l[1..], x, k - 1);
    }
  }

  // ----- executing a command does not look at the queues -----

  lemma {:induction false} ReleaseMemsCommutes(s: State, qs: seq<Obj<QueueData>>, ms: seq<nat>)
    ensures ReleaseMems(s.(queues := qs), ms) == ReleaseMems(s, ms).(queues := qs)
    decreases |ms|
  {
    if ms != [] {
      assert ReleaseMem(s.(queues := qs), ms[0]) == ReleaseMem(s, ms[0]).(queues := qs);
      ReleaseMemsCommutes(ReleaseMem(s, ms[0]), qs, ms[1..]);
    }
  }

  lemma FinalizeCommutes(s: State, qs: seq<Obj<QueueData>>, d: QueueData, c: Command)
    ensures Finalize(s.(queues := qs), d, c) == Finalize(s, d, c).(queues := qs)
  {
    ReleaseMemsCommutes(s, qs, CommandMems(c));
    hide ReleaseMems;
  }

  lemma ExecuteCommutes(s: State, qs: seq<Obj<QueueData>>, d: QueueData, n: Node)
    ensures Execute(s.(queues := qs), d, n) == Execute(s, d, n).(queues := qs)
  {
    if !n.command.Marker? {
      var op := CommandOp(s, d.devId, n.command);
      assert CommandOp(s.(queues := qs), d.devId, n.command) == op;
      assert Perform(s.(queues := qs), n.event, op) == Perform(s, n.event, op).(queues := qs);
      hide Finalize, Perform;
      FinalizeCommutes(Perform(s, n.event, op), qs, d, n.command);
    }
  }

  /** Executing a node with the whole list in place, and then dropping it, is executing it after
      it was taken off. */
  lemma ExecuteHeadCommutes(s: State, q: nat, list: seq<Node>)
    requires q < |s.queues| && list != []
    ensures var d := s.queues[q].data;
      Finish(SetPending(s, q, list), q) == Finish(SetPending(Execute(s, d, list[0]), q, list[1..]), q)
  {
    hide Execute;
    var d := s.queues[q].data;
    var t := SetPending(s, q, list);
    ExecuteCommutes(s, SetPending(s, q, list[1..]).queues, d, list[0]);
    ExecuteIgnoresList(SetPending(s, q, list[1..]), d, list, list[0]);
    assert SetPending(t, q, list[1..]) == SetPending(s, q, list[1..]);
    assert ExecuteHead(t, q) == SetPending(Execute(s, d, list[0]), q, list[1..]);
  }

  lemma FinishNothing(s: State, q: nat)
    requires Pending(s, q) == []
    ensures Finish(s, q) == s
  {
  }

  lemma ExecuteIgnoresList(s: State, d: QueueData, list: seq<Node>, n: Node)
    ensures Execute(s, d.(pending := list), n) == Execute(s, d, n)
  {
  }

  lemma {:induction false} FinishKeepsQueues(s: State, q: nat)
    ensures var t := Finish(s, q);
      && |t.events| == |s.events| && |t.queues| == |s.queues|
      && forall e :: 0 <= e < |s.events| ==> t.events[e].data.queue == s.events[e].data.queue
    decreases |Pending(s, q)|
  {
    if Pending(s, q) != [] {
      ExecuteKeepsQueues(SetPending(s, q, Pending(s, q)[1..]), s.queues[q].data, Pending(s, q)[0]);
      hide Execute;
      FinishKeepsQueues(ExecuteHead(s, q), q);
    }
  }

  lemma ExecuteKeepsQueues(s: State, d: QueueData, n: Node)
    ensures var t := Execute(s, d, n);
      && |t.events| == |s.events|
      && forall e :: 0 <= e < |s.events| ==> t.events[e].data.queue == s.events[e].data.queue
  {
  }
}
