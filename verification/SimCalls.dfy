/** Deferred execution simulates eager execution: every call extends what has been issued and
    what is owed by exactly the operation it would perform if it ran at once. */
module SimCalls {
  import opened RefCounts
  import opened Runtime
  import opened Frames
  import opened SimBooks

  // ----- changes that no pending command can notice -----

  ghost predicate SameQueue(a: Obj<QueueData>, b: Obj<QueueData>) {
    a.data == b.data
  }

  ghost predicate Unseen(s: State, t: State) {
    && s.nodes <= t.nodes && MemsGrow(s.mems, t.mems) && MappingsGrow(s.mappings, t.mappings) && t.blocks == s.blocks
    && SameArgs(s.kernels, t.kernels)
    && |s.queues| == |t.queues| && forall q {:trigger s.queues[q]} {:trigger t.queues[q]} :: 0 <= q < |s.queues| ==>
      SameQueue(s.queues[q], t.queues[q])
  }

  lemma UnseenSim(s: State, t: State, q: nat)
    requires SimOk(s) && Unseen(s, t)
    ensures SimOk(t) && PendingOps(t, q) == PendingOps(s, q)
  {
    assert Keeps(s, t, None);
    KernelArgsFrame(s, t);
    assert IdsOk(t.queues) by {
      hide NodesOk, KernelArgsOk;
      assert forall r, i :: 0 <= r < |t.queues| && 0 <= i < |t.queues[r].data.pending| ==>
        t.queues[r].data.pending[i] == s.queues[r].data.pending[i];
    }
    hide Keeps, NodeOk, KernelArgsOk, IdsOk;
    forall r, i | 0 <= r < |t.queues| && 0 <= i < |t.queues[r].data.pending|
      ensures NodeOk(t, t.queues[r].data.pending[i])
    {
      var n := s.queues[r].data.pending[i];
      assert t.queues[r].data.pending[i] == n;
      OpKept(s, t, n, 0, None);
    }
    if q < |s.queues| {
      assert forall i :: 0 <= i < |Pending(s, q)| ==> NodeOk(s, s.queues[q].data.pending[i]);
      ListOpsKept(s, t, DevId(s, q), Pending(s, q), None);
    }
  }

  lemma UnseenTrans(s: State, t: State, u: State)
    requires Unseen(s, t) && Unseen(t, u)
    ensures Unseen(s, u)
  {
    assert forall m :: 0 <= m < |s.mems| ==> SameFixed(t.mems[m].data, u.mems[m].data);
    assert forall i :: 0 <= i < |s.mappings| ==> u.mappings[i] == t.mappings[i].(live := u.mappings[i].live);
  }

  /** Changes to memory objects alone that add nothing. */
  lemma MemsUnseen(s: State, t: State)
    requires SameButMems(s, t) && Quiet(s, t)
    ensures Unseen(s, t)
  {
  }

  lemma EventUnseen(s: State, q: nat, wanted: bool, inOrder: bool)
    ensures var t := MaybeEvent(s, q, wanted, inOrder); Unseen(s, t) && t == s.(events := t.events, queues := t.queues)
  {
  }

  lemma PerformUnseen(s: State, event: Option<nat>, op: Op)
    ensures Unseen(s, Perform(s, event, op)) && Perform(s, event, op).log == s.log + [op]
  {
  }

  // ----- appending -----

  lemma AppendSim(s: State, q: nat, c: Command, event: Option<nat>)
    requires SimOk(s) && q < |s.queues|
    requires NodeOk(s.(nodes := s.nodes + 1), Node(s.nodes, c, event))
    ensures var t, n := Append(s, q, c, event), Node(s.nodes, c, event);
      SimOk(t) && t.log == s.log && PendingOps(t, q) == PendingOps(s, q) + NodeOps(s, DevId(s, q), n)
  {
    var n, t, p := Node(s.nodes, c, event), Append(s, q, c, event), Pending(s, q);
    assert Keeps(s, t, None);
    AppendIds(s, q, n, t);
    hide Keeps, KernelArgsOk, IdsOk;
    forall r, i | 0 <= r < |t.queues| && 0 <= i < |t.queues[r].data.pending|
      ensures NodeOk(t, t.queues[r].data.pending[i])
    {
      if r != q || i < |p| {
        assert t.queues[r].data.pending[i] == s.queues[r].data.pending[i];
        OpKept(s, t, s.queues[r].data.pending[i], 0, None);
      }
    }
    hide NodeOk;
    assert forall i :: 0 <= i < |p| ==> NodeOk(s, s.queues[q].data.pending[i]);
    ListOpsKept(s, t, DevId(s, q), p, None);
    ListOpsSnoc(t, DevId(s, q), p, n);
    assert NodeOps(t, DevId(s, q), n) == NodeOps(s, DevId(s, q), n);
  }

  lemma AppendIds(s: State, q: nat, n: Node, t: State)
    requires NodesOk(s) && IdsOk(s.queues) && q < |s.queues| && n.id == s.nodes
    requires t.queues == SetPending(s, q, Pending(s, q) + [n]).queues
    ensures IdsOk(t.queues)
  {
    assert forall r, i {:trigger t.queues[r].data.pending[i]} :: 0 <= r < |t.queues| && 0 <= i < |t.queues[r].data.pending| ==>
      if r == q && i == |Pending(s, q)| then t.queues[r].data.pending[i] == n
      else t.queues[r].data.pending[i] == s.queues[r].data.pending[i] && NodeOk(s, s.queues[r].data.pending[i]);
    hide NodesOk;
  }

  // ----- the argument snapshot -----

  /** Argument pointers reach existing blocks. */
  ghost predicate Reachable(arguments: seq<Argument>, blocks: seq<Block>) {
    forall i {:trigger arguments[i]} :: 0 <= i < |arguments| ==>
      arguments[i].block.Some? ==> arguments[i].block.value < |blocks|
  }

  /** The copies made at enqueue hold the same values, in blocks of their own. */
  lemma {:induction false} SnapshotCopies(blocks: seq<Block>, arguments: seq<Argument>, node: nat, i: nat)
    requires i <= |arguments| && Reachable(arguments, blocks)
    ensures var r := Snapshot(blocks, arguments, node, i);
      && blocks <= r.0 && |r.1| == |arguments| - i
      && (forall j {:trigger r.1[j]} :: 0 <= j < |r.1| ==>
            Load(r.0, r.1[j]) == Load(blocks, arguments[i + j]) && Owned(r.0, r.1[j].block, OfNode(node, i + j)))
    decreases |arguments| - i
  {
    if i < |arguments| {
      var a := arguments[i];
      var v := Load(blocks, a).1;
      var bs := if v.None? then blocks else blocks + [Block(v.value, OfNode(node, i))];
      SnapshotCopies(bs, arguments, node, i + 1);
      var r, r' := Snapshot(bs, arguments, node, i + 1), Snapshot(blocks, arguments, node, i);
      assert forall j :: i < j < |arguments| ==> Load(bs, arguments[j]) == Load(blocks, arguments[j]);
      assert r'.0 == r.0 && r'.1[1..] == r.1;
      forall j | 0 <= j < |r'.1|
        ensures Load(r'.0, r'.1[j]) == Load(blocks, arguments[i + j]) && Owned(r'.0, r'.1[j].block, OfNode(node, i + j))
      {
        if j > 0 { assert r'.1[j] == r.1[j - 1]; }
      }
    }
  }

  lemma KernelReachable(s: State, k: nat)
    requires KernelArgsOk(s.kernels, s.blocks) && k < |s.kernels|
    ensures Reachable(s.kernels[k].data.arguments, s.blocks)
  {
    assert forall i :: 0 <= i < |s.kernels[k].data.arguments| ==> Owned(s.blocks, s.kernels[k].data.arguments[i].block, OfKernel(k, i));
  }

  // ----- draining from another queue's point of view -----

  /** Only queue `q` has pending commands. */
  ghost predicate Solo(s: State, q: nat) {
    forall r: nat {:trigger Pending(s, r)} :: r != q ==> Pending(s, r) == []
  }

  lemma {:induction false} FinishQueues(s: State, q: nat)
    ensures Finish(s, q).queues == SetPending(s, q, []).queues
    decreases |Pending(s, q)|
  {
    if Pending(s, q) != [] {
      FinishQueues(ExecuteHead(s, q), q);
      assert ExecuteHead(s, q).queues == SetPending(s, q, Pending(s, q)[1..]).queues;
    } else if q < |s.queues| {
      assert s.queues[q].data.(pending := []) == s.queues[q].data;
    }
  }

  /** What a call, or a part of one, must do: keep the books and, when all commands are on queue `q`,
      account for `ops`. */
  ghost predicate Simulates(s: State, t: State, q: nat, ops: seq<Op>) {
    SimOk(t) && (Solo(s, q) ==> Solo(t, q) && Projected(t, q) == Projected(s, q) + ops)
  }

  lemma SimulatesUnseen(s: State, t: State, q: nat)
    requires SimOk(s) && Unseen(s, t) && t.log == s.log
    ensures Simulates(s, t, q, [])
  {
    UnseenSim(s, t, q);
    hide SimOk, PendingOps;
    assert forall r: nat :: Pending(t, r) == Pending(s, r);
    assert Projected(s, q) + [] == Projected(s, q);
  }

  lemma SimulatesThen(s: State, t: State, u: State, q: nat, a: seq<Op>, b: seq<Op>)
    requires Simulates(s, t, q, a) && Simulates(t, u, q, b)
    ensures Simulates(s, u, q, a + b)
  {
    hide SimOk, Projected, Solo;
    assert (Projected(s, q) + a) + b == Projected(s, q) + (a + b);
  }

  lemma SimulatesFinish(s: State, q: nat, r: nat)
    requires SimOk(s)
    ensures Simulates(s, Finish(s, r), q, [])
  {
    FinishSim(s, r);
    hide SimOk, PendingOps;
    if Solo(s, q) {
      assert Projected(s, q) + [] == Projected(s, q);
      if r == q {
        hide Finish;
        FinishQueues(s, r);
        assert forall u: nat :: u != q ==> Pending(Finish(s, r), u) == Pending(s, u);
      } else {
        assert Pending(s, r) == [];
      }
    }
  }

  lemma RunNowSim(s: State, q: nat, ms: seq<nat>, op: Op, wanted: bool)
    requires SimOk(s)
    ensures Simulates(s, RunNow(s, q, ms, op, wanted), q, [op])
  {
    hide SimOk, Finish, Perform, TakeMems, DropMems, MaybeEvent, Unseen;
    var event := EventHandle(s, wanted);
    var s1 := MaybeEvent(s, q, wanted, true);
    EventUnseen(s, q, wanted, true);
    var s2 := TakeMems(s1, ms);
    TakeMemsQuiet(s1, ms);
    MemsUnseen(s1, TakeMems(s1, ms));
    UnseenTrans(s, s1, s2);
    SimulatesUnseen(s, s2, q);
    SimulatesFinish(s2, q, q);
    var s3 := Finish(s2, q);
    SimulatesThen(s, s2, s3, q, [], []);
    PerformUnseen(s3, event, op);
    var s4 := Perform(s3, event, op);
    DropMemsQuiet(s4, ms);
    MemsUnseen(s4, DropMems(s4, ms));
    UnseenTrans(s3, s4, DropMems(s4, ms));
    RanAtOnce(s3, DropMems(s4, ms), q, op);
    SimulatesThen(s, s3, DropMems(s4, ms), q, [], [op]);
    var none: seq<Op> := [];
    assert none + [op] == [op] && none + none == none;
  }

  /** A write of a rectangle, whatever event it writes to. */
  lemma RunIntoSim(s: State, q: nat, ms: seq<nat>, op: Op, out: Option<nat>)
    requires SimOk(s)
    ensures Simulates(s, RunInto(s, q, ms, op, out), q, [op])
  {
    hide SimOk, RunNow, RunInto, Finish, TakeMems, Projected, Solo;
    var t, u := RunNow(s, q, ms, op, false), RunInto(s, q, ms, op, out);
    RunNowSim(s, q, ms, op, false);
    RunIntoIs(s, q, ms, op, out);
    assert Unseen(t, u) && u.log == t.log;
    SimulatesUnseen(t, u, q);
    SimulatesThen(s, t, u, q, [op], []);
    assert [op] + [] == [op];
  }

  /** With nothing pending, an operation issued now comes last. */
  lemma RanAtOnce(s: State, t: State, q: nat, op: Op)
    requires SimOk(s) && Unseen(s, t) && Pending(s, q) == [] && t.log == s.log + [op]
    ensures Simulates(s, t, q, [op])
  {
    UnseenSim(s, t, q);
    hide SimOk;
    assert forall r: nat :: Pending(t, r) == Pending(s, r);
    assert PendingOps(s, q) == [];
  }

  lemma DeferSim(s: State, q: nat, ms: seq<nat>, c: Command, wanted: bool)
    requires SimOk(s) && q < |s.queues| && !c.MapBuffer? && !c.RunKernel?
    ensures Simulates(s, Defer(s, q, ms, c, wanted), q, NodeOps(s, 0, Node(0, c, None)))
  {
    hide SimOk, RetainMems, MaybeEvent, Unseen, Append;
    var s1 := MaybeEvent(s, q, wanted, true);
    EventUnseen(s, q, wanted, true);
    var s2 := RetainMems(s1, ms);
    RetainMemsQuiet(s1, ms);
    MemsUnseen(s1, RetainMems(s1, ms));
    UnseenTrans(s, s1, s2);
    SimulatesUnseen(s, s2, q);
    UnseenQueues(s, s2);
    AppendSim(s2, q, c, EventHandle(s, wanted));
    Deferred(s2, q, c, EventHandle(s, wanted));
    SimulatesThen(s, s2, Append(s2, q, c, EventHandle(s, wanted)), q, [], NodeOps(s2, DevId(s2, q), Node(s2.nodes, c, EventHandle(s, wanted))));
    assert [] + NodeOps(s, 0, Node(0, c, None)) == NodeOps(s, 0, Node(0, c, None));
  }

  lemma UnseenQueues(s: State, t: State)
    requires Unseen(s, t)
    ensures |t.queues| == |s.queues|
  {
  }

  lemma Deferred(s: State, q: nat, c: Command, event: Option<nat>)
    requires SimOk(s) && q < |s.queues|
    requires NodeOk(s.(nodes := s.nodes + 1), Node(s.nodes, c, event))
    ensures Simulates(s, Append(s, q, c, event), q, NodeOps(s, DevId(s, q), Node(s.nodes, c, event)))
  {
    AppendSim(s, q, c, event);
    hide SimOk, PendingOps, NodeOps;
    assert forall r: nat :: r != q ==> Pending(Append(s, q, c, event), r) == Pending(s, r);
  }

  lemma MapSim(s: State, q: nat, m: nat, blocking: bool, offset: nat, size: nat, hostPtr: Option<int>, wanted: bool)
    requires SimOk(s) && q < |s.queues| && m < |s.mems|
    ensures Simulates(s, MapCall(s, q, m, blocking, offset, size, hostPtr, wanted), q,
                      if hostPtr.Some? then [OpMap(DevicePtr(s, m, DevId(s, q)), offset, size, hostPtr.value)] else [])
  {
    hide SimOk, Finish, Perform, MaybeEvent, Append;
    var event, id := EventHandle(s, wanted), |s.mappings|;
    var s0 := s.(mems := Retain(s.mems, m));
    assert Unseen(s, s0);
    var s1 := MaybeEvent(s0, q, wanted, hostPtr.Some?);
    EventUnseen(s0, q, wanted, hostPtr.Some?);
    UnseenTrans(s, s0, s1);
    if hostPtr.None? {
      var t := MarkComplete(s1.(mems := Leak(s1.mems, m)), event);
      assert Unseen(s1, t);
      UnseenTrans(s, s1, t);
      SimulatesUnseen(s, t, q);
    } else {
      var s2 := AddMapping(s1, m, Mapping(true, m, hostPtr.value, offset, size));
      assert Unseen(s1, s2);
      UnseenTrans(s, s1, s2);
      MapFacts(s, s1, s2, q, m, id, hostPtr.value, offset, size);
      hide Unseen, AddMapping;
      SimulatesUnseen(s, s2, q);
      var op := OpMap(DevicePtr(s, m, DevId(s, q)), offset, size, hostPtr.value);
      MapTail(s2, q, m, id, blocking, event, op);
      var t := MapCall(s, q, m, blocking, offset, size, hostPtr, wanted);
      SimulatesThen(s, s2, t, q, [], [op]);
      assert [] + [op] == [op];
    }
  }

  lemma MapFacts(s: State, s1: State, s2: State, q: nat, m: nat, id: nat, hostPtr: int, offset: nat, size: nat)
    requires m < |s.mems| && Unseen(s, s1) && Unseen(s, s2) && q < |s.queues| && id == |s1.mappings|
    requires s2 == AddMapping(s1, m, Mapping(true, m, hostPtr, offset, size))
    ensures q < |s2.queues| && m < |s2.mems| && id < |s2.mappings|
    ensures MapOp(s2, DevId(s2, q), m, id) == OpMap(DevicePtr(s, m, DevId(s, q)), offset, size, hostPtr)
  {
  }

  lemma MapTail(s: State, q: nat, m: nat, id: nat, blocking: bool, event: Option<nat>, op: Op)
    requires SimOk(s) && q < |s.queues| && m < |s.mems| && id < |s.mappings| && op == MapOp(s, DevId(s, q), m, id)
    ensures !blocking ==> Simulates(s, Append(s, q, MapBuffer(m, id), event), q, [op])
    ensures blocking ==> var t := Finish(s, q);
      Simulates(s, CountMap(Perform(t, event, MapOp(t, DevId(t, q), m, id)), m, 1), q, [op])
  {
    hide SimOk, Finish, Append, Perform;
    if blocking {
      var t := Finish(s, q);
      SimulatesFinish(s, q, q);
      FinishMapOp(s, q, m, id);
      PerformUnseen(t, event, op);
      var u := Perform(t, event, op);
      var v := CountMap(u, m, 1);
      assert Unseen(u, v) && v.log == u.log;
      UnseenTrans(t, u, v);
      RanAtOnce(t, v, q, op);
      SimulatesThen(s, t, v, q, [], [op]);
      assert [] + [op] == [op];
    } else {
      Deferred(s, q, MapBuffer(m, id), event);
    }
  }

  /** The drain before a blocking map moves neither the mapping nor the buffer. */
  lemma {:induction false} FinishMapOp(s: State, q: nat, m: nat, id: nat)
    requires SimOk(s) && m < |s.mems| && id < |s.mappings|
    ensures MapOp(Finish(s, q), DevId(Finish(s, q), q), m, id) == MapOp(s, DevId(s, q), m, id)
    decreases |Pending(s, q)|
  {
    hide SimOk;
    if Pending(s, q) != [] {
      ExecuteHeadSim(s, q);
      ExecuteHeadKeeps(s, q);
      hide ExecuteHead;
      FinishMapOp(ExecuteHead(s, q), q, m, id);
    }
  }

  // ----- kernels -----

  /** A launch owes the operation with the argument values of the moment it was enqueued. */
  lemma KernelSim(s: State, q: nat, k: nat, range: seq<nat>, wanted: bool)
    requires SimOk(s) && q < |s.queues| && k < |s.kernels|
    ensures Simulates(s, KernelCall(s, q, k, range, wanted), q,
                      [OpRun(k, range, LoadAll(s.blocks, s.kernels[k].data.arguments))])
  {
    hide SimOk, Snapshot, ArgBuffers, MaybeEvent, RetainMems, Append;
    var d, event := s.kernels[k].data, EventHandle(s, wanted);
    var s1 := MaybeEvent(s, q, wanted, true);
    EventUnseen(s, q, wanted, true);
    SimulatesUnseen(s, s1, q);
    var (blocks, args) := Snapshot(s1.blocks, d.arguments, s1.nodes, 0);
    var bufs := ArgBuffers(s1.blocks, d, 0);
    SnapshotOps(s, k, s1.nodes);
    var s2 := s1.(blocks := blocks, queues := Leak(Retain(s1.queues, q), q), kernels := Retain(s1.kernels, k));
    MoreBlocks(s1, s2, q);
    var s3 := RetainMems(s2, bufs);
    RetainMemsQuiet(s2, bufs);
    MemsUnseen(s2, RetainMems(s2, bufs));
    SimulatesUnseen(s2, s3, q);
    hide Unseen, Simulates, Solo;
    SimulatesThen(s, s1, s2, q, [], []);
    SimulatesThen(s, s2, s3, q, [] + [], []);
    LaunchDeferred(s, s3, q, RunKernel(k, range, args, bufs), event, s.kernels[k].data.arguments);
    assert [] + [] + [] + [OpRun(k, range, LoadAll(s.blocks, d.arguments))] == [OpRun(k, range, LoadAll(s.blocks, d.arguments))];
  }

  lemma SnapshotOps(s: State, k: nat, node: nat)
    requires SimOk(s) && k < |s.kernels|
    ensures var r := Snapshot(s.blocks, s.kernels[k].data.arguments, node, 0);
      && s.blocks <= r.0 && ArgsOk(node, r.1, r.0) && LoadAll(r.0, r.1) == LoadAll(s.blocks, s.kernels[k].data.arguments)
  {
    hide NodesOk, IdsOk, Snapshot;
    KernelReachable(s, k);
    SnapshotCopies(s.blocks, s.kernels[k].data.arguments, node, 0);
  }

  lemma LaunchDeferred(s: State, t: State, q: nat, c: Command, event: Option<nat>, arguments: seq<Argument>)
    requires Simulates(s, t, q, [] + [] + []) && q < |t.queues| && c.RunKernel?
    requires ArgsOk(t.nodes, c.arguments, t.blocks) && LoadAll(t.blocks, c.arguments) == LoadAll(s.blocks, arguments)
    ensures Simulates(s, Append(t, q, c, event), q, [] + [] + [] + [OpRun(c.kernel, c.range, LoadAll(s.blocks, arguments))])
  {
    hide SimOk, Append;
    Deferred(t, q, c, event);
    SimulatesThen(s, t, Append(t, q, c, event), q, [] + [] + [], [OpRun(c.kernel, c.range, LoadAll(s.blocks, arguments))]);
  }

  /** New blocks, and counters, disturb nothing. */
  lemma MoreBlocks(s: State, t: State, q: nat)
    requires SimOk(s) && t == s.(blocks := t.blocks, queues := t.queues, kernels := t.kernels)
    requires s.blocks <= t.blocks && SameArgs(s.kernels, t.kernels) && Unseen(s, t.(blocks := s.blocks))
    ensures Simulates(s, t, q, []) && (t.log == s.log ==> Projected(t, q) == Projected(s, q))
  {
    var u := t.(blocks := s.blocks);
    UnseenSim(s, u, q);
    SimulatesUnseen(s, u, q);
    KernelArgsFrame(u, t);
    assert Keeps(u, t, None);
    hide Keeps, KernelArgsOk, NodeOk;
    forall r, i | 0 <= r < |t.queues| && 0 <= i < |t.queues[r].data.pending|
      ensures NodeOk(t, t.queues[r].data.pending[i])
    {
      OpKept(u, t, u.queues[r].data.pending[i], 0, None);
    }
    if q < |u.queues| {
      assert forall i :: 0 <= i < |Pending(u, q)| ==> NodeOk(u, u.queues[q].data.pending[i]);
      ListOpsKept(u, t, DevId(u, q), Pending(u, q), None);
    }
    assert forall r: nat :: Pending(t, r) == Pending(u, r);
  }

  /** clSetKernelArg frees and allocates blocks of the kernel alone. */
  lemma SetArgSim(s: State, k: nat, index: nat, size: nat, value: Option<Value>, q: nat)
    requires SimOk(s)
    ensures Simulates(s, SetArg(s, k, index, size, value), q, [])
  {
    var t := SetArg(s, k, index, size, value);
    if k < |s.kernels| && index < |s.kernels[k].data.arguments| {
      assert Owned(s.blocks, s.kernels[k].data.arguments[index].block, OfKernel(k, index));
      SetArgOwned(s, k, index, size, value);
      assert Keeps(s, t, None);
      hide Keeps, KernelArgsOk, NodeOk, SetArg;
      forall r, i | 0 <= r < |t.queues| && 0 <= i < |t.queues[r].data.pending|
        ensures NodeOk(t, t.queues[r].data.pending[i])
      {
        OpKept(s, t, s.queues[r].data.pending[i], 0, None);
      }
      if q < |s.queues| {
        assert forall i :: 0 <= i < |Pending(s, q)| ==> NodeOk(s, s.queues[q].data.pending[i]);
        ListOpsKept(s, t, DevId(s, q), Pending(s, q), None);
      }
      assert forall r: nat :: Pending(t, r) == Pending(s, r);
    } else {
      SimulatesUnseen(s, t, q);
    }
  }

  lemma SetArgOwned(s: State, k: nat, index: nat, size: nat, value: Option<Value>)
    requires KernelArgsOk(s.kernels, s.blocks) && k < |s.kernels| && index < |s.kernels[k].data.arguments|
    ensures var t := SetArg(s, k, index, size, value);
      KernelArgsOk(t.kernels, t.blocks) && t == s.(kernels := t.kernels, blocks := t.blocks)
  {
    var t := SetArg(s, k, index, size, value);
    assert Owned(s.blocks, s.kernels[k].data.arguments[index].block, OfKernel(k, index));
    forall j, i | 0 <= j < |t.kernels| && 0 <= i < |t.kernels[j].data.arguments|
      ensures Owned(t.blocks, t.kernels[j].data.arguments[i].block, OfKernel(j, i))
    {
      assert Owned(s.blocks, s.kernels[j].data.arguments[i].block, OfKernel(j, i));
    }
  }

  lemma AddKernelSim(s: State, p: nat, isPointer: seq<bool>, isLocal: seq<bool>, localSizes: seq<nat>, q: nat)
    requires SimOk(s)
    ensures Simulates(s, AddKernel(s, p, isPointer, isLocal, localSizes), q, [])
  {
    var t := AddKernel(s, p, isPointer, isLocal, localSizes);
    assert Unseen(s, t.(kernels := s.kernels));
    SimulatesUnseen(s, t.(kernels := s.kernels), q);
    KernelOnly(t.(kernels := s.kernels), t, q) by {
      forall j, i | 0 <= j < |t.kernels| && 0 <= i < |t.kernels[j].data.arguments|
        ensures Owned(t.blocks, t.kernels[j].data.arguments[i].block, OfKernel(j, i))
      {
        if j < |s.kernels| { assert Owned(s.blocks, s.kernels[j].data.arguments[i].block, OfKernel(j, i)); }
      }
    }
  }

  lemma KernelOnly(s: State, t: State, q: nat)
    requires SimOk(s) && t == s.(kernels := t.kernels) && KernelArgsOk(t.kernels, t.blocks)
    ensures Simulates(s, t, q, [])
  {
    assert Keeps(s, t, None);
    hide Keeps, KernelArgsOk, NodeOk;
    forall r, i | 0 <= r < |t.queues| && 0 <= i < |t.queues[r].data.pending|
      ensures NodeOk(t, t.queues[r].data.pending[i])
    {
      OpKept(s, t, s.queues[r].data.pending[i], 0, None);
    }
    if q < |s.queues| {
      assert forall i :: 0 <= i < |Pending(s, q)| ==> NodeOk(s, s.queues[q].data.pending[i]);
      ListOpsKept(s, t, DevId(s, q), Pending(s, q), None);
    }
    assert forall r: nat :: Pending(t, r) == Pending(s, r);
  }
}
