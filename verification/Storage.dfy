/** Argument storage: a block is in use exactly while the argument of its kernel, or of its pending
    launch, points to it. None is lost and none is shared. */
module Storage {
  import opened RefCounts
  import opened Runtime
  import opened Frames
  import opened SimBooks
  import opened SimCalls
  import opened Tables

  predicate LaunchAt(queues: seq<Obj<QueueData>>, q: nat, j: nat, id: nat, i: nat, b: nat) {
    q < |queues| && j < |queues[q].data.pending|
    && var n := queues[q].data.pending[j];
       n.id == id && n.command.RunKernel? && i < |n.command.arguments| && n.command.arguments[i].block == Some(b)
  }

  /** The pointer that reaches block `b`. */
  ghost predicate PointedAt(s: State, b: nat)
    requires b < |s.blocks|
  {
    match s.blocks[b]
    case Freed => true
    case Block(_, OfKernel(k, i)) =>
      k < |s.kernels| && i < |s.kernels[k].data.arguments| && s.kernels[k].data.arguments[i].block == Some(b)
    case Block(_, OfNode(id, i)) => exists q: nat, j: nat :: LaunchAt(s.queues, q, j, id, i, b)
  }

  ghost predicate InUse(s: State) {
    forall b {:trigger s.blocks[b]} :: 0 <= b < |s.blocks| ==> PointedAt(s, b)
  }

  // ----- changes that lose no pointer -----

  ghost predicate SamePointers(a: seq<Obj<KernelData>>, b: seq<Obj<KernelData>>) {
    |a| <= |b| && forall k {:trigger a[k]} {:trigger b[k]} :: 0 <= k < |a| ==> b[k].data.arguments == a[k].data.arguments
  }

  ghost predicate KeepsPending(a: seq<Obj<QueueData>>, b: seq<Obj<QueueData>>) {
    |a| <= |b| && forall q {:trigger a[q]} {:trigger b[q]} :: 0 <= q < |a| ==> a[q].data.pending <= b[q].data.pending
  }

  ghost predicate Still(s: State, t: State) {
    t.blocks == s.blocks && SamePointers(s.kernels, t.kernels) && KeepsPending(s.queues, t.queues)
  }

  lemma StillInUse(s: State, t: State)
    requires InUse(s) && Still(s, t)
    ensures InUse(t)
  {
    forall b | 0 <= b < |t.blocks| ensures PointedAt(t, b) {
      assert PointedAt(s, b);
      if t.blocks[b].Block? && t.blocks[b].owner.OfNode? {
        var id, i := t.blocks[b].owner.node, t.blocks[b].owner.index;
        var q: nat, j: nat :| LaunchAt(s.queues, q, j, id, i, b);
        assert s.queues[q].data.pending <= t.queues[q].data.pending;
        assert LaunchAt(t.queues, q, j, id, i, b);
      }
    }
  }

  lemma StillTrans(s: State, t: State, u: State)
    requires Still(s, t) && Still(t, u)
    ensures Still(s, u)
  {
    forall k | 0 <= k < |s.kernels| ensures u.kernels[k].data.arguments == s.kernels[k].data.arguments {
      assert t.kernels[k].data.arguments == s.kernels[k].data.arguments;
    }
    forall q | 0 <= q < |s.queues| ensures s.queues[q].data.pending <= u.queues[q].data.pending {
      Prefixes(s.queues[q].data.pending, t.queues[q].data.pending, u.queues[q].data.pending);
    }
  }

  lemma Prefixes(a: seq<Node>, b: seq<Node>, c: seq<Node>)
    requires a <= b <= c
    ensures a <= c
  {
  }

  // ----- draining -----

  lemma {:induction false} FreedAll(blocks: seq<Block>, arguments: seq<Argument>, i: nat, b: nat)
    requires i < |arguments| && arguments[i].block == Some(b) && b < |blocks|
    ensures b < |FreeBlocks(blocks, arguments)| && FreeBlocks(blocks, arguments)[b] == Freed
    decreases |arguments|
  {
    var next := FreeBlock(blocks, arguments[0].block);
    FreedOnly(next, arguments[1..]);
    if i > 0 { FreedAll(next, arguments[1..], i - 1, b); }
  }

  /** Freeing the blocks of a launch and taking it off the queue loses no other pointer. */
  lemma PoppedInUse(s: State, q: nat, t: State)
    requires InUse(s) && Pending(s, q) != [] && Pending(s, q)[0].command.RunKernel? && SamePointers(s.kernels, t.kernels)
    requires t.queues == SetPending(s, q, Pending(s, q)[1..]).queues
    requires t.blocks == FreeBlocks(s.blocks, Pending(s, q)[0].command.arguments)
    ensures InUse(t)
  {
    var args := Pending(s, q)[0].command.arguments;
    FreedOnly(s.blocks, args);
    forall b | 0 <= b < |t.blocks| ensures PointedAt(t, b) {
      if t.blocks[b] != Freed {
        assert t.blocks[b] == s.blocks[b] && PointedAt(s, b);
        if s.blocks[b].owner.OfNode? {
          var id, i := s.blocks[b].owner.node, s.blocks[b].owner.index;
          var r: nat, j: nat :| LaunchAt(s.queues, r, j, id, i, b);
          if r == q && j == 0 { FreedAll(s.blocks, args, i, b); }
          MovedUp(s, q, t.queues, r, j, id, i, b);
        }
      }
    }
  }

  lemma MovedUp(s: State, q: nat, queues: seq<Obj<QueueData>>, r: nat, j: nat, id: nat, i: nat, b: nat)
    requires Pending(s, q) != [] && queues == SetPending(s, q, Pending(s, q)[1..]).queues && LaunchAt(s.queues, r, j, id, i, b)
    ensures (r == q && j == 0) || exists v: nat :: LaunchAt(queues, r, v, id, i, b)
  {
    if r != q {
      assert LaunchAt(queues, r, j, id, i, b);
    } else if j > 0 {
      assert LaunchAt(queues, r, j - 1, id, i, b);
    }
  }

  /** A command that is no launch has no blocks. */
  lemma OtherInUse(s: State, q: nat, t: State)
    requires InUse(s) && Pending(s, q) != [] && !Pending(s, q)[0].command.RunKernel? && SamePointers(s.kernels, t.kernels)
    requires t.queues == SetPending(s, q, Pending(s, q)[1..]).queues && t.blocks == s.blocks
    ensures InUse(t)
  {
    forall b | 0 <= b < |t.blocks| ensures PointedAt(t, b) {
      assert PointedAt(s, b);
      if t.blocks[b].Block? && t.blocks[b].owner.OfNode? {
        var id, i := s.blocks[b].owner.node, s.blocks[b].owner.index;
        var r: nat, j: nat :| LaunchAt(s.queues, r, j, id, i, b);
        MovedUp(s, q, t.queues, r, j, id, i, b);
      }
    }
  }

  lemma ExecuteBlocks(s: State, d: QueueData, n: Node)
    ensures Execute(s, d, n).blocks == if n.command.RunKernel? then FreeBlocks(s.blocks, n.command.arguments) else s.blocks
  {
    hide ReleaseMems, ReleaseKernel, FreeBlocks, CommandOp;
  }

  lemma PassesPointers(s: State, t: State)
    requires Passes(s, t)
    ensures SamePointers(s.kernels, t.kernels)
  {
  }

  lemma ExecuteHeadInUse(s: State, q: nat)
    requires InUse(s) && SimOk(s) && Pending(s, q) != []
    ensures InUse(ExecuteHead(s, q))
  {
    var s1, t := SetPending(s, q, Pending(s, q)[1..]), ExecuteHead(s, q);
    ExecuteHeadPasses(s, q);
    PassesPointers(s, t);
    ExecuteBlocks(s1, s.queues[q].data, Pending(s, q)[0]);
    assert t.queues == s1.queues by { hide Execute; }
    hide InUse, Passes, SimOk, SamePointers;
    hide ExecuteHead, FreeBlocks;
    if Pending(s, q)[0].command.RunKernel? { PoppedInUse(s, q, t); } else { OtherInUse(s, q, t); }
  }

  lemma {:induction false} FinishInUse(s: State, q: nat)
    requires InUse(s) && SimOk(s)
    ensures InUse(Finish(s, q)) && SimOk(Finish(s, q))
    decreases |Pending(s, q)|
  {
    if Pending(s, q) != [] {
      ExecuteHeadInUse(s, q);
      ExecuteHeadSim(s, q);
      hide InUse, SimOk, ExecuteHead;
      FinishInUse(ExecuteHead(s, q), q);
    }
  }

  lemma {:induction false} WaitInUse(s: State, es: seq<nat>)
    requires InUse(s) && SimOk(s)
    ensures InUse(WaitForEvents(s, es))
    decreases |es|
  {
    hide InUse, SimOk, Finish;
    if es != [] {
      var t := if es[0] < |s.events| then Finish(s, s.events[es[0]].data.queue) else s;
      if es[0] < |s.events| { FinishInUse(s, s.events[es[0]].data.queue); }
      WaitInUse(t, es[1..]);
    }
  }

  // ----- calls -----

  /** A change that no pending command notices, a drain, and a change that loses no pointer. */
  lemma AroundFinish(s: State, t: State, q: nat, u: State)
    requires InUse(s) && SimOk(s) && Unseen(s, t) && Still(s, t) && Still(Finish(t, q), u)
    ensures InUse(u)
  {
    hide InUse, SimOk, Unseen, Still, Finish;
    UnseenSim(s, t, q);
    StillInUse(s, t);
    FinishInUse(t, q);
    StillInUse(Finish(t, q), u);
  }

  lemma SameStill(s: State, t: State)
    requires t.blocks == s.blocks && t.kernels == s.kernels && t.queues == s.queues
    ensures Still(s, t)
  {
  }

  lemma EventStill(s: State, q: nat, wanted: bool, inOrder: bool)
    ensures Still(s, MaybeEvent(s, q, wanted, inOrder))
  {
  }

  lemma PerformStill(s: State, event: Option<nat>, op: Op)
    ensures Still(s, Perform(s, event, op))
  {
  }

  lemma RunAroundInUse(s: State, q: nat, ms: seq<nat>, op: Op, event: Option<nat>)
    requires InUse(s) && SimOk(s)
    ensures InUse(DropMems(Perform(Finish(TakeMems(s, ms), q), event, op), ms))
  {
    hide InUse, SimOk, Unseen, Still, Finish, Perform, TakeMems, DropMems;
    var s1 := TakeMems(s, ms);
    TakeMemsQuiet(s, ms);
    MemsUnseen(s, s1);
    SameStill(s, s1);
    var s2 := Finish(s1, q);
    PerformStill(s2, event, op);
    var s3 := Perform(s2, event, op);
    SameStill(s3, DropMems(s3, ms));
    StillTrans(s2, s3, DropMems(s3, ms));
    AroundFinish(s, s1, q, DropMems(s3, ms));
  }

  lemma RunNowInUse(s: State, q: nat, ms: seq<nat>, op: Op, wanted: bool)
    requires InUse(s) && SimOk(s)
    ensures InUse(RunNow(s, q, ms, op, wanted))
  {
    hide InUse, SimOk, Unseen, Still, Finish, Perform, TakeMems, DropMems, MaybeEvent;
    var s1 := MaybeEvent(s, q, wanted, true);
    EventStill(s, q, wanted, true);
    EventUnseen(s, q, wanted, true);
    StillInUse(s, s1);
    UnseenSim(s, s1, q);
    RunAroundInUse(s1, q, ms, op, EventHandle(s, wanted));
  }

  lemma RunIntoInUse(s: State, q: nat, ms: seq<nat>, op: Op, out: Option<nat>)
    requires InUse(s) && SimOk(s)
    ensures InUse(RunInto(s, q, ms, op, out))
  {
    hide InUse, SimOk, Finish, Perform, TakeMems, DropMems;
    RunAroundInUse(s, q, ms, op, out);
  }

  lemma AppendStill(s: State, q: nat, c: Command, event: Option<nat>)
    ensures Still(s, Append(s, q, c, event))
  {
  }

  lemma DeferInUse(s: State, q: nat, ms: seq<nat>, c: Command, wanted: bool)
    requires InUse(s)
    ensures InUse(Defer(s, q, ms, c, wanted))
  {
    hide InUse, Still, MaybeEvent, RetainMems, Append;
    var s1 := MaybeEvent(s, q, wanted, true);
    EventStill(s, q, wanted, true);
    SameStill(s1, RetainMems(s1, ms));
    AppendStill(RetainMems(s1, ms), q, c, EventHandle(s, wanted));
    StillTrans(s, s1, RetainMems(s1, ms));
    StillTrans(s, RetainMems(s1, ms), Defer(s, q, ms, c, wanted));
    StillInUse(s, Defer(s, q, ms, c, wanted));
  }

  lemma MapInUse(s: State, q: nat, m: nat, blocking: bool, offset: nat, size: nat, hostPtr: Option<int>, wanted: bool)
    requires InUse(s) && SimOk(s)
    ensures InUse(MapCall(s, q, m, blocking, offset, size, hostPtr, wanted))
  {
    var event, t := EventHandle(s, wanted), MapCall(s, q, m, blocking, offset, size, hostPtr, wanted);
    var s0 := s.(mems := Retain(s.mems, m));
    SameStill(s, s0);
    hide InUse, SimOk, Still, Finish, Perform, MapOp, MaybeEvent, Append;
    var s1 := MaybeEvent(s0, q, wanted, hostPtr.Some?);
    EventStill(s0, q, wanted, hostPtr.Some?);
    StillTrans(s, s0, s1);
    if hostPtr.None? {
      SameStill(s1, t);
      StillTrans(s, s1, t);
      StillInUse(s, t);
    } else {
      var mapping := Mapping(true, m, hostPtr.value, offset, size);
      var s2 := AddMapping(s1, m, mapping);
      SameStill(s1, s2);
      StillTrans(s, s1, s2);
      if blocking {
        BeforeMapUnseen(s, q, m, wanted, mapping);
        hide AddMapping, Unseen, CountMap;
        MapTailInUse(s, s2, q, m, |s.mappings|, event);
      } else {
        AppendStill(s2, q, MapBuffer(m, |s.mappings|), event);
        StillTrans(s, s2, t);
        StillInUse(s, t);
      }
    }
  }

  lemma MapTailInUse(s: State, t: State, q: nat, m: nat, id: nat, event: Option<nat>)
    requires InUse(s) && SimOk(s) && Unseen(s, t) && Still(s, t)
    ensures var u := Finish(t, q); InUse(CountMap(Perform(u, event, MapOp(u, DevId(u, q), m, id)), m, 1))
  {
    hide InUse, SimOk, Unseen, Still, Finish, Perform, MapOp;
    var u := Finish(t, q);
    var op := MapOp(u, DevId(u, q), m, id);
    var v := Perform(u, event, op);
    PerformStill(u, event, op);
    SameStill(v, CountMap(v, m, 1));
    StillTrans(u, v, CountMap(v, m, 1));
    AroundFinish(s, t, q, CountMap(v, m, 1));
  }

  lemma UnmapInUse(s: State, q: nat, m: nat, id: nat, flush: bool, wanted: bool)
    requires InUse(s)
    ensures InUse(UnmapCall(s, q, m, id, flush, wanted))
  {
    var s1, t := UnmapDevice(s, q, m, id, flush, wanted), UnmapCall(s, q, m, id, flush, wanted);
    assert Still(s, s1);
    hide InUse, Still, UnmapDevice, ReleaseMem;
    SameStill(s1, t);
    StillTrans(s, s1, t);
    StillInUse(s, t);
  }

  lemma ReleaseQueueInUse(s: State, q: nat)
    requires InUse(s) && SimOk(s)
    ensures InUse(ReleaseQueue(s, q))
  {
    var t := Finish(s, q);
    FinishInUse(s, q);
    assert Still(t, ReleaseQueue(s, q)) by { hide Finish; }
    hide InUse, Still, Finish;
    StillInUse(t, ReleaseQueue(s, q));
  }

  lemma ReleaseEventInUse(s: State, e: nat)
    requires InUse(s) && SimOk(s)
    ensures InUse(ReleaseEvent(s, e))
  {
    hide InUse, SimOk, ReleaseQueue;
    if e < |s.events| {
      var s1 := s.(events := Dec(s.events, e));
      var q := s1.events[e].data.queue;
      assert Still(s, s1) && Unseen(s, s1);
      StillInUse(s, s1);
      hide Unseen;
      UnseenSim(s, s1, q);
      if s1.events[e].refcount == 0 {
        var s2 := if q < |s1.queues| && s1.queues[q].data.gpu then s1.(queues := Leak(s1.queues, q)) else ReleaseQueue(s1, q);
        ReleaseQueueInUse(s1, q);
        assert Still(s1, s1.(queues := Leak(s1.queues, q)));
        StillInUse(s1, s1.(queues := Leak(s1.queues, q)));
        hide Still;
        SameStill(s2, ReleaseEvent(s, e));
        StillInUse(s2, ReleaseEvent(s, e));
      }
    }
  }

  /** Calls that change no block and take no command off a queue. */
  lemma PlainInUse(s: State, c: Call)
    requires InUse(s) && SimOk(s)
    requires Retains(c) || c.ReleaseMemObject? || c.ReleaseProgramCall? || c.ReleaseKernelCall? || c.StoreHost?
    ensures InUse(Step(s, c))
  {
    var t := Step(s, c);
    LeavingTables(s, c);
    TablesPointers(s, t);
    PlainQueues(s, c);
    hide InUse, SimOk, SameTables, Step, SamePointers, KeepsPending;
    StillInUse(s, t);
  }

  lemma PlainQueues(s: State, c: Call)
    requires Retains(c) || c.ReleaseMemObject? || c.ReleaseProgramCall? || c.ReleaseKernelCall? || c.StoreHost?
    ensures KeepsPending(s.queues, Step(s, c).queues) && Step(s, c).blocks == s.blocks
  {
    hide ReleaseMem, ReleaseProgram, ReleaseKernel;
  }

  lemma CreatedInUse(s: State, c: Call)
    requires InUse(s) && (c.CreateQueue? || c.CreateBuffer? || c.CreateSubBuffer? || c.CreateProgram?)
    ensures InUse(Effect(s, c))
  {
    hide InUse, InitOps, SubPointers;
    assert Still(s, Effect(s, c));
    hide Still, Effect;
    StillInUse(s, Effect(s, c));
  }

  lemma TablesPointers(s: State, t: State)
    requires SameTables(s, t)
    ensures SamePointers(s.kernels, t.kernels)
  {
  }

  lemma NewKernelInUse(s: State, c: Call)
    requires InUse(s) && c.CreateKernel?
    ensures InUse(Effect(s, c))
  {
    assert Still(s, Effect(s, c));
    hide InUse, Still, Effect;
    StillInUse(s, Effect(s, c));
  }

  /** Setting an argument frees the block it had, and the new one is reached through it. */
  lemma SetArgInUse(s: State, k: nat, index: nat, size: nat, value: Option<Value>)
    requires InUse(s) && SimOk(s)
    ensures InUse(SetArg(s, k, index, size, value))
  {
    var t := SetArg(s, k, index, size, value);
    if k < |s.kernels| && index < |s.kernels[k].data.arguments| {
      assert Owned(s.blocks, s.kernels[k].data.arguments[index].block, OfKernel(k, index));
      hide SimOk;
      forall b | 0 <= b < |t.blocks| ensures PointedAt(t, b) {
        if b < |s.blocks| {
          assert PointedAt(s, b);
          if t.blocks[b].Block? && t.blocks[b].owner.OfNode? {
            var id, i := s.blocks[b].owner.node, s.blocks[b].owner.index;
            var q: nat, j: nat :| LaunchAt(s.queues, q, j, id, i, b);
            assert LaunchAt(t.queues, q, j, id, i, b);
          }
        }
      }
    }
  }

  /** Block `b` is the copy for one of the arguments, of which `args` are those from `i` on. */
  predicate CopyOf(blocks: seq<Block>, args: seq<Argument>, node: nat, i: nat, b: nat)
    requires b < |blocks|
  {
    match blocks[b]
    case Block(_, OfNode(n, index)) => n == node && i <= index < i + |args| && args[index - i].block == Some(b)
    case _ => false
  }

  lemma SnapshotUnfolds(blocks: seq<Block>, arguments: seq<Argument>, node: nat, i: nat)
    requires i < |arguments|
    ensures var v := Load(blocks, arguments[i]).1;
      var bs := if v.None? then blocks else blocks + [Block(v.value, OfNode(node, i))];
      var r, rest := Snapshot(blocks, arguments, node, i), Snapshot(bs, arguments, node, i + 1);
      r.0 == rest.0 && r.1 == [arguments[i].(block := if v.None? then None else Some(|blocks|))] + rest.1
  {
    hide Load;
  }

  /** The copies of a launch are reached through its own arguments. */
  lemma {:induction false} SnapshotPointed(blocks: seq<Block>, arguments: seq<Argument>, node: nat, i: nat)
    requires i <= |arguments|
    ensures var r := Snapshot(blocks, arguments, node, i);
      |blocks| <= |r.0| && |r.1| == |arguments| - i && forall b {:trigger r.0[b]} :: |blocks| <= b < |r.0| ==> CopyOf(r.0, r.1, node, i, b)
    decreases |arguments| - i
  {
    if i < |arguments| {
      var v := Load(blocks, arguments[i]).1;
      var bs := if v.None? then blocks else blocks + [Block(v.value, OfNode(node, i))];
      SnapshotPointed(bs, arguments, node, i + 1);
      SnapshotUnfolds(blocks, arguments, node, i);
      SnapshotGrows(bs, arguments, node, i + 1);
      hide Load, Snapshot;
      var r, rest := Snapshot(blocks, arguments, node, i), Snapshot(bs, arguments, node, i + 1);
      forall b | |blocks| <= b < |r.0| ensures CopyOf(r.0, r.1, node, i, b) {
        if b >= |bs| {
          assert CopyOf(rest.0, rest.1, node, i + 1, b);
          LaterCopy(r.0, r.1, node, i, b);
        } else {
          assert r.0[b] == bs[b];
        }
      }
    }
  }

  lemma LaterCopy(blocks: seq<Block>, args: seq<Argument>, node: nat, i: nat, b: nat)
    requires args != [] && b < |blocks| && CopyOf(blocks, args[1..], node, i + 1, b)
    ensures CopyOf(blocks, args, node, i, b)
  {
  }

  lemma LaunchedInUse(s: State, t: State, q: nat, c: Command, event: Option<nat>)
    requires InUse(s) && q < |t.queues| && SamePointers(s.kernels, t.kernels) && KeepsPending(s.queues, t.queues)
    requires c.RunKernel? && s.blocks <= t.blocks
    requires forall b {:trigger t.blocks[b]} :: |s.blocks| <= b < |t.blocks| ==> CopyOf(t.blocks, c.arguments, t.nodes, 0, b)
    ensures InUse(Append(t, q, c, event))
  {
    var u := Append(t, q, c, event);
    var last := |Pending(t, q)|;
    assert u.queues[q].data.pending[last] == Node(t.nodes, c, event);
    forall b | 0 <= b < |u.blocks| ensures PointedAt(u, b) {
      if b < |s.blocks| {
        assert PointedAt(s, b) && u.blocks[b] == s.blocks[b];
        if u.blocks[b].Block? && u.blocks[b].owner.OfNode? {
          var id, i := s.blocks[b].owner.node, s.blocks[b].owner.index;
          var r: nat, j: nat :| LaunchAt(s.queues, r, j, id, i, b);
          assert s.queues[r].data.pending <= t.queues[r].data.pending <= u.queues[r].data.pending;
          assert LaunchAt(u.queues, r, j, id, i, b);
        }
      } else {
        assert CopyOf(t.blocks, c.arguments, t.nodes, 0, b);
        assert LaunchAt(u.queues, q, last, t.nodes, t.blocks[b].owner.index, b);
      }
    }
  }

  lemma LaunchInUse(s: State, q: nat, k: nat, range: seq<nat>, wanted: bool)
    requires InUse(s) && q < |s.queues| && k < |s.kernels|
    ensures InUse(KernelCall(s, q, k, range, wanted))
  {
    var d, s1 := s.kernels[k].data, MaybeEvent(s, q, wanted, true);
    SnapshotPointed(s1.blocks, d.arguments, s1.nodes, 0);
    SnapshotGrows(s1.blocks, d.arguments, s1.nodes, 0);
    hide InUse, CopyOf, Snapshot, ArgBuffers, RetainMems, Append;
    var (blocks, args) := Snapshot(s1.blocks, d.arguments, s1.nodes, 0);
    var bufs := ArgBuffers(s1.blocks, d, 0);
    var s2 := s1.(blocks := blocks, queues := Leak(Retain(s1.queues, q), q), kernels := Retain(s1.kernels, k));
    var s3 := RetainMems(s2, bufs);
    assert SamePointers(s.kernels, s3.kernels) && KeepsPending(s.queues, s3.queues);
    hide SamePointers, KeepsPending;
    assert s3.blocks == blocks && s3.nodes == s1.nodes && s1.blocks == s.blocks;
    forall b | |s.blocks| <= b < |s3.blocks| ensures CopyOf(s3.blocks, args, s3.nodes, 0, b) {
      assert blocks[b] == s3.blocks[b];
    }
    LaunchedInUse(s, s3, q, RunKernel(k, range, args, bufs), EventHandle(s, wanted));
  }

  lemma CommandInUse(s: State, c: Call)
    requires InUse(s) && SimOk(s) && Commands(c)
    ensures InUse(Effect(s, c))
  {
    hide InUse, SimOk, RunNow, RunInto, Defer, MapCall, UnmapCall, DevicePtr, DevId, DevIndex, FoundMapping;
    match c
    case EnqueueRead(q, m, blocking, offset, cb, ptr, _, event) =>
      var addr := DevicePtr(s, m, DevId(s, q)) + offset;
      RunNowInUse(s, q, [m], OpRead(ptr, addr, cb), event);
      DeferInUse(s, q, [m], ReadBuffer(ptr, addr, cb, m), event);
    case EnqueueWrite(q, m, blocking, offset, cb, ptr, _, event) =>
      RunNowInUse(s, q, [m], OpWrite(ptr, DevicePtr(s, m, DevId(s, q)) + offset, cb), event);
      DeferInUse(s, q, [m], WriteBuffer(ptr, DevicePtr(s, m, DevIndex(s, q)) + offset, cb, m), event);
    case EnqueueCopy(q, m1, m2, o1, o2, cb, event) =>
      DeferInUse(s, q, [m1, m2], CopyBuffer(DevicePtr(s, m1, DevId(s, q)) + o1, DevicePtr(s, m2, DevId(s, q)) + o2, cb, m1, m2), event);
    case EnqueueReadRect(q, m, ptr, shape, _, event) =>
      RunNowInUse(s, q, [m], OpRect(RectRead, DevicePtr(s, m, DevId(s, q)), ptr, shape), event);
    case EnqueueWriteRect(q, m, ptr, shape, _, out) =>
      RunIntoInUse(s, q, [m], OpRect(RectWrite, DevicePtr(s, m, DevId(s, q)), ptr, shape), out);
    case EnqueueCopyRect(q, m1, m2, shape, _, event) =>
      RunNowInUse(s, q, [m1, m2], OpRect(RectCopy, DevicePtr(s, m1, DevId(s, q)), DevicePtr(s, m2, DevId(s, q)), shape), event);
    case EnqueueMap(q, m, blocking, offset, size, _, hostPtr, event) => MapInUse(s, q, m, blocking, offset, size, hostPtr, event);
    case EnqueueUnmap(q, m, ptr, flush, event) =>
      if FoundMapping(s, m, ptr).Some? { UnmapInUse(s, q, m, FoundMapping(s, m, ptr).value, flush, event); }
    case EnqueueMarker(q) => DeferInUse(s, q, [], Marker, true);
  }

  lemma QueueInUse(s: State, c: Call)
    requires InUse(s) && SimOk(s) && (c.ReleaseQueueCall? || c.ReleaseEventCall? || c.FinishCall? || c.WaitCall?)
    ensures InUse(Effect(s, c))
  {
    CreditTables(s, c);
    var t := Credit(s, c);
    assert Still(s, t);
    StillInUse(s, t);
    hide InUse, SimOk, ReleaseQueue, ReleaseEvent, Finish, WaitForEvents, Still;
    match c
    case ReleaseQueueCall(q) => ReleaseQueueInUse(t, q);
    case ReleaseEventCall(e) => ReleaseEventInUse(t, e);
    case FinishCall(q) => FinishInUse(s, q);
    case WaitCall(es) => WaitInUse(s, es);
  }

  lemma LaunchNamesObjects(s: State, c: Call)
    requires c.EnqueueKernel? && Accepted(s, c)
    ensures c.q < |s.queues| && c.k < |s.kernels|
  {
  }

  lemma StepInUse(s: State, c: Call)
    requires InUse(s) && SimOk(s)
    ensures InUse(Step(s, c))
  {
    hide InUse, SimOk, Effect, Accepted;
    if Accepted(s, c) {
      if Commands(c) {
        CommandInUse(s, c);
      } else if c.ReleaseQueueCall? || c.ReleaseEventCall? || c.FinishCall? || c.WaitCall? {
        QueueInUse(s, c);
      } else if c.SetKernelArg? {
        EffectOfSetArg(s, c);
        SetArgInUse(s, c.k, c.index, c.size, c.value);
      } else if c.EnqueueKernel? {
        LaunchNamesObjects(s, c);
        EffectOfLaunch(s, c);
        LaunchInUse(s, c.q, c.k, c.range, c.event);
      } else if c.CreateKernel? {
        NewKernelInUse(s, c);
      } else if c.CreateQueue? || c.CreateBuffer? || c.CreateSubBuffer? || c.CreateProgram? {
        CreatedInUse(s, c);
      } else {
        PlainInUse(s, c);
      }
    }
  }

  // ----- what follows -----

  predicate AllocatedFor(s: State, b: nat, owner: Owner) {
    b < |s.blocks| && s.blocks[b].Block? && s.blocks[b].owner == owner
  }

  ghost predicate PointsTo(s: State, owner: Owner, b: nat) {
    match owner
    case OfKernel(k, i) => k < |s.kernels| && i < |s.kernels[k].data.arguments| && s.kernels[k].data.arguments[i].block == Some(b)
    case OfNode(id, i) => exists q: nat, j: nat :: LaunchAt(s.queues, q, j, id, i, b)
  }

  /** A block is in use exactly while the argument it was allocated for points to it; no other
      argument ever does. */
  lemma UsedByOwner(s: State, owner: Owner, b: nat)
    requires InUse(s) && SimOk(s)
    ensures AllocatedFor(s, b, owner) <==> PointsTo(s, owner, b)
  {
    if b < |s.blocks| { assert PointedAt(s, b); }
    if PointsTo(s, owner, b) {
      match owner
      case OfKernel(k, i) => assert Owned(s.blocks, s.kernels[k].data.arguments[i].block, OfKernel(k, i));
      case OfNode(id, i) =>
        var q: nat, j: nat :| LaunchAt(s.queues, q, j, id, i, b);
        assert NodeOk(s, s.queues[q].data.pending[j]);
        assert Owned(s.blocks, s.queues[q].data.pending[j].command.arguments[i].block, OfNode(id, i));
    }
  }
}
