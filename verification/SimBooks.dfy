/** What a pending command will do when it is executed, and why nothing that happens before
    then can change it: launches own deep copies of their arguments, mappings and device
    pointers do not move. */
module SimBooks {
  import opened RefCounts
  import opened Runtime
  import opened Frames

  // ----- ownership of argument blocks -----

  ghost predicate Owned(blocks: seq<Block>, b: Option<nat>, owner: Owner) {
    b.Some? ==> b.value < |blocks| && blocks[b.value].Block? && blocks[b.value].owner == owner
  }

  /** A kernel's argument pointers reach blocks of its own. */
  ghost predicate KernelArgsOk(kernels: seq<Obj<KernelData>>, blocks: seq<Block>) {
    forall k, i {:trigger kernels[k].data.arguments[i]} :: 0 <= k < |kernels| && 0 <= i < |kernels[k].data.arguments| ==>
      Owned(blocks, kernels[k].data.arguments[i].block, OfKernel(k, i))
  }

  /** So do a pending launch's; a pending map names a mapping and a buffer that exist. */
  ghost predicate NodeOk(s: State, n: Node) {
    && n.id < s.nodes
    && (n.command.MapBuffer? ==> n.command.mapping < |s.mappings| && n.command.buffer < |s.mems|)
    && (n.command.RunKernel? ==> ArgsOk(n.id, n.command.arguments, s.blocks))
  }

  ghost predicate ArgsOk(id: nat, arguments: seq<Argument>, blocks: seq<Block>) {
    forall i {:trigger arguments[i]} :: 0 <= i < |arguments| ==> Owned(blocks, arguments[i].block, OfNode(id, i))
  }

  ghost predicate NodesOk(s: State) {
    forall q, i {:trigger s.queues[q].data.pending[i]} :: 0 <= q < |s.queues| && 0 <= i < |s.queues[q].data.pending| ==>
      NodeOk(s, s.queues[q].data.pending[i])
  }

  /** No two pending nodes are the same node. */
  ghost predicate IdsOk(queues: seq<Obj<QueueData>>) {
    forall q, i, r, j {:trigger queues[q].data.pending[i], queues[r].data.pending[j]} ::
      0 <= q < |queues| && 0 <= i < |queues[q].data.pending| && 0 <= r < |queues| && 0 <= j < |queues[r].data.pending| ==>
      queues[q].data.pending[i].id == queues[r].data.pending[j].id ==> q == r && i == j
  }

  ghost predicate SimOk(s: State) {
    KernelArgsOk(s.kernels, s.blocks) && NodesOk(s) && IdsOk(s.queues)
  }

  // ----- what the execution of a pending command depends on -----

  /** Blocks of pending launches stay, those of node `x` excepted. */
  ghost predicate KeepsBlocks(a: seq<Block>, b: seq<Block>, x: Option<nat>) {
    |a| <= |b| && forall i {:trigger a[i]} {:trigger b[i]} :: 0 <= i < |a| ==>
      a[i].Block? && a[i].owner.OfNode? && Some(a[i].owner.node) != x ==> b[i] == a[i]
  }

  ghost predicate Keeps(s: State, t: State, x: Option<nat>) {
    s.nodes <= t.nodes && MemsGrow(s.mems, t.mems) && MappingsGrow(s.mappings, t.mappings) && KeepsBlocks(s.blocks, t.blocks, x)
  }

  lemma KeepsTrans(s: State, t: State, u: State, x: Option<nat>)
    requires Keeps(s, t, x) && Keeps(t, u, x)
    ensures Keeps(s, u, x)
  {
    assert forall m :: 0 <= m < |s.mems| ==> SameFixed(t.mems[m].data, u.mems[m].data);
    assert forall i :: 0 <= i < |s.mappings| ==> u.mappings[i] == t.mappings[i].(live := u.mappings[i].live);
  }

  /** A pending command does the same whenever it is executed. */
  lemma OpKept(s: State, t: State, n: Node, devId: nat, x: Option<nat>)
    requires NodeOk(s, n) && Keeps(s, t, x) && Some(n.id) != x
    ensures NodeOk(t, n)
    ensures !n.command.Marker? ==> CommandOp(t, devId, n.command) == CommandOp(s, devId, n.command)
  {
    if n.command.RunKernel? {
      var args := n.command.arguments;
      assert forall i :: 0 <= i < |args| ==> Owned(t.blocks, args[i].block, OfNode(n.id, i)) && Load(t.blocks, args[i]) == Load(s.blocks, args[i]);
      assert LoadAll(t.blocks, args) == LoadAll(s.blocks, args);
    }
  }

  function NodeOps(s: State, devId: nat, n: Node): seq<Op> {
    if n.command.Marker? then [] else [CommandOp(s, devId, n.command)]
  }

  /** The operations a list of pending nodes stands for. */
  function ListOps(s: State, devId: nat, nodes: seq<Node>): seq<Op> {
    if nodes == [] then [] else NodeOps(s, devId, nodes[0]) + ListOps(s, devId, nodes[1..])
  }

  function PendingOps(s: State, q: nat): seq<Op> { ListOps(s, DevId(s, q), Pending(s, q)) }

  /** Device operations issued so far, and those the queue still owes, in order. */
  function Projected(s: State, q: nat): seq<Op> { s.log + PendingOps(s, q) }

  lemma {:induction false} ListOpsKept(s: State, t: State, devId: nat, nodes: seq<Node>, x: Option<nat>)
    requires Keeps(s, t, x) && forall i :: 0 <= i < |nodes| ==> NodeOk(s, nodes[i]) && Some(nodes[i].id) != x
    ensures ListOps(t, devId, nodes) == ListOps(s, devId, nodes)
    decreases |nodes|
  {
    hide Keeps, NodeOk;
    if nodes != [] {
      OpKept(s, t, nodes[0], devId, x);
      ListOpsKept(s, t, devId, nodes[1..], x);
    }
  }

  lemma {:induction false} ListOpsSnoc(s: State, devId: nat, nodes: seq<Node>, n: Node)
    ensures ListOps(s, devId, nodes + [n]) == ListOps(s, devId, nodes) + NodeOps(s, devId, n)
    decreases |nodes|
  {
    hide NodeOps;
    if nodes == [] {
      assert nodes + [n] == [n];
      assert ListOps(s, devId, [n]) == NodeOps(s, devId, n) + ListOps(s, devId, []);
    } else {
      assert (nodes + [n])[0] == nodes[0] && (nodes + [n])[1..] == nodes[1..] + [n];
      ListOpsSnoc(s, devId, nodes[1..], n);
    }
  }

  // ----- the pieces of a drain -----

  lemma ReleaseMemsKeeps(s: State, ms: seq<nat>)
    ensures Keeps(s, ReleaseMems(s, ms), None)
  {
    ReleaseMemsQuiet(s, ms);
  }

  /** The pointer reaches a block of node `id`, or one already freed. */
  ghost predicate OfLaunch(blocks: seq<Block>, b: Option<nat>, id: nat) {
    b.Some? ==>
      b.value < |blocks|
      && (blocks[b.value].Block? ==> blocks[b.value].owner.OfNode? && blocks[b.value].owner.node == id)
  }

  /** Freeing the blocks of one launch frees no one else's. */
  lemma {:induction false} FreeBlocksKeeps(blocks: seq<Block>, arguments: seq<Argument>, id: nat)
    requires forall i {:trigger arguments[i]} :: 0 <= i < |arguments| ==> OfLaunch(blocks, arguments[i].block, id)
    ensures var r := FreeBlocks(blocks, arguments);
      |r| == |blocks| && forall b {:trigger r[b]} {:trigger blocks[b]} :: 0 <= b < |r| && blocks[b].Block? ==>
        blocks[b].owner.OfKernel? || blocks[b].owner.node != id ==> r[b] == blocks[b]
    decreases |arguments|
  {
    if arguments != [] {
      FreeBlocksKeeps(FreeBlock(blocks, arguments[0].block), arguments[1..], id);
    }
  }

  ghost predicate SameArgs(a: seq<Obj<KernelData>>, b: seq<Obj<KernelData>>) {
    |a| == |b| && forall k {:trigger a[k]} {:trigger b[k]} :: 0 <= k < |a| ==> a[k].data.arguments == b[k].data.arguments
  }

  lemma {:induction false} OrphanArgs(kernels: seq<Obj<KernelData>>, ks: seq<nat>)
    ensures SameArgs(kernels, Orphan(kernels, ks))
    decreases |ks|
  {
    if ks != [] {
      var k := ks[0];
      OrphanArgs(if k < |kernels| then SetData(kernels, k, kernels[k].data.(program := None)) else kernels, ks[1..]);
    }
  }

  lemma ReleaseProgramArgs(s: State, p: nat)
    ensures SameArgs(s.kernels, ReleaseProgram(s, p).kernels)
  {
    if p < |s.programs| { OrphanArgs(s.kernels, s.programs[p].data.kernels); }
  }

  lemma ReleaseKernelArgs(s: State, k: nat)
    ensures SameArgs(s.kernels, ReleaseKernel(s, k).kernels)
  {
    hide ReleaseProgram;
    if k < |s.kernels| && s.kernels[k].data.program.Some? && s.kernels[k].data.program.value < |s.programs| {
      var p := s.kernels[k].data.program.value;
      var d := s.programs[p].data;
      ReleaseProgramArgs(
        s.(kernels := Release(s.kernels, k), programs := SetData(s.programs, p, d.(kernels := Unlink(d.kernels, k)))), p);
    }
  }

  /** One round of the drain issues the node's operation and disturbs no other pending node. */
  lemma ExecuteSim(s: State, d: QueueData, n: Node)
    requires NodeOk(s, n) && KernelArgsOk(s.kernels, s.blocks)
    ensures var t := Execute(s, d, n);
      && Keeps(s, t, Some(n.id)) && t.log == s.log + NodeOps(s, d.devId, n) && KernelArgsOk(t.kernels, t.blocks)
  {
    var t := Execute(s, d, n);
    if !n.command.Marker? {
      var s1 := Perform(s, n.event, CommandOp(s, d.devId, n.command));
      FinalizeSim(s1, d, n);
      assert Keeps(s, s1, Some(n.id));
      hide Finalize, Perform;
      KeepsTrans(s, s1, t, Some(n.id));
    }
  }

  lemma FinalizeSim(s: State, d: QueueData, n: Node)
    requires NodeOk(s, n) && KernelArgsOk(s.kernels, s.blocks)
    ensures var t := Finalize(s, d, n.command); Keeps(s, t, Some(n.id)) && KernelArgsOk(t.kernels, t.blocks)
  {
    var c := n.command;
    var s1, t := ReleaseMems(s, CommandMems(c)), Finalize(s, d, c);
    ReleaseMemsKeeps(s, CommandMems(c));
    hide ReleaseMems, ReleaseKernel, FreeBlocks;
    if c.RunKernel? {
      assert forall i :: 0 <= i < |c.arguments| ==> Owned(s.blocks, c.arguments[i].block, OfNode(n.id, i));
      FreeBlocksKeeps(s.blocks, c.arguments, n.id);
      var s2 := s1.(blocks := FreeBlocks(s1.blocks, c.arguments));
      ReleaseKernelArgs(s2, c.kernel);
      assert SameArgs(s.kernels, t.kernels);
      KernelArgsFrame(s, t);
    }
  }

  lemma KernelArgsFrame(s: State, t: State)
    requires KernelArgsOk(s.kernels, s.blocks) && SameArgs(s.kernels, t.kernels) && |s.blocks| <= |t.blocks|
    requires forall b {:trigger t.blocks[b]} :: 0 <= b < |s.blocks| ==>
      s.blocks[b].Block? && s.blocks[b].owner.OfKernel? ==> t.blocks[b] == s.blocks[b]
    ensures KernelArgsOk(t.kernels, t.blocks)
  {
    forall k, i | 0 <= k < |t.kernels| && 0 <= i < |t.kernels[k].data.arguments|
      ensures Owned(t.blocks, t.kernels[k].data.arguments[i].block, OfKernel(k, i))
    {
      assert Owned(s.blocks, s.kernels[k].data.arguments[i].block, OfKernel(k, i));
    }
  }

  lemma ExecuteHeadKeeps(s: State, q: nat)
    requires SimOk(s) && Pending(s, q) != []
    ensures var t, n := ExecuteHead(s, q), Pending(s, q)[0];
      && Keeps(s, t, Some(n.id)) && KernelArgsOk(t.kernels, t.blocks)
      && t.log == s.log + NodeOps(s, DevId(s, q), n) && t.queues == SetPending(s, q, Pending(s, q)[1..]).queues
  {
    hide IdsOk, KernelArgsOk, Execute;
    var p := Pending(s, q);
    var s1, t, n := SetPending(s, q, p[1..]), ExecuteHead(s, q), p[0];
    assert NodeOk(s, s.queues[q].data.pending[0]);
    assert NodeOk(s1, n) && Keeps(s, s1, Some(n.id));
    ExecuteSim(s1, s.queues[q].data, n);
    KeepsTrans(s, s1, t, Some(n.id));
    assert NodeOps(s1, DevId(s, q), n) == NodeOps(s, DevId(s, q), n);
  }

  lemma TailNodes(s: State, q: nat)
    requires SimOk(s) && Pending(s, q) != []
    ensures forall i :: 0 <= i < |Pending(s, q)[1..]| ==>
      NodeOk(s, Pending(s, q)[1..][i]) && Pending(s, q)[1..][i].id != Pending(s, q)[0].id
  {
    hide NodeOk, KernelArgsOk;
    var p := Pending(s, q);
    forall i | 0 <= i < |p[1..]| ensures NodeOk(s, p[1..][i]) && p[1..][i].id != p[0].id {
      assert s.queues[q].data.pending[i + 1] == p[1..][i] && s.queues[q].data.pending[0] == p[0];
    }
  }

  lemma ExecuteHeadSim(s: State, q: nat)
    requires SimOk(s) && Pending(s, q) != []
    ensures SimOk(ExecuteHead(s, q)) && Projected(ExecuteHead(s, q), q) == Projected(s, q)
  {
    ExecuteHeadKeeps(s, q);
    TailNodes(s, q);
    hide ExecuteHead, Keeps, NodeOk, KernelArgsOk, NodesOk, IdsOk, NodeOps;
    var p, t := Pending(s, q), ExecuteHead(s, q);
    var devId, n := DevId(s, q), p[0];
    PopNodes(s, q, t);
    ListOpsKept(s, t, devId, p[1..], Some(n.id));
    assert (s.log + NodeOps(s, devId, n)) + ListOps(s, devId, p[1..]) == s.log + (NodeOps(s, devId, n) + ListOps(s, devId, p[1..]));
  }

  lemma PopNodes(s: State, q: nat, t: State)
    requires SimOk(s) && Pending(s, q) != [] && Keeps(s, t, Some(Pending(s, q)[0].id))
    requires t.queues == SetPending(s, q, Pending(s, q)[1..]).queues
    ensures NodesOk(t) && IdsOk(t.queues)
  {
    hide Keeps, NodeOk, KernelArgsOk;
    var p := Pending(s, q);
    forall r, i | 0 <= r < |t.queues| && 0 <= i < |t.queues[r].data.pending|
      ensures NodeOk(t, t.queues[r].data.pending[i])
    {
      var j := if r == q then i + 1 else i;
      var n := s.queues[r].data.pending[j];
      assert t.queues[r].data.pending[i] == n && s.queues[q].data.pending[0] == p[0];
      OpKept(s, t, n, 0, Some(p[0].id));
    }
    PopIds(s, q, t);
  }

  lemma PopIds(s: State, q: nat, t: State)
    requires IdsOk(s.queues) && Pending(s, q) != [] && t.queues == SetPending(s, q, Pending(s, q)[1..]).queues
    ensures IdsOk(t.queues)
  {
    forall r, i, u, j | 0 <= r < |t.queues| && 0 <= i < |t.queues[r].data.pending| && 0 <= u < |t.queues|
      && 0 <= j < |t.queues[u].data.pending| && t.queues[r].data.pending[i].id == t.queues[u].data.pending[j].id
      ensures r == u && i == j
    {
      var i', j' := if r == q then i + 1 else i, if u == q then j + 1 else j;
      assert t.queues[r].data.pending[i] == s.queues[r].data.pending[i'];
      assert t.queues[u].data.pending[j] == s.queues[u].data.pending[j'];
    }
  }

  /** clFinish issues exactly the operations the pending list stands for, in order. */
  lemma {:induction false} FinishSim(s: State, q: nat)
    requires SimOk(s)
    ensures SimOk(Finish(s, q)) && Projected(Finish(s, q), q) == Projected(s, q) && Finish(s, q).log == Projected(s, q)
    decreases |Pending(s, q)|
  {
    hide SimOk, ExecuteHead;
    if Pending(s, q) != [] {
      ExecuteHeadSim(s, q);
      FinishSim(ExecuteHead(s, q), q);
    }
  }
}
