/** What calls leave alone: the arguments of kernels, the references the application holds, and the
    contents of argument blocks until they are freed. */
module Tables {
  import opened RefCounts
  import opened Runtime
  import opened Frames
  import opened SimBooks
  import opened SimCalls

  // ----- kernels, programs and blocks -----

  predicate SameKernel(a: KernelData, b: KernelData) {
    a.context == b.context && a.isPointer == b.isPointer && a.isLocal == b.isLocal && a.arguments == b.arguments
  }

  ghost predicate SameKernels(a: seq<Obj<KernelData>>, b: seq<Obj<KernelData>>) {
    |a| == |b| && forall k {:trigger a[k]} {:trigger b[k]} :: 0 <= k < |a| ==> SameKernel(a[k].data, b[k].data)
  }

  ghost predicate SamePrograms(a: seq<Obj<ProgramData>>, b: seq<Obj<ProgramData>>) {
    |a| == |b| && forall p {:trigger a[p]} {:trigger b[p]} :: 0 <= p < |a| ==> a[p].data.context == b[p].data.context
  }

  predicate OfAKernel(b: Block) { b.Block? && b.owner.OfKernel? }

  /** The argument storage of kernels is the same; that of launches may be freed in one and not in
      the other. */
  ghost predicate SameBlocks(a: seq<Block>, b: seq<Block>) {
    |a| == |b| && forall i {:trigger a[i]} {:trigger b[i]} :: 0 <= i < |a| ==> OfAKernel(a[i]) || OfAKernel(b[i]) ==> a[i] == b[i]
  }

  ghost predicate SameTables(s: State, t: State) {
    SameKernels(s.kernels, t.kernels) && SamePrograms(s.programs, t.programs) && SameBlocks(s.blocks, t.blocks)
  }

  /** A block keeps its value until it is freed, and is never used again. */
  ghost predicate Ages(a: seq<Block>, b: seq<Block>) {
    |a| <= |b| && forall i {:trigger a[i]} {:trigger b[i]} :: 0 <= i < |a| ==> b[i] == a[i] || b[i] == Freed
  }

  // ----- what the application holds -----

  /** The references the application holds to an object; one that is yet to be made will be handed
      to it with one. */
  function Has<T>(objs: seq<Obj<T>>, i: nat): nat { if i < |objs| then objs[i].app else 1 }

  ghost predicate SameHas<T>(a: seq<Obj<T>>, b: seq<Obj<T>>) {
    |a| <= |b| && forall i: nat {:trigger Has(a, i)} {:trigger Has(b, i)} :: Has(b, i) == Has(a, i)
  }

  ghost predicate SameHeld(s: State, t: State) {
    SameHas(s.mems, t.mems) && SameHas(s.queues, t.queues) && SameHas(s.events, t.events)
    && SameHas(s.kernels, t.kernels) && SameHas(s.programs, t.programs)
  }

  ghost predicate Passes(s: State, t: State) {
    SameTables(s, t) && Ages(s.blocks, t.blocks) && SameHeld(s, t)
  }

  lemma SameHasTrans<T>(a: seq<Obj<T>>, b: seq<Obj<T>>, c: seq<Obj<T>>)
    requires SameHas(a, b) && SameHas(b, c)
    ensures SameHas(a, c)
  {
    forall i: nat ensures Has(c, i) == Has(a, i) { assert Has(b, i) == Has(a, i); }
  }

  lemma SameHeldTrans(s: State, t: State, u: State)
    requires SameHeld(s, t) && SameHeld(t, u)
    ensures SameHeld(s, u)
  {
    hide SameHas;
    SameHasTrans(s.mems, t.mems, u.mems);
    SameHasTrans(s.queues, t.queues, u.queues);
    SameHasTrans(s.events, t.events, u.events);
    SameHasTrans(s.kernels, t.kernels, u.kernels);
    SameHasTrans(s.programs, t.programs, u.programs);
  }

  lemma AgesTrans(a: seq<Block>, b: seq<Block>, c: seq<Block>)
    requires Ages(a, b) && Ages(b, c)
    ensures Ages(a, c)
  {
    forall i | 0 <= i < |a| ensures c[i] == a[i] || c[i] == Freed { assert b[i] == a[i] || b[i] == Freed; }
  }

  lemma TablesTrans(s: State, t: State, u: State)
    requires SameTables(s, t) && SameTables(t, u)
    ensures SameTables(s, u)
  {
    assert forall k :: 0 <= k < |s.kernels| ==> SameKernel(t.kernels[k].data, u.kernels[k].data);
    assert forall p :: 0 <= p < |s.programs| ==> t.programs[p].data.context == u.programs[p].data.context;
    assert forall i :: 0 <= i < |s.blocks| ==> OfAKernel(t.blocks[i]) || OfAKernel(u.blocks[i]) ==> t.blocks[i] == u.blocks[i];
  }

  lemma PassesTrans(s: State, t: State, u: State)
    requires Passes(s, t) && Passes(t, u)
    ensures Passes(s, u)
  {
    hide SameTables, Ages, SameHeld;
    TablesTrans(s, t, u);
    AgesTrans(s.blocks, t.blocks, u.blocks);
    SameHeldTrans(s, t, u);
  }

  /** Kernels, programs and blocks are not touched. */
  lemma UntouchedPasses(s: State, t: State)
    requires t.kernels == s.kernels && t.programs == s.programs && t.blocks == s.blocks
    requires SameHas(s.mems, t.mems) && SameHas(s.queues, t.queues) && SameHas(s.events, t.events)
    ensures Passes(s, t)
  {
    hide SameHas;
    assert SameHas(s.kernels, t.kernels) && SameHas(s.programs, t.programs) by { HasSelf(s.kernels); HasSelf(s.programs); }
  }

  lemma HasSelf<T>(a: seq<Obj<T>>)
    ensures SameHas(a, a)
  {
  }

  lemma SelfPasses(s: State)
    ensures Passes(s, s)
  {
    hide Passes;
    HasSelf(s.mems);
    HasSelf(s.queues);
    HasSelf(s.events);
    UntouchedPasses(s, s);
  }

  /** Only memory objects and mappings change. */
  lemma MemsPass(s: State, t: State)
    requires SameButMems(s, t) && SameHas(s.mems, t.mems)
    ensures Passes(s, t)
  {
    hide Passes, SameHas;
    HasSelf(s.queues);
    HasSelf(s.events);
    UntouchedPasses(s, t);
  }

  // ----- memory objects -----

  lemma ReleaseMemHas(s: State, m: nat)
    ensures SameHas(s.mems, ReleaseMem(s, m).mems)
  {
    hide FreeMappings;
  }

  lemma {:induction false} ReleaseMemsHas(s: State, ms: seq<nat>)
    ensures SameHas(s.mems, ReleaseMems(s, ms).mems)
    decreases |ms|
  {
    hide SameHas, ReleaseMem;
    if ms == [] {
      HasSelf(s.mems);
    } else {
      var t := ReleaseMem(s, ms[0]);
      ReleaseMemHas(s, ms[0]);
      ReleaseMemsHas(t, ms[1..]);
      SameHasTrans(s.mems, t.mems, ReleaseMems(s, ms).mems);
    }
  }

  lemma {:induction false} RetainMemsHas(s: State, ms: seq<nat>)
    ensures SameHas(s.mems, RetainMems(s, ms).mems)
    decreases |ms|
  {
    if ms != [] {
      var t := s.(mems := Retain(s.mems, ms[0]));
      assert SameHas(s.mems, t.mems);
      hide SameHas, Retain;
      RetainMemsHas(t, ms[1..]);
      SameHasTrans(s.mems, t.mems, RetainMems(s, ms).mems);
    }
  }

  /** References taken for the length of a call. */
  ghost predicate Borrows(a: Mems, b: Mems, ms: seq<nat>) {
    |a| == |b| && forall i: nat {:trigger Has(b, i)} :: i < |a| ==> Has(b, i) == Has(a, i) + multiset(ms)[i]
  }

  lemma {:induction false} TakeBorrows(s: State, ms: seq<nat>)
    ensures Borrows(s.mems, TakeMems(s, ms).mems, ms)
    decreases |ms|
  {
    if ms != [] {
      var t := s.(mems := Take(Retain(s.mems, ms[0]), ms[0]));
      TakeBorrows(t, ms[1..]);
      assert ms == [ms[0]] + ms[1..];
      forall i: nat | i < |s.mems| ensures Has(TakeMems(s, ms).mems, i) == Has(s.mems, i) + multiset(ms)[i] {
        assert Has(t.mems, i) == Has(s.mems, i) + if i == ms[0] then 1 else 0;
        assert Has(TakeMems(t, ms[1..]).mems, i) == Has(t.mems, i) + multiset(ms[1..])[i];
      }
    }
  }

  lemma {:induction false} DropReturns(s: State, a: Mems, ms: seq<nat>)
    requires Borrows(a, s.mems, ms)
    ensures SameHas(a, DropMems(s, ms).mems)
    decreases |ms|
  {
    if ms != [] {
      var t := ReleaseMem(s.(mems := GiveUp(s.mems, ms[0])), ms[0]);
      ReleaseMemHas(s.(mems := GiveUp(s.mems, ms[0])), ms[0]);
      hide ReleaseMem;
      assert ms == [ms[0]] + ms[1..];
      forall i: nat | i < |a| ensures Has(t.mems, i) == Has(a, i) + multiset(ms[1..])[i] {
        assert Has(s.mems, i) == Has(a, i) + multiset(ms)[i];
        assert Has(t.mems, i) == Has(GiveUp(s.mems, ms[0]), i);
      }
      ReleaseMemLength(s.(mems := GiveUp(s.mems, ms[0])), ms[0]);
      DropReturns(t, a, ms[1..]);
    }
  }

  lemma ReleaseMemLength(s: State, m: nat)
    ensures |ReleaseMem(s, m).mems| == |s.mems|
  {
    hide FreeMappings;
  }

  // ----- programs and kernels -----

  lemma {:induction false} OrphanKernels(kernels: seq<Obj<KernelData>>, ks: seq<nat>)
    ensures SameKernels(kernels, Orphan(kernels, ks)) && SameHas(kernels, Orphan(kernels, ks))
    decreases |ks|
  {
    if ks != [] {
      var k := ks[0];
      var next := if k < |kernels| then SetData(kernels, k, kernels[k].data.(program := None)) else kernels;
      OrphanKernels(next, ks[1..]);
      assert forall j :: 0 <= j < |kernels| ==> SameKernel(next[j].data, Orphan(next, ks[1..])[j].data);
      assert SameHas(kernels, next);
      SameHasTrans(kernels, next, Orphan(next, ks[1..]));
    }
  }

  /** Only kernels and programs change. */
  lemma ProgramsPass(s: State, t: State)
    requires SameButPrograms(s, t) && SameKernels(s.kernels, t.kernels) && SamePrograms(s.programs, t.programs)
    requires SameHas(s.kernels, t.kernels) && SameHas(s.programs, t.programs)
    ensures Passes(s, t)
  {
    hide SameHas, SameKernels, SamePrograms;
    HasSelf(s.mems);
    HasSelf(s.queues);
    HasSelf(s.events);
  }

  lemma ReleaseProgramPasses(s: State, p: nat)
    ensures Passes(s, ReleaseProgram(s, p))
  {
    var t := ReleaseProgram(s, p);
    if p < |s.programs| { OrphanKernels(s.kernels, Release(s.programs, p)[p].data.kernels); }
    hide Orphan, Passes;
    assert SameKernels(s.kernels, t.kernels) && SamePrograms(s.programs, t.programs);
    ProgramsPass(s, t);
  }

  lemma ReleaseKernelPasses(s: State, k: nat)
    ensures Passes(s, ReleaseKernel(s, k))
  {
    hide ReleaseProgram, Unlink, Passes;
    SelfPasses(s);
    if k < |s.kernels| {
      var d := s.kernels[k].data;
      ProgramsPass(s, s.(kernels := Release(s.kernels, k)));
      ProgramsPass(s, s.(kernels := Dec(s.kernels, k)));
      if d.program.Some? && d.program.value < |s.programs| {
        var p := d.program.value;
        var t := s.(kernels := Release(s.kernels, k),
                    programs := SetData(s.programs, p, s.programs[p].data.(kernels := Unlink(s.programs[p].data.kernels, k))));
        ProgramsPass(s, t);
        ReleaseProgramPasses(t, p);
        PassesTrans(s, t, ReleaseProgram(t, p));
      }
    }
  }

  // ----- draining -----

  lemma FreeBlocksSame(blocks: seq<Block>, arguments: seq<Argument>, id: nat)
    requires forall i {:trigger arguments[i]} :: 0 <= i < |arguments| ==> OfLaunch(blocks, arguments[i].block, id)
    ensures SameBlocks(blocks, FreeBlocks(blocks, arguments)) && Ages(blocks, FreeBlocks(blocks, arguments))
  {
    FreeBlocksKeeps(blocks, arguments, id);
    FreedOnly(blocks, arguments);
    hide FreeBlocks;
  }

  lemma {:induction false} FreedOnly(blocks: seq<Block>, arguments: seq<Argument>)
    ensures var r := FreeBlocks(blocks, arguments); |r| == |blocks| && forall i {:trigger r[i]} :: 0 <= i < |r| ==> r[i] == blocks[i] || r[i] == Freed
    decreases |arguments|
  {
    if arguments != [] { FreedOnly(FreeBlock(blocks, arguments[0].block), arguments[1..]); }
  }

  /** Only blocks change. */
  lemma BlocksPass(s: State, t: State)
    requires t == s.(blocks := t.blocks) && SameBlocks(s.blocks, t.blocks) && Ages(s.blocks, t.blocks)
    ensures Passes(s, t)
  {
    hide SameBlocks, Ages;
    HasSelf(s.mems);
    HasSelf(s.queues);
    HasSelf(s.events);
    HasSelf(s.kernels);
    HasSelf(s.programs);
  }

  lemma FinalizePasses(s: State, d: QueueData, n: Node)
    requires NodeOk(s, n)
    ensures Passes(s, Finalize(s, d, n.command))
  {
    var c := n.command;
    var s1, t := ReleaseMems(s, CommandMems(c)), Finalize(s, d, c);
    ReleaseMemsHas(s, CommandMems(c));
    MemsPass(s, s1);
    if c.RunKernel? {
      assert forall i :: 0 <= i < |c.arguments| ==> Owned(s.blocks, c.arguments[i].block, OfNode(n.id, i));
      FreeBlocksSame(s.blocks, c.arguments, n.id);
      hide ReleaseMems, ReleaseKernel, FreeBlocks, Passes, SameBlocks, Ages;
      var s2 := s1.(blocks := FreeBlocks(s1.blocks, c.arguments));
      BlocksPass(s1, s2);
      PassesTrans(s, s1, s2);
      ReleaseKernelPasses(s2, c.kernel);
      ProgramsPass(s2, s2.(kernels := Leak(s2.kernels, c.kernel)));
      PassesTrans(s, s2, t);
    } else {
      hide ReleaseMems, Passes;
      if c.MapBuffer? {
        MemsPass(s1, t);
        PassesTrans(s, s1, t);
      }
    }
  }

  lemma WriteStatusHas(s: State, event: Option<nat>, values: seq<int>)
    ensures SameHas(s.events, WriteStatus(s, event, values).events)
  {
  }

  /** Only queues and events change. */
  lemma EventsPass(s: State, t: State)
    requires t == s.(queues := t.queues, events := t.events, nodes := t.nodes, log := t.log)
    requires SameHas(s.queues, t.queues) && SameHas(s.events, t.events)
    ensures Passes(s, t)
  {
    hide Passes, SameHas;
    HasSelf(s.mems);
    UntouchedPasses(s, t);
  }

  lemma MarkCompletePasses(s: State, event: Option<nat>)
    ensures Passes(s, MarkComplete(s, event))
  {
    hide Passes;
    WriteStatusHas(s, event, [CL_RUNNING, CL_COMPLETE]);
    EventsPass(s, MarkComplete(s, event));
  }

  lemma PerformPasses(s: State, event: Option<nat>, op: Op)
    ensures Passes(s, Perform(s, event, op))
  {
    var s1 := MarkSubmitted(s, event);
    var s2 := MarkRunning(s1, event);
    var s3 := s2.(log := s2.log + [op]);
    WriteStatusHas(s, event, [CL_QUEUED, CL_SUBMITTED]);
    WriteStatusHas(s1, event, [CL_SUBMITTED, CL_RUNNING]);
    WriteStatusHas(s3, event, [CL_RUNNING, CL_COMPLETE]);
    hide Passes, SameHas;
    SameHasTrans(s.events, s1.events, s2.events);
    SameHasTrans(s.events, s2.events, Perform(s, event, op).events);
    HasSelf(s.queues);
    EventsPass(s, Perform(s, event, op));
  }

  lemma SetPendingPasses(s: State, q: nat, nodes: seq<Node>)
    ensures Passes(s, SetPending(s, q, nodes))
  {
    var t := SetPending(s, q, nodes);
    assert SameHas(s.queues, t.queues);
    hide Passes, SameHas;
    HasSelf(s.events);
    EventsPass(s, t);
  }

  lemma ExecuteHeadPasses(s: State, q: nat)
    requires SimOk(s) && Pending(s, q) != []
    ensures Passes(s, ExecuteHead(s, q))
  {
    var d, n := s.queues[q].data, Pending(s, q)[0];
    assert NodeOk(s, s.queues[q].data.pending[0]);
    var s1 := SetPending(s, q, Pending(s, q)[1..]);
    SetPendingPasses(s, q, Pending(s, q)[1..]);
    hide SimOk, Finalize, CommandOp, Passes;
    if n.command.Marker? {
      MarkCompletePasses(s1, n.event);
      PassesTrans(s, s1, ExecuteHead(s, q));
    } else {
      var s2 := Perform(s1, n.event, CommandOp(s1, d.devId, n.command));
      assert NodeOk(s2, n);
      PerformPasses(s1, n.event, CommandOp(s1, d.devId, n.command));
      FinalizePasses(s2, d, n);
      hide Perform;
      PassesTrans(s, s1, s2);
      PassesTrans(s, s2, Finalize(s2, d, n.command));
    }
  }

  lemma {:induction false} FinishPasses(s: State, q: nat)
    requires SimOk(s)
    ensures Passes(s, Finish(s, q))
    decreases |Pending(s, q)|
  {
    hide Passes;
    if Pending(s, q) != [] {
      ExecuteHeadPasses(s, q);
      ExecuteHeadSim(s, q);
      hide SimOk, ExecuteHead;
      FinishPasses(ExecuteHead(s, q), q);
      PassesTrans(s, ExecuteHead(s, q), Finish(s, q));
    } else {
      SelfPasses(s);
    }
  }

  lemma {:induction false} WaitPasses(s: State, es: seq<nat>)
    requires SimOk(s)
    ensures Passes(s, WaitForEvents(s, es))
    decreases |es|
  {
    hide SimOk, Finish, Passes;
    SelfPasses(s);
    if es != [] && es[0] < |s.events| {
      var q := s.events[es[0]].data.queue;
      FinishPasses(s, q);
      FinishSim(s, q);
      WaitPasses(Finish(s, q), es[1..]);
      PassesTrans(s, Finish(s, q), WaitForEvents(s, es));
    } else if es != [] {
      WaitPasses(s, es[1..]);
    }
  }

  /** A change that no pending command notices, then a drain. */
  lemma UnseenFinish(s: State, t: State, q: nat)
    requires SimOk(s) && Unseen(s, t) && Passes(s, t)
    ensures Passes(s, Finish(t, q))
  {
    UnseenSim(s, t, q);
    hide SimOk, Unseen, Finish, Passes;
    FinishPasses(t, q);
    PassesTrans(s, t, Finish(t, q));
  }

  lemma MaybeEventPasses(s: State, q: nat, wanted: bool, inOrder: bool)
    ensures Passes(s, MaybeEvent(s, q, wanted, inOrder))
  {
    var t := MaybeEvent(s, q, wanted, inOrder);
    assert SameHas(s.queues, t.queues) && SameHas(s.events, t.events);
    hide Passes, SameHas;
    EventsPass(s, t);
  }

  /** What a blocking command leaves but for the references it takes to its buffers. */
  ghost predicate PassesButMems(s: State, t: State) {
    SameTables(s, t) && Ages(s.blocks, t.blocks)
    && SameHas(s.queues, t.queues) && SameHas(s.events, t.events) && SameHas(s.kernels, t.kernels) && SameHas(s.programs, t.programs)
  }

  lemma ButMemsTrans(s: State, t: State, u: State)
    requires PassesButMems(s, t) && PassesButMems(t, u)
    ensures PassesButMems(s, u)
  {
    hide SameTables, Ages, SameHas;
    TablesTrans(s, t, u);
    AgesTrans(s.blocks, t.blocks, u.blocks);
    SameHasTrans(s.queues, t.queues, u.queues);
    SameHasTrans(s.events, t.events, u.events);
    SameHasTrans(s.kernels, t.kernels, u.kernels);
    SameHasTrans(s.programs, t.programs, u.programs);
  }

  lemma OnlyMems(s: State, t: State)
    requires SameButMems(s, t)
    ensures PassesButMems(s, t)
  {
    SelfPasses(s);
  }

  lemma PassesSplit(s: State, t: State)
    ensures Passes(s, t) <==> PassesButMems(s, t) && SameHas(s.mems, t.mems)
  {
  }

  lemma BorrowedStay(a: Mems, b: Mems, c: Mems, ms: seq<nat>)
    requires Borrows(a, b, ms) && SameHas(b, c) && |c| == |b|
    ensures Borrows(a, c, ms)
  {
    forall i: nat | i < |a| ensures Has(c, i) == Has(a, i) + multiset(ms)[i] { assert Has(b, i) == Has(c, i); }
  }

  lemma RunAround(s: State, q: nat, ms: seq<nat>, op: Op, event: Option<nat>)
    requires SimOk(s)
    ensures Passes(s, DropMems(Perform(Finish(TakeMems(s, ms), q), event, op), ms))
  {
    hide SimOk, Finish, Perform, TakeMems, DropMems, Unseen, Passes;
    var s1 := TakeMems(s, ms);
    TakeMemsQuiet(s, ms);
    MemsUnseen(s, s1);
    UnseenSim(s, s1, q);
    TakeBorrows(s, ms);
    OnlyMems(s, s1);
    var s2 := Finish(s1, q);
    FinishPasses(s1, q);
    FinishQuiet(s1, q);
    var s3 := Perform(s2, event, op);
    PerformPasses(s2, event, op);
    PerformQuiet(s2, event, op);
    PassesTrans(s1, s2, s3);
    PassesSplit(s1, s3);
    var s4 := DropMems(s3, ms);
    assert |s3.mems| == |s1.mems| by { SameMemCount(s1, s2); }
    hide Quiet, Borrows, SameHas, PassesButMems;
    BorrowedStay(s.mems, s1.mems, s3.mems, ms);
    DropReturns(s3, s.mems, ms);
    OnlyMems(s3, s4);
    ButMemsTrans(s, s1, s3);
    ButMemsTrans(s, s3, s4);
    PassesSplit(s, s4);
  }

  lemma SameMemCount(s: State, t: State)
    requires Quiet(s, t)
    ensures |t.mems| == |s.mems|
  {
  }

  lemma RunNowPasses(s: State, q: nat, ms: seq<nat>, op: Op, wanted: bool)
    requires SimOk(s)
    ensures Passes(s, RunNow(s, q, ms, op, wanted))
  {
    hide SimOk, Finish, Perform, TakeMems, DropMems, Unseen, Passes, MaybeEvent;
    var s1 := MaybeEvent(s, q, wanted, true);
    MaybeEventPasses(s, q, wanted, true);
    EventUnseen(s, q, wanted, true);
    UnseenSim(s, s1, q);
    RunAround(s1, q, ms, op, EventHandle(s, wanted));
    PassesTrans(s, s1, RunNow(s, q, ms, op, wanted));
  }

  lemma DeferPasses(s: State, q: nat, ms: seq<nat>, c: Command, wanted: bool)
    ensures Passes(s, Defer(s, q, ms, c, wanted))
  {
    var s1 := MaybeEvent(s, q, wanted, true);
    MaybeEventPasses(s, q, wanted, true);
    hide Passes, MaybeEvent, RetainMems, SameHas, Append;
    var s2 := RetainMems(s1, ms);
    RetainMemsHas(s1, ms);
    MemsPass(s1, s2);
    PassesTrans(s, s1, s2);
    AppendPasses(s2, q, c, EventHandle(s, wanted));
    PassesTrans(s, s2, Append(s2, q, c, EventHandle(s, wanted)));
  }

  lemma AppendPasses(s: State, q: nat, c: Command, event: Option<nat>)
    ensures Passes(s, Append(s, q, c, event))
  {
    var t := Append(s, q, c, event);
    assert SameHas(s.queues, t.queues);
    hide Passes, SameHas;
    HasSelf(s.events);
    EventsPass(s, t);
  }

  lemma MapPasses(s: State, q: nat, m: nat, blocking: bool, offset: nat, size: nat, hostPtr: Option<int>, wanted: bool)
    requires SimOk(s)
    ensures Passes(s, MapCall(s, q, m, blocking, offset, size, hostPtr, wanted))
  {
    var event, t := EventHandle(s, wanted), MapCall(s, q, m, blocking, offset, size, hostPtr, wanted);
    var s0 := s.(mems := Retain(s.mems, m));
    MemsPass(s, s0);
    hide SimOk, Finish, Perform, MapOp, Passes, MaybeEvent, Append, MarkComplete;
    var s1 := MaybeEvent(s0, q, wanted, hostPtr.Some?);
    MaybeEventPasses(s0, q, wanted, hostPtr.Some?);
    PassesTrans(s, s0, s1);
    if hostPtr.None? {
      MemsPass(s1, s1.(mems := Leak(s1.mems, m)));
      PassesTrans(s, s1, s1.(mems := Leak(s1.mems, m)));
      MarkCompletePasses(s1.(mems := Leak(s1.mems, m)), event);
      PassesTrans(s, s1.(mems := Leak(s1.mems, m)), t);
    } else {
      var mapping := Mapping(true, m, hostPtr.value, offset, size);
      var s2 := AddMapping(s1, m, mapping);
      MemsPass(s1, s2);
      PassesTrans(s, s1, s2);
      if blocking {
        BeforeMapUnseen(s, q, m, wanted, mapping);
        hide AddMapping, CountMap;
        MapTailPasses(s, s2, q, m, |s.mappings|, event);
      } else {
        AppendPasses(s2, q, MapBuffer(m, |s.mappings|), event);
        PassesTrans(s, s2, t);
      }
    }
  }

  lemma BeforeMapUnseen(s: State, q: nat, m: nat, wanted: bool, mapping: Mapping)
    ensures Unseen(s, AddMapping(MaybeEvent(s.(mems := Retain(s.mems, m)), q, wanted, true), m, mapping))
  {
  }

  lemma MapTailPasses(s: State, t: State, q: nat, m: nat, id: nat, event: Option<nat>)
    requires SimOk(s) && Unseen(s, t) && Passes(s, t)
    ensures var u := Finish(t, q); Passes(s, CountMap(Perform(u, event, MapOp(u, DevId(u, q), m, id)), m, 1))
  {
    hide SimOk, Unseen, Finish, Perform, Passes, MapOp;
    UnseenFinish(s, t, q);
    var u := Finish(t, q);
    var v := Perform(u, event, MapOp(u, DevId(u, q), m, id));
    PerformPasses(u, event, MapOp(u, DevId(u, q), m, id));
    PassesTrans(s, u, v);
    MemsPass(v, CountMap(v, m, 1));
    PassesTrans(s, v, CountMap(v, m, 1));
  }

  lemma UnmapPasses(s: State, q: nat, m: nat, id: nat, flush: bool, wanted: bool)
    ensures Passes(s, UnmapCall(s, q, m, id, flush, wanted))
  {
    var event, s1 := EventHandle(s, wanted), UnmapDevice(s, q, m, id, flush, wanted);
    var s2 := CountMap(RemoveMapping(s1, m, id), m, -1);
    UnmapDevicePasses(s, q, m, id, flush, wanted);
    hide UnmapDevice, Passes, ReleaseMem;
    assert SameHas(s1.mems, s2.mems) && SameButMems(s1, s2);
    MemsPass(s1, s2);
    ReleaseMemHas(s2, m);
    MemsPass(s2, ReleaseMem(s2, m));
    PassesTrans(s, s1, s2);
    PassesTrans(s, s2, ReleaseMem(s2, m));
  }

  lemma UnmapDevicePasses(s: State, q: nat, m: nat, id: nat, flush: bool, wanted: bool)
    ensures Passes(s, UnmapDevice(s, q, m, id, flush, wanted))
  {
    var t := UnmapDevice(s, q, m, id, flush, wanted);
    assert SameHas(s.queues, t.queues) && SameHas(s.events, t.events);
    hide Passes, SameHas;
    EventsPass(s, t);
  }

  lemma ReleaseQueuePasses(s: State, q: nat)
    requires SimOk(s)
    ensures Passes(s, ReleaseQueue(s, q))
  {
    hide SimOk, Finish, Passes;
    FinishPasses(s, q);
    var t := Finish(s, q);
    HasSelf(t.events);
    EventsPass(t, ReleaseQueue(s, q));
    PassesTrans(s, t, ReleaseQueue(s, q));
  }

  lemma ReleaseEventPasses(s: State, e: nat)
    requires SimOk(s)
    ensures Passes(s, ReleaseEvent(s, e))
  {
    hide SimOk, ReleaseQueue, Passes;
    SelfPasses(s);
    if e < |s.events| {
      var s1 := s.(events := Dec(s.events, e));
      var q := s1.events[e].data.queue;
      EventsPass(s, s1);
      assert Unseen(s, s1);
      hide Unseen;
      UnseenSim(s, s1, 0);
      if s1.events[e].refcount == 0 {
        var s2 := if q < |s1.queues| && s1.queues[q].data.gpu then s1.(queues := Leak(s1.queues, q)) else ReleaseQueue(s1, q);
        ReleaseQueuePasses(s1, q);
        EventsPass(s1, s1.(queues := Leak(s1.queues, q)));
        HasSelf(s2.queues);
        EventsPass(s2, ReleaseEvent(s, e));
        PassesTrans(s, s1, s2);
        PassesTrans(s, s2, ReleaseEvent(s, e));
      }
    }
  }

  // ----- calls -----

  /** What a call does to the references the application holds: a retain adds one, a release takes
      one away. */
  function Credit(s: State, c: Call): State {
    match c
    case RetainQueueCall(q) => s.(queues := Take(s.queues, q))
    case ReleaseQueueCall(q) => s.(queues := GiveUp(s.queues, q))
    case RetainMemObject(m) => s.(mems := Take(s.mems, m))
    case ReleaseMemObject(m) => s.(mems := GiveUp(s.mems, m))
    case RetainEvent(e) => s.(events := Take(s.events, e))
    case ReleaseEventCall(e) => s.(events := GiveUp(s.events, e))
    case RetainProgram(p) => s.(programs := Take(s.programs, p))
    case ReleaseProgramCall(p) => s.(programs := GiveUp(s.programs, p))
    case RetainKernel(k) => s.(kernels := Take(s.kernels, k))
    case ReleaseKernelCall(k) => s.(kernels := GiveUp(s.kernels, k))
    case _ => s
  }

  lemma CreditTables(s: State, c: Call)
    ensures var t := Credit(s, c); SameTables(s, t) && t.blocks == s.blocks && (SimOk(s) ==> SimOk(t))
  {
    var t := Credit(s, c);
    if c.RetainKernel? || c.ReleaseKernelCall? { CreditKernels(s, c); }
    else if c.RetainProgram? || c.ReleaseProgramCall? { CreditPrograms(s, c); }
    else { CreditOthers(s, c); }
    hide Unseen, SimOk, SameTables, Credit;
    if SimOk(s) { UnseenSim(s, t, 0); }
  }

  lemma CreditKernels(s: State, c: Call)
    requires c.RetainKernel? || c.ReleaseKernelCall?
    ensures var t := Credit(s, c); SameTables(s, t) && t.blocks == s.blocks && Unseen(s, t)
  {
  }

  lemma CreditPrograms(s: State, c: Call)
    requires c.RetainProgram? || c.ReleaseProgramCall?
    ensures var t := Credit(s, c); SameTables(s, t) && t.blocks == s.blocks && Unseen(s, t)
  {
  }

  lemma CreditOthers(s: State, c: Call)
    requires !c.RetainKernel? && !c.ReleaseKernelCall? && !c.RetainProgram? && !c.ReleaseProgramCall?
    ensures var t := Credit(s, c); SameTables(s, t) && t.blocks == s.blocks && Unseen(s, t)
  {
    var t := Credit(s, c);
    assert t.kernels == s.kernels && t.programs == s.programs && t.blocks == s.blocks;
    SelfPasses(s);
  }

  predicate Retains(c: Call) { c.RetainQueueCall? || c.RetainMemObject? || c.RetainEvent? || c.RetainProgram? || c.RetainKernel? }

  predicate Releases(c: Call) {
    c.ReleaseQueueCall? || c.ReleaseMemObject? || c.ReleaseEventCall? || c.ReleaseProgramCall? || c.ReleaseKernelCall?
  }

  predicate Commands(c: Call) {
    c.EnqueueRead? || c.EnqueueWrite? || c.EnqueueCopy? || c.EnqueueReadRect? || c.EnqueueWriteRect? || c.EnqueueCopyRect?
    || c.EnqueueMap? || c.EnqueueUnmap? || c.EnqueueMarker?
  }

  lemma CommandPasses(s: State, c: Call)
    requires SimOk(s) && Commands(c)
    ensures Passes(s, Effect(s, c))
  {
    hide SimOk, Effect, Passes;
    if c.EnqueueRead? || c.EnqueueWrite? || c.EnqueueCopy? || c.EnqueueMarker? { TransferPasses(s, c); } else { DirectPasses(s, c); }
  }

  lemma TransferPasses(s: State, c: Call)
    requires SimOk(s) && (c.EnqueueRead? || c.EnqueueWrite? || c.EnqueueCopy? || c.EnqueueMarker?)
    ensures Passes(s, Effect(s, c))
  {
    hide SimOk, RunNow, Defer, DevicePtr, DevId, DevIndex, Passes;
    match c
    case EnqueueRead(q, m, blocking, offset, cb, ptr, _, event) =>
      var addr := DevicePtr(s, m, DevId(s, q)) + offset;
      RunNowPasses(s, q, [m], OpRead(ptr, addr, cb), event);
      DeferPasses(s, q, [m], ReadBuffer(ptr, addr, cb, m), event);
    case EnqueueWrite(q, m, blocking, offset, cb, ptr, _, event) =>
      RunNowPasses(s, q, [m], OpWrite(ptr, DevicePtr(s, m, DevId(s, q)) + offset, cb), event);
      DeferPasses(s, q, [m], WriteBuffer(ptr, DevicePtr(s, m, DevIndex(s, q)) + offset, cb, m), event);
    case EnqueueCopy(q, m1, m2, o1, o2, cb, event) =>
      DeferPasses(s, q, [m1, m2], CopyBuffer(DevicePtr(s, m1, DevId(s, q)) + o1, DevicePtr(s, m2, DevId(s, q)) + o2, cb, m1, m2), event);
    case EnqueueMarker(q) => DeferPasses(s, q, [], Marker, true);
  }

  lemma DirectPasses(s: State, c: Call)
    requires SimOk(s) && (c.EnqueueReadRect? || c.EnqueueWriteRect? || c.EnqueueCopyRect? || c.EnqueueMap? || c.EnqueueUnmap?)
    ensures Passes(s, Effect(s, c))
  {
    hide SimOk, RunNow, RunInto, MapCall, UnmapCall, DevicePtr, DevId, DevIndex, Passes, FoundMapping;
    match c
    case EnqueueReadRect(q, m, ptr, shape, _, event) =>
      RunNowPasses(s, q, [m], OpRect(RectRead, DevicePtr(s, m, DevId(s, q)), ptr, shape), event);
    case EnqueueWriteRect(q, m, ptr, shape, _, out) =>
      RunIntoPasses(s, q, [m], OpRect(RectWrite, DevicePtr(s, m, DevId(s, q)), ptr, shape), out);
    case EnqueueCopyRect(q, m1, m2, shape, _, event) =>
      RunNowPasses(s, q, [m1, m2], OpRect(RectCopy, DevicePtr(s, m1, DevId(s, q)), DevicePtr(s, m2, DevId(s, q)), shape), event);
    case EnqueueMap(q, m, blocking, offset, size, _, hostPtr, event) => MapPasses(s, q, m, blocking, offset, size, hostPtr, event);
    case EnqueueUnmap(q, m, ptr, flush, event) =>
      SelfPasses(s);
      if FoundMapping(s, m, ptr).Some? { UnmapPasses(s, q, m, FoundMapping(s, m, ptr).value, flush, event); }
  }

  lemma RunIntoPasses(s: State, q: nat, ms: seq<nat>, op: Op, out: Option<nat>)
    requires SimOk(s)
    ensures Passes(s, RunInto(s, q, ms, op, out))
  {
    hide SimOk, Finish, TakeMems, DropMems, Perform, Passes;
    RunAround(s, q, ms, op, out);
  }

  lemma ReleasePasses(s: State, c: Call)
    requires SimOk(s) && Releases(c)
    ensures Passes(Credit(s, c), Effect(s, c))
  {
    CreditTables(s, c);
    hide SimOk, ReleaseQueue, ReleaseMem, ReleaseEvent, ReleaseProgram, ReleaseKernel, Passes, SameTables;
    var t := Credit(s, c);
    match c
    case ReleaseQueueCall(q) => ReleaseQueuePasses(t, q);
    case ReleaseMemObject(m) => ReleaseMemHas(t, m); MemsPass(t, ReleaseMem(t, m));
    case ReleaseEventCall(e) => ReleaseEventPasses(t, e);
    case ReleaseProgramCall(p) => ReleaseProgramPasses(t, p);
    case ReleaseKernelCall(k) => ReleaseKernelPasses(t, k);
  }

  lemma RetainPasses(s: State, c: Call)
    requires Retains(c)
    ensures Passes(Credit(s, c), Effect(s, c))
  {
    var t := Credit(s, c);
    hide Passes;
    match c
    case RetainQueueCall(q) => HasSelf(t.events); EventsPass(t, Effect(s, c));
    case RetainMemObject(m) => MemsPass(t, Effect(s, c));
    case RetainEvent(e) => HasSelf(t.queues); EventsPass(t, Effect(s, c));
    case RetainProgram(p) => HasSelf(t.kernels); ProgramsPass(t, Effect(s, c));
    case RetainKernel(k) => HasSelf(t.programs); ProgramsPass(t, Effect(s, c));
  }

  lemma QueuePasses(s: State, c: Call)
    requires SimOk(s) && (c.FinishCall? || c.WaitCall? || c.StoreHost?)
    ensures Passes(s, Effect(s, c))
  {
    hide SimOk, Finish, WaitForEvents, Passes;
    match c
    case FinishCall(q) => FinishPasses(s, q);
    case WaitCall(es) => WaitPasses(s, es);
    case StoreHost(_, _) => HasSelf(s.queues); HasSelf(s.events); EventsPass(s, Effect(s, c));
  }

  /** Calls that neither create an object nor set or copy an argument. */
  predicate Leaves(c: Call) {
    Commands(c) || Retains(c) || Releases(c) || c.FinishCall? || c.WaitCall? || c.StoreHost?
  }

  lemma LeavingPasses(s: State, c: Call)
    requires SimOk(s) && Leaves(c)
    ensures Passes(Credit(s, c), Step(s, c))
  {
    hide SimOk, Effect, Accepted, Passes;
    if !Accepted(s, c) {
      if Retains(c) || Releases(c) { TakesClaims(s, c); }
      SelfPasses(s);
    } else if Commands(c) {
      CommandPasses(s, c);
    } else if Retains(c) {
      RetainPasses(s, c);
    } else if Releases(c) {
      ReleasePasses(s, c);
    } else {
      QueuePasses(s, c);
    }
  }

  lemma TakesClaims(s: State, c: Call)
    requires Retains(c) || Releases(c)
    ensures Accepted(s, c)
  {
  }

  lemma LeavingTables(s: State, c: Call)
    requires SimOk(s) && Leaves(c)
    ensures SameTables(s, Step(s, c))
  {
    CreditTables(s, c);
    hide SimOk, Step, Passes, SameTables;
    LeavingPasses(s, c);
    PassesHeld(Credit(s, c), Step(s, c));
    TablesTrans(s, Credit(s, c), Step(s, c));
  }

  // ----- calls that create an object, set an argument or copy arguments -----

  lemma SetArgAges(s: State, k: nat, index: nat, size: nat, value: Option<Value>)
    ensures var t := SetArg(s, k, index, size, value); SameHeld(s, t) && Ages(s.blocks, t.blocks)
  {
    var t := SetArg(s, k, index, size, value);
    assert SameHas(s.kernels, t.kernels) && Ages(s.blocks, t.blocks);
    hide SameHas, Ages;
    HasSelf(s.mems);
    HasSelf(s.queues);
    HasSelf(s.events);
    HasSelf(s.programs);
  }

  lemma {:induction false} SnapshotGrows(blocks: seq<Block>, arguments: seq<Argument>, node: nat, i: nat)
    ensures blocks <= Snapshot(blocks, arguments, node, i).0
    decreases |arguments| - i
  {
    if i < |arguments| {
      var v := Load(blocks, arguments[i]).1;
      SnapshotGrows(if v.None? then blocks else blocks + [Block(v.value, OfNode(node, i))], arguments, node, i + 1);
    }
  }

  lemma LaunchHeld(s: State, q: nat, k: nat, range: seq<nat>, wanted: bool)
    ensures var t := KernelCall(s, q, k, range, wanted); SameHeld(s, t) && Ages(s.blocks, t.blocks)
  {
    SelfPasses(s);
    if k < |s.kernels| {
      var s1 := MaybeEvent(s, q, wanted, true);
      MaybeEventPasses(s, q, wanted, true);
      var d := s1.kernels[k].data;
      SnapshotGrows(s1.blocks, d.arguments, s1.nodes, 0);
      var (blocks, args) := Snapshot(s1.blocks, d.arguments, s1.nodes, 0);
      hide Snapshot, ArgBuffers, MaybeEvent, RetainMems, Append, SameTables, Passes;
      assert SameHeld(s, s1) && s1.blocks == s.blocks by { EventHeld(s, q, wanted, true); }
      var bufs := ArgBuffers(s1.blocks, d, 0);
      var s2 := s1.(blocks := blocks, queues := Leak(Retain(s1.queues, q), q), kernels := Retain(s1.kernels, k));
      assert SameHeld(s1, s2);
      var s3 := RetainMems(s2, bufs);
      RetainMemsHas(s2, bufs);
      var c := RunKernel(k, range, args, bufs);
      AppendPasses(s3, q, c, EventHandle(s, wanted));
      var t := Append(s3, q, c, EventHandle(s, wanted));
      assert SameHeld(s2, s3) by { OnlyMems(s2, s3); }
      PassesHeld(s3, t);
      hide SameHeld;
      SameHeldTrans(s, s1, s2);
      SameHeldTrans(s, s2, s3);
      SameHeldTrans(s, s3, t);
      AppendBlocks(s3, q, c, EventHandle(s, wanted));
    }
  }

  lemma AppendBlocks(s: State, q: nat, c: Command, event: Option<nat>)
    ensures Append(s, q, c, event).blocks == s.blocks
  {
  }

  lemma EventHeld(s: State, q: nat, wanted: bool, inOrder: bool)
    ensures SameHeld(s, MaybeEvent(s, q, wanted, inOrder)) && MaybeEvent(s, q, wanted, inOrder).blocks == s.blocks
  {
    MaybeEventPasses(s, q, wanted, inOrder);
  }

  lemma PassesHeld(s: State, t: State)
    requires Passes(s, t)
    ensures SameHeld(s, t) && Ages(s.blocks, t.blocks) && SameTables(s, t)
  {
  }

  lemma CreationHeld(s: State, c: Call)
    requires c.CreateQueue? || c.CreateBuffer? || c.CreateSubBuffer? || c.CreateProgram? || c.CreateKernel?
    ensures SameHeld(s, Effect(s, c)) && Effect(s, c).blocks == s.blocks
  {
    hide InitOps, SubPointers, NewKernelArgs;
  }

  /** For every call: the references the application holds change by its own retain or release
      alone, and a block is at most freed. */
  lemma StepHeld(s: State, c: Call)
    requires SimOk(s)
    ensures SameHeld(Credit(s, c), Step(s, c)) && Ages(s.blocks, Step(s, c).blocks)
  {
    CreditTables(s, c);
    hide SimOk, Effect, Accepted, Passes, SameHeld, Ages;
    SelfPasses(s);
    PassesHeld(s, s);
    if Leaves(c) {
      LeavingPasses(s, c);
      PassesHeld(Credit(s, c), Step(s, c));
    } else if Accepted(s, c) {
      if c.SetKernelArg? {
        assert Effect(s, c) == SetArg(s, c.k, c.index, c.size, c.value) by { EffectOfSetArg(s, c); }
        SetArgAges(s, c.k, c.index, c.size, c.value);
      } else if c.EnqueueKernel? {
        assert Effect(s, c) == KernelCall(s, c.q, c.k, c.range, c.event) by { EffectOfLaunch(s, c); }
        LaunchHeld(s, c.q, c.k, c.range, c.event);
      } else {
        CreationHeld(s, c);
      }
    }
  }

  lemma EffectOfSetArg(s: State, c: Call)
    requires c.SetKernelArg?
    ensures Effect(s, c) == SetArg(s, c.k, c.index, c.size, c.value)
  {
    hide SetArg;
  }

  lemma EffectOfLaunch(s: State, c: Call)
    requires c.EnqueueKernel?
    ensures Effect(s, c) == KernelCall(s, c.q, c.k, c.range, c.event)
  {
    hide KernelCall;
  }
}
