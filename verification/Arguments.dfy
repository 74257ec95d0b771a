/** What clSetKernelArg stores and what a launch runs with: the value of the last call for each
    argument. */
module Arguments {
  import opened RefCounts
  import opened Runtime
  import opened SimBooks
  import opened Frames
  import opened SimCalls
  import opened Outcomes
  import opened Tables
  import Deferral
  import Claims

  /** The argument has this size, and its block, if it has one, this value. */
  predicate Holds(blocks: seq<Block>, a: Argument, size: nat, value: Option<Value>) {
    a.size == size
    && match value
       case None => a.block.None?
       case Some(v) => a.block.Some? && a.block.value < |blocks| && blocks[a.block.value].Block? && blocks[a.block.value].value == v
  }

  predicate ArgumentIs(s: State, k: nat, i: nat, size: nat, value: Option<Value>) {
    k < |s.kernels| && i < |s.kernels[k].data.arguments| && Holds(s.blocks, s.kernels[k].data.arguments[i], size, value)
  }

  /** A call that an argument index is good for stores the value given, and no other argument of
      any kernel changes. */
  lemma SetStores(s: State, k: nat, index: nat, size: nat, value: Option<Value>)
    requires SimOk(s) && k < |s.kernels| && index <= |s.kernels[k].data.isPointer| && index < |s.kernels[k].data.arguments|
    ensures var t := Step(s, SetKernelArg(k, index, size, value));
      && ArgumentIs(t, k, index, size, value) && |t.kernels| == |s.kernels|
      && (forall j: nat, i: nat, n: nat, v: Option<Value> {:trigger ArgumentIs(t, j, i, n, v)} ::
            (j, i) != (k, index) ==> (ArgumentIs(t, j, i, n, v) <==> ArgumentIs(s, j, i, n, v)))
  {
    var t := Step(s, SetKernelArg(k, index, size, value));
    assert t == SetArg(s, k, index, size, value);
    forall j: nat, i: nat, n: nat, v: Option<Value> | (j, i) != (k, index)
      ensures ArgumentIs(t, j, i, n, v) <==> ArgumentIs(s, j, i, n, v)
    {
      if j < |s.kernels| && i < |s.kernels[j].data.arguments| { OtherArgument(s, k, index, size, value, j, i, n, v); }
    }
  }

  lemma OtherArgument(s: State, k: nat, index: nat, size: nat, value: Option<Value>, j: nat, i: nat, n: nat, v: Option<Value>)
    requires KernelArgsOk(s.kernels, s.blocks) && k < |s.kernels| && index < |s.kernels[k].data.arguments|
    requires j < |s.kernels| && i < |s.kernels[j].data.arguments| && (j, i) != (k, index)
    ensures var t := SetArg(s, k, index, size, value); ArgumentIs(t, j, i, n, v) <==> ArgumentIs(s, j, i, n, v)
  {
    assert Owned(s.blocks, s.kernels[k].data.arguments[index].block, OfKernel(k, index));
    assert Owned(s.blocks, s.kernels[j].data.arguments[i].block, OfKernel(j, i));
  }

  /** An index behind the one after the last argument is refused. */
  lemma SetRefused(s: State, k: nat, index: nat, size: nat, value: Option<Value>)
    requires k < |s.kernels| && index > |s.kernels[k].data.isPointer|
    ensures Step(s, SetKernelArg(k, index, size, value)) == s
  {
  }

  // ----- until it is set again -----

  predicate Sets(c: Call, k: nat, i: nat) { c.SetKernelArg? && c.k == k && c.index == i }

  lemma TablesKeepArgument(s: State, t: State, k: nat, i: nat, size: nat, value: Option<Value>)
    requires KernelArgsOk(s.kernels, s.blocks) && SameTables(s, t) && ArgumentIs(s, k, i, size, value)
    ensures ArgumentIs(t, k, i, size, value)
  {
    assert SameKernel(s.kernels[k].data, t.kernels[k].data);
    var a := s.kernels[k].data.arguments[i];
    assert Owned(s.blocks, s.kernels[k].data.arguments[i].block, OfKernel(k, i));
    if a.block.Some? { assert OfAKernel(s.blocks[a.block.value]); }
  }

  /** A launch copies arguments and changes none. */
  lemma LaunchKeepsArgument(s: State, c: Call, k: nat, i: nat, size: nat, value: Option<Value>)
    requires c.EnqueueKernel? && ArgumentIs(s, k, i, size, value)
    ensures ArgumentIs(Effect(s, c), k, i, size, value)
  {
    var s1 := MaybeEvent(s, c.q, c.event, true);
    if c.k < |s.kernels| {
      SnapshotGrows(s1.blocks, s1.kernels[c.k].data.arguments, s1.nodes, 0);
      var r := Snapshot(s1.blocks, s1.kernels[c.k].data.arguments, s1.nodes, 0);
      hide Snapshot, ArgBuffers, RetainMems;
      var t := Effect(s, c);
      assert t.blocks == r.0 && t.kernels == Retain(s.kernels, c.k);
    }
  }

  lemma CreationKeepsArgument(s: State, c: Call, k: nat, i: nat, size: nat, value: Option<Value>)
    requires ArgumentIs(s, k, i, size, value)
    requires c.CreateQueue? || c.CreateBuffer? || c.CreateSubBuffer? || c.CreateProgram? || c.CreateKernel?
    ensures ArgumentIs(Effect(s, c), k, i, size, value)
  {
    hide InitOps, SubPointers, NewKernelArgs;
  }

  lemma StepKeepsArgument(s: State, c: Call, k: nat, i: nat, size: nat, value: Option<Value>)
    requires SimOk(s) && ArgumentIs(s, k, i, size, value) && !Sets(c, k, i)
    ensures ArgumentIs(Step(s, c), k, i, size, value)
  {
    if Leaves(c) {
      LeavingTables(s, c);
      hide Step, ArgumentIs, SameTables;
      TablesKeepArgument(s, Step(s, c), k, i, size, value);
    } else if c.SetKernelArg? {
      if c.k < |s.kernels| && c.index < |s.kernels[c.k].data.arguments| { OtherArgument(s, c.k, c.index, c.size, c.value, k, i, size, value); }
    } else {
      hide SimOk, Effect, Accepted, ArgumentIs;
      if Accepted(s, c) {
        if c.EnqueueKernel? { LaunchKeepsArgument(s, c, k, i, size, value); } else { CreationKeepsArgument(s, c, k, i, size, value); }
      }
    }
  }

  lemma {:induction false} RunKeepsArgument(s: State, cs: seq<Call>, k: nat, i: nat, size: nat, value: Option<Value>)
    requires SimOk(s) && ArgumentIs(s, k, i, size, value) && Claims.AllEnabled(s, cs) && forall c :: c in cs ==> !Sets(c, k, i)
    ensures SimOk(Run(s, cs)) && ArgumentIs(Run(s, cs), k, i, size, value)
    decreases |cs|
  {
    hide SimOk, Step, ArgumentIs, Enabled, Sets;
    if cs != [] {
      assert cs[0] in cs;
      StepKeepsArgument(s, cs[0], k, i, size, value);
      Deferral.SimOkStep(s, cs[0]);
      RunKeepsArgument(Step(s, cs[0]), cs[1..], k, i, size, value);
    }
  }

  // ----- what a launch runs with -----

  /** These are the sizes and values of all arguments of kernel `k`. */
  predicate ValuesAre(s: State, k: nat, values: seq<(nat, Option<Value>)>) {
    k < |s.kernels| && |values| == |s.kernels[k].data.arguments|
    && forall i {:trigger values[i]} :: 0 <= i < |values| ==> ArgumentIs(s, k, i, values[i].0, values[i].1)
  }

  /** There is exactly one such list. */
  lemma LoadedValues(s: State, k: nat, values: seq<(nat, Option<Value>)>)
    requires KernelArgsOk(s.kernels, s.blocks) && k < |s.kernels|
    ensures ValuesAre(s, k, values) <==> values == LoadAll(s.blocks, s.kernels[k].data.arguments)
  {
    var arguments := s.kernels[k].data.arguments;
    forall i | 0 <= i < |arguments| ensures ArgumentIs(s, k, i, Load(s.blocks, arguments[i]).0, Load(s.blocks, arguments[i]).1) {
      assert Owned(s.blocks, s.kernels[k].data.arguments[i].block, OfKernel(k, i));
    }
    if ValuesAre(s, k, values) {
      forall i | 0 <= i < |values| ensures values[i] == Load(s.blocks, arguments[i]) {
        assert ArgumentIs(s, k, i, values[i].0, values[i].1);
      }
      assert values == LoadAll(s.blocks, arguments);
    }
  }

  lemma LaunchCarries(s: State, q: nat, k: nat, range: seq<nat>, wanted: bool)
    requires SimOk(s) && q < |s.queues| && k < |s.kernels|
    ensures Carries(s, KernelCall(s, q, k, range, wanted), q, OpRun(k, range, LoadAll(s.blocks, s.kernels[k].data.arguments)), false)
  {
    hide SimOk, Snapshot, ArgBuffers, MaybeEvent, RetainMems, Append, Carries, Projected;
    var d, event := s.kernels[k].data, EventHandle(s, wanted);
    var s1 := MaybeEvent(s, q, wanted, true);
    EventUnseen(s, q, wanted, true);
    UnseenMoves(s, s1, q);
    var (blocks, args) := Snapshot(s1.blocks, d.arguments, s1.nodes, 0);
    var bufs := ArgBuffers(s1.blocks, d, 0);
    SnapshotOps(s, k, s1.nodes);
    var s2 := s1.(blocks := blocks, queues := Leak(Retain(s1.queues, q), q), kernels := Retain(s1.kernels, k));
    MoreBlocks(s1, s2, q);
    var s3 := RetainMems(s2, bufs);
    RetainMemsQuiet(s2, bufs);
    MemsUnseen(s2, RetainMems(s2, bufs));
    UnseenMoves(s2, s3, q);
    hide Unseen, LoadAll;
    AppendCarries(s, s3, q, RunKernel(k, range, args, bufs), event, OpRun(k, range, LoadAll(s.blocks, d.arguments)));
  }

  /** A launch on a queue of the kernel's context owes one run of the kernel, over the range given
      and with the values its arguments have at that moment; any other launch does nothing. */
  lemma LaunchRuns(s: State, q: nat, k: nat, range: seq<nat>, argsOk: bool, event: bool, values: seq<(nat, Option<Value>)>)
    requires SimOk(s) && q < |s.queues| && k < |s.kernels|
    ensures var t := Step(s, EnqueueKernel(q, k, range, argsOk, event));
      if argsOk && s.queues[q].data.context == s.kernels[k].data.context then
        t.log == s.log && (ValuesAre(s, k, values) ==> Carries(s, t, q, OpRun(k, range, values), false))
      else t == s
  {
    LoadedValues(s, k, values);
    LaunchCarries(s, q, k, range, event);
    LaunchLog(s, q, k, range, event);
    hide SimOk, KernelCall, Carries, LoadAll, ValuesAre;
  }

  lemma LaunchLog(s: State, q: nat, k: nat, range: seq<nat>, event: bool)
    ensures KernelCall(s, q, k, range, event).log == s.log
  {
    hide Snapshot, ArgBuffers, RetainMems;
  }

  /** Set an argument, go on in any way that does not set it again, launch: the device runs the
      kernel with the value that was set. */
  lemma LastValueRuns(s: State, k: nat, index: nat, size: nat, value: Option<Value>, cs: seq<Call>, q: nat, range: seq<nat>,
                      event: bool, values: seq<(nat, Option<Value>)>)
    requires SimOk(s) && Enabled(s, SetKernelArg(k, index, size, value))
    requires index <= |s.kernels[k].data.isPointer| && index < |s.kernels[k].data.arguments|
    requires Claims.AllEnabled(Step(s, SetKernelArg(k, index, size, value)), cs) && forall c :: c in cs ==> !Sets(c, k, index)
    requires var t := Run(Step(s, SetKernelArg(k, index, size, value)), cs);
      q < |t.queues| && k < |t.kernels| && t.queues[q].data.context == t.kernels[k].data.context && ValuesAre(t, k, values)
    ensures var t := Run(Step(s, SetKernelArg(k, index, size, value)), cs);
      && index < |values| && values[index] == (size, value)
      && Carries(t, Step(t, EnqueueKernel(q, k, range, true, event)), q, OpRun(k, range, values), false)
  {
    var c := SetKernelArg(k, index, size, value);
    var s1 := Step(s, c);
    SetStores(s, k, index, size, value);
    Deferral.SimOkStep(s, c);
    hide SimOk, Enabled, Step, Carries;
    RunKeepsArgument(s1, cs, k, index, size, value);
    var t := Run(s1, cs);
    LaunchRuns(t, q, k, range, true, event, values);
    OneValue(t, k, index, size, value, values);
  }

  lemma OneValue(s: State, k: nat, i: nat, size: nat, value: Option<Value>, values: seq<(nat, Option<Value>)>)
    requires ArgumentIs(s, k, i, size, value) && ValuesAre(s, k, values)
    ensures i < |values| && values[i] == (size, value)
  {
    assert ArgumentIs(s, k, i, values[i].0, values[i].1);
  }
}
