/** What no call ever changes, and what calls that add nothing leave alone: the place and size of
    a buffer, the references kept for good, the extent of a mapping, the device of a queue. */
module Frames {
  import opened RefCounts
  import opened Runtime

  type Mems = seq<Obj<MemData>>

  /** Fields of a memory object that are set when it is created. */
  predicate SameFixed(a: MemData, b: MemData) {
    a.parent == b.parent && a.context == b.context && a.size == b.size && a.devicePtrs == b.devicePtrs && a.mapBase == b.mapBase
  }

  ghost predicate MemsGrow(a: Mems, b: Mems) {
    |a| <= |b| && forall m {:trigger a[m]} {:trigger b[m]} :: 0 <= m < |a| ==> SameFixed(a[m].data, b[m].data)
  }

  ghost predicate MappingsGrow(a: seq<Mapping>, b: seq<Mapping>) {
    |a| <= |b| && forall i {:trigger a[i]} {:trigger b[i]} :: 0 <= i < |a| ==> b[i] == a[i].(live := b[i].live)
  }

  predicate SameDevice(a: QueueData, b: QueueData) {
    a.context == b.context && a.devIndex == b.devIndex && a.devId == b.devId && a.gpu == b.gpu
  }

  ghost predicate QueuesGrow(a: seq<Obj<QueueData>>, b: seq<Obj<QueueData>>) {
    |a| <= |b| && forall q {:trigger a[q]} {:trigger b[q]} :: 0 <= q < |a| ==> SameDevice(a[q].data, b[q].data)
  }

  ghost predicate SameLeaks<T>(a: seq<Obj<T>>, b: seq<Obj<T>>) {
    |a| <= |b| && forall i {:trigger a[i]} {:trigger b[i]} :: 0 <= i < |a| ==> b[i].leaked == a[i].leaked
  }

  ghost predicate Grow(s: State, t: State) {
    MemsGrow(s.mems, t.mems) && MappingsGrow(s.mappings, t.mappings) && QueuesGrow(s.queues, t.queues)
  }

  /** The fixed fields stay, no reference is leaked, and no buffer or program is made. */
  ghost predicate Kept(s: State, t: State) {
    Grow(s, t) && SameLeaks(s.mems, t.mems) && SameLeaks(s.programs, t.programs)
    && |t.mems| == |s.mems| && |t.programs| == |s.programs|
  }

  lemma GrowTrans(s: State, t: State, u: State)
    requires Grow(s, t) && Grow(t, u)
    ensures Grow(s, u)
  {
    assert forall m :: 0 <= m < |s.mems| ==> SameFixed(t.mems[m].data, u.mems[m].data);
    assert forall i :: 0 <= i < |s.mappings| ==> u.mappings[i] == t.mappings[i].(live := u.mappings[i].live);
    assert forall q :: 0 <= q < |s.queues| ==> SameDevice(t.queues[q].data, u.queues[q].data);
  }

  lemma KeptTrans(s: State, t: State, u: State)
    requires Kept(s, t) && Kept(t, u)
    ensures Kept(s, u)
  {
    hide Grow;
    GrowTrans(s, t, u);
    assert forall m :: 0 <= m < |s.mems| ==> u.mems[m].leaked == t.mems[m].leaked;
    assert forall p :: 0 <= p < |s.programs| ==> u.programs[p].leaked == t.programs[p].leaked;
  }

  // ----- calls that add nothing -----

  ghost predicate QuietMems(a: Mems, b: Mems) {
    |a| == |b| && forall m {:trigger b[m]} :: 0 <= m < |a| ==>
      SameFixed(a[m].data, b[m].data) && b[m].leaked == a[m].leaked
      && forall id :: id in b[m].data.mappings ==> id in a[m].data.mappings
  }

  ghost predicate QuietQueues(a: seq<Obj<QueueData>>, b: seq<Obj<QueueData>>) {
    |a| == |b| && forall q {:trigger b[q]} :: 0 <= q < |a| ==>
      SameDevice(a[q].data, b[q].data) && forall node :: node in b[q].data.pending ==> node in a[q].data.pending
  }

  /** No buffer, mapping or pending node is added, no fixed field changed, nothing leaked. */
  ghost predicate Quiet(s: State, t: State) {
    QuietMems(s.mems, t.mems) && MappingsGrow(s.mappings, t.mappings) && QuietQueues(s.queues, t.queues)
    && SameLeaks(s.programs, t.programs) && |t.programs| == |s.programs|
  }

  lemma QuietIsKept(s: State, t: State)
    requires Quiet(s, t)
    ensures Kept(s, t)
  {
  }

  lemma SelfQuiet(s: State)
    ensures Quiet(s, s)
  {
  }

  lemma QuietTrans(s: State, t: State, u: State)
    requires Quiet(s, t) && Quiet(t, u)
    ensures Quiet(s, u)
  {
    forall m | 0 <= m < |s.mems|
      ensures SameFixed(s.mems[m].data, u.mems[m].data) && u.mems[m].leaked == s.mems[m].leaked
      ensures forall id :: id in u.mems[m].data.mappings ==> id in s.mems[m].data.mappings
    {
      assert SameFixed(s.mems[m].data, t.mems[m].data);
    }
    forall i | 0 <= i < |s.mappings| ensures u.mappings[i] == s.mappings[i].(live := u.mappings[i].live) {
      assert t.mappings[i] == s.mappings[i].(live := t.mappings[i].live);
    }
    forall q | 0 <= q < |s.queues|
      ensures SameDevice(s.queues[q].data, u.queues[q].data)
      ensures forall node :: node in u.queues[q].data.pending ==> node in s.queues[q].data.pending
    {
      assert SameDevice(s.queues[q].data, t.queues[q].data);
    }
    assert forall p :: 0 <= p < |s.programs| ==> u.programs[p].leaked == t.programs[p].leaked;
  }

  lemma SameQuiet(s: State, t: State)
    requires t.mems == s.mems && t.mappings == s.mappings && t.queues == s.queues && t.programs == s.programs
    ensures Quiet(s, t)
  {
  }

  /** Only counters of buffers, queues or programs move. */
  lemma CountersQuiet(s: State, t: State)
    requires |t.mems| == |s.mems| && t.mappings == s.mappings && |t.queues| == |s.queues| && |t.programs| == |s.programs|
    requires forall m {:trigger t.mems[m]} :: 0 <= m < |t.mems| ==>
      t.mems[m].data == s.mems[m].data && t.mems[m].leaked == s.mems[m].leaked
    requires forall q {:trigger t.queues[q]} :: 0 <= q < |t.queues| ==> t.queues[q].data == s.queues[q].data
    requires forall p {:trigger t.programs[p]} :: 0 <= p < |t.programs| ==> t.programs[p].leaked == s.programs[p].leaked
    ensures Quiet(s, t)
  {
  }

  lemma {:induction false} FreeMappingsGrow(mappings: seq<Mapping>, ids: seq<nat>)
    ensures |FreeMappings(mappings, ids)| == |mappings| && MappingsGrow(mappings, FreeMappings(mappings, ids))
    decreases |ids|
  {
    if ids != [] {
      var i := ids[0];
      var next := if i < |mappings| then mappings[i := mappings[i].(live := false)] else mappings;
      FreeMappingsGrow(next, ids[1..]);
      var last := FreeMappings(next, ids[1..]);
      forall j | 0 <= j < |mappings| ensures last[j] == mappings[j].(live := last[j].live) {
        assert next[j] == mappings[j].(live := next[j].live);
      }
    }
  }

  lemma ReleaseMemQuiet(s: State, m: nat)
    ensures Quiet(s, ReleaseMem(s, m))
  {
    if m < |s.mems| { FreeMappingsGrow(s.mappings, s.mems[m].data.mappings); }
  }

  lemma {:induction false} ReleaseMemsQuiet(s: State, ms: seq<nat>)
    ensures Quiet(s, ReleaseMems(s, ms))
    decreases |ms|
  {
    hide Quiet, ReleaseMem;
    if ms == [] { SelfQuiet(s); }
    else {
      ReleaseMemQuiet(s, ms[0]);
      ReleaseMemsQuiet(ReleaseMem(s, ms[0]), ms[1..]);
      QuietTrans(s, ReleaseMem(s, ms[0]), ReleaseMems(s, ms));
    }
  }

  lemma {:induction false} RetainMemsQuiet(s: State, ms: seq<nat>)
    ensures Quiet(s, RetainMems(s, ms))
    decreases |ms|
  {
    if ms == [] { SelfQuiet(s); }
    else {
      var t := s.(mems := Retain(s.mems, ms[0]));
      CountersQuiet(s, t);
      hide Quiet, Retain;
      RetainMemsQuiet(t, ms[1..]);
      QuietTrans(s, t, RetainMems(s, ms));
    }
  }

  lemma {:induction false} TakeMemsQuiet(s: State, ms: seq<nat>)
    ensures Quiet(s, TakeMems(s, ms))
    decreases |ms|
  {
    if ms == [] { SelfQuiet(s); }
    else {
      var t := s.(mems := Take(Retain(s.mems, ms[0]), ms[0]));
      CountersQuiet(s, t);
      hide Quiet, Retain, Take;
      TakeMemsQuiet(t, ms[1..]);
      QuietTrans(s, t, TakeMems(s, ms));
    }
  }

  lemma {:induction false} DropMemsQuiet(s: State, ms: seq<nat>)
    ensures Quiet(s, DropMems(s, ms))
    decreases |ms|
  {
    if ms == [] { SelfQuiet(s); }
    else {
      var t := s.(mems := GiveUp(s.mems, ms[0]));
      CountersQuiet(s, t);
      hide Quiet, GiveUp, ReleaseMem;
      ReleaseMemQuiet(t, ms[0]);
      QuietTrans(s, t, ReleaseMem(t, ms[0]));
      DropMemsQuiet(ReleaseMem(t, ms[0]), ms[1..]);
      QuietTrans(s, ReleaseMem(t, ms[0]), DropMems(s, ms));
    }
  }

  lemma MaybeEventQuiet(s: State, q: nat, wanted: bool, inOrder: bool)
    ensures Quiet(s, MaybeEvent(s, q, wanted, inOrder)) && MaybeEvent(s, q, wanted, inOrder).mems == s.mems
  {
  }

  lemma CountMapQuiet(s: State, m: nat, delta: int)
    ensures Quiet(s, CountMap(s, m, delta))
  {
  }

  lemma PerformQuiet(s: State, event: Option<nat>, op: Op)
    ensures Quiet(s, Perform(s, event, op)) && Perform(s, event, op).mems == s.mems
    ensures Perform(s, event, op).log == s.log + [op]
  {
  }

  lemma ReleaseProgramQuiet(s: State, p: nat)
    ensures Quiet(s, ReleaseProgram(s, p))
  {
    hide Orphan;
  }

  lemma ReleaseKernelQuiet(s: State, k: nat)
    ensures Quiet(s, ReleaseKernel(s, k))
  {
    if k < |s.kernels| {
      hide ReleaseProgram, Unlink;
      var d := s.kernels[k].data;
      if d.program.Some? && d.program.value < |s.programs| {
        var p := d.program.value;
        var t := s.(kernels := Release(s.kernels, k),
                    programs := SetData(s.programs, p, s.programs[p].data.(kernels := Unlink(s.programs[p].data.kernels, k))));
        CountersQuiet(s, t);
        ReleaseProgramQuiet(t, p);
        QuietTrans(s, t, ReleaseProgram(t, p));
      }
    }
  }

  lemma FinalizeQuiet(s: State, d: QueueData, c: Command)
    ensures Quiet(s, Finalize(s, d, c))
  {
    var s1 := ReleaseMems(s, CommandMems(c));
    ReleaseMemsQuiet(s, CommandMems(c));
    hide Quiet, ReleaseMems, ReleaseKernel;
    match c {
      case MapBuffer(m, _) => CountMapQuiet(s1, m, 1);
      case RunKernel(k, _, args, _) =>
        var s2 := s1.(blocks := FreeBlocks(s1.blocks, args));
        SameQuiet(s1, s2);
        if d.gpu { SameQuiet(s2, Finalize(s, d, c)); } else { ReleaseKernelQuiet(s2, k); }
        QuietTrans(s1, s2, Finalize(s, d, c));
      case _ => SelfQuiet(s1);
    }
    QuietTrans(s, s1, Finalize(s, d, c));
  }

  lemma ExecuteHeadQuiet(s: State, q: nat)
    requires Pending(s, q) != []
    ensures Quiet(s, ExecuteHead(s, q))
  {
    var d, node := s.queues[q].data, Pending(s, q)[0];
    var s1 := SetPending(s, q, Pending(s, q)[1..]);
    assert Quiet(s, s1);
    hide Quiet, Finalize, Perform, CommandOp, SetPending;
    if node.command.Marker? {
      SameQuiet(s1, MarkComplete(s1, node.event));
    } else {
      var s2 := Perform(s1, node.event, CommandOp(s1, d.devId, node.command));
      PerformQuiet(s1, node.event, CommandOp(s1, d.devId, node.command));
      FinalizeQuiet(s2, d, node.command);
      QuietTrans(s1, s2, Finalize(s2, d, node.command));
    }
    QuietTrans(s, s1, ExecuteHead(s, q));
  }

  lemma {:induction false} FinishQuiet(s: State, q: nat)
    ensures Quiet(s, Finish(s, q))
    decreases |Pending(s, q)|
  {
    hide Quiet, ExecuteHead;
    if Pending(s, q) == [] { SelfQuiet(s); }
    else {
      ExecuteHeadQuiet(s, q);
      FinishQuiet(ExecuteHead(s, q), q);
      QuietTrans(s, ExecuteHead(s, q), Finish(s, q));
    }
  }

  /** A drain makes and loses no mapping. */
  lemma {:induction false} FinishSameMaps(s: State, q: nat)
    ensures |Finish(s, q).mappings| == |s.mappings| && MappingsGrow(s.mappings, Finish(s, q).mappings)
    decreases |Pending(s, q)|
  {
    FinishQuiet(s, q);
    hide Quiet, ExecuteHead, MappingsGrow;
    if Pending(s, q) != [] {
      ExecuteSameMaps(s, q);
      FinishSameMaps(ExecuteHead(s, q), q);
    }
    assert MappingsGrow(s.mappings, Finish(s, q).mappings) by { QuietMaps(s, Finish(s, q)); }
  }

  lemma QuietMaps(s: State, t: State)
    requires Quiet(s, t)
    ensures MappingsGrow(s.mappings, t.mappings)
  {
  }

  lemma {:induction false} ReleaseMemsSameMaps(s: State, ms: seq<nat>)
    ensures |ReleaseMems(s, ms).mappings| == |s.mappings|
    decreases |ms|
  {
    if ms != [] {
      if ms[0] < |s.mems| { FreeMappingsGrow(s.mappings, s.mems[ms[0]].data.mappings); }
      ReleaseMemsSameMaps(ReleaseMem(s, ms[0]), ms[1..]);
    }
  }

  lemma ExecuteSameMaps(s: State, q: nat)
    requires Pending(s, q) != []
    ensures |ExecuteHead(s, q).mappings| == |s.mappings|
  {
    var node := Pending(s, q)[0];
    var s1 := SetPending(s, q, Pending(s, q)[1..]);
    if !node.command.Marker? {
      var s2 := Perform(s1, node.event, CommandOp(s1, s.queues[q].data.devId, node.command));
      ReleaseMemsSameMaps(s2, CommandMems(node.command));
      hide ReleaseMems, ReleaseKernel, CommandOp;
    }
  }

  lemma {:induction false} WaitQuiet(s: State, es: seq<nat>)
    ensures Quiet(s, WaitForEvents(s, es))
    decreases |es|
  {
    hide Quiet, Finish;
    if es == [] { SelfQuiet(s); }
    else {
      var t := if es[0] < |s.events| then Finish(s, s.events[es[0]].data.queue) else s;
      if es[0] < |s.events| { FinishQuiet(s, s.events[es[0]].data.queue); } else { SelfQuiet(s); }
      WaitQuiet(t, es[1..]);
      QuietTrans(s, t, WaitForEvents(s, es));
    }
  }

  lemma QueueCounterQuiet(s: State, queues: seq<Obj<QueueData>>)
    requires |queues| == |s.queues| && forall q {:trigger queues[q]} :: 0 <= q < |queues| ==> queues[q].data == s.queues[q].data
    ensures Quiet(s, s.(queues := queues))
  {
    CountersQuiet(s, s.(queues := queues));
  }

  lemma ReleaseQueueQuiet(s: State, q: nat)
    ensures Quiet(s, ReleaseQueue(s, q))
  {
    hide Quiet, Finish;
    var t := Finish(s, q);
    FinishQuiet(s, q);
    QueueCounterQuiet(t, Release(t.queues, q));
    QuietTrans(s, t, ReleaseQueue(s, q));
  }

  lemma ReleaseEventQuiet(s: State, e: nat)
    ensures Quiet(s, ReleaseEvent(s, e))
  {
    hide Quiet, ReleaseQueue;
    if e >= |s.events| { SelfQuiet(s); return; }
    var s1 := s.(events := Dec(s.events, e));
    SameQuiet(s, s1);
    var q := s1.events[e].data.queue;
    if s1.events[e].refcount == 0 {
      var gpu := q < |s1.queues| && s1.queues[q].data.gpu;
      var s2 := if gpu then s1.(queues := Leak(s1.queues, q)) else ReleaseQueue(s1, q);
      if gpu { QueueCounterQuiet(s1, Leak(s1.queues, q)); } else { ReleaseQueueQuiet(s1, q); }
      SameQuiet(s2, ReleaseEvent(s, e));
      QuietTrans(s, s1, s2);
      QuietTrans(s, s2, ReleaseEvent(s, e));
    }
  }

  /** A blocking command up to the drain, and as a whole. */
  function BeforeDrain(s: State, q: nat, ms: seq<nat>, wanted: bool): State {
    TakeMems(MaybeEvent(s, q, wanted, true), ms)
  }

  lemma BeforeDrainQuiet(s: State, q: nat, ms: seq<nat>, wanted: bool)
    ensures Quiet(s, BeforeDrain(s, q, ms, wanted))
  {
    var s0 := MaybeEvent(s, q, wanted, true);
    MaybeEventQuiet(s, q, wanted, true);
    TakeMemsQuiet(s0, ms);
    hide Quiet, MaybeEvent, TakeMems;
    QuietTrans(s, s0, BeforeDrain(s, q, ms, wanted));
  }

  lemma RunNowQuiet(s: State, q: nat, ms: seq<nat>, op: Op, wanted: bool)
    ensures Quiet(s, RunNow(s, q, ms, op, wanted))
  {
    hide Quiet, BeforeDrain, DropMems, Perform, Finish;
    var s1 := BeforeDrain(s, q, ms, wanted);
    BeforeDrainQuiet(s, q, ms, wanted);
    assert s1 == TakeMems(MaybeEvent(s, q, wanted, true), ms) by { BeforeDrainIs(s, q, ms, wanted); }
    var s2 := Finish(s1, q);
    FinishQuiet(s1, q);
    var s3 := Perform(s2, EventHandle(s, wanted), op);
    PerformQuiet(s2, EventHandle(s, wanted), op);
    DropMemsQuiet(s3, ms);
    QuietTrans(s, s1, s2);
    QuietTrans(s, s2, s3);
    QuietTrans(s, s3, DropMems(s3, ms));
  }

  lemma RunIntoQuiet(s: State, q: nat, ms: seq<nat>, op: Op, out: Option<nat>)
    ensures Quiet(s, RunInto(s, q, ms, op, out)) && RunInto(s, q, ms, op, out).log == RunNow(s, q, ms, op, false).log
  {
    hide Quiet, RunNow, RunInto, Finish, TakeMems;
    RunNowQuiet(s, q, ms, op, false);
    RunIntoIs(s, q, ms, op, out);
    SameQuiet(RunNow(s, q, ms, op, false), RunInto(s, q, ms, op, out));
    QuietTrans(s, RunNow(s, q, ms, op, false), RunInto(s, q, ms, op, out));
  }

  lemma BeforeDrainIs(s: State, q: nat, ms: seq<nat>, wanted: bool)
    ensures BeforeDrain(s, q, ms, wanted) == TakeMems(MaybeEvent(s, q, wanted, true), ms)
  {
  }

  lemma {:induction false} UnlinkSubset(l: seq<nat>, x: nat)
    ensures forall y :: y in Unlink(l, x) ==> y in l
  {
    if l != [] && l[0] != x { UnlinkSubset(l[1..], x); }
  }

  lemma RemoveMappingQuiet(s: State, m: nat, id: nat)
    ensures Quiet(s, RemoveMapping(s, m, id))
  {
    if m < |s.mems| && id < |s.mappings| { UnlinkSubset(s.mems[m].data.mappings, id); }
  }

  lemma UnmapDeviceQuiet(s: State, q: nat, m: nat, id: nat, flush: bool, wanted: bool)
    ensures Quiet(s, UnmapDevice(s, q, m, id, flush, wanted)) && UnmapDevice(s, q, m, id, flush, wanted).mems == s.mems
  {
    var s1 := MaybeEvent(s, q, wanted, false);
    MaybeEventQuiet(s, q, wanted, false);
    hide Quiet, MaybeEvent;
    SameQuiet(s1, UnmapDevice(s, q, m, id, flush, wanted));
    QuietTrans(s, s1, UnmapDevice(s, q, m, id, flush, wanted));
  }

  lemma UnmapCallQuiet(s: State, q: nat, m: nat, id: nat, flush: bool, wanted: bool)
    ensures Quiet(s, UnmapCall(s, q, m, id, flush, wanted))
  {
    hide Quiet, UnmapDevice, RemoveMapping, CountMap, ReleaseMem;
    var s1 := UnmapDevice(s, q, m, id, flush, wanted);
    UnmapDeviceQuiet(s, q, m, id, flush, wanted);
    var s2 := RemoveMapping(s1, m, id);
    RemoveMappingQuiet(s1, m, id);
    var s3 := CountMap(s2, m, -1);
    CountMapQuiet(s2, m, -1);
    ReleaseMemQuiet(s3, m);
    QuietTrans(s, s1, s2);
    QuietTrans(s, s2, s3);
    QuietTrans(s, s3, ReleaseMem(s3, m));
  }

  // ----- calls that add something -----

  lemma AppendKept(s: State, q: nat, c: Command, event: Option<nat>)
    ensures Kept(s, Append(s, q, c, event))
  {
  }

  /** A deferred command up to the append. */
  function BeforeAppend(s: State, q: nat, ms: seq<nat>, wanted: bool): State {
    RetainMems(MaybeEvent(s, q, wanted, true), ms)
  }

  lemma BeforeAppendQuiet(s: State, q: nat, ms: seq<nat>, wanted: bool)
    ensures Quiet(s, BeforeAppend(s, q, ms, wanted))
  {
    var s0 := MaybeEvent(s, q, wanted, true);
    MaybeEventQuiet(s, q, wanted, true);
    RetainMemsQuiet(s0, ms);
    hide Quiet, MaybeEvent, RetainMems;
    QuietTrans(s, s0, BeforeAppend(s, q, ms, wanted));
  }

  lemma DeferKept(s: State, q: nat, ms: seq<nat>, c: Command, wanted: bool)
    ensures Kept(s, Defer(s, q, ms, c, wanted))
  {
    var s1 := BeforeAppend(s, q, ms, wanted);
    BeforeAppendQuiet(s, q, ms, wanted);
    hide Kept, Quiet, MaybeEvent, RetainMems, Append;
    QuietIsKept(s, s1);
    AppendKept(s1, q, c, EventHandle(s, wanted));
    KeptTrans(s, s1, Defer(s, q, ms, c, wanted));
  }

  lemma AddMappingKept(s: State, m: nat, mapping: Mapping)
    ensures Kept(s, AddMapping(s, m, mapping))
  {
  }

  lemma MapTailKept(s: State, q: nat, m: nat, id: nat, event: Option<nat>)
    ensures var t := Finish(s, q); Quiet(s, CountMap(Perform(t, event, MapOp(t, DevId(t, q), m, id)), m, 1))
  {
    hide Quiet, Finish, Perform, CountMap, MapOp;
    var t := Finish(s, q);
    FinishQuiet(s, q);
    var u := Perform(t, event, MapOp(t, DevId(t, q), m, id));
    PerformQuiet(t, event, MapOp(t, DevId(t, q), m, id));
    CountMapQuiet(u, m, 1);
    QuietTrans(s, t, u);
    QuietTrans(s, u, CountMap(u, m, 1));
  }

  /** A map up to the point where its success is known. */
  function BeforeMap(s: State, q: nat, m: nat, wanted: bool, found: bool): State {
    MaybeEvent(s.(mems := Retain(s.mems, m)), q, wanted, found)
  }

  lemma BeforeMapQuiet(s: State, q: nat, m: nat, wanted: bool, found: bool)
    ensures var t := BeforeMap(s, q, m, wanted, found); Quiet(s, t) && t.mems == Retain(s.mems, m) && t.mappings == s.mappings
  {
    var s0 := s.(mems := Retain(s.mems, m));
    CountersQuiet(s, s0);
    MaybeEventQuiet(s0, q, wanted, found);
    hide Quiet;
    QuietTrans(s, s0, BeforeMap(s, q, m, wanted, found));
  }

  lemma MapCallKept(s: State, q: nat, m: nat, blocking: bool, offset: nat, size: nat, hostPtr: Option<int>, wanted: bool)
    requires hostPtr.Some?
    ensures Kept(s, MapCall(s, q, m, blocking, offset, size, hostPtr, wanted))
  {
    var event, id := EventHandle(s, wanted), |s.mappings|;
    var s1 := BeforeMap(s, q, m, wanted, true);
    BeforeMapQuiet(s, q, m, wanted, true);
    var s2 := AddMapping(s1, m, Mapping(true, m, hostPtr.value, offset, size));
    AddMappingKept(s1, m, Mapping(true, m, hostPtr.value, offset, size));
    hide Kept, Quiet, AddMapping, Append, MaybeEvent, Finish, Perform, CountMap, MapOp;
    QuietIsKept(s, s1);
    KeptTrans(s, s1, s2);
    var t := MapCall(s, q, m, blocking, offset, size, hostPtr, wanted);
    if blocking { MapTailKept(s2, q, m, id, event); QuietIsKept(s2, t); } else { AppendKept(s2, q, MapBuffer(m, id), event); }
    KeptTrans(s, s2, t);
  }

  /** A launch up to the append. */
  lemma KernelCallKept(s: State, q: nat, k: nat, range: seq<nat>, wanted: bool)
    ensures Kept(s, KernelCall(s, q, k, range, wanted))
  {
    if k >= |s.kernels| { SelfQuiet(s); QuietIsKept(s, s); return; }
    var (t, c) := Launch(s, q, k, range, wanted);
    LaunchQuiet(s, q, k, range, wanted);
    hide Kept, Quiet, Launch, Append;
    QuietIsKept(s, t);
    AppendKept(t, q, c, EventHandle(s, wanted));
    KeptTrans(s, t, KernelCall(s, q, k, range, wanted));
  }

  /** The state a launch appends its node to, and the node's command. */
  function Launch(s: State, q: nat, k: nat, range: seq<nat>, wanted: bool): (State, Command)
    requires k < |s.kernels|
  {
    var d := s.kernels[k].data;
    var s1 := MaybeEvent(s, q, wanted, true);
    var (blocks, args) := Snapshot(s1.blocks, d.arguments, s1.nodes, 0);
    var bufs := ArgBuffers(s1.blocks, d, 0);
    var s2 := s1.(blocks := blocks, queues := Leak(Retain(s1.queues, q), q), kernels := Retain(s1.kernels, k));
    (RetainMems(s2, bufs), RunKernel(k, range, args, bufs))
  }

  lemma LaunchQuiet(s: State, q: nat, k: nat, range: seq<nat>, wanted: bool)
    requires k < |s.kernels|
    ensures var (t, c) := Launch(s, q, k, range, wanted);
      Quiet(s, t) && c.RunKernel? && t.log == s.log && KernelCall(s, q, k, range, wanted) == Append(t, q, c, EventHandle(s, wanted))
  {
    hide Snapshot, ArgBuffers, RetainMems, Append;
    var d := s.kernels[k].data;
    var s1 := MaybeEvent(s, q, wanted, true);
    MaybeEventQuiet(s, q, wanted, true);
    var (blocks, args) := Snapshot(s1.blocks, d.arguments, s1.nodes, 0);
    var bufs := ArgBuffers(s1.blocks, d, 0);
    var s2 := s1.(blocks := blocks, queues := Leak(Retain(s1.queues, q), q), kernels := Retain(s1.kernels, k));
    CountersQuiet(s1, s2);
    RetainMemsQuiet(s2, bufs);
    hide Quiet;
    QuietTrans(s, s1, s2);
    QuietTrans(s, s2, RetainMems(s2, bufs));
  }

  lemma NewMemGrows(s: State, d: MemData, leaked: nat)
    ensures var t := s.(mems := Create(s.mems, d, leaked)); Grow(s, t) && SameLeaks(s.mems, t.mems)
  {
  }

  lemma NewQueueKept(s: State, d: QueueData)
    ensures Kept(s, s.(queues := Create(s.queues, d, 0)))
  {
  }

  // ----- every call -----

  /** The driver finds no place to map to; the call keeps its reference. */
  predicate MapFails(s: State, c: Call) {
    c.EnqueueMap? && Accepted(s, c) && c.hostPtr.None?
  }

  predicate Creates(c: Call) { c.CreateBuffer? || c.CreateSubBuffer? || c.CreateProgram? }

  /** Calls that add no buffer, mapping, queue, program or pending node. */
  predicate AddsNothing(c: Call) {
    match c
    case EnqueueRead(_, _, blocking, _, _, _, _, _) => blocking
    case EnqueueWrite(_, _, blocking, _, _, _, _, _) => blocking
    case EnqueueCopy(_, _, _, _, _, _, _) => false
    case EnqueueMarker(_) => false
    case EnqueueMap(_, _, _, _, _, _, _, _) => false
    case EnqueueKernel(_, _, _, _, _) => false
    case CreateQueue(_, _, _, _) => false
    case _ => !Creates(c)
  }

  lemma CommandQuiet(s: State, c: Call)
    requires AddsNothing(c) && (c.EnqueueRead? || c.EnqueueWrite? || c.EnqueueReadRect? || c.EnqueueWriteRect? || c.EnqueueCopyRect? || c.EnqueueUnmap?)
    ensures Quiet(s, Effect(s, c))
  {
    hide Quiet, RunNow, RunInto, UnmapCall;
    match c
    case EnqueueRead(q, m, _, offset, cb, ptr, _, event) =>
      RunNowQuiet(s, q, [m], OpRead(ptr, DevicePtr(s, m, DevId(s, q)) + offset, cb), event);
    case EnqueueWrite(q, m, _, offset, cb, ptr, _, event) =>
      RunNowQuiet(s, q, [m], OpWrite(ptr, DevicePtr(s, m, DevId(s, q)) + offset, cb), event);
    case EnqueueReadRect(q, m, ptr, shape, _, event) =>
      RunNowQuiet(s, q, [m], OpRect(RectRead, DevicePtr(s, m, DevId(s, q)), ptr, shape), event);
    case EnqueueWriteRect(q, m, ptr, shape, _, out) =>
      RunIntoQuiet(s, q, [m], OpRect(RectWrite, DevicePtr(s, m, DevId(s, q)), ptr, shape), out);
    case EnqueueCopyRect(q, m1, m2, shape, _, event) =>
      RunNowQuiet(s, q, [m1, m2], OpRect(RectCopy, DevicePtr(s, m1, DevId(s, q)), DevicePtr(s, m2, DevId(s, q)), shape), event);
    case EnqueueUnmap(q, m, ptr, flush, event) =>
      SelfQuiet(s);
      if FoundMapping(s, m, ptr).Some? { UnmapCallQuiet(s, q, m, FoundMapping(s, m, ptr).value, flush, event); }
  }

  lemma QueueCallQuiet(s: State, c: Call)
    requires c.RetainQueueCall? || c.ReleaseQueueCall? || c.FinishCall? || c.WaitCall? || c.RetainEvent?
      || c.ReleaseEventCall? || c.StoreHost?
    ensures Quiet(s, Effect(s, c))
  {
    hide Quiet, ReleaseQueue, ReleaseEvent, Finish, WaitForEvents;
    var t := Effect(s, c);
    match c
    case RetainQueueCall(q) => QueueCounterQuiet(s, Take(Retain(s.queues, q), q));
    case ReleaseQueueCall(q) =>
      var s1 := s.(queues := GiveUp(s.queues, q));
      QueueCounterQuiet(s, GiveUp(s.queues, q));
      ReleaseQueueQuiet(s1, q);
      QuietTrans(s, s1, t);
    case FinishCall(q) => FinishQuiet(s, q);
    case WaitCall(es) => WaitQuiet(s, es);
    case RetainEvent(e) => SameQuiet(s, t);
    case ReleaseEventCall(e) =>
      var s1 := s.(events := GiveUp(s.events, e));
      SameQuiet(s, s1);
      ReleaseEventQuiet(s1, e);
      QuietTrans(s, s1, t);
    case StoreHost(_, _) => SameQuiet(s, t);
  }

  lemma ReleaseQuiet(s: State, c: Call)
    requires c.ReleaseMemObject? || c.ReleaseProgramCall? || c.ReleaseKernelCall?
    ensures Quiet(s, Effect(s, c))
  {
    hide Quiet, ReleaseMem, ReleaseProgram, ReleaseKernel;
    var s1;
    match c {
      case ReleaseMemObject(m) =>
        s1 := s.(mems := GiveUp(s.mems, m));
        CountersQuiet(s, s1);
        ReleaseMemQuiet(s1, m);
      case ReleaseProgramCall(p) =>
        s1 := s.(programs := GiveUp(s.programs, p));
        CountersQuiet(s, s1);
        ReleaseProgramQuiet(s1, p);
      case ReleaseKernelCall(k) =>
        s1 := s.(kernels := GiveUp(s.kernels, k));
        SameQuiet(s, s1);
        ReleaseKernelQuiet(s1, k);
    }
    QuietTrans(s, s1, Effect(s, c));
  }

  lemma ObjectCallQuiet(s: State, c: Call)
    requires c.RetainMemObject? || c.RetainProgram? || c.CreateKernel? || c.RetainKernel? || c.SetKernelArg?
    ensures Quiet(s, Effect(s, c))
  {
    hide Quiet;
    var t := Effect(s, c);
    if c.RetainKernel? || c.SetKernelArg? { SameQuiet(s, t); } else { CountersQuiet(s, t); }
  }

  lemma CallQuiet(s: State, c: Call)
    requires AddsNothing(c)
    ensures Quiet(s, Effect(s, c))
  {
    hide Quiet, Effect;
    if c.EnqueueRead? || c.EnqueueWrite? || c.EnqueueReadRect? || c.EnqueueWriteRect? || c.EnqueueCopyRect? || c.EnqueueUnmap? { CommandQuiet(s, c); }
    else if c.RetainQueueCall? || c.ReleaseQueueCall? || c.FinishCall? || c.WaitCall? || c.RetainEvent?
      || c.ReleaseEventCall? || c.StoreHost? { QueueCallQuiet(s, c); }
    else if c.ReleaseMemObject? || c.ReleaseProgramCall? || c.ReleaseKernelCall? { ReleaseQuiet(s, c); }
    else { ObjectCallQuiet(s, c); }
  }

  lemma AddingKept(s: State, c: Call)
    requires Accepted(s, c) && !AddsNothing(c) && !Creates(c) && !MapFails(s, c)
    ensures Kept(s, Effect(s, c))
  {
    hide Kept, Defer, MapCall, KernelCall, DevicePtr, DevId, DevIndex;
    match c
    case EnqueueRead(q, m, _, offset, cb, ptr, _, event) =>
      DeferKept(s, q, [m], ReadBuffer(ptr, DevicePtr(s, m, DevId(s, q)) + offset, cb, m), event);
    case EnqueueWrite(q, m, _, offset, cb, ptr, _, event) =>
      DeferKept(s, q, [m], WriteBuffer(ptr, DevicePtr(s, m, DevIndex(s, q)) + offset, cb, m), event);
    case EnqueueCopy(q, m1, m2, o1, o2, cb, event) =>
      DeferKept(s, q, [m1, m2], CopyBuffer(DevicePtr(s, m1, DevId(s, q)) + o1, DevicePtr(s, m2, DevId(s, q)) + o2, cb, m1, m2), event);
    case EnqueueMarker(q) => DeferKept(s, q, [], Marker, true);
    case EnqueueMap(q, m, blocking, offset, size, _, hostPtr, event) =>
      MapCallKept(s, q, m, blocking, offset, size, hostPtr, event);
    case EnqueueKernel(q, k, range, _, event) => KernelCallKept(s, q, k, range, event);
    case CreateQueue(context, devIndex, devId, gpu) => NewQueueKept(s, QueueData(context, devIndex, devId, gpu, []));
  }

  lemma SelfKept(s: State)
    ensures Kept(s, s)
  {
  }

  /** Only the calls that create a buffer or a program, and a failing map, do more. */
  lemma StepKept(s: State, c: Call)
    requires !Creates(c) && !MapFails(s, c)
    ensures Kept(s, Step(s, c))
  {
    hide Kept, Effect, Accepted, MapFails, Quiet;
    if !Accepted(s, c) {
      SelfKept(s);
    } else if AddsNothing(c) {
      CallQuiet(s, c);
      QuietIsKept(s, Effect(s, c));
    } else {
      AddingKept(s, c);
    }
  }
}
