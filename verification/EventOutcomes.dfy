/** What a command tells through its event: queued while it waits, and the whole course of the status
    once it has been carried out. */
module EventOutcomes {
  import opened RefCounts
  import opened Runtime
  import opened EventBooks
  import opened EventCalls

  /** Every value the field takes, the repetitions of the macros included. */
  const COMMAND_COURSE: seq<int> := [3, 3, 2, 2, 1, 1, 0]
  const MARKER_COURSE: seq<int> := [3, 1, 0]

  /** The event of a command: a new one on its queue when one is wanted. Carried out at once, it is
      complete; otherwise it is queued and named by the node put last on the queue. */
  ghost predicate Told(s: State, t: State, q: nat, wanted: bool, now: bool) {
    |t.events| == |s.events| + (if wanted then 1 else 0)
    && (wanted ==>
          var o := t.events[|s.events|];
          o.live && o.refcount == o.app == 1 && o.data == EventData(q, true, if now then COMMAND_COURSE else [3]))
    && (!now ==>
          Pending(t, q) != [] && Pending(t, q)[..|Pending(t, q)| - 1] == Pending(s, q)
          && Pending(t, q)[|Pending(t, q)| - 1].event == if wanted then Some(|s.events|) else None)
  }

  /** A new event, still queued. */
  ghost predicate Fresh(s: State, t: State, q: nat, wanted: bool) {
    |t.events| == |s.events| + (if wanted then 1 else 0)
    && (wanted ==> t.events[|s.events|] == Obj(true, 1, 1, 0, EventData(q, true, [3])))
  }

  lemma MaybeFresh(s: State, q: nat, wanted: bool)
    ensures Fresh(s, MaybeEvent(s, q, wanted, true), q, wanted)
  {
  }

  /** The drain of a running call leaves its event, which is queued. */
  lemma FinishFresh(s: State, t: State, q: nat, wanted: bool)
    requires Fresh(s, t, q, wanted) && EventOk(t, EventHandle(s, wanted), multiset{})
    ensures Fresh(s, Finish(t, q), q, wanted)
  {
    FinishOk(t, q, EventHandle(s, wanted), multiset{});
    hide Finish, CountsOk;
  }

  lemma PerformTells(s: State, t: State, q: nat, wanted: bool, op: Op)
    requires Fresh(s, t, q, wanted)
    ensures var u := Perform(t, EventHandle(s, wanted), op);
      |u.events| == |t.events|
      && (wanted ==> u.events[|s.events|] == Obj(true, 1, 1, 0, EventData(q, true, COMMAND_COURSE)))
  {
    PerformEvents(t, EventHandle(s, wanted), op);
    hide Perform;
    assert [CL_QUEUED] + [CL_QUEUED, CL_SUBMITTED, CL_SUBMITTED, CL_RUNNING, CL_RUNNING, CL_COMPLETE] == COMMAND_COURSE;
  }

  lemma NowTells(s: State, q: nat, ms: seq<nat>, op: Op, wanted: bool)
    requires EventInv(s) && Alive(s.queues, q)
    ensures Told(s, RunNow(s, q, ms, op, wanted), q, wanted, true)
  {
    hide EventOk, Finish, Perform, TakeMems, DropMems, Fresh;
    var event := EventHandle(s, wanted);
    MaybeFresh(s, q, wanted);
    MaybeEventOk(s, q, wanted, true);
    var s1 := MaybeEvent(s, q, wanted, true);
    var s2 := TakeMems(s1, ms);
    EventFrame(s1, s2, event, multiset{});
    SameFresh(s, s1, s2, q, wanted);
    FinishFresh(s, s2, q, wanted);
    PerformTells(s, Finish(s2, q), q, wanted, op);
    FreshCount(s, Finish(s2, q), q, wanted);
  }

  lemma SameFresh(s: State, t: State, u: State, q: nat, wanted: bool)
    requires Fresh(s, t, q, wanted) && u.events == t.events
    ensures Fresh(s, u, q, wanted)
  {
  }

  lemma FreshCount(s: State, t: State, q: nat, wanted: bool)
    requires Fresh(s, t, q, wanted)
    ensures |t.events| == |s.events| + (if wanted then 1 else 0)
  {
  }

  lemma AppendTells(s: State, t: State, q: nat, c: Command, wanted: bool)
    requires Fresh(s, t, q, wanted) && q < |t.queues| && Pending(t, q) == Pending(s, q)
    ensures Told(s, Append(t, q, c, EventHandle(s, wanted)), q, wanted, false)
  {
    var u, n := Append(t, q, c, EventHandle(s, wanted)), Node(t.nodes, c, EventHandle(s, wanted));
    assert Pending(u, q) == Pending(s, q) + [n];
  }

  lemma LaterTells(s: State, q: nat, ms: seq<nat>, c: Command, wanted: bool)
    requires q < |s.queues|
    ensures Told(s, Defer(s, q, ms, c, wanted), q, wanted, false)
  {
    hide RetainMems, Append, Told;
    MaybeFresh(s, q, wanted);
    AppendTells(s, RetainMems(MaybeEvent(s, q, wanted, true), ms), q, c, wanted);
  }

  lemma LaunchTells(s: State, q: nat, k: nat, range: seq<nat>, wanted: bool)
    requires q < |s.queues| && k < |s.kernels|
    ensures Told(s, KernelCall(s, q, k, range, wanted), q, wanted, false)
  {
    hide RetainMems, Snapshot, ArgBuffers, Append, Told;
    var s1 := MaybeEvent(s, q, wanted, true);
    MaybeFresh(s, q, wanted);
    var (blocks, args) := Snapshot(s1.blocks, s.kernels[k].data.arguments, s1.nodes, 0);
    var bufs := ArgBuffers(s1.blocks, s.kernels[k].data, 0);
    var s2 := s1.(blocks := blocks, queues := Leak(Retain(s1.queues, q), q), kernels := Retain(s1.kernels, k));
    AppendTells(s, RetainMems(s2, bufs), q, RunKernel(k, range, args, bufs), wanted);
  }

  lemma MapTells(s: State, q: nat, m: nat, blocking: bool, offset: nat, size: nat, hostPtr: int, wanted: bool)
    requires EventInv(s) && Alive(s.queues, q)
    ensures Told(s, MapCall(s, q, m, blocking, offset, size, Some(hostPtr), wanted), q, wanted, blocking)
  {
    hide EventOk, Finish, Perform, Append, MapOp, Fresh, Told, CountMap;
    var event, s0 := EventHandle(s, wanted), s.(mems := Retain(s.mems, m));
    EventFrame(s, s0, None, multiset{});
    MaybeFresh(s0, q, wanted);
    MaybeEventOk(s0, q, wanted, true);
    var s1 := MaybeEvent(s0, q, wanted, true);
    SameStart(s0, s, s1, q, wanted);
    assert Pending(s1, q) == Pending(s, q);
    hide MaybeEvent;
    var s2 := AddMapping(s1, m, Mapping(true, m, hostPtr, offset, size));
    SameFresh(s, s1, s2, q, wanted);
    if blocking {
      EventFrame(s1, s2, event, multiset{});
      FinishFresh(s, s2, q, wanted);
      var t := Finish(s2, q);
      var op := MapOp(t, DevId(t, q), m, |s.mappings|);
      PerformTells(s, t, q, wanted, op);
      FreshCount(s, t, q, wanted);
      CountedTold(s, Perform(t, event, op), q, m, wanted);
    } else {
      AppendTells(s, s2, q, MapBuffer(m, |s.mappings|), wanted);
    }
  }

  lemma CountedTold(s: State, t: State, q: nat, m: nat, wanted: bool)
    requires |t.events| == |s.events| + (if wanted then 1 else 0)
    requires wanted ==> t.events[|s.events|] == Obj(true, 1, 1, 0, EventData(q, true, COMMAND_COURSE))
    ensures Told(s, CountMap(t, m, 1), q, wanted, true)
  {
  }

  lemma SameStart(s: State, t: State, u: State, q: nat, wanted: bool)
    requires Fresh(s, u, q, wanted) && t.events == s.events
    ensures Fresh(t, u, q, wanted)
  {
  }

  // ----- calls -----

  /** Calls that report through an event, and whether they do so at once. */
  predicate Reports(c: Call) {
    c.EnqueueRead? || c.EnqueueWrite? || c.EnqueueCopy? || c.EnqueueReadRect? || c.EnqueueCopyRect? || c.EnqueueKernel?
    || c.EnqueueMarker? || (c.EnqueueMap? && c.hostPtr.Some?)
  }

  predicate Wanted(c: Call)
    requires Reports(c)
  {
    c.EnqueueMarker? || c.event
  }

  predicate AtOnce(c: Call)
    requires Reports(c)
  {
    c.EnqueueReadRect? || c.EnqueueCopyRect? || ((c.EnqueueRead? || c.EnqueueWrite? || c.EnqueueMap?) && c.blocking)
  }

  lemma NamesQueue(s: State, c: Call)
    requires EventInv(s) && Enabled(s, c) && Reports(c)
    ensures Alive(s.queues, c.q) && (c.EnqueueKernel? ==> c.k < |s.kernels|)
  {
    assert Usable(s.queues, c.q) && (c.EnqueueKernel? ==> c.k < |s.kernels|) by { hide HandleIn, EventOk; }
    hide Enabled;
    UsableQueue(s, c.q);
  }

  /** Every command that is carried out tells its course. */
  lemma EventOutcome(s: State, c: Call)
    requires EventInv(s) && Enabled(s, c) && Accepted(s, c) && Reports(c)
    ensures Told(s, Step(s, c), c.q, Wanted(c), AtOnce(c))
  {
    hide Enabled, Accepted, EventOk, Effect, Told;
    NamesQueue(s, c);
    if c.EnqueueRead? || c.EnqueueWrite? || c.EnqueueCopy? { TransferTells(s, c); } else { CommandTells(s, c); }
  }

  lemma TransferTells(s: State, c: Call)
    requires (c.EnqueueRead? || c.EnqueueWrite? || c.EnqueueCopy?) && EventInv(s) && Alive(s.queues, c.q)
    ensures Told(s, Effect(s, c), c.q, Wanted(c), AtOnce(c))
  {
    hide EventOk, RunNow, Defer, DevicePtr, DevId, DevIndex, Told;
    match c
    case EnqueueRead(q, m, blocking, offset, cb, ptr, _, event) =>
      var addr := DevicePtr(s, m, DevId(s, q)) + offset;
      NowTells(s, q, [m], OpRead(ptr, addr, cb), event);
      LaterTells(s, q, [m], ReadBuffer(ptr, addr, cb, m), event);
    case EnqueueWrite(q, m, blocking, offset, cb, ptr, _, event) =>
      NowTells(s, q, [m], OpWrite(ptr, DevicePtr(s, m, DevId(s, q)) + offset, cb), event);
      LaterTells(s, q, [m], WriteBuffer(ptr, DevicePtr(s, m, DevIndex(s, q)) + offset, cb, m), event);
    case EnqueueCopy(q, m1, m2, o1, o2, cb, event) =>
      LaterTells(s, q, [m1, m2], CopyBuffer(DevicePtr(s, m1, DevId(s, q)) + o1, DevicePtr(s, m2, DevId(s, q)) + o2, cb, m1, m2), event);
  }

  lemma CommandTells(s: State, c: Call)
    requires Reports(c) && !c.EnqueueRead? && !c.EnqueueWrite? && !c.EnqueueCopy?
    requires EventInv(s) && Alive(s.queues, c.q) && (c.EnqueueKernel? ==> c.k < |s.kernels|)
    ensures Told(s, Effect(s, c), c.q, Wanted(c), AtOnce(c))
  {
    hide EventOk, RunNow, Defer, MapCall, KernelCall, DevicePtr, DevId, DevIndex, Told;
    match c
    case EnqueueReadRect(q, m, ptr, shape, _, event) =>
      NowTells(s, q, [m], OpRect(RectRead, DevicePtr(s, m, DevId(s, q)), ptr, shape), event);
    case EnqueueCopyRect(q, m1, m2, shape, _, event) =>
      NowTells(s, q, [m1, m2], OpRect(RectCopy, DevicePtr(s, m1, DevId(s, q)), DevicePtr(s, m2, DevId(s, q)), shape), event);
    case EnqueueMap(q, m, blocking, offset, size, _, hostPtr, event) => MapTells(s, q, m, blocking, offset, size, hostPtr.value, event);
    case EnqueueKernel(q, k, range, _, event) => LaunchTells(s, q, k, range, event);
    case EnqueueMarker(q) => LaterTells(s, q, [], Marker, true);
  }

  // ----- draining -----

  /** A drain takes the event of every pending command through its course. */
  lemma {:induction false} DrainTells(s: State, q: nat, i: nat)
    requires EventInv(s) && i < |Pending(s, q)| && Pending(s, q)[i].event.Some?
    ensures var n := Pending(s, q)[i];
      n.event.value < |Finish(s, q).events|
      && Finish(s, q).events[n.event.value].data.trail == if n.command.Marker? then MARKER_COURSE else COMMAND_COURSE
    decreases i
  {
    var n, t := Pending(s, q)[i], ExecuteHead(s, q);
    ExecuteHeadOk(s, q, None, multiset{});
    hide EventOk, Finish, ExecuteHead, KeepsRan, SameQueues;
    NamesEvent(s, q, i);
    Unfold(s, q);
    if i == 0 {
      HeadTells(s, q);
      FinishOk(t, q, None, multiset{});
      StaysRan(t.events, Finish(t, q).events, n.event.value);
    } else {
      assert Pending(t, q)[i - 1] == n;
      DrainTells(t, q, i - 1);
    }
  }

  lemma Unfold(s: State, q: nat)
    requires Pending(s, q) != []
    ensures Finish(s, q) == Finish(ExecuteHead(s, q), q)
  {
    hide ExecuteHead;
  }

  lemma StaysRan(a: seq<Obj<EventData>>, b: seq<Obj<EventData>>, e: nat)
    requires KeepsRan(a, b) && e < |a| && Ran(a[e].data.trail)
    ensures e < |b| && b[e] == a[e]
  {
  }

  lemma NamesEvent(s: State, q: nat, i: nat)
    requires EventInv(s) && i < |Pending(s, q)| && Pending(s, q)[i].event.Some?
    ensures var e := Pending(s, q)[i].event.value; e < |s.events| && s.events[e].data.trail == [3]
  {
    hide CountsOk, Settled, CompletedFirst;
    assert NodeEventOk(s.queues[q].data.pending[i], q, s.queues[q].data.gpu, s.events);
  }

  lemma HeadTells(s: State, q: nat)
    requires Pending(s, q) != [] && Pending(s, q)[0].event.Some?
    requires var e := Pending(s, q)[0].event.value; e < |s.events| && s.events[e].data.trail == [3]
    ensures var n, t := Pending(s, q)[0], ExecuteHead(s, q);
      |t.events| == |s.events|
      && t.events[n.event.value].data.trail == if n.command.Marker? then MARKER_COURSE else COMMAND_COURSE
  {
    var s1, n := SetPending(s, q, Pending(s, q)[1..]), Pending(s, q)[0];
    ExecuteEvents(s1, s.queues[q].data, n);
    hide Execute;
    assert [3] + Suffix(n.command) == if n.command.Marker? then MARKER_COURSE else COMMAND_COURSE;
  }
}
