/** Which calls are carried out, told by the fields of the objects they name, and what each does for
    its caller; every other call leaves everything as it was. */
module Outcomes {
  import opened RefCounts
  import opened Runtime
  import opened Frames
  import opened SimBooks
  import opened SimCalls
  import opened Simulation
  import EventBooks
  import MemBooks
  import Rect

  // ----- commands -----

  /** What has been issued, followed by what queue `q` owes, grows by `ops`. */
  ghost predicate Moves(s: State, t: State, q: nat, ops: seq<Op>) {
    SimOk(t) && Projected(t, q) == Projected(s, q) + ops
  }

  /** It grows by exactly `op`: at once, with nothing left pending, or later, with nothing issued now.
      Whatever is pending on other queues. */
  ghost predicate Carries(s: State, t: State, q: nat, op: Op, now: bool) {
    Moves(s, t, q, [op]) && if now then Pending(t, q) == [] else t.log == s.log
  }

  lemma UnseenMoves(s: State, t: State, q: nat)
    requires SimOk(s) && Unseen(s, t) && t.log == s.log
    ensures SimOk(t) && Projected(t, q) == Projected(s, q)
  {
    UnseenSim(s, t, q);
  }

  /** A drain, an operation, and changes that nothing pending notices around them. */
  lemma DrainThen(s: State, t: State, u: State, q: nat, op: Op)
    requires SimOk(s) && Unseen(s, t) && t.log == s.log && Unseen(Finish(t, q), u) && u.log == Finish(t, q).log + [op]
    ensures Carries(s, u, q, op, true)
  {
    UnseenMoves(s, t, q);
    FinishSim(t, q);
    UnseenSim(Finish(t, q), u, q);
    SamePendingLists(Finish(t, q), u, q);
    hide SimOk, Unseen, Finish;
    assert PendingOps(Finish(t, q), q) == [];
  }

  lemma SamePendingLists(s: State, t: State, q: nat)
    requires Unseen(s, t)
    ensures Pending(t, q) == Pending(s, q)
  {
    if q < |s.queues| { assert SameQueue(s.queues[q], t.queues[q]); }
  }

  lemma IntoCarries(s: State, q: nat, ms: seq<nat>, op: Op, event: Option<nat>)
    requires SimOk(s)
    ensures Carries(s, DropMems(Perform(Finish(TakeMems(s, ms), q), event, op), ms), q, op, true)
  {
    hide SimOk, Finish, Perform, TakeMems, DropMems, Unseen, Carries;
    var s1 := TakeMems(s, ms);
    TakeMemsQuiet(s, ms);
    MemsUnseen(s, s1);
    var s2 := Finish(s1, q);
    var s3 := Perform(s2, event, op);
    PerformUnseen(s2, event, op);
    DropMemsQuiet(s3, ms);
    MemsUnseen(s3, DropMems(s3, ms));
    UnseenTrans(s2, s3, DropMems(s3, ms));
    DrainThen(s, s1, DropMems(s3, ms), q, op);
  }

  lemma NowCarries(s: State, q: nat, ms: seq<nat>, op: Op, wanted: bool)
    requires SimOk(s)
    ensures Carries(s, RunNow(s, q, ms, op, wanted), q, op, true)
  {
    hide SimOk, Finish, Perform, TakeMems, DropMems, Unseen, MaybeEvent, Projected;
    var s1 := MaybeEvent(s, q, wanted, true);
    EventUnseen(s, q, wanted, true);
    UnseenMoves(s, s1, q);
    IntoCarries(s1, q, ms, op, EventHandle(s, wanted));
  }

  /** A node put last on the queue owes its operation. */
  lemma AppendCarries(s: State, t: State, q: nat, c: Command, event: Option<nat>, op: Op)
    requires SimOk(t) && Projected(t, q) == Projected(s, q) && t.log == s.log && q < |t.queues| && !c.Marker?
    requires NodeOk(t.(nodes := t.nodes + 1), Node(t.nodes, c, event)) && op == CommandOp(t, DevId(t, q), c)
    ensures Carries(s, Append(t, q, c, event), q, op, false)
  {
    AppendSim(t, q, c, event);
    hide SimOk, Append;
    assert (t.log + PendingOps(t, q)) + [op] == t.log + (PendingOps(t, q) + [op]);
  }

  lemma LaterCarries(s: State, q: nat, ms: seq<nat>, c: Command, wanted: bool, op: Op)
    requires SimOk(s) && q < |s.queues| && (c.ReadBuffer? || c.WriteBuffer? || c.CopyBuffer?)
    requires op == match c
                   case ReadBuffer(h, d, cb, _) => OpRead(h, d, cb)
                   case WriteBuffer(h, d, cb, _) => OpWrite(h, d, cb)
                   case CopyBuffer(a, b, cb, _, _) => OpCopy(a, b, cb)
                   case _ => op
    ensures Carries(s, Defer(s, q, ms, c, wanted), q, op, false)
  {
    hide SimOk, RetainMems, MaybeEvent, Unseen, Append, Carries, Projected;
    var s1 := MaybeEvent(s, q, wanted, true);
    EventUnseen(s, q, wanted, true);
    var s2 := RetainMems(s1, ms);
    RetainMemsQuiet(s1, ms);
    MemsUnseen(s1, s2);
    UnseenTrans(s, s1, s2);
    UnseenMoves(s, s2, q);
    UnseenQueues(s, s2);
    AppendCarries(s, s2, q, c, EventHandle(s, wanted), op);
  }

  predicate Reaches(s: State, q: nat, m: nat) {
    q < |s.queues| && m < |s.mems|
    && s.queues[q].data.devId < |s.mems[m].data.devicePtrs| && s.queues[q].data.devIndex < |s.mems[m].data.devicePtrs|
  }

  /** A read is carried out exactly when the contexts agree and the bytes are in the buffer. */
  lemma ReadOutcome(s: State, q: nat, m: nat, blocking: bool, offset: nat, cb: nat, ptr: int, argsOk: bool, event: bool)
    requires SimOk(s) && Reaches(s, q, m)
    ensures var t, d, b := Step(s, EnqueueRead(q, m, blocking, offset, cb, ptr, argsOk, event)), s.queues[q].data, s.mems[m].data;
      if argsOk && d.context == b.context && offset + cb <= b.size then
        Carries(s, t, q, OpRead(ptr, b.devicePtrs[d.devId] + offset, cb), blocking)
      else t == s
  {
    hide SimOk, RunNow, Defer, Carries;
    var addr := s.mems[m].data.devicePtrs[s.queues[q].data.devId] + offset;
    if blocking { NowCarries(s, q, [m], OpRead(ptr, addr, cb), event); }
    else { LaterCarries(s, q, [m], ReadBuffer(ptr, addr, cb, m), event, OpRead(ptr, addr, cb)); }
  }

  /** So is a write; when it is deferred the pointer is the one at the device's position in the
      context. */
  lemma WriteOutcome(s: State, q: nat, m: nat, blocking: bool, offset: nat, cb: nat, ptr: int, argsOk: bool, event: bool)
    requires SimOk(s) && Reaches(s, q, m)
    ensures var t, d, b := Step(s, EnqueueWrite(q, m, blocking, offset, cb, ptr, argsOk, event)), s.queues[q].data, s.mems[m].data;
      if argsOk && d.context == b.context && offset + cb <= b.size then
        Carries(s, t, q, OpWrite(ptr, b.devicePtrs[if blocking then d.devId else d.devIndex] + offset, cb), blocking)
      else t == s
  {
    hide SimOk, RunNow, Defer, Carries;
    var d, b := s.queues[q].data, s.mems[m].data;
    if blocking {
      NowCarries(s, q, [m], OpWrite(ptr, b.devicePtrs[d.devId] + offset, cb), event);
    } else {
      var addr := b.devicePtrs[d.devIndex] + offset;
      LaterCarries(s, q, [m], WriteBuffer(ptr, addr, cb, m), event, OpWrite(ptr, addr, cb));
    }
  }

  /** A copy is carried out exactly when queue and buffers share a context and both stretches lie in
      their buffers. */
  lemma CopyOutcome(s: State, q: nat, src: nat, dst: nat, from: nat, to: nat, cb: nat, event: bool)
    requires SimOk(s) && Reaches(s, q, src) && Reaches(s, q, dst)
    ensures var t, d := Step(s, EnqueueCopy(q, src, dst, from, to, cb, event)), s.queues[q].data;
      var a, b := s.mems[src].data, s.mems[dst].data;
      if d.context == a.context && d.context == b.context && from + cb <= a.size && to + cb <= b.size then
        Carries(s, t, q, OpCopy(a.devicePtrs[d.devId] + from, b.devicePtrs[d.devId] + to, cb), false)
      else t == s
  {
    hide SimOk, Defer, Carries;
    var d, a, b := s.queues[q].data, s.mems[src].data, s.mems[dst].data;
    var x, y := a.devicePtrs[d.devId] + from, b.devicePtrs[d.devId] + to;
    LaterCarries(s, q, [src, dst], CopyBuffer(x, y, cb, src, dst), event, OpCopy(x, y, cb));
  }

  /** Every byte of the rectangle is in a buffer of this size. */
  ghost predicate BytesWithin(side: Rect.Side, region: Rect.Vec, size: nat) {
    forall p :: Rect.InRegion(region, p) ==> Rect.Address(side, p) < size
  }

  /** A rectangle is read or written at once exactly when the contexts agree and its bytes are in
      the buffer. */
  lemma ReadRectOutcome(s: State, q: nat, m: nat, ptr: int, shape: Rect.Shape, argsOk: bool, event: bool)
    requires SimOk(s) && Reaches(s, q, m)
    ensures var t, d, b := Step(s, EnqueueReadRect(q, m, ptr, shape, argsOk, event)), s.queues[q].data, s.mems[m].data;
      if argsOk && d.context == b.context && BytesWithin(shape.first, shape.region, b.size) then
        Carries(s, t, q, OpRect(RectRead, b.devicePtrs[d.devId], ptr, shape), true)
      else t == s
  {
    Rect.CornerFitsIff(shape.first, shape.region, s.mems[m].data.size);
    hide SimOk, RunNow, Carries, Rect.CornerFits, Rect.Address;
    NowCarries(s, q, [m], OpRect(RectRead, s.mems[m].data.devicePtrs[s.queues[q].data.devId], ptr, shape), event);
  }

  lemma WriteRectOutcome(s: State, q: nat, m: nat, ptr: int, shape: Rect.Shape, argsOk: bool, out: Option<nat>)
    requires SimOk(s) && Reaches(s, q, m)
    ensures var t, d, b := Step(s, EnqueueWriteRect(q, m, ptr, shape, argsOk, out)), s.queues[q].data, s.mems[m].data;
      if argsOk && d.context == b.context && BytesWithin(shape.first, shape.region, b.size) then
        Carries(s, t, q, OpRect(RectWrite, b.devicePtrs[d.devId], ptr, shape), true)
      else t == s
  {
    Rect.CornerFitsIff(shape.first, shape.region, s.mems[m].data.size);
    hide SimOk, RunInto, Carries, Rect.CornerFits, Rect.Address;
    IntoCarries(s, q, [m], OpRect(RectWrite, s.mems[m].data.devicePtrs[s.queues[q].data.devId], ptr, shape), out);
  }

  lemma CopyRectOutcome(s: State, q: nat, src: nat, dst: nat, shape: Rect.Shape, argsOk: bool, event: bool)
    requires SimOk(s) && Reaches(s, q, src) && Reaches(s, q, dst)
    ensures var t, d := Step(s, EnqueueCopyRect(q, src, dst, shape, argsOk, event)), s.queues[q].data;
      var a, b := s.mems[src].data, s.mems[dst].data;
      if argsOk && d.context == a.context && d.context == b.context
        && BytesWithin(shape.first, shape.region, a.size) && BytesWithin(shape.second, shape.region, b.size) then
        Carries(s, t, q, OpRect(RectCopy, a.devicePtrs[d.devId], b.devicePtrs[d.devId], shape), true)
      else t == s
  {
    CopyRectTaken(s, q, src, dst, shape, argsOk, event);
    hide SimOk, RunNow, Carries, BytesWithin, Step;
    var d, a, b := s.queues[q].data, s.mems[src].data, s.mems[dst].data;
    NowCarries(s, q, [src, dst], OpRect(RectCopy, a.devicePtrs[d.devId], b.devicePtrs[d.devId], shape), event);
  }

  lemma CopyRectTaken(s: State, q: nat, src: nat, dst: nat, shape: Rect.Shape, argsOk: bool, event: bool)
    requires Reaches(s, q, src) && Reaches(s, q, dst)
    ensures var t, d := Step(s, EnqueueCopyRect(q, src, dst, shape, argsOk, event)), s.queues[q].data;
      var a, b := s.mems[src].data, s.mems[dst].data;
      t == if argsOk && d.context == a.context && d.context == b.context
             && BytesWithin(shape.first, shape.region, a.size) && BytesWithin(shape.second, shape.region, b.size) then
             RunNow(s, q, [src, dst], OpRect(RectCopy, a.devicePtrs[d.devId], b.devicePtrs[d.devId], shape), event)
           else s
  {
    Rect.CornerFitsIff(shape.first, shape.region, s.mems[src].data.size);
    Rect.CornerFitsIff(shape.second, shape.region, s.mems[dst].data.size);
    hide RunNow, Rect.CornerFits, Rect.Address, Rect.InRegion;
  }

  // ----- draining -----

  /** A drain issues what the queue owes, in order, and nothing else; other queues keep what they
      have pending. */
  lemma FinishOutcome(s: State, q: nat, r: nat)
    requires SimOk(s)
    ensures var t := Step(s, FinishCall(q));
      t.log == s.log + PendingOps(s, q) && Pending(t, r) == if r == q then [] else Pending(s, r)
  {
    hide SimOk, Finish, PendingOps, Step;
    DrainCalls(s, q, []);
    FinishSim(s, q);
    FinishQueues(s, q);
  }

  lemma DrainCalls(s: State, q: nat, es: seq<nat>)
    ensures Step(s, FinishCall(q)) == Finish(s, q) && Step(s, WaitCall(es)) == WaitForEvents(s, es)
  {
    hide Finish, WaitForEvents;
  }

  /** The queue is that of one of the events. */
  predicate Waited(s: State, es: seq<nat>, r: nat) {
    exists i :: 0 <= i < |es| && es[i] < |s.events| && s.events[es[i]].data.queue == r
  }

  /** Waiting drains exactly the queues of the listed events. */
  lemma WaitOutcome(s: State, es: seq<nat>, r: nat)
    requires EventBooks.EventInv(s)
    ensures Pending(Step(s, WaitCall(es)), r) == if Waited(s, es, r) then [] else Pending(s, r)
  {
    hide Step, EventBooks.EventOk, WaitForEvents, Waited;
    DrainCalls(s, 0, es);
    WaitDrains(s, es, r);
  }

  lemma {:induction false} WaitDrains(s: State, es: seq<nat>, r: nat)
    requires EventBooks.EventInv(s)
    ensures Pending(WaitForEvents(s, es), r) == if Waited(s, es, r) then [] else Pending(s, r)
    decreases |es|
  {
    if es != [] {
      hide EventBooks.EventOk, Finish, Waited;
      var t := if es[0] < |s.events| then Finish(s, s.events[es[0]].data.queue) else s;
      if es[0] < |s.events| {
        FinishQueues(s, s.events[es[0]].data.queue);
        EventBooks.FinishOk(s, s.events[es[0]].data.queue, None, multiset{});
      }
      WaitDrains(t, es[1..], r);
      WaitedUnfolds(s, t, es, r);
    }
  }

  lemma WaitedUnfolds(s: State, t: State, es: seq<nat>, r: nat)
    requires es != [] && |t.events| == |s.events|
    requires forall e :: 0 <= e < |s.events| ==> t.events[e].data.queue == s.events[e].data.queue
    ensures Waited(s, es, r) <==> (es[0] < |s.events| && s.events[es[0]].data.queue == r) || Waited(t, es[1..], r)
  {
    if Waited(s, es, r) {
      var i :| 0 <= i < |es| && es[i] < |s.events| && s.events[es[i]].data.queue == r;
      if i > 0 { assert es[1..][i - 1] == es[i]; }
    }
    if Waited(t, es[1..], r) {
      var i :| 0 <= i < |es[1..]| && es[1..][i] < |t.events| && t.events[es[1..][i]].data.queue == r;
      assert es[i + 1] == es[1..][i];
    }
  }

  /** The release of a queue drains it, and takes one off its count. */
  lemma ReleaseQueueOutcome(s: State, q: nat, r: nat)
    requires SimOk(s) && Usable(s.queues, q)
    ensures var t := Step(s, ReleaseQueueCall(q));
      t.log == s.log + PendingOps(s, q) && Pending(t, r) == (if r == q then [] else Pending(s, r))
      && |t.queues| == |s.queues| && t.queues[q].refcount == s.queues[q].refcount - 1
      && t.queues[q].live == (s.queues[q].live && s.queues[q].refcount != 1)
  {
    var s1 := s.(queues := GiveUp(s.queues, q));
    assert Unseen(s, s1);
    UnseenSim(s, s1, q);
    hide Unseen;
    FinishSim(s1, q);
    FinishQueues(s1, q);
    hide SimOk, Finish, PendingOps;
  }

  /** The release of an event that is still referred to changes its counters alone; the last one frees
      it, and, but on a GPU, drains its queue. */
  lemma ReleaseEventOutcome(s: State, e: nat)
    requires SimOk(s) && Usable(s.events, e) && s.events[e].data.queue < |s.queues|
    ensures var t, o := Step(s, ReleaseEventCall(e)), s.events[e];
      if o.refcount != 1 then
        t == s.(events := s.events[e := o.(refcount := o.refcount - 1, app := o.app - 1)])
      else
        e < |t.events| && !t.events[e].live
        && t.log == (if s.queues[o.data.queue].data.gpu then s.log else s.log + PendingOps(s, o.data.queue))
        && Pending(t, o.data.queue) == (if s.queues[o.data.queue].data.gpu then Pending(s, o.data.queue) else [])
  {
    var s1 := s.(events := GiveUp(s.events, e));
    hide Step, SimOk, PendingOps, ReleaseEvent;
    ReleaseEventIs(s, e);
    if s.events[e].refcount == 1 {
      GiveUpUnseen(s, e);
      hide Unseen;
      UnseenSim(s, s1, s.events[e].data.queue);
      LastEventOutcome(s1, e);
    } else {
      EventStays(s1, e);
    }
  }

  lemma ReleaseEventIs(s: State, e: nat)
    ensures Step(s, ReleaseEventCall(e)) == ReleaseEvent(s.(events := GiveUp(s.events, e)), e)
  {
    hide ReleaseEvent, GiveUp;
  }

  lemma GiveUpUnseen(s: State, e: nat)
    ensures Unseen(s, s.(events := GiveUp(s.events, e)))
  {
    hide GiveUp;
  }

  lemma EventStays(s: State, e: nat)
    requires e < |s.events| && s.events[e].refcount != 1
    ensures ReleaseEvent(s, e) == s.(events := Dec(s.events, e))
  {
    hide ReleaseQueue;
  }

  lemma LastEventOutcome(s: State, e: nat)
    requires SimOk(s) && e < |s.events| && s.events[e].refcount == 1 && s.events[e].data.queue < |s.queues|
    ensures var t, q := ReleaseEvent(s, e), s.events[e].data.queue;
      e < |t.events| && !t.events[e].live
      && t.log == (if s.queues[q].data.gpu then s.log else s.log + PendingOps(s, q))
      && Pending(t, q) == (if s.queues[q].data.gpu then Pending(s, q) else [])
  {
    var q, s1 := s.events[e].data.queue, s.(events := Dec(s.events, e));
    assert Unseen(s, s1);
    UnseenSim(s, s1, q);
    FinishSim(s1, q);
    hide SimOk, Unseen, Finish, PendingOps;
  }

  // ----- mapping -----

  /** A map is carried out exactly when the contexts agree and the stretch is in the buffer. When a
      place is found, the new mapping is of that stretch at that place; when none is, nothing is
      mapped and only the reference taken stays. */
  lemma MapOutcome(s: State, q: nat, m: nat, blocking: bool, offset: nat, size: nat, flagsOk: bool, hostPtr: Option<int>, event: bool)
    requires SimOk(s) && Reaches(s, q, m)
    ensures var t, d, b := Step(s, EnqueueMap(q, m, blocking, offset, size, flagsOk, hostPtr, event)), s.queues[q].data, s.mems[m].data;
      if flagsOk && d.context == b.context && offset + size <= b.size then
        if hostPtr.None? then
          t == s.(mems := t.mems, queues := t.queues, events := t.events)
          && t.mems == s.mems[m := s.mems[m].(refcount := s.mems[m].refcount + 1, leaked := s.mems[m].leaked + 1)]
        else
          Carries(s, t, q, OpMap(b.devicePtrs[d.devId], offset, size, hostPtr.value), blocking)
          && |t.mappings| == |s.mappings| + 1
          && t.mappings[|s.mappings|].(live := true) == Mapping(true, m, hostPtr.value, offset, size)
      else t == s
  {
    var c := EnqueueMap(q, m, blocking, offset, size, flagsOk, hostPtr, event);
    hide SimOk, MapCall, Carries;
    if Accepted(s, c) {
      if hostPtr.Some? { MapCarries(s, q, m, blocking, offset, size, hostPtr.value, event); }
      MapDetails(s, q, m, blocking, offset, size, hostPtr, event);
    }
  }

  lemma MapCarries(s: State, q: nat, m: nat, blocking: bool, offset: nat, size: nat, hostPtr: int, wanted: bool)
    requires SimOk(s) && Reaches(s, q, m)
    ensures var op := OpMap(s.mems[m].data.devicePtrs[s.queues[q].data.devId], offset, size, hostPtr);
      Carries(s, MapCall(s, q, m, blocking, offset, size, Some(hostPtr), wanted), q, op, blocking)
  {
    var op := OpMap(s.mems[m].data.devicePtrs[s.queues[q].data.devId], offset, size, hostPtr);
    var event, id, s0 := EventHandle(s, wanted), |s.mappings|, s.(mems := Retain(s.mems, m));
    assert Unseen(s, s0);
    hide SimOk, Finish, Perform, MaybeEvent, Append, Carries, Projected;
    var s1 := MaybeEvent(s0, q, wanted, true);
    EventUnseen(s0, q, wanted, true);
    UnseenTrans(s, s0, s1);
    var s2 := AddMapping(s1, m, Mapping(true, m, hostPtr, offset, size));
    assert Unseen(s1, s2);
    UnseenTrans(s, s1, s2);
    MapFacts(s, s1, s2, q, m, id, hostPtr, offset, size);
    hide Unseen, AddMapping;
    UnseenMoves(s, s2, q);
    if blocking {
      FinishMapOp(s2, q, m, id);
      var t := Finish(s2, q);
      var u := Perform(t, event, op);
      PerformUnseen(t, event, op);
      CountUnseen(u, m);
      UnseenTrans(t, u, CountMap(u, m, 1));
      DrainThen(s, s2, CountMap(u, m, 1), q, op);
    } else {
      AppendCarries(s, s2, q, MapBuffer(m, id), event, op);
    }
  }

  lemma CountUnseen(s: State, m: nat)
    ensures Unseen(s, CountMap(s, m, 1)) && CountMap(s, m, 1).log == s.log
  {
  }

  lemma MapDetails(s: State, q: nat, m: nat, blocking: bool, offset: nat, size: nat, hostPtr: Option<int>, wanted: bool)
    requires q < |s.queues| && m < |s.mems|
    ensures var t := MapCall(s, q, m, blocking, offset, size, hostPtr, wanted);
      if hostPtr.None? then
        t == s.(mems := t.mems, queues := t.queues, events := t.events)
        && t.mems == s.mems[m := s.mems[m].(refcount := s.mems[m].refcount + 1, leaked := s.mems[m].leaked + 1)]
      else
        (if blocking then Pending(t, q) == [] else t.log == s.log)
        && |t.mappings| == |s.mappings| + 1
        && t.mappings[|s.mappings|].(live := true) == Mapping(true, m, hostPtr.value, offset, size)
  {
    hide Perform, MapOp, Finish;
    if hostPtr.Some? && blocking {
      var mapping := Mapping(true, m, hostPtr.value, offset, size);
      var s2 := AddMapping(MaybeEvent(s.(mems := Retain(s.mems, m)), q, wanted, true), m, mapping);
      var t := Finish(s2, q);
      FinishSameMaps(s2, q);
      assert t.mappings[|s.mappings|] == s2.mappings[|s.mappings|].(live := t.mappings[|s.mappings|].live);
      PerformKeepsMaps(t, EventHandle(s, wanted), MapOp(t, DevId(t, q), m, |s.mappings|));
    }
  }

  lemma PerformKeepsMaps(s: State, event: Option<nat>, op: Op)
    ensures Perform(s, event, op).mappings == s.mappings && Perform(s, event, op).queues == s.queues
  {
  }

  /** The i-th mapping of the buffer is the first one at the pointer. */
  predicate FirstAt(s: State, m: nat, ptr: int, i: nat) {
    m < |s.mems|
    && var ids := s.mems[m].data.mappings;
       i < |ids| && ids[i] < |s.mappings| && s.mappings[ids[i]].hostPtr == ptr
       && forall j :: 0 <= j < i ==> ids[j] < |s.mappings| && s.mappings[ids[j]].hostPtr != ptr
  }

  lemma {:induction false} FindsFirst(mappings: seq<Mapping>, ids: seq<nat>, ptr: int, i: nat)
    requires i < |ids| && ids[i] < |mappings| && mappings[ids[i]].hostPtr == ptr
    requires forall j :: 0 <= j < i ==> ids[j] < |mappings| && mappings[ids[j]].hostPtr != ptr
    ensures FindMapping(mappings, ids, ptr) == Some(ids[i]) && Unlink(ids, ids[i]) == ids[..i] + ids[i + 1..]
  {
    if i > 0 {
      var rest := ids[1..];
      assert forall j :: 0 <= j < i - 1 ==> rest[j] == ids[j + 1];
      FindsFirst(mappings, rest, ptr, i - 1);
      assert ids[..i] + ids[i + 1..] == [ids[0]] + (rest[..i - 1] + rest[i..]);
    }
  }

  lemma {:induction false} FindsNone(mappings: seq<Mapping>, ids: seq<nat>, ptr: int)
    requires forall i :: 0 <= i < |ids| ==> ids[i] < |mappings| && mappings[ids[i]].hostPtr != ptr
    ensures FindMapping(mappings, ids, ptr) == None
  {
    if ids != [] {
      assert forall i :: 0 <= i < |ids[1..]| ==> ids[1..][i] == ids[i + 1];
      FindsNone(mappings, ids[1..], ptr);
    }
  }

  /** The mapping is gone and `rest` is left on the buffer's list; the count of maps and the reference
      are given back, and the device is told when there is something to flush. */
  ghost predicate Unmapped(s: State, t: State, q: nat, m: nat, id: nat, flush: bool, rest: seq<nat>)
    requires Reaches(s, q, m) && id < |s.mappings|
  {
    var d, o, mapping := s.queues[q].data, s.mems[m], s.mappings[id];
    t.log == s.log + (if flush then [OpUnmap(mapping.hostPtr, o.data.devicePtrs[d.devId] + mapping.offset, mapping.size)] else [])
    && |t.mappings| == |s.mappings| && !t.mappings[id].live && |t.mems| == |s.mems|
    && t.mems[m].refcount == o.refcount - 1
    && t.mems[m].data == o.data.(mapCount := o.data.mapCount - 1, mappings := if o.refcount == 1 then [] else rest)
  }

  /** An unmap takes the first mapping at the pointer off the buffer's list, gives back its count and
      its reference, and tells the device about that mapping when there is something to flush. */
  lemma UnmapOutcome(s: State, q: nat, m: nat, ptr: int, flush: bool, event: bool, i: nat)
    requires MemBooks.MemInv(s) && Reaches(s, q, m) && FirstAt(s, m, ptr, i)
    ensures var t, d, o := Step(s, EnqueueUnmap(q, m, ptr, flush, event)), s.queues[q].data, s.mems[m];
      var ids := o.data.mappings;
      if d.context == o.data.context then Unmapped(s, t, q, m, ids[i], flush, ids[..i] + ids[i + 1..]) else t == s
  {
    NotItsParent(s, m);
    hide MemBooks.MemInv, Step, Unmapped;
    var ids := s.mems[m].data.mappings;
    UnmapIs(s, q, m, ptr, flush, event, i);
    UnmapDetails(s, q, m, ids[i], flush, event);
    FindsFirst(s.mappings, ids, ptr, i);
    hide UnmapCall, FindMapping, Unlink;
  }

  lemma UnmapIs(s: State, q: nat, m: nat, ptr: int, flush: bool, event: bool, i: nat)
    requires Reaches(s, q, m) && FirstAt(s, m, ptr, i)
    ensures Step(s, EnqueueUnmap(q, m, ptr, flush, event))
         == if s.queues[q].data.context == s.mems[m].data.context then UnmapCall(s, q, m, s.mems[m].data.mappings[i], flush, event) else s
  {
    FindsFirst(s.mappings, s.mems[m].data.mappings, ptr, i);
    hide UnmapCall, FindMapping, Unlink;
  }

  lemma NotItsParent(s: State, m: nat)
    requires MemBooks.MemInv(s) && m < |s.mems|
    ensures s.mems[m].data.parent != Some(m)
  {
    hide MemBooks.CountsOk, MemBooks.ListsOk, MemBooks.MapNodesOk;
  }

  lemma UnmapDetails(s: State, q: nat, m: nat, id: nat, flush: bool, wanted: bool)
    requires Reaches(s, q, m) && id < |s.mappings| && s.mems[m].data.parent != Some(m)
    ensures Unmapped(s, UnmapCall(s, q, m, id, flush, wanted), q, m, id, flush, Unlink(s.mems[m].data.mappings, id))
  {
    var s1 := UnmapDevice(s, q, m, id, flush, wanted);
    assert s1.mems == s.mems && s1.mappings == s.mappings;
    hide UnmapDevice, Unlink;
    var s2 := CountMap(RemoveMapping(s1, m, id), m, -1);
    assert s2.log == s1.log && !s2.mappings[id].live;
    FreedStay(s2.mappings, s2.mems[m].data.mappings, id);
    hide FreeMappings;
  }

  lemma {:induction false} FreedStay(mappings: seq<Mapping>, ids: seq<nat>, id: nat)
    requires id < |mappings| && !mappings[id].live
    ensures |FreeMappings(mappings, ids)| == |mappings| && !FreeMappings(mappings, ids)[id].live
    decreases |ids|
  {
    if ids != [] {
      var i := ids[0];
      FreedStay(if i < |mappings| then mappings[i := mappings[i].(live := false)] else mappings, ids[1..], id);
    }
  }

  /** Without a mapping at the pointer an unmap is refused. */
  lemma UnmapRefused(s: State, q: nat, m: nat, ptr: int, flush: bool, event: bool)
    requires m < |s.mems|
    requires forall i :: 0 <= i < |s.mems[m].data.mappings| ==>
      s.mems[m].data.mappings[i] < |s.mappings| && s.mappings[s.mems[m].data.mappings[i]].hostPtr != ptr
    ensures Step(s, EnqueueUnmap(q, m, ptr, flush, event)) == s
  {
    FindsNone(s.mappings, s.mems[m].data.mappings, ptr);
    hide UnmapCall, FindMapping;
  }

  // ----- creating -----

  lemma CreateQueueOutcome(s: State, context: nat, devIndex: nat, devId: nat, gpu: bool)
    ensures var t := Step(s, CreateQueue(context, devIndex, devId, gpu));
      t == s.(queues := t.queues) && |t.queues| == |s.queues| + 1 && t.queues[..|s.queues|] == s.queues
      && var o := t.queues[|s.queues|];
         o.live && o.refcount == o.app == 1 && o.data.context == context && o.data.devIndex == devIndex && o.data.devId == devId
         && o.data.gpu == gpu && o.data.pending == []
  {
  }

  /** A buffer is made exactly for a size above zero; it has that size, no parent and no mapping,
      and one reference for every device. From host memory, its bytes are copied to each device of the
      context, to the address the device gave. */
  lemma CreateBufferOutcome(s: State, context: nat, size: nat, ptrs: seq<int>, devices: seq<nat>, source: Option<int>)
    requires forall i :: 0 <= i < |devices| ==> devices[i] < |ptrs|
    ensures var t := Step(s, CreateBuffer(context, size, ptrs, devices, source));
      if size > 0 then
        t == s.(mems := t.mems, log := t.log) && |t.mems| == |s.mems| + 1 && t.mems[..|s.mems|] == s.mems
        && (var o := t.mems[|s.mems|];
            o.live && o.app == 1 && o.refcount == (if devices == [] then 1 else |devices|)
            && o.data.parent == None && o.data.context == context && o.data.size == size && o.data.devicePtrs == ptrs
            && o.data.mapCount == 0 && o.data.mappings == [])
        && |t.log| == |s.log| + (if source.Some? then |devices| else 0) && t.log[..|s.log|] == s.log
        && forall i :: 0 <= i < |devices| && source.Some? ==> t.log[|s.log| + i] == OpCreate(source.value, ptrs[devices[i]], size)
      else t == s
  {
  }

  /** A sub-buffer is made exactly of a buffer that is none, for a region above zero that lies in it;
      it has the region's size and the parent's pointers behind the origin. */
  lemma CreateSubBufferOutcome(s: State, m: nat, origin: nat, size: nat, flagsOk: bool, garbage: int)
    requires m < |s.mems|
    ensures var t, p := Step(s, CreateSubBuffer(m, origin, size, flagsOk, garbage)), s.mems[m].data;
      if p.parent == None && size > 0 && origin + size <= p.size && flagsOk then
        t == s.(mems := t.mems) && |t.mems| == |s.mems| + 1
        && (forall i {:trigger t.mems[i]} :: 0 <= i < |s.mems| ==>
              t.mems[i] == s.mems[i].(refcount := if i == m then s.mems[i].refcount + 1 else s.mems[i].refcount))
        && var o := t.mems[|s.mems|];
           o.live && o.refcount == o.app == 1
           && o.data.parent == Some(m) && o.data.context == p.context && o.data.size == size
           && |o.data.devicePtrs| == |p.devicePtrs| && o.data.mapCount == garbage && o.data.mappings == []
           && forall d :: 0 <= d < |p.devicePtrs| ==>
                o.data.devicePtrs[d] == if p.devicePtrs[d] == NULL then NULL else p.devicePtrs[d] + origin
      else t == s
  {
  }

  /** A transfer through a sub-buffer that has just been made reaches no further than the region. */
  lemma SubBufferTransfers(s: State, m: nat, origin: nat, size: nat, flagsOk: bool, garbage: int, q: nat, blocking: bool,
                           offset: nat, cb: nat, ptr: int, argsOk: bool, event: bool)
    requires SimOk(s) && Reaches(s, q, m)
    requires var p := s.mems[m].data; p.parent == None && size > 0 && origin + size <= p.size && flagsOk
    ensures var t := Step(s, CreateSubBuffer(m, origin, size, flagsOk, garbage));
      var u := Step(t, EnqueueRead(q, |s.mems|, blocking, offset, cb, ptr, argsOk, event));
      var d, p := s.queues[q].data, s.mems[m].data;
      if argsOk && d.context == p.context && offset + cb <= size then
        p.devicePtrs[d.devId] != NULL ==> Carries(t, u, q, OpRead(ptr, p.devicePtrs[d.devId] + origin + offset, cb), blocking)
      else u == t
  {
    hide SimOk, Carries, Step;
    NewSubBuffer(s, m, origin, size, flagsOk, garbage, q);
    var t := Step(s, CreateSubBuffer(m, origin, size, flagsOk, garbage));
    ReadOutcome(t, q, |s.mems|, blocking, offset, cb, ptr, argsOk, event);
  }

  lemma NewSubBuffer(s: State, m: nat, origin: nat, size: nat, flagsOk: bool, garbage: int, q: nat)
    requires SimOk(s) && Reaches(s, q, m)
    requires var p := s.mems[m].data; p.parent == None && size > 0 && origin + size <= p.size && flagsOk
    ensures var t, d, p := Step(s, CreateSubBuffer(m, origin, size, flagsOk, garbage)), s.queues[q].data, s.mems[m].data;
      SimOk(t) && Reaches(t, q, |s.mems|) && t.queues == s.queues
      && t.mems[|s.mems|].data.context == p.context && t.mems[|s.mems|].data.size == size
      && t.mems[|s.mems|].data.devicePtrs[d.devId] == if p.devicePtrs[d.devId] == NULL then NULL else p.devicePtrs[d.devId] + origin
  {
    var c := CreateSubBuffer(m, origin, size, flagsOk, garbage);
    CreateSubBufferOutcome(s, m, origin, size, flagsOk, garbage);
    ObjectStep(s, c, q);
    assert Step(s, c) == Effect(s, c) by { hide Effect; }
    hide SimOk, Effect, Accepted, Step;
  }

  lemma CreateProgramOutcome(s: State, context: nat)
    ensures var t := Step(s, CreateProgram(context));
      t == s.(programs := t.programs) && |t.programs| == |s.programs| + 1 && t.programs[..|s.programs|] == s.programs
      && var o := t.programs[|s.programs|]; o.live && o.refcount == o.app == 1 && o.data.context == context && o.data.kernels == []
  {
  }

  /** A kernel starts with no argument set; its locals have their sizes. */
  lemma CreateKernelOutcome(s: State, p: nat, isPointer: seq<bool>, isLocal: seq<bool>, localSizes: seq<nat>)
    requires p < |s.programs|
    ensures var t := Step(s, CreateKernel(p, isPointer, isLocal, localSizes));
      t == s.(kernels := t.kernels, programs := t.programs)
      && |t.kernels| == |s.kernels| + 1 && t.kernels[..|s.kernels|] == s.kernels
      && (var o := t.kernels[|s.kernels|];
          o.live && o.refcount == o.app == 1
          && o.data.program == Some(p) && o.data.context == s.programs[p].data.context
          && o.data.isPointer == isPointer && o.data.isLocal == isLocal && |o.data.arguments| == |isPointer| + |localSizes|
          && (forall i :: 0 <= i < |isPointer| ==> o.data.arguments[i] == Argument(0, None))
          && forall i :: 0 <= i < |localSizes| ==> o.data.arguments[|isPointer| + i] == Argument(localSizes[i], None))
      && t.programs[p].data.kernels == [|s.kernels|] + s.programs[p].data.kernels
  {
  }
}
