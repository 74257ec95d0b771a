/** Every API call keeps the books of events and queues, and the order of completion. */
module EventCalls {
  import opened RefCounts
  import opened Runtime
  import opened EventBooks

  lemma EventFrame(s: State, t: State, flight: Option<nat>, refs: Bag)
    requires EventOk(s, flight, refs) && t.events == s.events && t.queues == s.queues
    ensures EventOk(t, flight, refs)
  {
    hide EventRefs, NodeEventOk, Ran;
  }

  // ----- a new event -----

  lemma NewEventOk(s: State, q: nat, inOrder: bool)
    requires EventInv(s) && Alive(s.queues, q)
    ensures EventOk(NewEvent(s, q, inOrder), Some(|s.events|), multiset{})
  {
    hide CountsOk, NodeEventsOk, NodeEventOk, EventsOf;
    var t := NewEvent(s, q, inOrder);
    NewEventCounts(s, q, inOrder);
    NewEventNodes(s, q, inOrder);
    assert !Ran([CL_QUEUED]);
  }

  lemma NewEventCounts(s: State, q: nat, inOrder: bool)
    requires CountsOk(s, multiset{}) && Alive(s.queues, q)
    ensures CountsOk(NewEvent(s, q, inOrder), multiset{})
  {
    var d := EventData(q, inOrder, [CL_QUEUED]);
    CollectSnoc(s.events, Obj(true, 1, 1, 0, d), QueueRef);
    hide Balanced, Collect;
    CreateBalanced(s.events, multiset{}, d, 0);
    RetainBalanced(s.queues, EventRefs(s.events) + multiset{}, q);
    assert EventRefs(s.events) + multiset{} + multiset{q} == EventRefs(s.events) + multiset{q} + multiset{};
  }

  lemma NewEventNodes(s: State, q: nat, inOrder: bool)
    requires NodeEventsOk(s.queues, s.events) && q < |s.queues|
    ensures var t := NewEvent(s, q, inOrder); NodeEventsOk(t.queues, t.events)
    ensures forall r :: 0 <= r < |s.queues| ==> |s.events| !in EventsOf(NewEvent(s, q, inOrder).queues[r].data.pending)
  {
    var t := NewEvent(s, q, inOrder);
    forall r, i | 0 <= r < |t.queues| && 0 <= i < |t.queues[r].data.pending|
      ensures NodeEventOk(t.queues[r].data.pending[i], r, t.queues[r].data.gpu, t.events)
    {
      assert t.queues[r].data.pending[i] == s.queues[r].data.pending[i];
      assert NodeEventOk(s.queues[r].data.pending[i], r, s.queues[r].data.gpu, s.events);
    }
    forall r | 0 <= r < |s.queues| ensures |s.events| !in EventsOf(t.queues[r].data.pending) {
      forall i | 0 <= i < |t.queues[r].data.pending| ensures t.queues[r].data.pending[i].event != Some(|s.events|) {
        assert t.queues[r].data.pending[i] == s.queues[r].data.pending[i];
      }
    }
  }

  /** The event that a call has just made: alive, on queue `q`. */
  ghost predicate Own(s: State, flight: Option<nat>, q: nat, inOrder: bool) {
    flight.Some? ==>
      var e := flight.value;
      e < |s.events| && s.events[e].live && s.events[e].data.queue == q && s.events[e].data.inOrder == inOrder
  }

  lemma MaybeEventOk(s: State, q: nat, wanted: bool, inOrder: bool)
    requires EventInv(s) && Alive(s.queues, q)
    ensures var t := MaybeEvent(s, q, wanted, inOrder);
      EventOk(t, EventHandle(s, wanted), multiset{}) && Own(t, EventHandle(s, wanted), q, inOrder) && Alive(t.queues, q)
  {
    if wanted {
      NewEventOk(s, q, inOrder);
    }
    hide EventOk;
  }

  // ----- appending a node, finishing a call -----

  lemma AppendOk(s: State, q: nat, c: Command, event: Option<nat>)
    requires EventOk(s, event, multiset{}) && Alive(s.queues, q) && Own(s, event, q, true)
    ensures EventInv(Append(s, q, c, event))
  {
    var p, n, t := Pending(s, q), Node(s.nodes, c, event), Append(s, q, c, event);
    assert t.queues == SetPending(s, q, p + [n]).queues;
    SetPendingCounts(s, q, p + [n], multiset{});
    CountsFrame(SetPending(s, q, p + [n]), t, multiset{});
    AppendNodes(s, q, n, t);
    AppendSettled(s, q, n, t);
    hide CountsOk, NodeEventsOk, QueuesOk, Settled;
  }

  lemma AppendNodes(s: State, q: nat, n: Node, t: State)
    requires OrderOk(s, n.event) && Alive(s.queues, q) && Own(s, n.event, q, true)
    requires t.events == s.events && t.queues == SetPending(s, q, Pending(s, q) + [n]).queues
    ensures NodeEventsOk(t.queues, t.events) && QueuesOk(t.queues)
  {
    hide Settled, CompletedFirst;
    forall r, i | 0 <= r < |t.queues| && 0 <= i < |t.queues[r].data.pending|
      ensures NodeEventOk(t.queues[r].data.pending[i], r, t.queues[r].data.gpu, t.events)
    {
      if r != q || i < |Pending(s, q)| {
        assert t.queues[r].data.pending[i] == s.queues[r].data.pending[i];
      }
    }
    AppendIncreasing(s, q, n);
  }

  lemma AppendIncreasing(s: State, q: nat, n: Node)
    requires OrderOk(s, n.event) && q < |s.queues|
    ensures Increasing(Pending(s, q) + [n])
  {
    var p := Pending(s, q);
    assert Increasing(s.queues[q].data.pending);
    forall i | 0 <= i < |p| && p[i].event.Some? && n.event.Some? ensures p[i].event.value < n.event.value {
      assert NodeEventOk(s.queues[q].data.pending[i], q, s.queues[q].data.gpu, s.events);
      assert p[i].event.value in EventsOf(s.queues[q].data.pending);
    }
  }

  lemma AppendSettled(s: State, q: nat, n: Node, t: State)
    requires Settled(s, n.event) && q < |s.queues| && Own(s, n.event, q, true)
    requires t.events == s.events && t.queues == SetPending(s, q, Pending(s, q) + [n]).queues
    ensures Settled(t, None)
  {
    var p := Pending(s, q);
    assert forall e :: e in EventsOf(p) ==> e in EventsOf(p + [n]) by {
      forall e | e in EventsOf(p) ensures e in EventsOf(p + [n]) {
        var i :| 0 <= i < |p| && p[i].event == Some(e);
        assert (p + [n])[i].event == Some(e);
      }
    }
    if n.event.Some? {
      assert (p + [n])[|p|].event == n.event;
      assert n.event.value in EventsOf(p + [n]);
    }
    hide EventsOf, Ran;
  }

  /** A call's own event completes: in order after a drain, or outside the order. */
  lemma FlightDone(s: State, event: Option<nat>, q: nat, inOrder: bool, c: Command)
    requires EventOk(s, event, multiset{}) && Own(s, event, q, inOrder) && (inOrder ==> Pending(s, q) == [])
    ensures EventInv(WriteStatus(s, event, Suffix(c)))
  {
    if event.Some? {
      var t := WriteStatus(s, event, Suffix(c));
      WriteStatusCounts(s, event, Suffix(c), multiset{});
      RunsToCompletion(c);
      FlightNodes(s, event, t);
      assert Settled(t, None) by { hide EventsOf, NodeEventOk; }
      assert CompletedFirst(t.events) by { FlightCompleted(s, event, q, inOrder, c); }
      hide CountsOk, NodeEventsOk, Settled, CompletedFirst;
    }
  }

  lemma FlightNodes(s: State, event: Option<nat>, t: State)
    requires OrderOk(s, event) && event.Some? && t.queues == s.queues && |t.events| == |s.events|
    requires forall e :: 0 <= e < |s.events| && Some(e) != event ==> t.events[e] == s.events[e]
    ensures NodeEventsOk(t.queues, t.events)
  {
    hide Settled, CompletedFirst;
    forall r, i | 0 <= r < |t.queues| && 0 <= i < |t.queues[r].data.pending|
      ensures NodeEventOk(t.queues[r].data.pending[i], r, t.queues[r].data.gpu, t.events)
    {
      var n := s.queues[r].data.pending[i];
      assert NodeEventOk(n, r, s.queues[r].data.gpu, s.events);
      if n.event.Some? { assert n.event.value in EventsOf(s.queues[r].data.pending); }
    }
  }

  lemma FlightCompleted(s: State, event: Option<nat>, q: nat, inOrder: bool, c: Command)
    requires OrderOk(s, event) && event.Some? && Own(s, event, q, inOrder) && (inOrder ==> Pending(s, q) == [])
    ensures CompletedFirst(WriteStatus(s, event, Suffix(c)).events)
  {
    RunsToCompletion(c);
    hide NodeEventsOk, QueuesOk;
    var t := WriteStatus(s, event, Suffix(c));
    forall e, f | 0 <= e < f < |t.events| && t.events[e].data.queue == t.events[f].data.queue
      && t.events[e].data.inOrder && t.events[f].data.inOrder && Ran(t.events[f].data.trail)
      ensures Ran(t.events[e].data.trail)
    {
      if Some(f) == event {
        assert s.events[e].data.queue == q;
        assert EventsOf([]) == {};
      } else {
        assert s.events[e] == t.events[e] && s.events[f] == t.events[f];
      }
    }
  }

  // ----- queue counters -----

  /** Only counters differ. */
  ghost predicate SameLists(a: seq<Obj<QueueData>>, b: seq<Obj<QueueData>>) {
    |a| == |b| && forall q {:trigger a[q]} {:trigger b[q]} :: 0 <= q < |a| ==>
      a[q].data == b[q].data && (!b[q].live ==> !a[q].live || a[q].data.pending == [])
  }

  lemma OrderFrame(s: State, t: State, flight: Option<nat>)
    requires OrderOk(s, flight) && t.events == s.events && SameLists(s.queues, t.queues)
    ensures OrderOk(t, flight)
  {
    hide NodeEventOk, Ran, EventsOf, CompletedFirst;
    forall r, i | 0 <= r < |t.queues| && 0 <= i < |t.queues[r].data.pending|
      ensures NodeEventOk(t.queues[r].data.pending[i], r, t.queues[r].data.gpu, t.events)
    {
      assert t.queues[r].data.pending[i] == s.queues[r].data.pending[i];
      assert NodeEventOk(s.queues[r].data.pending[i], r, s.queues[r].data.gpu, s.events);
    }
  }

  lemma QueueCountersOk(s: State, queues: seq<Obj<QueueData>>, flight: Option<nat>, refs: Bag, refs': Bag)
    requires EventOk(s, flight, refs) && SameLists(s.queues, queues) && Balanced(queues, EventRefs(s.events) + refs')
    ensures EventOk(s.(queues := queues), flight, refs')
  {
    hide EventRefs, Balanced, OrderOk;
    OrderFrame(s, s.(queues := queues), flight);
  }

  lemma RetainQueueOk(s: State, q: nat, flight: Option<nat>)
    requires EventOk(s, flight, multiset{}) && Alive(s.queues, q)
    ensures EventOk(s.(queues := Take(Retain(s.queues, q), q)), flight, multiset{})
    ensures EventOk(s.(queues := Leak(Retain(s.queues, q), q)), flight, multiset{})
  {
    hide OrderOk, EventRefs;
    RetainBalanced(s.queues, EventRefs(s.events) + multiset{}, q);
    var a, b := Take(Retain(s.queues, q), q), Leak(Retain(s.queues, q), q);
    assert SameLists(s.queues, a) && SameLists(s.queues, b);
    hide SameLists, Balanced;
    QueueCountersOk(s, a, flight, multiset{}, multiset{});
    QueueCountersOk(s, b, flight, multiset{}, multiset{});
  }

  lemma UsableQueue(s: State, q: nat)
    requires EventInv(s) && Usable(s.queues, q)
    ensures Alive(s.queues, q)
  {
    UsableIsAlive(s.queues, EventRefs(s.events) + multiset{}, q);
  }

  /** clReleaseCommandQueue by the application. */
  lemma ReleaseQueueOk(s: State, q: nat)
    requires EventInv(s) && Usable(s.queues, q)
    ensures EventInv(ReleaseQueue(s.(queues := GiveUp(s.queues, q)), q))
  {
    var s1 := s.(queues := GiveUp(s.queues, q));
    GiveUpBalanced(s.queues, EventRefs(s.events) + multiset{}, q);
    assert EventRefs(s.events) + multiset{} + multiset{q} == EventRefs(s.events) + multiset{q};
    assert SameLists(s.queues, s1.queues);
    QueueCountersOk(s, s1.queues, None, multiset{}, multiset{q});
    FinishOk(s1, q, None, multiset{q});
    var t := Finish(s1, q);
    var qs := Release(t.queues, q);
    hide Finish, EventRefs;
    assert Pending(t, q) == [];
    ReleaseBalanced(t.queues, EventRefs(t.events), q);
    assert EventRefs(t.events) + multiset{} == EventRefs(t.events);
    assert SameLists(t.queues, qs);
    hide SameLists;
    QueueCountersOk(t, qs, None, multiset{q}, multiset{});
  }

  // ----- releasing an event -----

  lemma EventDies(s: State, e: nat, queues: seq<Obj<QueueData>>)
    requires EventInv(s) && e < |s.events| && s.events[e].live && s.events[e].app == 0 && s.events[e].refcount == 0
    requires var q := s.events[e].data.queue;
      && q < |s.queues|
      && ((queues == Release(s.queues, q) && Pending(s, q) == []) || (queues == Leak(s.queues, q) && s.queues[q].data.gpu))
    ensures EventInv(s.(queues := queues, events := s.events[e := s.events[e].(live := false)]))
  {
    var q, o := s.events[e].data.queue, s.events[e].(live := false);
    var t := s.(queues := queues, events := s.events[e := o]);
    EventDiesCounts(s, e, queues);
    assert SameLists(s.queues, queues);
    hide CountsOk, EventRefs;
    OrderFrame(s, s.(queues := queues), None);
    EventDiesOrder(s.(queues := queues), e);
  }

  lemma EventDiesCounts(s: State, e: nat, queues: seq<Obj<QueueData>>)
    requires CountsOk(s, multiset{}) && e < |s.events| && s.events[e].live && s.events[e].app == 0 && s.events[e].refcount == 0
    requires var q := s.events[e].data.queue; q < |s.queues| && (queues == Release(s.queues, q) || queues == Leak(s.queues, q))
    ensures CountsOk(s.(queues := queues, events := s.events[e := s.events[e].(live := false)]), multiset{})
  {
    var q, o := s.events[e].data.queue, s.events[e].(live := false);
    var events := s.events[e := o];
    assert Owes(s.events[e], 0);
    CollectUpdate(s.events, e, o, QueueRef);
    assert EventRefs(events) + multiset{q} == EventRefs(s.events);
    assert EventRefs(events) + multiset{} == EventRefs(events) && EventRefs(s.events) + multiset{} == EventRefs(s.events);
    assert Balanced(events, multiset{});
    hide Collect, EventRefs, Balanced;
    ReleaseBalanced(s.queues, EventRefs(events), q);
    LeakBalanced(s.queues, EventRefs(events), q);
  }

  /** No pending node of a non-GPU queue is left with the freed event. */
  lemma EventDiesOrder(s: State, e: nat)
    requires OrderOk(s, None) && e < |s.events|
    requires var q := s.events[e].data.queue; q < |s.queues| && (Pending(s, q) == [] || s.queues[q].data.gpu)
    ensures OrderOk(s.(events := s.events[e := s.events[e].(live := false)]), None)
  {
    var t := s.(events := s.events[e := s.events[e].(live := false)]);
    forall r, i | 0 <= r < |t.queues| && 0 <= i < |t.queues[r].data.pending|
      ensures NodeEventOk(t.queues[r].data.pending[i], r, t.queues[r].data.gpu, t.events)
    {
      assert NodeEventOk(s.queues[r].data.pending[i], r, s.queues[r].data.gpu, s.events);
    }
    hide NodeEventOk, EventsOf, Ran;
  }

  lemma UsableEvent(s: State, e: nat)
    requires EventInv(s) && Usable(s.events, e)
    ensures Alive(s.events, e) && s.events[e].refcount == s.events[e].app + s.events[e].leaked
    ensures s.events[e].data.queue < |s.queues|
  {
    assert Owes(s.events[e], 0);
  }

  lemma ReleaseEventOk(s: State, e: nat)
    requires EventInv(s) && Usable(s.events, e)
    ensures EventInv(ReleaseEvent(s.(events := GiveUp(s.events, e)), e))
  {
    UsableEvent(s, e);
    hide EventOk, Finish;
    var s0 := s.(events := GiveUp(s.events, e));
    var s1 := s0.(events := Dec(s0.events, e));
    assert s1 == s.(events := s.events[e := s1.events[e]]);
    EventCountersOk(s, e, s1.events[e]);
    var q := s.events[e].data.queue;
    if s1.events[e].refcount == 0 {
      if s1.queues[q].data.gpu {
        EventDies(s1, e, Leak(s1.queues, q));
      } else {
        FinishOk(s1, q, None, multiset{});
        var t := Finish(s1, q);
        EventDies(t, e, Release(t.queues, q));
      }
    }
  }

  /** A release or a retain of an event by the application moves its counters alone. */
  lemma EventCountersOk(s: State, e: nat, o: Obj<EventData>)
    requires EventInv(s) && e < |s.events| && s.events[e].live && o.live && o.data == s.events[e].data
    requires o.leaked == s.events[e].leaked && o.refcount - o.app == s.events[e].refcount - s.events[e].app
    ensures EventInv(s.(events := s.events[e := o]))
  {
    CollectSame(s.events, e, o, QueueRef);
    assert Balanced(s.events[e := o], multiset{});
    hide Balanced, Collect, OrderOk;
    EventCountersOrder(s, e, o);
  }

  lemma EventCountersOrder(s: State, e: nat, o: Obj<EventData>)
    requires OrderOk(s, None) && e < |s.events| && s.events[e].live && o.live && o.data == s.events[e].data
    ensures OrderOk(s.(events := s.events[e := o]), None)
  {
    var t := s.(events := s.events[e := o]);
    forall r, i | 0 <= r < |t.queues| && 0 <= i < |t.queues[r].data.pending|
      ensures NodeEventOk(t.queues[r].data.pending[i], r, t.queues[r].data.gpu, t.events)
    {
      assert NodeEventOk(s.queues[r].data.pending[i], r, s.queues[r].data.gpu, s.events);
    }
    hide NodeEventOk, EventsOf, Ran;
  }

  // ----- calls -----

  /** The drain of a running call leaves its own event as it was. */
  lemma FinishFlight(s: State, q: nat, event: Option<nat>, inOrder: bool)
    requires EventOk(s, event, multiset{}) && Own(s, event, q, inOrder)
    ensures var t := Finish(s, q); EventOk(t, event, multiset{}) && Own(t, event, q, inOrder) && Pending(t, q) == []
  {
    FinishOk(s, q, event, multiset{});
    hide EventOk, Finish;
  }

  lemma PerformOk(s: State, event: Option<nat>, q: nat, inOrder: bool, op: Op)
    requires EventOk(s, event, multiset{}) && Own(s, event, q, inOrder) && (inOrder ==> Pending(s, q) == [])
    ensures EventInv(Perform(s, event, op))
  {
    PerformEvents(s, event, op);
    PerformQueues(s, event, op);
    var c := ReadBuffer(0, 0, 0, 0);
    FlightDone(s, event, q, inOrder, c);
    hide EventOk, Perform;
    EventFrame(WriteStatus(s, event, Suffix(c)), Perform(s, event, op), None, multiset{});
  }

  lemma PerformQueues(s: State, event: Option<nat>, op: Op)
    ensures Perform(s, event, op).queues == s.queues
  {
  }

  lemma RunNowOk(s: State, q: nat, ms: seq<nat>, op: Op, wanted: bool)
    requires EventInv(s) && Alive(s.queues, q)
    ensures EventInv(RunNow(s, q, ms, op, wanted))
  {
    hide EventOk, Finish, Perform, TakeMems, DropMems;
    var event := EventHandle(s, wanted);
    MaybeEventOk(s, q, wanted, true);
    var s1 := MaybeEvent(s, q, wanted, true);
    var s2 := TakeMems(s1, ms);
    EventFrame(s1, s2, event, multiset{});
    FinishFlight(s2, q, event, true);
    var s3 := Finish(s2, q);
    PerformOk(s3, event, q, true, op);
    EventFrame(Perform(s3, event, op), RunNow(s, q, ms, op, wanted), None, multiset{});
  }

  /** A command that writes no event's status does what a blocking command without an event does. */
  lemma RunIntoOk(s: State, q: nat, ms: seq<nat>, op: Op, out: Option<nat>)
    requires EventInv(s) && Alive(s.queues, q) && (out.Some? ==> out.value >= |s.events|)
    ensures EventInv(RunInto(s, q, ms, op, out))
  {
    hide EventOk, RunNow, RunInto, TakeMems, Perform;
    RunNowOk(s, q, ms, op, false);
    RunIntoIs(s, q, ms, op, out);
    assert |Finish(TakeMems(s, ms), q).events| == |s.events|;
    hide Finish;
  }

  lemma DeferOk(s: State, q: nat, ms: seq<nat>, c: Command, wanted: bool)
    requires EventInv(s) && Alive(s.queues, q)
    ensures EventInv(Defer(s, q, ms, c, wanted))
  {
    hide EventOk, RetainMems;
    MaybeEventOk(s, q, wanted, true);
    var s1 := MaybeEvent(s, q, wanted, true);
    EventFrame(s1, RetainMems(s1, ms), EventHandle(s, wanted), multiset{});
    AppendOk(RetainMems(s1, ms), q, c, EventHandle(s, wanted));
  }

  lemma MapCallOk(s: State, q: nat, m: nat, blocking: bool, offset: nat, size: nat, hostPtr: Option<int>, wanted: bool)
    requires EventInv(s) && Alive(s.queues, q)
    ensures EventInv(MapCall(s, q, m, blocking, offset, size, hostPtr, wanted))
  {
    hide EventOk, Finish, Perform, Append, MaybeEvent, MapOp;
    var event, id := EventHandle(s, wanted), |s.mappings|;
    var s0 := s.(mems := Retain(s.mems, m));
    EventFrame(s, s0, None, multiset{});
    MaybeEventOk(s0, q, wanted, hostPtr.Some?);
    var s1 := MaybeEvent(s0, q, wanted, hostPtr.Some?);
    if hostPtr.None? {
      var s2 := s1.(mems := Leak(s1.mems, m));
      EventFrame(s1, s2, event, multiset{});
      FlightDone(s2, event, q, false, Marker);
    } else {
      var s2 := AddMapping(s1, m, Mapping(true, m, hostPtr.value, offset, size));
      EventFrame(s1, s2, event, multiset{});
      MapTail(s2, q, m, id, blocking, event);
    }
  }

  lemma MapTail(s: State, q: nat, m: nat, id: nat, blocking: bool, event: Option<nat>)
    requires EventOk(s, event, multiset{}) && Own(s, event, q, true) && Alive(s.queues, q)
    ensures !blocking ==> EventInv(Append(s, q, MapBuffer(m, id), event))
    ensures blocking ==> var t := Finish(s, q); EventInv(CountMap(Perform(t, event, MapOp(t, DevId(t, q), m, id)), m, 1))
  {
    hide EventOk, Finish, Perform, Append, MapOp;
    if blocking {
      FinishFlight(s, q, event, true);
      var t := Finish(s, q);
      var op := MapOp(t, DevId(t, q), m, id);
      PerformOk(t, event, q, true, op);
      EventFrame(Perform(t, event, op), CountMap(Perform(t, event, op), m, 1), None, multiset{});
    } else {
      AppendOk(s, q, MapBuffer(m, id), event);
    }
  }

  lemma UnmapDeviceEvents(s: State, q: nat, m: nat, id: nat, flush: bool, wanted: bool, op: Op)
    ensures var t, u := UnmapDevice(s, q, m, id, flush, wanted), Perform(MaybeEvent(s, q, wanted, false), EventHandle(s, wanted), op);
      t.events == u.events && t.queues == u.queues
  {
  }

  lemma UnmapCallOk(s: State, q: nat, m: nat, id: nat, flush: bool, wanted: bool)
    requires EventInv(s) && Alive(s.queues, q)
    ensures EventInv(UnmapCall(s, q, m, id, flush, wanted))
  {
    hide EventOk, UnmapDevice, Perform, ReleaseMem, MaybeEvent;
    var event := EventHandle(s, wanted);
    MaybeEventOk(s, q, wanted, false);
    var s1 := MaybeEvent(s, q, wanted, false);
    var op := OpUnmap(0, 0, 0);
    PerformOk(s1, event, q, false, op);
    UnmapDeviceEvents(s, q, m, id, flush, wanted, op);
    EventFrame(Perform(s1, event, op), UnmapCall(s, q, m, id, flush, wanted), None, multiset{});
  }

  lemma KernelCallOk(s: State, q: nat, k: nat, range: seq<nat>, wanted: bool)
    requires EventInv(s) && Alive(s.queues, q) && k < |s.kernels|
    ensures EventInv(KernelCall(s, q, k, range, wanted))
  {
    hide EventOk, RetainMems, ArgBuffers, Snapshot, Append;
    var d, event := s.kernels[k].data, EventHandle(s, wanted);
    MaybeEventOk(s, q, wanted, true);
    var s1 := MaybeEvent(s, q, wanted, true);
    var (blocks, args) := Snapshot(s1.blocks, d.arguments, s1.nodes, 0);
    var bufs := ArgBuffers(s1.blocks, d, 0);
    var s2 := s1.(blocks := blocks, queues := Leak(Retain(s1.queues, q), q), kernels := Retain(s1.kernels, k));
    RetainQueueOk(s1, q, event);
    var s3 := RetainMems(s2, bufs);
    EventFrame(s1.(queues := Leak(Retain(s1.queues, q), q)), s3, event, multiset{});
    AppendOk(s3, q, RunKernel(k, range, args, bufs), event);
  }

  /** clWaitForEvents returns only with all listed events complete. */
  lemma {:induction false} WaitCompletes(s: State, es: seq<nat>)
    requires EventInv(s) && forall i :: 0 <= i < |es| ==> es[i] < |s.events|
    ensures EventInv(WaitForEvents(s, es)) && KeepsRan(s.events, WaitForEvents(s, es).events)
    ensures forall i :: 0 <= i < |es| ==> Ran(WaitForEvents(s, es).events[es[i]].data.trail)
    decreases |es|
  {
    hide EventOk, Finish, Ran;
    if es != [] {
      var q := s.events[es[0]].data.queue;
      FinishOk(s, q, None, multiset{});
      FinishCompletes(s, q, None, multiset{}, es[0]);
      WaitCompletes(Finish(s, q), es[1..]);
      assert forall i :: 0 < i < |es| ==> es[i] == es[1..][i - 1];
    }
  }

  lemma NewQueueOk(s: State, d: QueueData)
    requires EventInv(s) && d.pending == []
    ensures EventInv(s.(queues := Create(s.queues, d, 0)))
  {
    var t := s.(queues := Create(s.queues, d, 0));
    CreateBalanced(s.queues, EventRefs(s.events) + multiset{}, d, 0);
    hide EventRefs, Balanced, NodeEventOk, EventsOf, Ran;
    forall r, i | 0 <= r < |t.queues| && 0 <= i < |t.queues[r].data.pending|
      ensures NodeEventOk(t.queues[r].data.pending[i], r, t.queues[r].data.gpu, t.events)
    {
      assert r < |s.queues| && t.queues[r].data.pending[i] == s.queues[r].data.pending[i];
    }
  }

  lemma ObjectStep(s: State, c: Call)
    requires EventInv(s) && Enabled(s, c)
    requires c.CreateQueue? || c.RetainQueueCall? || c.ReleaseQueueCall? || c.RetainEvent? || c.ReleaseEventCall?
      || c.FinishCall? || c.WaitCall?
    ensures EventInv(Effect(s, c))
  {
    hide EventOk, ReleaseQueue, ReleaseEvent, Finish, WaitForEvents;
    match c
    case CreateQueue(context, devIndex, devId, gpu) => NewQueueOk(s, QueueData(context, devIndex, devId, gpu, []));
    case RetainQueueCall(q) => UsableQueue(s, q); RetainQueueOk(s, q, None);
    case ReleaseQueueCall(q) => ReleaseQueueOk(s, q);
    case RetainEvent(e) =>
      UsableEvent(s, e);
      var t := Take(Retain(s.events, e), e);
      assert t == s.events[e := t[e]];
      EventCountersOk(s, e, t[e]);
    case ReleaseEventCall(e) => ReleaseEventOk(s, e);
    case FinishCall(q) => FinishOk(s, q, None, multiset{});
    case WaitCall(es) => WaitCompletes(s, es);
  }

  lemma TransferStep(s: State, c: Call)
    requires EventInv(s) && Enabled(s, c)
    requires c.EnqueueRead? || c.EnqueueWrite? || c.EnqueueCopy? || c.EnqueueMarker?
    ensures EventInv(Effect(s, c))
  {
    hide EventOk, RunNow, Defer, DevicePtr;
    UsableQueue(s, c.q);
    match c
    case EnqueueRead(q, m, blocking, offset, cb, ptr, _, event) =>
      var dev := DevicePtr(s, m, DevId(s, q)) + offset;
      RunNowOk(s, q, [m], OpRead(ptr, dev, cb), event);
      DeferOk(s, q, [m], ReadBuffer(ptr, dev, cb, m), event);
    case EnqueueWrite(q, m, blocking, offset, cb, ptr, _, event) =>
      RunNowOk(s, q, [m], OpWrite(ptr, DevicePtr(s, m, DevId(s, q)) + offset, cb), event);
      DeferOk(s, q, [m], WriteBuffer(ptr, DevicePtr(s, m, DevIndex(s, q)) + offset, cb, m), event);
    case EnqueueCopy(q, m1, m2, o1, o2, cb, event) =>
      DeferOk(s, q, [m1, m2],
              CopyBuffer(DevicePtr(s, m1, DevId(s, q)) + o1, DevicePtr(s, m2, DevId(s, q)) + o2, cb, m1, m2), event);
    case EnqueueMarker(q) => DeferOk(s, q, [], Marker, true);
  }

  lemma CommandStep(s: State, c: Call)
    requires EventInv(s) && Enabled(s, c)
    requires c.EnqueueReadRect? || c.EnqueueWriteRect? || c.EnqueueCopyRect? || c.EnqueueMap? || c.EnqueueUnmap? || c.EnqueueKernel?
    requires OutUnset(s, c)
    ensures EventInv(Effect(s, c))
  {
    hide EventOk, RunNow, RunInto, MapCall, UnmapCall, KernelCall, DevicePtr, FindMapping;
    UsableQueue(s, c.q);
    match c
    case EnqueueReadRect(q, m, ptr, shape, _, event) => RunNowOk(s, q, [m], OpRect(RectRead, DevicePtr(s, m, DevId(s, q)), ptr, shape), event);
    case EnqueueWriteRect(q, m, ptr, shape, _, out) => RunIntoOk(s, q, [m], OpRect(RectWrite, DevicePtr(s, m, DevId(s, q)), ptr, shape), out);
    case EnqueueCopyRect(q, m1, m2, shape, _, event) =>
      RunNowOk(s, q, [m1, m2], OpRect(RectCopy, DevicePtr(s, m1, DevId(s, q)), DevicePtr(s, m2, DevId(s, q)), shape), event);
    case EnqueueMap(q, m, blocking, offset, size, _, hostPtr, event) =>
      MapCallOk(s, q, m, blocking, offset, size, hostPtr, event);
    case EnqueueUnmap(q, m, ptr, flush, event) =>
      if FoundMapping(s, m, ptr).Some? { UnmapCallOk(s, q, m, FoundMapping(s, m, ptr).value, flush, event); }
    case EnqueueKernel(q, k, range, _, event) => KernelCallOk(s, q, k, range, event);
  }

  lemma OtherStep(s: State, c: Call)
    requires EventInv(s)
    requires c.CreateBuffer? || c.CreateSubBuffer? || c.RetainMemObject? || c.ReleaseMemObject? || c.CreateProgram?
      || c.RetainProgram? || c.ReleaseProgramCall? || c.CreateKernel? || c.RetainKernel? || c.ReleaseKernelCall?
      || c.SetKernelArg? || c.StoreHost?
    ensures EventInv(Effect(s, c))
  {
    hide EventOk, ReleaseKernel, ReleaseProgram, ReleaseMem;
    EventFrame(s, Effect(s, c), None, multiset{});
  }

  /** Every call keeps the books of events and queues, a write of a rectangle when the caller's event
      variable names no event. */
  lemma EventStep(s: State, c: Call)
    requires EventInv(s) && Enabled(s, c) && OutUnset(s, c)
    ensures EventInv(Step(s, c))
  {
    hide EventOk, Effect, Enabled, Accepted;
    if Accepted(s, c) {
      if c.CreateQueue? || c.RetainQueueCall? || c.ReleaseQueueCall? || c.RetainEvent? || c.ReleaseEventCall?
        || c.FinishCall? || c.WaitCall? {
        ObjectStep(s, c);
      } else if c.EnqueueRead? || c.EnqueueWrite? || c.EnqueueCopy? || c.EnqueueMarker? {
        TransferStep(s, c);
      } else if c.EnqueueReadRect? || c.EnqueueWriteRect? || c.EnqueueCopyRect? || c.EnqueueMap? || c.EnqueueUnmap? || c.EnqueueKernel? {
        CommandStep(s, c);
      } else {
        OtherStep(s, c);
      }
    }
  }
}
