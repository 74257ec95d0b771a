/** Events and queues: their reference counts, the status an event goes through, and the order
    in which the events of a queue complete. */
module EventBooks {
  import opened RefCounts
  import opened Runtime

  function QueueRef(o: Obj<EventData>): Bag { if o.live then multiset{o.data.queue} else multiset{} }

  /** Live events, by queue: each holds a reference to its queue. */
  function EventRefs(events: seq<Obj<EventData>>): Bag { Collect(events, QueueRef) }

  /** The whole course of a status field: queued, submitted, running, complete, with the value
      each macro's assertion writes again; a marker or a failed map goes straight to the end. */
  predicate Ran(trail: seq<int>) {
    || trail == [CL_QUEUED, CL_QUEUED, CL_SUBMITTED, CL_SUBMITTED, CL_RUNNING, CL_RUNNING, CL_COMPLETE]
    || trail == [CL_QUEUED, CL_RUNNING, CL_COMPLETE]
  }

  function EventsOf(nodes: seq<Node>): set<nat> {
    set i | 0 <= i < |nodes| && nodes[i].event.Some? :: nodes[i].event.value
  }

  /** A pending node's event is on the same queue and still queued, and, except on a GPU, alive. */
  ghost predicate NodeEventOk(n: Node, q: nat, gpu: bool, events: seq<Obj<EventData>>) {
    n.event.Some? ==>
      var e := n.event.value;
      e < |events| && events[e].data.queue == q && events[e].data.inOrder && events[e].data.trail == [CL_QUEUED]
      && (!gpu ==> events[e].live)
  }

  ghost predicate NodeEventsOk(queues: seq<Obj<QueueData>>, events: seq<Obj<EventData>>) {
    forall q, i {:trigger queues[q].data.pending[i]} :: 0 <= q < |queues| && 0 <= i < |queues[q].data.pending| ==>
      NodeEventOk(queues[q].data.pending[i], q, queues[q].data.gpu, events)
  }

  /** Along a pending list, later nodes have later events. */
  ghost predicate Increasing(nodes: seq<Node>) {
    forall i, j :: 0 <= i < j < |nodes| && nodes[i].event.Some? && nodes[j].event.Some? ==>
      nodes[i].event.value < nodes[j].event.value
  }

  ghost predicate QueuesOk(queues: seq<Obj<QueueData>>) {
    forall q {:trigger queues[q]} :: 0 <= q < |queues| ==>
      Increasing(queues[q].data.pending) && (!queues[q].live ==> queues[q].data.pending == [])
  }

  /** An event has run its course unless its node is pending or its call is still running. */
  ghost predicate Settled(s: State, flight: Option<nat>) {
    forall e {:trigger s.events[e]} :: 0 <= e < |s.events| ==>
      s.events[e].data.queue < |s.queues|
      && (Ran(s.events[e].data.trail) || flight == Some(e) || e in EventsOf(s.queues[s.events[e].data.queue].data.pending))
  }

  /** Of two in-order events of one queue, the older completes first. */
  ghost predicate CompletedFirst(events: seq<Obj<EventData>>) {
    forall e, f {:trigger events[e], events[f]} :: 0 <= e < f < |events| ==>
      events[e].data.queue == events[f].data.queue && events[e].data.inOrder && events[f].data.inOrder ==>
      Ran(events[f].data.trail) ==> Ran(events[e].data.trail)
  }

  /** The event of a call that is still running is the newest one, and still queued. */
  ghost predicate FlightOk(s: State, flight: Option<nat>) {
    flight.Some? ==>
      flight.value == |s.events| - 1 && s.events[flight.value].data.trail == [CL_QUEUED]
      && forall q {:trigger s.queues[q]} :: 0 <= q < |s.queues| ==> flight.value !in EventsOf(s.queues[q].data.pending)
  }

  /** `refs` are references to queues in flight inside a call. */
  ghost predicate CountsOk(s: State, refs: Bag) {
    Balanced(s.events, multiset{}) && Balanced(s.queues, EventRefs(s.events) + refs)
  }

  ghost predicate OrderOk(s: State, flight: Option<nat>) {
    && NodeEventsOk(s.queues, s.events) && QueuesOk(s.queues) && Settled(s, flight) && FlightOk(s, flight)
    && CompletedFirst(s.events)
  }

  ghost predicate EventOk(s: State, flight: Option<nat>, refs: Bag) {
    CountsOk(s, refs) && OrderOk(s, flight)
  }

  ghost predicate EventInv(s: State) { EventOk(s, None, multiset{}) }

  // ----- draining -----

  function Suffix(c: Command): seq<int> {
    if c.Marker? then [CL_RUNNING, CL_COMPLETE]
    else [CL_QUEUED, CL_SUBMITTED, CL_SUBMITTED, CL_RUNNING, CL_RUNNING, CL_COMPLETE]
  }

  /** What one round of the drain does to events: only the node's own event moves. */
  lemma ExecuteEvents(s: State, d: QueueData, n: Node)
    ensures Execute(s, d, n).events == WriteStatus(s, n.event, Suffix(n.command)).events
  {
    if !n.command.Marker? {
      PerformEvents(s, n.event, CommandOp(s, d.devId, n.command));
      hide Perform;
    }
  }

  lemma WriteTwice(s: State, event: Option<nat>, a: seq<int>, b: seq<int>)
    ensures WriteStatus(WriteStatus(s, event, a), event, b).events == WriteStatus(s, event, a + b).events
  {
    if event.Some? && event.value < |s.events| {
      var d := s.events[event.value].data;
      assert (d.trail + a) + b == d.trail + (a + b);
    }
  }

  lemma PerformEvents(s: State, event: Option<nat>, op: Op)
    ensures Perform(s, event, op).events
         == WriteStatus(s, event, [CL_QUEUED, CL_SUBMITTED, CL_SUBMITTED, CL_RUNNING, CL_RUNNING, CL_COMPLETE]).events
  {
    var a, b, c := [CL_QUEUED, CL_SUBMITTED], [CL_SUBMITTED, CL_RUNNING], [CL_RUNNING, CL_COMPLETE];
    WriteTwice(s, event, a, b);
    WriteTwice(s, event, a + b, c);
    assert a + b + c == [CL_QUEUED, CL_SUBMITTED, CL_SUBMITTED, CL_RUNNING, CL_RUNNING, CL_COMPLETE];
  }

  lemma RunsToCompletion(c: Command)
    ensures Ran([CL_QUEUED] + Suffix(c))
  {
  }

  lemma SetDataRefs(events: seq<Obj<EventData>>, e: nat, d: EventData)
    requires e < |events| && d.queue == events[e].data.queue
    ensures EventRefs(SetData(events, e, d)) == EventRefs(events)
  {
    CollectSame(events, e, events[e].(data := d), QueueRef);
  }

  lemma WriteStatusCounts(s: State, event: Option<nat>, values: seq<int>, refs: Bag)
    requires CountsOk(s, refs)
    ensures CountsOk(WriteStatus(s, event, values), refs)
  {
    if event.Some? && event.value < |s.events| {
      var d := s.events[event.value].data;
      SetDataRefs(s.events, event.value, d.(trail := d.trail + values));
      hide EventRefs;
    }
  }

  lemma SetPendingCounts(s: State, q: nat, nodes: seq<Node>, refs: Bag)
    requires CountsOk(s, refs)
    ensures CountsOk(SetPending(s, q, nodes), refs)
  {
    hide EventRefs;
    if q < |s.queues| { SetDataBalanced(s.queues, EventRefs(s.events) + refs, q, s.queues[q].data.(pending := nodes)); }
  }

  lemma CountsFrame(s: State, t: State, refs: Bag)
    requires CountsOk(s, refs) && t.events == s.events && t.queues == s.queues
    ensures CountsOk(t, refs)
  {
  }

  /** Executing the head completes exactly its event, and every older one is already complete. */
  lemma PopOrder(s: State, q: nat, flight: Option<nat>, t: State)
    requires OrderOk(s, flight) && Pending(s, q) != []
    requires var n := Pending(s, q)[0];
      t.queues == SetPending(s, q, Pending(s, q)[1..]).queues && t.events == WriteStatus(s, n.event, Suffix(n.command)).events
    ensures OrderOk(t, flight)
    ensures forall e :: 0 <= e < |s.events| && Ran(s.events[e].data.trail) ==> t.events[e] == s.events[e]
  {
    var p := Pending(s, q);
    var n := p[0];
    assert NodeEventOk(s.queues[q].data.pending[0], q, s.queues[q].data.gpu, s.events);
    RunsToCompletion(n.command);
    PopNodeEvents(s, q, flight, t);
    PopSettled(s, q, flight, t);
    PopCompleted(s, q, flight, t);
  }

  lemma PopNodeEvents(s: State, q: nat, flight: Option<nat>, t: State)
    requires OrderOk(s, flight) && Pending(s, q) != []
    requires var n := Pending(s, q)[0];
      t.queues == SetPending(s, q, Pending(s, q)[1..]).queues && t.events == WriteStatus(s, n.event, Suffix(n.command)).events
    ensures NodeEventsOk(t.queues, t.events) && QueuesOk(t.queues) && FlightOk(t, flight)
  {
    hide Settled, CompletedFirst, Ran;
    var p := Pending(s, q);
    assert NodeEventOk(s.queues[q].data.pending[0], q, s.queues[q].data.gpu, s.events);
    forall r, i | 0 <= r < |t.queues| && 0 <= i < |t.queues[r].data.pending|
      ensures NodeEventOk(t.queues[r].data.pending[i], r, t.queues[r].data.gpu, t.events)
    {
      var j := if r == q then i + 1 else i;
      assert t.queues[r].data.pending[i] == s.queues[r].data.pending[j];
      assert NodeEventOk(s.queues[r].data.pending[j], r, s.queues[r].data.gpu, s.events);
    }
  }

  lemma PopSettled(s: State, q: nat, flight: Option<nat>, t: State)
    requires OrderOk(s, flight) && Pending(s, q) != []
    requires var n := Pending(s, q)[0];
      t.queues == SetPending(s, q, Pending(s, q)[1..]).queues && t.events == WriteStatus(s, n.event, Suffix(n.command)).events
    ensures Settled(t, flight)
  {
    hide CompletedFirst, QueuesOk;
    var p := Pending(s, q);
    RunsToCompletion(p[0].command);
    assert NodeEventOk(s.queues[q].data.pending[0], q, s.queues[q].data.gpu, s.events);
    forall e | 0 <= e < |t.events|
      ensures t.events[e].data.queue < |t.queues|
      ensures Ran(t.events[e].data.trail) || flight == Some(e) || e in EventsOf(t.queues[t.events[e].data.queue].data.pending)
    {
      assert s.events[e].data.queue == t.events[e].data.queue;
      if s.events[e].data.queue == q && e in EventsOf(p) {
        var i :| 0 <= i < |p| && p[i].event == Some(e);
        if i > 0 { assert p[1..][i - 1].event == Some(e); }
      }
    }
  }

  lemma PopCompleted(s: State, q: nat, flight: Option<nat>, t: State)
    requires OrderOk(s, flight) && Pending(s, q) != []
    requires t.events == WriteStatus(s, Pending(s, q)[0].event, Suffix(Pending(s, q)[0].command)).events
    ensures CompletedFirst(t.events)
  {
    var p := Pending(s, q);
    assert NodeEventOk(s.queues[q].data.pending[0], q, s.queues[q].data.gpu, s.events);
    RunsToCompletion(p[0].command);
    forall e, f | 0 <= e < f < |t.events| && t.events[e].data.queue == t.events[f].data.queue
      && t.events[e].data.inOrder && t.events[f].data.inOrder && Ran(t.events[f].data.trail)
      ensures Ran(t.events[e].data.trail)
    {
      if p[0].event == Some(f) {
        OlderHasRun(s, q, flight, e);
      } else if p[0].event != Some(e) {
        assert Ran(s.events[e].data.trail);
      }
    }
  }

  /** An event of the queue older than the head's has run. */
  lemma OlderHasRun(s: State, q: nat, flight: Option<nat>, e: nat)
    requires OrderOk(s, flight) && Pending(s, q) != [] && Pending(s, q)[0].event.Some? && e < Pending(s, q)[0].event.value
    requires Pending(s, q)[0].event.value < |s.events| && s.events[e].data.queue == q
    ensures Ran(s.events[e].data.trail)
  {
    var p := Pending(s, q);
    assert s.events[e].data.queue == q && Increasing(s.queues[q].data.pending);
  }

  /** An event that has run is not touched again. */
  ghost predicate KeepsRan(a: seq<Obj<EventData>>, b: seq<Obj<EventData>>) {
    |a| == |b| && (forall e {:trigger a[e]} {:trigger b[e]} :: 0 <= e < |a| ==>
      b[e] == a[e].(data := a[e].data.(trail := b[e].data.trail)) && (Ran(a[e].data.trail) ==> b[e] == a[e]))
  }

  lemma ExecuteHeadOk(s: State, q: nat, flight: Option<nat>, refs: Bag)
    requires EventOk(s, flight, refs) && Pending(s, q) != []
    ensures EventOk(ExecuteHead(s, q), flight, refs) && KeepsRan(s.events, ExecuteHead(s, q).events)
  {
    hide Execute, OrderOk, CountsOk, Suffix, Ran;
    var p := Pending(s, q);
    var s1, t := SetPending(s, q, p[1..]), ExecuteHead(s, q);
    ExecuteEvents(s1, s.queues[q].data, p[0]);
    SetPendingCounts(s, q, p[1..], refs);
    WriteStatusCounts(s1, p[0].event, Suffix(p[0].command), refs);
    PopOrder(s, q, flight, t);
    CountsFrame(WriteStatus(s1, p[0].event, Suffix(p[0].command)), t, refs);
    WriteStatusShape(s1, p[0].event, Suffix(p[0].command));
  }

  lemma WriteStatusShape(s: State, event: Option<nat>, values: seq<int>)
    ensures var t := WriteStatus(s, event, values);
      t == s.(events := t.events) && |t.events| == |s.events|
      && forall e {:trigger t.events[e]} :: 0 <= e < |s.events| ==>
        t.events[e] == s.events[e].(data := s.events[e].data.(trail := t.events[e].data.trail))
  {
  }

  /** Queues keep everything but their pending list through a drain. */
  ghost predicate SameQueues(a: seq<Obj<QueueData>>, b: seq<Obj<QueueData>>, q: nat) {
    |a| == |b| && forall i {:trigger a[i]} {:trigger b[i]} :: 0 <= i < |a| ==>
      b[i] == a[i].(data := a[i].data.(pending := b[i].data.pending)) && (i != q ==> b[i] == a[i])
  }

  lemma {:induction false} FinishOk(s: State, q: nat, flight: Option<nat>, refs: Bag)
    requires EventOk(s, flight, refs)
    ensures EventOk(Finish(s, q), flight, refs) && KeepsRan(s.events, Finish(s, q).events)
    ensures SameQueues(s.queues, Finish(s, q).queues, q)
    decreases |Pending(s, q)|
  {
    hide EventOk, Ran;
    if Pending(s, q) != [] {
      ExecuteHeadOk(s, q, flight, refs);
      FinishOk(ExecuteHead(s, q), q, flight, refs);
    }
  }

  /** clFinish returns with every event of the queue complete. */
  lemma FinishCompletes(s: State, q: nat, flight: Option<nat>, refs: Bag, e: nat)
    requires EventOk(s, flight, refs) && e < |s.events| && s.events[e].data.queue == q && flight != Some(e)
    ensures Ran(Finish(s, q).events[e].data.trail)
  {
    hide Ran;
    FinishOk(s, q, flight, refs);
    var t := Finish(s, q);
    assert t.events[e].data.queue == q;
    assert EventsOf([]) == {};
  }
}
