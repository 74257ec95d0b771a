/** Where the runtime's guarantees end: an unmap that overtakes its map command, the last release
    of an event on a GPU queue, a write of a rectangle with an event variable that is still set, a
    deferred write whose device is not at its dev_id's position in the context, a queue whose device
    is not in its context, and a buffer created from memory that a pending read will fill. Each
    comes with a run the application may make that shows the failure; the exact conditions are
    here, in ExtentRuns, in Deferral and in FlatMemory. */
module Limits {
  import opened RefCounts
  import opened Runtime
  import opened MemBooks
  import MemCalls
  import EventBooks
  import EventCalls
  import Runs
  import P = Platform
  import Extents
  import ExtentRuns
  import Simulation
  import Deferral
  import Rect

  // ----- runs, call by call -----

  lemma NoCalls(s: State)
    ensures Run(s, []) == s && Runs.Lawful(s, [])
  {
  }

  lemma FirstCall(s: State, c: Call, cs: seq<Call>)
    requires cs != [] && cs[0] == c
    ensures Run(s, cs) == Run(Step(s, c), cs[1..])
    ensures Runs.Lawful(s, cs) <==> Enabled(s, c) && MemCalls.UnmapsLate(s, c) && Runs.Lawful(Step(s, c), cs[1..])
  {
  }

  // ----- unmapping -----

  lemma {:induction false} FreedStaysFreed(mappings: seq<Mapping>, ids: seq<nat>, id: nat)
    requires id < |mappings| && !mappings[id].live
    ensures id < |FreeMappings(mappings, ids)| && !FreeMappings(mappings, ids)[id].live
    decreases |ids|
  {
    if ids != [] {
      var i := ids[0];
      FreedStaysFreed(if i < |mappings| then mappings[i := mappings[i].(live := false)] else mappings, ids[1..], id);
    }
  }

  lemma UnmapUnlinks(s: State, q: nat, m: nat, id: nat, flush: bool, wanted: bool)
    requires m < |s.mems| && id < |s.mappings|
    ensures var t := UnmapCall(s, q, m, id, flush, wanted);
      && SamePending(s.queues, t.queues) && id < |t.mappings| && !t.mappings[id].live
  {
    MemCalls.UnmapDeviceFrame(s, q, m, id, flush, wanted);
    hide UnmapDevice;
    var u := CountMap(RemoveMapping(UnmapDevice(s, q, m, id, flush, wanted), m, id), m, -1);
    if m < |u.mems| { FreedStaysFreed(u.mappings, u.mems[m].data.mappings, id); }
  }

  /** clEnqueueUnmapMemObject keeps the books exactly when the map command of the mapping it
      finds has run. */
  lemma UnmapIff(s: State, c: Call)
    requires MemInv(s) && c.EnqueueUnmap? && Enabled(s, c) && Accepted(s, c)
    ensures MemInv(Step(s, c)) <==> MemCalls.UnmapsLate(s, c)
  {
    hide MemOk;
    var id, t := FoundMapping(s, c.m, c.mappedPtr).value, Step(s, c);
    MemCalls.FindMappingFacts(s.mappings, s.mems[c.m].data.mappings, c.mappedPtr);
    hide Enabled, FindMapping;
    if MapStillPending(s, id) {
      UnmapUnlinks(s, c.q, c.m, id, c.flush, c.event);
      MemCalls.StillPendingFrame(s, t, id);
      hide UnmapCall;
      UnlinkedPending(t, id);
    } else {
      MemCalls.MemStep(s, c);
    }
  }

  lemma UnlinkedPending(t: State, id: nat)
    requires MapStillPending(t, id) && id < |t.mappings| && !t.mappings[id].live
    ensures !MemInv(t)
  {
    var q, i :| 0 <= q < |t.queues| && 0 <= i < |t.queues[q].data.pending|
      && t.queues[q].data.pending[i].command.MapBuffer? && t.queues[q].data.pending[i].command.mapping == id;
    assert !MapNodeOk(t.queues[q].data.pending[i], t.mappings);
  }

  const OneBuffer: MemData := MemData(None, 0, 16, [4096], 0, 0, [])
  const OneQueue: QueueData := QueueData(0, 0, 0, false, [])

  /** A deferred map, and the release of the application's own reference to the buffer. */
  const MapThenRelease: seq<Call> := [
    CreateQueue(0, 0, 0, false),
    CreateBuffer(0, 16, [4096], [0], None),
    EnqueueMap(0, 0, false, 0, 8, true, Some(64), false),
    ReleaseMemObject(0)]

  const WithQueue: State := Empty.(queues := [Obj(true, 1, 1, 0, OneQueue)])
  const WithBuffer: State := WithQueue.(mems := [Obj(true, 1, 1, 0, OneBuffer)])
  const MapPending: State := State(
    [Obj(true, 2, 1, 0, OneBuffer.(mappings := [0]))], [Mapping(true, 0, 64, 0, 8)],
    [Obj(true, 1, 1, 0, OneQueue.(pending := [Node(0, MapBuffer(0, 0), None)]))], [], [], [], [], 1, [])
  const Released: State := MapPending.(mems := [Obj(true, 1, 0, 0, OneBuffer.(mappings := [0]))])

  lemma MapCallStep()
    ensures Step(WithBuffer, MapThenRelease[2]) == MapPending
  {
    var s := WithBuffer;
    var s0 := s.(mems := Retain(s.mems, 0));
    assert s0.mems == [Obj(true, 2, 1, 0, OneBuffer)];
    var s2 := AddMapping(s0, 0, Mapping(true, 0, 64, 0, 8));
    var noIds: seq<nat>, noMappings: seq<Mapping>, noNodes: seq<Node> := [], [], [];
    assert noIds + [0] == [0] && noMappings + [Mapping(true, 0, 64, 0, 8)] == [Mapping(true, 0, 64, 0, 8)];
    assert noNodes + [Node(0, MapBuffer(0, 0), None)] == [Node(0, MapBuffer(0, 0), None)];
    assert s2.mems == MapPending.mems && s2.mappings == MapPending.mappings;
    var t := Append(s2, 0, MapBuffer(0, 0), None);
    assert t.queues == MapPending.queues;
    assert t == MapCall(s, 0, 0, false, 0, 8, Some(64), false);
  }

  lemma CreateSteps()
    ensures Step(Empty, MapThenRelease[0]) == WithQueue && Step(WithQueue, MapThenRelease[1]) == WithBuffer
  {
  }

  lemma ReleaseStep()
    ensures Step(MapPending, MapThenRelease[3]) == Released
  {
    assert Step(MapPending, MapThenRelease[3]).mems == Released.mems;
  }

  lemma MapThenReleaseRun()
    ensures Runs.Lawful(Empty, MapThenRelease) && Run(Empty, MapThenRelease) == Released
  {
    CreateSteps();
    MapCallStep();
    ReleaseStep();
    var cs := MapThenRelease;
    assert Enabled(Empty, cs[0]) && Enabled(WithQueue, cs[1]) && Enabled(WithBuffer, cs[2]) && Enabled(MapPending, cs[3]);
    hide Step, Runs.Lawful, Enabled, Run;
    FirstCall(Empty, cs[0], cs);
    FirstCall(WithQueue, cs[1], cs[1..]);
    FirstCall(WithBuffer, cs[2], cs[1..][1..]);
    FirstCall(MapPending, cs[3], cs[1..][1..][1..]);
    assert cs[1..][1..][1..][1..] == [];
    NoCalls(Released);
  }

  /** After a lawful run of four calls the application may unmap what it has mapped; a pending
      map command then names a freed buffer. */
  lemma EarlyUnmapDangles()
    ensures Runs.Lawful(Empty, MapThenRelease)
    ensures var s, c := Run(Empty, MapThenRelease), EnqueueUnmap(0, 0, 64, false, false);
      Enabled(s, c) && Accepted(s, c) && !MemCalls.UnmapsLate(s, c)
      && var t := Step(s, c);
      |t.mems| == 1 && !t.mems[0].live
      && |t.queues| == 1 && |Pending(t, 0)| == 1 && Pending(t, 0)[0].command == MapBuffer(0, 0)
  {
    MapThenReleaseRun();
    hide Runs.Lawful, Run;
    var s, c := Released, EnqueueUnmap(0, 0, 64, false, false);
    assert FoundMapping(s, 0, 64) == Some(0);
    assert s.queues[0].data.pending[0].command.MapBuffer? && s.queues[0].data.pending[0].command.mapping == 0;
    assert MapStillPending(s, 0);
    assert Step(s, c) == UnmapCall(s, 0, 0, 0, false, false);
  }

  // ----- the last release of an event -----

  /** The last release of an event frees it; a pending node still names it afterwards exactly
      when its queue is on a GPU and its command has not run. */
  lemma LastReleaseIff(s: State, e: nat)
    requires EventBooks.EventInv(s) && Usable(s.events, e) && s.events[e].refcount == 1
    ensures var q, t := s.events[e].data.queue, Step(s, ReleaseEventCall(e));
      && q < |s.queues| && e < |t.events| && !t.events[e].live
      && (e in EventBooks.EventsOf(Pending(t, q)) <==> s.queues[q].data.gpu && e in EventBooks.EventsOf(Pending(s, q)))
  {
    EventCalls.UsableEvent(s, e);
    hide EventBooks.EventInv, Finish;
    assert EventBooks.EventsOf([]) == {};
  }

  const GpuRelease: seq<Call> := [CreateQueue(0, 0, 0, true), EnqueueMarker(0), ReleaseEventCall(0)]

  const GpuQueue: QueueData := QueueData(0, 0, 0, true, [])
  const WithGpuQueue: State := Empty.(queues := [Obj(true, 1, 1, 0, GpuQueue)])
  const MarkerPending: State := WithGpuQueue.(
    queues := [Obj(true, 2, 1, 0, GpuQueue.(pending := [Node(0, Marker, Some(0))]))],
    events := [Obj(true, 1, 1, 0, EventData(0, true, [CL_QUEUED]))], nodes := 1)

  lemma MarkerStep()
    ensures Step(WithGpuQueue, EnqueueMarker(0)) == MarkerPending
  {
    var u := NewEvent(WithGpuQueue, 0, true);
    assert u.queues == [Obj(true, 2, 1, 0, GpuQueue)];
    assert u.events == [Obj(true, 1, 1, 0, EventData(0, true, [CL_QUEUED]))];
    assert RetainMems(u, []) == u;
    var noNodes: seq<Node> := [];
    assert noNodes + [Node(0, Marker, Some(0))] == [Node(0, Marker, Some(0))];
    assert Append(u, 0, Marker, Some(0)).queues == MarkerPending.queues;
    assert Step(WithGpuQueue, EnqueueMarker(0)) == Append(u, 0, Marker, Some(0));
  }

  lemma LastReleaseStep()
    ensures var t := Step(MarkerPending, ReleaseEventCall(0));
      && |t.events| == 1 && !t.events[0].live
      && |t.queues| == 1 && Pending(t, 0) == [Node(0, Marker, Some(0))]
  {
    hide Finish;
  }

  lemma GpuEnabled()
    ensures Step(Empty, GpuRelease[0]) == WithGpuQueue
    ensures Enabled(Empty, GpuRelease[0]) && Enabled(WithGpuQueue, GpuRelease[1]) && Enabled(MarkerPending, GpuRelease[2])
  {
  }

  /** On a GPU queue, releasing a marker's event, as the application may, leaves a pending node
      with a freed event. */
  lemma GpuReleaseDangles()
    ensures Runs.Lawful(Empty, GpuRelease)
    ensures var t := Run(Empty, GpuRelease);
      && |t.events| == 1 && !t.events[0].live
      && |t.queues| == 1 && Pending(t, 0) == [Node(0, Marker, Some(0))]
  {
    hide Step, Runs.Lawful, Enabled, Run;
    var cs := GpuRelease;
    GpuEnabled();
    MarkerStep();
    LastReleaseStep();
    FirstCall(Empty, cs[0], cs);
    FirstCall(WithGpuQueue, cs[1], cs[1..]);
    FirstCall(MarkerPending, cs[2], cs[1..][1..]);
    assert cs[1..][1..][1..] == [];
    NoCalls(Step(MarkerPending, cs[2]));
  }

  // ----- a device that is not at its own position -----

  /** A context that holds only the second of two devices. */
  const SecondOnly: P.Contexts := (_: nat) => [1]

  const StrayWrite: seq<Call> := [
    CreateQueue(0, 0, 1, false),
    CreateBuffer(0, 16, [NULL, 4096], [1], None),
    EnqueueWrite(0, 0, false, 0, 8, 64, true, false)]

  const SecondQueue: QueueData := QueueData(0, 0, 1, false, [])
  const StrayNode: Node := Node(0, WriteBuffer(64, NULL, 8, 0), None)
  const WithSecondQueue: State := Empty.(queues := [Obj(true, 1, 1, 0, SecondQueue)])
  const WithSecondBuffer: State := WithSecondQueue.(mems := [Obj(true, 1, 1, 0, MemData(None, 0, 16, [NULL, 4096], 0, 0, []))])
  const StrayPending: State := WithSecondBuffer.(
    mems := [Obj(true, 2, 1, 0, MemData(None, 0, 16, [NULL, 4096], 0, 0, []))],
    queues := [Obj(true, 1, 1, 0, SecondQueue.(pending := [StrayNode]))], nodes := 1)

  lemma StrayWriteStep()
    ensures Step(WithSecondBuffer, StrayWrite[2]) == StrayPending
  {
    var s := WithSecondBuffer;
    var u := RetainMems(s, [0]);
    assert u == RetainMems(s.(mems := Retain(s.mems, 0)), [0][1..]) == s.(mems := Retain(s.mems, 0));
    assert u.mems == StrayPending.mems;
    var noNodes: seq<Node> := [];
    assert noNodes + [StrayNode] == [StrayNode];
    assert Append(u, 0, StrayNode.command, None).queues == StrayPending.queues;
    assert Step(s, StrayWrite[2]) == Append(u, 0, StrayNode.command, None);
  }

  lemma StrayWriteRun()
    ensures Runs.Lawful(Empty, StrayWrite) && Run(Empty, StrayWrite) == StrayPending
    ensures Deferral.EagerLog(Empty, StrayWrite) == [OpWrite(64, 4096, 8)]
  {
    var cs := StrayWrite;
    assert Step(Empty, cs[0]) == WithSecondQueue && Step(WithSecondQueue, cs[1]) == WithSecondBuffer;
    StrayWriteStep();
    assert Enabled(Empty, cs[0]) && Enabled(WithSecondQueue, cs[1]) && Enabled(WithSecondBuffer, cs[2]);
    assert Simulation.EagerOps(Empty, cs[0]) == [] && Simulation.EagerOps(WithSecondQueue, cs[1]) == [];
    assert Simulation.EagerOps(WithSecondBuffer, cs[2]) == [OpWrite(64, 4096, 8)];
    hide Step, Runs.Lawful, Enabled, Run, Simulation.EagerOps;
    FirstCall(Empty, cs[0], cs);
    FirstCall(WithSecondQueue, cs[1], cs[1..]);
    FirstCall(WithSecondBuffer, cs[2], cs[1..][1..]);
    assert cs[1..][1..][1..] == [];
    NoCalls(StrayPending);
    assert Deferral.EagerLog(StrayPending, []) == [];
    assert Deferral.EagerLog(WithSecondBuffer, cs[1..][1..]) == [OpWrite(64, 4096, 8)];
    assert Deferral.EagerLog(WithSecondQueue, cs[1..]) == [OpWrite(64, 4096, 8)];
  }

  lemma StrayFinish()
    ensures Finish(StrayPending, 0).log == [OpWrite(64, NULL, 8)]
  {
    ExtentRuns.StepLog(StrayPending, FinishCall(0));
    var s := StrayPending;
    var e := Extents.Issue(s.mems, 1, 0, [0], OpWrite(64, NULL, 8));
    assert Extents.NodeIssues(s, s.queues[0].data, StrayNode.command) == [e];
    hide ExecuteHead;
    assert Extents.FinishIssues(s, 0) == [e] + Extents.FinishIssues(ExecuteHead(s, 0), 0) == [e];
    assert Extents.Ops([e]) == [OpWrite(64, NULL, 8)];
  }

  /** A lawful run of three calls on a platform, after which the pending write is not inside its
      buffer's memory: it goes through the null pointer of a device outside the context, and
      draining the queue issues it there instead of where eager execution would. */
  lemma StrayWriteIsOutside()
    ensures Runs.Lawful(Empty, StrayWrite) && P.AllOnPlatform(SecondOnly, 2, StrayWrite)
    ensures var s := Run(Empty, StrayWrite);
      |s.queues| == 1 && Pending(s, 0) == [StrayNode]
      && !Extents.CommandInside(s.mems, s.mappings, s.queues[0].data, StrayNode.command)
      && Finish(s, 0).log == [OpWrite(64, NULL, 8)] && Deferral.EagerLog(Empty, StrayWrite) == [OpWrite(64, 4096, 8)]
  {
    StrayWriteRun();
    StrayFinish();
    hide Runs.Lawful, Run, Finish, Deferral.EagerLog;
  }

  // ----- the event variable of a write of a rectangle -----

  /** A write of a rectangle keeps the books of events exactly when the caller's variable names no
      event. */
  lemma WriteRectIff(s: State, c: Call)
    requires EventBooks.EventInv(s) && Enabled(s, c) && Accepted(s, c) && c.EnqueueWriteRect?
    ensures EventBooks.EventInv(Step(s, c)) <==> OutUnset(s, c)
  {
    hide Enabled, EventBooks.EventOk, Accepted, RunNow, RunInto, TakeMems, Perform;
    if OutUnset(s, c) {
      EventCalls.EventStep(s, c);
    } else {
      assert Usable(s.queues, c.q) by { NamesQueue(s, c); }
      EventCalls.UsableQueue(s, c.q);
      var op := OpRect(RectWrite, DevicePtr(s, c.m, DevId(s, c.q)), c.ptr, c.shape);
      EventCalls.RunNowOk(s, c.q, [c.m], op, false);
      RunIntoIs(s, c.q, [c.m], op, c.out);
      var u, t := RunNow(s, c.q, [c.m], op, false), Step(s, c);
      assert t == RunInto(s, c.q, [c.m], op, c.out);
      assert |Finish(TakeMems(s, [c.m]), c.q).events| == |s.events|;
      hide Finish, Step;
      StatusRewritten(u, t, c.out.value);
    }
  }

  lemma NamesQueue(s: State, c: Call)
    requires Enabled(s, c) && c.EnqueueWriteRect?
    ensures Usable(s.queues, c.q)
  {
  }

  /** An event whose status goes through its course once more is not in order. */
  lemma StatusRewritten(u: State, t: State, e: nat)
    requires EventBooks.EventInv(u) && e < |u.events| && t.queues == u.queues
    requires t.events == SetData(u.events, e, u.events[e].data.(
      trail := u.events[e].data.trail + [CL_QUEUED, CL_SUBMITTED, CL_SUBMITTED, CL_RUNNING, CL_RUNNING, CL_COMPLETE]))
    ensures !EventBooks.EventInv(t)
  {
    hide EventBooks.CountsOk, EventBooks.QueuesOk, EventBooks.CompletedFirst, EventBooks.FlightOk;
    var q := u.events[e].data.queue;
    if e in EventBooks.EventsOf(u.queues[q].data.pending) {
      var i :| 0 <= i < |u.queues[q].data.pending| && u.queues[q].data.pending[i].event == Some(e);
      assert !EventBooks.NodeEventOk(t.queues[q].data.pending[i], q, t.queues[q].data.gpu, t.events);
    } else {
      assert EventBooks.Ran(u.events[e].data.trail);
      assert !EventBooks.Ran(t.events[e].data.trail);
    }
  }

  const OneByte: Rect.Shape := Rect.Shape(Rect.Vec(1, 1, 1), Rect.Side(Rect.Vec(0, 0, 0), 0, 0), Rect.Side(Rect.Vec(0, 0, 0), 0, 0))

  const MarkThenWrite: seq<Call> := [
    CreateQueue(0, 0, 0, false),
    CreateBuffer(0, 16, [4096], [0], None),
    EnqueueMarker(0),
    FinishCall(0),
    EnqueueWriteRect(0, 0, 64, OneByte, true, Some(0))]

  const Marked: State := WithBuffer.(
    queues := [Obj(true, 2, 1, 0, OneQueue.(pending := [Node(0, Marker, Some(0))]))],
    events := [Obj(true, 1, 1, 0, EventData(0, true, [CL_QUEUED]))], nodes := 1)
  const MarkerDone: State := Marked.(
    queues := [Obj(true, 2, 1, 0, OneQueue)],
    events := [Obj(true, 1, 1, 0, EventData(0, true, [CL_QUEUED, CL_RUNNING, CL_COMPLETE]))])

  lemma MarkedStep()
    ensures Step(WithBuffer, EnqueueMarker(0)) == Marked
  {
    var u := NewEvent(WithBuffer, 0, true);
    assert u.queues == [Obj(true, 2, 1, 0, OneQueue)];
    assert u.events == [Obj(true, 1, 1, 0, EventData(0, true, [CL_QUEUED]))];
    assert RetainMems(u, []) == u;
    var noNodes: seq<Node> := [];
    assert noNodes + [Node(0, Marker, Some(0))] == [Node(0, Marker, Some(0))];
    assert Append(u, 0, Marker, Some(0)).queues == Marked.queues;
    assert Step(WithBuffer, EnqueueMarker(0)) == Append(u, 0, Marker, Some(0));
  }

  lemma MarkerDoneStep()
    ensures Step(Marked, FinishCall(0)) == MarkerDone
  {
    var s1 := SetPending(Marked, 0, []);
    assert Pending(Marked, 0)[1..] == [];
    assert s1.queues == MarkerDone.queues;
    var s2 := MarkComplete(s1, Some(0));
    assert [CL_QUEUED] + [CL_RUNNING, CL_COMPLETE] == [CL_QUEUED, CL_RUNNING, CL_COMPLETE];
    assert s2.events == MarkerDone.events;
    assert ExecuteHead(Marked, 0) == s2;
    assert Finish(s2, 0) == s2;
    assert Finish(Marked, 0) == Finish(ExecuteHead(Marked, 0), 0);
  }

  lemma RewrittenStep()
    ensures var t := Step(MarkerDone, MarkThenWrite[4]);
      |t.events| == 1
      && t.events[0].data.trail
        == [CL_QUEUED, CL_RUNNING, CL_COMPLETE, CL_QUEUED, CL_SUBMITTED, CL_SUBMITTED, CL_RUNNING, CL_RUNNING, CL_COMPLETE]
  {
    var s := MarkerDone;
    var op := OpRect(RectWrite, DevicePtr(s, 0, DevId(s, 0)), 64, OneByte);
    assert Accepted(s, MarkThenWrite[4]);
    RunIntoIs(s, 0, [0], op, Some(0));
    var u := TakeMems(s, [0]);
    assert Pending(u, 0) == [] && Finish(u, 0) == u;
    hide RunNow, RunInto, TakeMems;
  }

  /** A lawful run of five calls after which a completed event has gone through its course twice: its
      status rose again from complete to queued. */
  lemma RewritesStatus()
    ensures Runs.Lawful(Empty, MarkThenWrite)
    ensures var t := Run(Empty, MarkThenWrite);
      |t.events| == 1 && |t.events[0].data.trail| == 9
      && t.events[0].data.trail[2] == CL_COMPLETE && t.events[0].data.trail[3] == CL_QUEUED
  {
    hide Step, Runs.Lawful, Enabled, Run;
    var cs := MarkThenWrite;
    MarkEnabled();
    MarkedEnabled();
    MarkedStep();
    MarkerDoneStep();
    RewrittenStep();
    FirstCall(Empty, cs[0], cs);
    FirstCall(WithQueue, cs[1], cs[1..]);
    FirstCall(WithBuffer, cs[2], cs[1..][1..]);
    FirstCall(Marked, cs[3], cs[1..][1..][1..]);
    FirstCall(MarkerDone, cs[4], cs[1..][1..][1..][1..]);
    assert cs[1..][1..][1..][1..][1..] == [];
    NoCalls(Step(MarkerDone, cs[4]));
  }

  lemma MarkEnabled()
    ensures Step(Empty, MarkThenWrite[0]) == WithQueue && Step(WithQueue, MarkThenWrite[1]) == WithBuffer
    ensures Enabled(Empty, MarkThenWrite[0]) && Enabled(WithQueue, MarkThenWrite[1]) && Enabled(WithBuffer, MarkThenWrite[2])
  {
  }

  lemma MarkedEnabled()
    ensures Enabled(Marked, MarkThenWrite[3]) && Enabled(MarkerDone, MarkThenWrite[4])
  {
  }

  // ----- a buffer created from memory that a pending read will fill -----

  const ReadThenCreate: seq<Call> := [
    CreateQueue(0, 0, 0, false),
    CreateBuffer(0, 16, [4096], [0], None),
    EnqueueRead(0, 0, false, 0, 8, 64, true, false),
    CreateBuffer(0, 8, [8192], [0], Some(64))]

  const ReadNode: Node := Node(0, ReadBuffer(64, 4096, 8, 0), None)
  const ReadPending: State := WithBuffer.(
    mems := [Obj(true, 2, 1, 0, OneBuffer)], queues := [Obj(true, 1, 1, 0, OneQueue.(pending := [ReadNode]))], nodes := 1)
  const Created: State := ReadPending.(
    mems := [Obj(true, 2, 1, 0, OneBuffer), Obj(true, 1, 1, 0, MemData(None, 0, 8, [8192], 0, 0, []))],
    log := [OpCreate(64, 8192, 8)])

  lemma ReadPendingStep()
    ensures Step(WithBuffer, ReadThenCreate[2]) == ReadPending
  {
    var s := WithBuffer;
    var u := RetainMems(s, [0]);
    assert u == RetainMems(s.(mems := Retain(s.mems, 0)), [0][1..]) == s.(mems := Retain(s.mems, 0));
    assert u.mems == ReadPending.mems;
    var noNodes: seq<Node> := [];
    assert noNodes + [ReadNode] == [ReadNode];
    assert Append(u, 0, ReadNode.command, None).queues == ReadPending.queues;
    assert Step(s, ReadThenCreate[2]) == Append(u, 0, ReadNode.command, None);
  }

  lemma CreatedStep()
    ensures Step(ReadPending, ReadThenCreate[3]) == Created
  {
    var t := Step(ReadPending, ReadThenCreate[3]);
    assert InitOps([8192], [0], Some(64), 8) == [OpCreate(64, 8192, 8)];
    assert t.mems == Created.mems;
  }

  lemma CreatedFinish()
    ensures Finish(Created, 0).log == [OpCreate(64, 8192, 8), OpRead(64, 4096, 8)]
  {
    ExtentRuns.StepLog(Created, FinishCall(0));
    var s := Created;
    var e := Extents.Issue(s.mems, 0, 0, [0], OpRead(64, 4096, 8));
    assert Extents.NodeIssues(s, s.queues[0].data, ReadNode.command) == [e];
    hide ExecuteHead;
    assert Extents.FinishIssues(s, 0) == [e] + Extents.FinishIssues(ExecuteHead(s, 0), 0) == [e];
    assert Extents.Ops([e]) == [OpRead(64, 4096, 8)];
  }

  lemma CreateEnabled()
    ensures Step(Empty, ReadThenCreate[0]) == WithQueue && Step(WithQueue, ReadThenCreate[1]) == WithBuffer
    ensures Enabled(Empty, ReadThenCreate[0]) && Enabled(WithQueue, ReadThenCreate[1]) && Enabled(WithBuffer, ReadThenCreate[2])
    ensures Enabled(ReadPending, ReadThenCreate[3])
    ensures Simulation.EagerOps(Empty, ReadThenCreate[0]) == [] && Simulation.EagerOps(WithQueue, ReadThenCreate[1]) == []
    ensures Simulation.EagerOps(WithBuffer, ReadThenCreate[2]) == [OpRead(64, 4096, 8)]
    ensures Simulation.EagerOps(ReadPending, ReadThenCreate[3]) == [OpCreate(64, 8192, 8)]
  {
    assert InitOps([8192], [0], Some(64), 8) == [OpCreate(64, 8192, 8)];
  }

  /** A lawful run of four calls: the new buffer is filled from host memory before the pending read
      that eager execution would have done first. */
  lemma CreatedTooEarly()
    ensures Runs.Lawful(Empty, ReadThenCreate)
    ensures Finish(Run(Empty, ReadThenCreate), 0).log == [OpCreate(64, 8192, 8), OpRead(64, 4096, 8)]
    ensures Deferral.EagerLog(Empty, ReadThenCreate) == [OpRead(64, 4096, 8), OpCreate(64, 8192, 8)]
  {
    hide Step, Runs.Lawful, Enabled, Run, Finish, Simulation.EagerOps;
    var cs := ReadThenCreate;
    CreateEnabled();
    ReadPendingStep();
    CreatedStep();
    CreatedFinish();
    FirstCall(Empty, cs[0], cs);
    FirstCall(WithQueue, cs[1], cs[1..]);
    FirstCall(WithBuffer, cs[2], cs[1..][1..]);
    FirstCall(ReadPending, cs[3], cs[1..][1..][1..]);
    assert cs[1..][1..][1..][1..] == [];
    NoCalls(Created);
    assert Deferral.EagerLog(Created, []) == [];
    assert Deferral.EagerLog(ReadPending, cs[1..][1..][1..]) == [OpCreate(64, 8192, 8)];
    assert Deferral.EagerLog(WithBuffer, cs[1..][1..]) == [OpRead(64, 4096, 8), OpCreate(64, 8192, 8)];
    assert Deferral.EagerLog(WithQueue, cs[1..]) == [OpRead(64, 4096, 8), OpCreate(64, 8192, 8)];
  }

  // ----- a queue whose device is not in its context -----

  const FirstOnly: P.Contexts := (_: nat) => [0]

  const StrayMap: seq<Call> := [
    CreateQueue(0, 0, 1, false),
    CreateBuffer(0, 16, [4096, NULL], [0], None),
    EnqueueMap(0, 0, true, 0, 8, true, Some(64), false)]

  const BesideQueue: State := WithSecondQueue.(mems := [Obj(true, 1, 1, 0, MemData(None, 0, 16, [4096, NULL], 0, 0, []))])

  lemma StrayMapLog()
    ensures Step(BesideQueue, StrayMap[2]).log == [OpMap(NULL, 0, 8, 64)]
  {
    var s := BesideQueue;
    ExtentRuns.StepLog(s, StrayMap[2]);
    var s2 := ExtentRuns.Mapped(s, 0, 0, 0, 8, 64, false);
    var noMappings: seq<Mapping> := [];
    assert s2.mappings == noMappings + [Mapping(true, 0, 64, 0, 8)] == [Mapping(true, 0, 64, 0, 8)];
    assert s2.mems[0].data.devicePtrs == [4096, NULL] && s2.queues == s.queues && s2.log == [];
    assert Pending(s2, 0) == [] && Finish(s2, 0) == s2;
    var e := Extents.Issue(s2.mems, 1, 0, [0], OpMap(NULL, 0, 8, 64));
    assert ExtentRuns.MapIssues(s, 0, 0, 0, 8, 64, false) == [e];
    assert Extents.Ops([e]) == [OpMap(NULL, 0, 8, 64)];
  }

  lemma StrayMapEnabled()
    ensures Step(Empty, StrayMap[0]) == WithSecondQueue && Step(WithSecondQueue, StrayMap[1]) == BesideQueue
    ensures Enabled(Empty, StrayMap[0]) && Enabled(WithSecondQueue, StrayMap[1]) && Enabled(BesideQueue, StrayMap[2])
  {
  }

  /** A lawful run of three calls on a platform: a queue on a device outside its context maps through
      a null pointer. */
  lemma StrayMapIsNull()
    ensures Runs.Lawful(Empty, StrayMap) && P.AllOnPlatform(FirstOnly, 2, StrayMap)
    ensures Run(Empty, StrayMap).log == [OpMap(NULL, 0, 8, 64)]
  {
    hide Step, Runs.Lawful, Enabled, Run;
    var cs := StrayMap;
    StrayMapEnabled();
    StrayMapLog();
    FirstCall(Empty, cs[0], cs);
    FirstCall(WithSecondQueue, cs[1], cs[1..]);
    FirstCall(BesideQueue, cs[2], cs[1..][1..]);
    assert cs[1..][1..][1..] == [];
    NoCalls(Step(BesideQueue, cs[2]));
  }
}
