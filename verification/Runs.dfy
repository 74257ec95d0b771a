/** Whole runs: what holds in every state an application that keeps the rules can reach. */
module Runs {
  import opened RefCounts
  import opened Runtime
  import MemBooks
  import MemCalls
  import EventBooks
  import EventCalls
  import KernelBooks
  import KernelCalls
  import Leaks
  import Debts
  import Claims
  import Launches
  import Storage
  import P = Platform
  import SimBooks
  import Deferral

  /** The books of buffers, kernels and programs, what pending commands depend on, what pending
      launches hold on to, and the storage of arguments. */
  ghost predicate Books(s: State) {
    MemBooks.MemInv(s) && KernelBooks.KernelInv(s) && SimBooks.SimOk(s) && Launches.LaunchesOk(s) && Storage.InUse(s)
  }

  ghost predicate Inv(s: State) {
    Books(s) && EventBooks.EventInv(s)
  }

  /** The calls name only objects the application holds, and unmap only what has been mapped. */
  ghost predicate Lawful(s: State, cs: seq<Call>)
    decreases |cs|
  {
    cs != [] ==> Enabled(s, cs[0]) && MemCalls.UnmapsLate(s, cs[0]) && Lawful(Step(s, cs[0]), cs[1..])
  }

  /** The calls name only objects the application holds, and when a rectangle is written the event
      variable passed along names no event. */
  ghost predicate Orderly(s: State, cs: seq<Call>)
    decreases |cs|
  {
    cs != [] ==> Enabled(s, cs[0]) && OutUnset(s, cs[0]) && Orderly(Step(s, cs[0]), cs[1..])
  }

  ghost predicate Reachable(s: State) {
    exists cs :: Lawful(Empty, cs) && Run(Empty, cs) == s
  }

  ghost predicate OrderlyReachable(s: State) {
    exists cs :: Orderly(Empty, cs) && Run(Empty, cs) == s
  }

  lemma EmptyInv()
    ensures Inv(Empty)
  {
  }

  lemma StepBooks(s: State, c: Call)
    requires Books(s) && Enabled(s, c) && MemCalls.UnmapsLate(s, c)
    ensures Books(Step(s, c))
  {
    hide MemBooks.MemInv, KernelBooks.KernelInv, SimBooks.SimOk, Launches.LaunchesOk, Storage.InUse, Enabled, Step, MemCalls.UnmapsLate;
    MemCalls.MemStep(s, c);
    KernelCalls.KernelStep(s, c);
    Deferral.SimOkStep(s, c);
    Launches.LaunchesStep(s, c);
    Storage.StepInUse(s, c);
  }

  lemma StepInv(s: State, c: Call)
    requires Inv(s) && Enabled(s, c) && MemCalls.UnmapsLate(s, c) && OutUnset(s, c)
    ensures Inv(Step(s, c))
  {
    hide Books, EventBooks.EventInv, Enabled, Step, MemCalls.UnmapsLate, OutUnset;
    StepBooks(s, c);
    EventCalls.EventStep(s, c);
  }

  /** Every lawful run keeps the books. */
  lemma {:induction false} RunBooks(s: State, cs: seq<Call>)
    requires Books(s) && Lawful(s, cs)
    ensures Books(Run(s, cs))
    decreases |cs|
  {
    hide Books, Enabled, Step, MemCalls.UnmapsLate;
    if cs != [] {
      StepBooks(s, cs[0]);
      RunBooks(Step(s, cs[0]), cs[1..]);
    }
  }

  /** Every orderly run keeps the books of events and queues. */
  lemma {:induction false} RunEvents(s: State, cs: seq<Call>)
    requires EventBooks.EventInv(s) && Orderly(s, cs)
    ensures EventBooks.EventInv(Run(s, cs))
    decreases |cs|
  {
    hide EventBooks.EventInv, Enabled, Step, OutUnset;
    if cs != [] {
      EventCalls.EventStep(s, cs[0]);
      RunEvents(Step(s, cs[0]), cs[1..]);
    }
  }

  /** The books hold in every reachable state. */
  lemma ReachableBooks(s: State)
    requires Reachable(s)
    ensures Books(s)
  {
    hide Inv, Books, Lawful, Run;
    var cs :| Lawful(Empty, cs) && Run(Empty, cs) == s;
    assert Books(Empty) by { StartInv(); }
    RunBooks(Empty, cs);
  }

  lemma StartInv()
    ensures Books(Empty) && EventBooks.EventInv(Empty)
  {
    EmptyInv();
  }

  lemma OrderlyEvents(s: State)
    requires OrderlyReachable(s)
    ensures EventBooks.EventInv(s)
  {
    hide Books, Orderly, Run, EventBooks.EventInv;
    var cs :| Orderly(Empty, cs) && Run(Empty, cs) == s;
    StartInv();
    RunEvents(Empty, cs);
  }

  // ----- memory objects -----

  /** In every run a live buffer's count is exactly one and the application's retains less its
      releases, the pending read, write, copy and kernel nodes, the live sub-buffers and the live
      mappings, one for each device of its context after the first, and one for each map of it that
      failed. A freed
      buffer has none of them, so one with either of the last two is never freed. */
  lemma BufferCount(cs: seq<Call>, contexts: P.Contexts, n: nat, m: nat)
    requires Lawful(Empty, cs) && P.AllOnPlatform(contexts, n, cs) && m < |Run(Empty, cs).mems|
    ensures var s := Run(Empty, cs);
      var others := MemBooks.PendingMems(s.queues)[m] + MemBooks.SubBuffers(s.mems)[m] + MemBooks.LiveMappings(s.mappings)[m];
      if s.mems[m].live then
        s.mems[m].refcount
        == 1 + Claims.AllClaims(cs, Claims.Mem, m) + others + Leaks.Spare(contexts, s.mems[m].data) + Leaks.FailedMaps(Empty, cs, m)
      else
        1 + Claims.AllClaims(cs, Claims.Mem, m) == 0 && others == 0 && Leaks.Spare(contexts, s.mems[m].data) == 0 && Leaks.FailedMaps(Empty, cs, m) == 0
  {
    hide KernelBooks.KernelInv, SimBooks.SimOk, Launches.LaunchesOk, Storage.InUse, EventBooks.EventInv, Lawful, Run, Leaks.Spare, Leaks.FailedMaps, Claims.AllEnabled, Claims.AllClaims;
    var s := Run(Empty, cs);
    StartInv();
    RunBooks(Empty, cs);
    Leaks.LeakedExactly(Empty, cs, contexts, n, m);
    LawfulEnabled(Empty, cs);
    HeldFromCalls(cs, Claims.Mem, m);
    var bag := MemBooks.PendingMems(s.queues) + multiset{} + MemBooks.SubBuffers(s.mems) + MemBooks.LiveMappings(s.mappings);
    assert Owes(s.mems[m], bag[m]);
  }

  /** On a single device and without failed maps nothing else holds a buffer. */
  lemma SingleDeviceCount(cs: seq<Call>, contexts: P.Contexts, n: nat, m: nat)
    requires Lawful(Empty, cs) && P.AllOnPlatform(contexts, n, cs) && m < |Run(Empty, cs).mems|
    requires |contexts(Run(Empty, cs).mems[m].data.context)| == 1 && Leaks.FailedMaps(Empty, cs, m) == 0
    ensures var s := Run(Empty, cs); s.mems[m].live ==>
      s.mems[m].refcount == 1 + Claims.AllClaims(cs, Claims.Mem, m) + MemBooks.PendingMems(s.queues)[m] + MemBooks.SubBuffers(s.mems)[m]
                            + MemBooks.LiveMappings(s.mappings)[m]
  {
    hide Lawful, Run, Leaks.FailedMaps, Claims.AllClaims;
    BufferCount(cs, contexts, n, m);
  }

  /** No pending command, live mapping or live sub-buffer refers to a freed buffer. */
  lemma NoDanglingBuffer(s: State)
    requires Reachable(s)
    ensures forall q, i, b :: 0 <= q < |s.queues| && 0 <= i < |Pending(s, q)| && b in CommandMems(Pending(s, q)[i].command) ==>
      Alive(s.mems, b)
    ensures forall q, i :: 0 <= q < |s.queues| && 0 <= i < |Pending(s, q)| && Pending(s, q)[i].command.MapBuffer? ==>
      Alive(s.mems, Pending(s, q)[i].command.buffer)
    ensures forall id :: 0 <= id < |s.mappings| && s.mappings[id].live ==> Alive(s.mems, s.mappings[id].buffer)
    ensures forall m :: 0 <= m < |s.mems| && s.mems[m].live && s.mems[m].data.parent.Some? ==>
      Alive(s.mems, s.mems[m].data.parent.value)
  {
    hide SimBooks.SimOk, Launches.LaunchesOk, Storage.InUse, KernelBooks.KernelInv, Reachable;
    ReachableBooks(s);
    forall q, i, b | 0 <= q < |s.queues| && 0 <= i < |Pending(s, q)| && b in CommandMems(Pending(s, q)[i].command)
      ensures Alive(s.mems, b)
    {
      CollectHas(s.queues, q, MemBooks.QueueMems);
      CollectHas(Pending(s, q), i, MemBooks.NodeMems);
      assert b in MemBooks.NodeMems(Pending(s, q)[i]);
      ReferencedIsAlive(s, b);
    }
    forall id | 0 <= id < |s.mappings| && s.mappings[id].live ensures Alive(s.mems, s.mappings[id].buffer) {
      CollectHas(s.mappings, id, MemBooks.MappingRef);
      ReferencedIsAlive(s, s.mappings[id].buffer);
    }
    forall m | 0 <= m < |s.mems| && s.mems[m].live && s.mems[m].data.parent.Some?
      ensures Alive(s.mems, s.mems[m].data.parent.value)
    {
      CollectHas(s.mems, m, MemBooks.ParentRef);
      ReferencedIsAlive(s, s.mems[m].data.parent.value);
    }
    forall q, i | 0 <= q < |s.queues| && 0 <= i < |Pending(s, q)| && Pending(s, q)[i].command.MapBuffer?
      ensures Alive(s.mems, Pending(s, q)[i].command.buffer)
    {
      assert MemBooks.MapNodeOk(s.queues[q].data.pending[i], s.mappings);
      assert s.mappings[Pending(s, q)[i].command.mapping].live;
    }
  }

  lemma ReferencedIsAlive(s: State, m: nat)
    requires MemBooks.MemInv(s)
    requires m in MemBooks.PendingMems(s.queues) || m in MemBooks.SubBuffers(s.mems) || m in MemBooks.LiveMappings(s.mappings)
    ensures Alive(s.mems, m)
  {
    UsableIsAlive(s.mems, MemBooks.PendingMems(s.queues) + multiset{} + MemBooks.SubBuffers(s.mems) + MemBooks.LiveMappings(s.mappings), m);
  }

  /** A pending launch retains each buffer as often as its global pointer arguments name it, and no
      other; each buffer such an argument names is alive. */
  lemma LaunchesHoldBuffers(s: State, q: nat, i: nat, j: nat)
    requires Reachable(s) && q < |s.queues| && i < |Pending(s, q)| && Pending(s, q)[i].command.RunKernel?
    ensures var c := Pending(s, q)[i].command;
      c.kernel < |s.kernels|
      && Launches.HoldsNamed(s.kernels[c.kernel].data, s.blocks, c.arguments, c.argBuffers)
      && (j < |c.arguments| && IsGlobal(s.kernels[c.kernel].data, j) ==>
            var b := HandleIn(s.blocks, c.arguments[j]); b.Some? ==> Alive(s.mems, b.value))
  {
    ReachableBooks(s);
    hide SimBooks.SimOk, Storage.InUse, KernelBooks.KernelInv, MemBooks.MemInv, Reachable, HandleIn, IsGlobal, Launches.HoldsNamed;
    assert Launches.LaunchOk(s, s.queues[q].data.pending[i]);
    hide Launches.LaunchesOk, Launches.LaunchOk, Books;
    var c := Pending(s, q)[i].command;
    var d := s.kernels[c.kernel].data;
    if j < |c.arguments| && IsGlobal(d, j) && HandleIn(s.blocks, c.arguments[j]).Some? {
      Launches.NamedIsHeld(d, s.blocks, c.arguments, c.argBuffers, j);
      HeldIsAlive(s, q, i, HandleIn(s.blocks, c.arguments[j]).value);
    }
  }

  lemma HeldIsAlive(s: State, q: nat, i: nat, m: nat)
    requires Reachable(s) && q < |s.queues| && i < |Pending(s, q)| && m in CommandMems(Pending(s, q)[i].command)
    ensures Alive(s.mems, m)
  {
    hide Reachable;
    NoDanglingBuffer(s);
  }

  /** In every reachable state a block of argument storage is in use exactly while the argument of the
      kernel, or of the pending launch, that it was allocated for points to it: none is lost, and none
      is freed too early. */
  lemma ArgumentStorage(s: State, owner: Owner, b: nat)
    requires Reachable(s)
    ensures Storage.AllocatedFor(s, b, owner) <==> Storage.PointsTo(s, owner, b)
  {
    ReachableBooks(s);
    hide SimBooks.SimOk, Storage.InUse, Launches.LaunchesOk, KernelBooks.KernelInv, MemBooks.MemInv, Reachable;
    Storage.UsedByOwner(s, owner, b);
  }

  lemma {:induction false} LawfulEnabled(s: State, cs: seq<Call>)
    requires Lawful(s, cs)
    ensures Claims.AllEnabled(s, cs)
    decreases |cs|
  {
    hide Enabled, Step, MemCalls.UnmapsLate;
    if cs != [] { LawfulEnabled(Step(s, cs[0]), cs[1..]); }
  }

  lemma {:induction false} OrderlyEnabled(s: State, cs: seq<Call>)
    requires Orderly(s, cs)
    ensures Claims.AllEnabled(s, cs)
    decreases |cs|
  {
    hide Enabled, Step, OutUnset;
    if cs != [] { OrderlyEnabled(Step(s, cs[0]), cs[1..]); }
  }

  /** In every run that names only objects the application holds, the references it holds to an object
      are the one it was handed, and one more for each retain, one less for each release, of it. */
  lemma HeldFromCalls(cs: seq<Call>, kind: Claims.Kind, i: nat)
    requires Claims.AllEnabled(Empty, cs)
    ensures Claims.HeldBy(Run(Empty, cs), kind, i) == 1 + Claims.AllClaims(cs, kind, i)
  {
    StartInv();
    hide Claims.AllEnabled, Run, Claims.AllClaims;
    Claims.RunClaims(Empty, cs, kind, i);
  }

  /** The live mappings of a buffer are the ones on its list. */
  lemma {:induction false} LiveMappingIds(mappings: seq<Mapping>, m: nat)
    ensures MemBooks.LiveMappings(mappings)[m] == |LiveIds(mappings, m)|
    decreases |mappings|
  {
    if mappings == [] {
      assert LiveIds(mappings, m) == {};
    } else {
      var k := |mappings| - 1;
      var before, last := mappings[..k], mappings[k];
      hide LiveIds, MemBooks.LiveMappings;
      assert mappings == before + [last];
      LiveMappingIds(before, m);
      MemBooks.LiveMappingsSnoc(before, last);
      LiveIdsSnoc(before, last, m);
    }
  }

  lemma LiveIdsSnoc(before: seq<Mapping>, last: Mapping, m: nat)
    ensures |LiveIds(before + [last], m)| == |LiveIds(before, m)| + if last.live && last.buffer == m then 1 else 0
  {
    var k := |before|;
    assert k !in LiveIds(before, m);
    assert LiveIds(before + [last], m) == LiveIds(before, m) + if last.live && last.buffer == m then {k} else {};
  }

  ghost function LiveIds(mappings: seq<Mapping>, m: nat): set<nat> {
    set id: nat | id < |mappings| && mappings[id].live && mappings[id].buffer == m
  }

  lemma {:induction false} DistinctLength(l: seq<nat>, all: set<nat>)
    requires NoDuplicates(l) && forall x :: x in all <==> x in l
    ensures |l| == |all|
    decreases |l|
  {
    if l == [] {
      assert all == {};
    } else {
      var k := |l| - 1;
      var last, before := l[k], l[..k];
      assert l == before + [last];
      assert last in all;
      assert last !in before;
      DistinctLength(before, all - {last});
    }
  }

  /** The mapping list of a buffer holds exactly its live mappings, each once. map_count plus the
      pending map commands is their number for a buffer made by clCreateBuffer; when no map command
      of it is pending, map_count is the number of its live mappings. A sub-buffer's count is off by
      what the field held before. */
  lemma MapCount(s: State, m: nat)
    requires Reachable(s) && m < |s.mems|
    ensures |s.mems[m].data.mappings| == MemBooks.LiveMappings(s.mappings)[m]
    ensures var d := s.mems[m].data;
      d.mapCount + MemBooks.PendingMaps(s.queues)[m] == MemBooks.LiveMappings(s.mappings)[m] + if d.parent.None? then 0 else d.mapBase
    ensures var d := s.mems[m].data;
      d.parent.None? && m !in MemBooks.PendingMaps(s.queues) ==> d.mapCount == MemBooks.LiveMappings(s.mappings)[m]
  {
    hide SimBooks.SimOk, Launches.LaunchesOk, Storage.InUse, KernelBooks.KernelInv, Reachable, MemBooks.LiveMappings;
    ReachableBooks(s);
    ReachableClean(s);
    assert (MemBooks.PendingMaps(s.queues) + multiset{})[m] == MemBooks.PendingMaps(s.queues)[m];
    var list := s.mems[m].data.mappings;
    LiveMappingIds(s.mappings, m);
    ListIsLive(s, m);
    DistinctLength(list, LiveIds(s.mappings, m));
  }

  lemma ListIsLive(s: State, m: nat)
    requires MemBooks.MemInv(s) && m < |s.mems|
    ensures NoDuplicates(s.mems[m].data.mappings)
    ensures forall x :: x in LiveIds(s.mappings, m) <==> x in s.mems[m].data.mappings
  {
    hide MemBooks.CountsOk, MemBooks.ParentsOk, MemBooks.MapNodesOk, Balanced;
    var list := s.mems[m].data.mappings;
    forall x | x in list ensures x in LiveIds(s.mappings, m) {
      var i :| 0 <= i < |list| && list[i] == x;
      assert s.mems[m].data.mappings[i] == x;
    }
    forall x | x in LiveIds(s.mappings, m) ensures x in list {
      assert s.mappings[x].live;
    }
  }

  lemma ReachableClean(s: State)
    requires Reachable(s)
    ensures Leaks.Clean(s)
  {
    hide Lawful, Run, Leaks.Clean;
    var cs :| Lawful(Empty, cs) && Run(Empty, cs) == s;
    assert Leaks.Clean(Empty) by { CleanStart(); }
    Leaks.RunClean(Empty, cs);
  }

  lemma CleanStart()
    ensures Leaks.Clean(Empty)
  {
  }

  // ----- events -----

  /** Except on a GPU, no pending node refers to a freed event, though nodes do not retain events;
      and no node is left on a freed queue. */
  lemma NoDanglingEvent(s: State, q: nat, i: nat)
    requires OrderlyReachable(s) && q < |s.queues| && i < |Pending(s, q)|
    ensures s.queues[q].live
    ensures var e := Pending(s, q)[i].event; !s.queues[q].data.gpu && e.Some? ==> Alive(s.events, e.value)
  {
    hide OrderlyReachable;
    OrderlyEvents(s);
    assert EventBooks.NodeEventOk(s.queues[q].data.pending[i], q, s.queues[q].data.gpu, s.events);
    assert s.queues[q].data.pending != [];
  }

  /** An event is queued while its node is pending and complete afterwards; its status only goes
      down; and the completed events of a queue are a prefix in order of creation. */
  lemma EventStatus(s: State, e: nat)
    requires OrderlyReachable(s) && e < |s.events|
    ensures var d := s.events[e].data;
      d.queue < |s.queues|
      && (if e in EventBooks.EventsOf(Pending(s, d.queue)) then d.trail == [CL_QUEUED] else EventBooks.Ran(d.trail))
    ensures var t := s.events[e].data.trail; forall i, j :: 0 <= i < j < |t| ==> t[i] >= t[j]
    ensures forall f :: e < f < |s.events| && s.events[e].data.queue == s.events[f].data.queue ==>
      s.events[e].data.inOrder && s.events[f].data.inOrder && EventBooks.Ran(s.events[f].data.trail) ==>
      EventBooks.Ran(s.events[e].data.trail)
  {
    hide OrderlyReachable;
    OrderlyEvents(s);
    var q := s.events[e].data.queue;
    if e in EventBooks.EventsOf(Pending(s, q)) {
      var i :| 0 <= i < |Pending(s, q)| && Pending(s, q)[i].event == Some(e);
      assert EventBooks.NodeEventOk(s.queues[q].data.pending[i], q, s.queues[q].data.gpu, s.events);
    }
  }

  /** clWaitForEvents returns only with all listed events complete. */
  lemma WaitReturnsComplete(s: State, es: seq<nat>)
    requires OrderlyReachable(s) && forall i :: 0 <= i < |es| ==> Usable(s.events, es[i])
    ensures forall i :: 0 <= i < |es| ==>
      es[i] < |Step(s, WaitCall(es)).events| && EventBooks.Ran(Step(s, WaitCall(es)).events[es[i]].data.trail)
  {
    hide EventBooks.EventOk, OrderlyReachable, WaitForEvents, Accepted, EventBooks.Ran;
    OrderlyEvents(s);
    EventCalls.WaitCompletes(s, es);
    AcceptsWait(s, es);
  }

  lemma AcceptsWait(s: State, es: seq<nat>)
    ensures Step(s, WaitCall(es)) == WaitForEvents(s, es)
  {
    hide WaitForEvents;
  }

  /** In every orderly run a live queue's count is exactly one and the application's retains less its
      releases, its live events, one for each launch ever made on it and, on a GPU, one for each of its events that has
      been freed. A freed queue has none of them: a queue with a launch is never freed. */
  lemma QueueCount(cs: seq<Call>, q: nat)
    requires Orderly(Empty, cs) && q < |Run(Empty, cs).queues|
    ensures var o, events := Run(Empty, cs).queues[q], EventBooks.EventRefs(Run(Empty, cs).events)[q];
      if o.live then o.refcount == 1 + Claims.AllClaims(cs, Claims.Queue, q) + events + Debts.QueueCharges(Empty, cs, q)
      else 1 + Claims.AllClaims(cs, Claims.Queue, q) == 0 && events == 0 && Debts.QueueCharges(Empty, cs, q) == 0
  {
    OrderlyEnabled(Empty, cs);
    HeldFromCalls(cs, Claims.Queue, q);
    StartInv();
    RunEvents(Empty, cs);
    assert Debts.Named(Empty);
    hide Orderly, Run, Debts.QueueCharges, EventBooks.OrderOk, Claims.AllEnabled, Claims.AllClaims;
    Debts.RunCharges(Empty, cs, q, 0, 0);
    var s := Run(Empty, cs);
    assert Owes(s.queues[q], (EventBooks.EventRefs(s.events) + multiset{})[q]);
  }

  /** A live event's count is one and the application's retains less its releases; a freed one's
      is used up. */
  lemma EventCount(cs: seq<Call>, e: nat)
    requires Orderly(Empty, cs) && e < |Run(Empty, cs).events|
    ensures var o, held := Run(Empty, cs).events[e], 1 + Claims.AllClaims(cs, Claims.Event, e);
      if o.live then o.refcount == held else held == 0
  {
    OrderlyEnabled(Empty, cs);
    HeldFromCalls(cs, Claims.Event, e);
    StartInv();
    RunEvents(Empty, cs);
    assert Debts.Named(Empty);
    hide Orderly, Run, EventBooks.OrderOk, Claims.AllEnabled, Claims.AllClaims;
    Debts.RunCharges(Empty, cs, 0, 0, e);
    var s := Run(Empty, cs);
    assert Owes(s.events[e], multiset{}[e]);
  }

  // ----- kernels and programs -----

  /** In every lawful run a live kernel's count is exactly one and the application's retains less its
      releases, its pending launches on other devices than GPUs, and every launch of it ever made on a GPU. */
  lemma KernelCount(cs: seq<Call>, k: nat)
    requires Lawful(Empty, cs) && k < |Run(Empty, cs).kernels|
    ensures var o, others := Run(Empty, cs).kernels[k], Debts.OtherPending(Run(Empty, cs).queues)[k];
      if o.live then o.refcount == 1 + Claims.AllClaims(cs, Claims.Kernel, k) + others + Debts.KernelCharges(Empty, cs, k)
      else 1 + Claims.AllClaims(cs, Claims.Kernel, k) == 0 && others == 0 && Debts.KernelCharges(Empty, cs, k) == 0
  {
    hide Lawful, Run, Claims.AllEnabled, Claims.AllClaims, Debts.KernelCharges, Debts.OtherPending, Debts.GpuPending, Books;
    LawfulEnabled(Empty, cs);
    HeldFromCalls(cs, Claims.Kernel, k);
    StartInv();
    RunBooks(Empty, cs);
    NothingOwed(k);
    Debts.RunCharges(Empty, cs, 0, k, 0);
    Debts.PendingSplit(Run(Empty, cs).queues);
    KernelOwes(Run(Empty, cs), k);
  }

  lemma KernelOwes(s: State, k: nat)
    requires Books(s) && k < |s.kernels|
    ensures Owes(s.kernels[k], KernelBooks.PendingLaunches(s.queues)[k])
  {
    hide MemBooks.MemInv, SimBooks.SimOk, Launches.LaunchesOk, Storage.InUse;
    assert Owes(s.kernels[k], (KernelBooks.PendingLaunches(s.queues) + multiset{})[k]);
  }

  lemma NothingOwed(k: nat)
    ensures Debts.Owed(Empty, k) == 0 && Debts.Named(Empty)
  {
  }

  /** A program's count is the application's references plus the length of its kernel list, and
      every live kernel is on its program's list exactly once. */
  lemma ProgramCount(s: State, p: nat)
    requires Reachable(s) && p < |s.programs|
    ensures s.programs[p].live ==> s.programs[p].refcount == s.programs[p].app + |s.programs[p].data.kernels|
    ensures !s.programs[p].live ==> s.programs[p].data.kernels == []
    ensures NoDuplicates(s.programs[p].data.kernels)
    ensures forall k :: 0 <= k < |s.kernels| && s.kernels[k].live && s.kernels[k].data.program == Some(p) <==>
      k in s.programs[p].data.kernels
  {
    hide SimBooks.SimOk, Launches.LaunchesOk, Storage.InUse, MemBooks.MemInv, Reachable;
    ReachableBooks(s);
    ReachableClean(s);
    assert Owes(s.programs[p], KernelBooks.LiveKernels(s.kernels)[p]);
    assert KernelBooks.ListOk(s.programs[p].data.kernels, p, s.kernels);
    forall k | 0 <= k < |s.kernels| && s.kernels[k].live && s.kernels[k].data.program == Some(p)
      ensures k in s.programs[p].data.kernels
    {
      assert KernelBooks.Listed(k, s.kernels[k], s.programs);
    }
  }
}
