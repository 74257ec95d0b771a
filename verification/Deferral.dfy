/** Whole runs on one queue: memory with the pending list folded over it is at every point the
    memory of eager execution, so a drained queue has reached the eager result. */
module Deferral {
  import opened Runtime
  import opened SimBooks
  import opened SimCalls
  import opened Simulation

  /** Every call but an unmap, and those that work on host memory at once, extends the projection by
      its eager operations. */
  lemma SimStep(s: State, c: Call, q: nat)
    requires SimOk(s) && Enabled(s, c) && OnQueue(c, q) && SamePointer(s, c) && !c.StoreHost? && !c.CreateBuffer?
    ensures Simulates(s, Step(s, c), q, EagerOps(s, c))
  {
    hide SimOk, Effect, Enabled, Accepted, Solo, Simulates;
    if !Accepted(s, c) {
      SimulatesSelf(s, q);
    } else if c.EnqueueRead? || c.EnqueueWrite? || c.EnqueueCopy? || c.EnqueueMarker? {
      TransferStep(s, c, q);
    } else if c.EnqueueReadRect? || c.EnqueueWriteRect? || c.EnqueueCopyRect? || c.EnqueueMap? || c.EnqueueKernel? {
      CommandStep(s, c, q);
    } else if c.CreateQueue? || c.ReleaseQueueCall? || c.FinishCall? || c.WaitCall? || c.ReleaseEventCall? || c.CreateKernel?
      || c.SetKernelArg? {
      QueueStep(s, c, q);
    } else if c.ReleaseMemObject? || c.ReleaseProgramCall? || c.ReleaseKernelCall? {
      ReleaseStep(s, c, q);
    } else {
      ObjectStep(s, c, q);
    }
  }

  /** What pending commands depend on is kept by every call, on whatever queue. */
  lemma SimOkStep(s: State, c: Call)
    requires SimOk(s) && Enabled(s, c)
    ensures SimOk(Step(s, c))
  {
    hide SimOk, Effect, Enabled, Accepted, Solo, SamePointer;
    if Accepted(s, c) {
      if c.StoreHost? || c.CreateBuffer? {
        HostStep(s, c, 0);
      } else if c.EnqueueUnmap? {
        UnmapOk(s, c);
      } else if c.EnqueueWrite? && !c.blocking {
        WriteOk(s, c);
      } else {
        assert SamePointer(s, c) by { NotDeferredWrite(s, c); }
        assert OnQueue(c, OwnQueue(c));
        SimStep(s, c, OwnQueue(c));
      }
    }
  }

  /** The queue a command goes to. */
  function OwnQueue(c: Call): nat {
    if c.EnqueueRead? || c.EnqueueWrite? || c.EnqueueCopy? || c.EnqueueReadRect? || c.EnqueueWriteRect? || c.EnqueueCopyRect?
      || c.EnqueueMap? || c.EnqueueKernel? || c.EnqueueMarker? then c.q else 0
  }

  lemma NotDeferredWrite(s: State, c: Call)
    requires !(c.EnqueueWrite? && !c.blocking)
    ensures SamePointer(s, c)
  {
  }

  lemma UnmapOk(s: State, c: Call)
    requires SimOk(s) && c.EnqueueUnmap?
    ensures SimOk(Effect(s, c))
  {
    hide SimOk, UnmapCall, FindMapping, Unseen;
    if FoundMapping(s, c.m, c.mappedPtr).Some? {
      var t := Effect(s, c);
      UnmapUnseen(s, c.q, c.m, FoundMapping(s, c.m, c.mappedPtr).value, c.flush, c.event);
      UnseenSim(s, t, 0);
    }
  }

  lemma WriteOk(s: State, c: Call)
    requires SimOk(s) && Accepted(s, c) && c.EnqueueWrite? && !c.blocking
    ensures SimOk(Effect(s, c))
  {
    hide SimOk, Defer, DevicePtr;
    DeferSim(s, c.q, [c.m], WriteBuffer(c.ptr, DevicePtr(s, c.m, DevIndex(s, c.q)) + c.offset, c.cb, c.m), c.event);
  }

  /** For a deferred write the simulation holds exactly when the two pointers agree. */
  lemma WriteSimIff(s: State, c: Call, q: nat)
    requires SimOk(s) && Solo(s, q) && Enabled(s, c) && Accepted(s, c) && OnQueue(c, q) && c.EnqueueWrite? && !c.blocking
    ensures Simulates(s, Step(s, c), q, EagerOps(s, c)) <==> SamePointer(s, c)
  {
    hide SimOk, Defer, DevicePtr, RunNow, Solo;
    var node := WriteBuffer(c.ptr, DevicePtr(s, c.m, DevIndex(s, q)) + c.offset, c.cb, c.m);
    DeferSim(s, q, [c.m], node, c.event);
    var op := OpWrite(c.ptr, DevicePtr(s, c.m, DevIndex(s, q)) + c.offset, c.cb);
    assert Simulates(s, Step(s, c), q, [op]);
    assert (Projected(s, q) + [op])[|Projected(s, q)|] == op;
    assert (Projected(s, q) + EagerOps(s, c))[|Projected(s, q)|] == EagerOps(s, c)[0];
  }

  // ----- runs -----

  /** What eager execution of the calls issues, from left to right. */
  function EagerLog(s: State, cs: seq<Call>): seq<Op>
    decreases |cs|
  {
    if cs == [] then [] else EagerOps(s, cs[0]) + EagerLog(Step(s, cs[0]), cs[1..])
  }

  /** Memory after a sequence of operations; `exec` stands for the device driver. */
  function Apply<M>(exec: (Op, M) -> M, ops: seq<Op>, m: M): M
    decreases |ops|
  {
    if ops == [] then m else Apply(exec, ops[1..], exec(ops[0], m))
  }

  ghost predicate Commute<M(!new)>(exec: (Op, M) -> M, a: Op, b: Op) {
    forall m :: exec(a, exec(b, m)) == exec(b, exec(a, m))
  }

  /** What the call does to host memory at once touches nothing that a pending command reads or
      writes, or not so that the order shows. */
  ghost predicate HostOk<M(!new)>(exec: (Op, M) -> M, s: State, c: Call, q: nat) {
    forall i, j :: 0 <= i < |PendingOps(s, q)| && 0 <= j < |HostOps(s, c)| ==> Commute(exec, PendingOps(s, q)[i], HostOps(s, c)[j])
  }

  /** A run of an application that keeps the rules, with all commands on queue `q`. */
  ghost predicate Legal<M(!new)>(exec: (Op, M) -> M, s: State, cs: seq<Call>, q: nat)
    decreases |cs|
  {
    cs != [] ==>
      && Enabled(s, cs[0]) && OnQueue(cs[0], q) && SamePointer(s, cs[0]) && HostOk(exec, s, cs[0], q)
      && Legal(exec, Step(s, cs[0]), cs[1..], q)
  }

  lemma {:induction false} ApplyConcat<M>(exec: (Op, M) -> M, a: seq<Op>, b: seq<Op>, m: M)
    ensures Apply(exec, a + b, m) == Apply(exec, b, Apply(exec, a, m))
    decreases |a|
  {
    if a == [] {
      assert a + b == b;
    } else {
      assert (a + b)[0] == a[0] && (a + b)[1..] == a[1..] + b;
      ApplyConcat(exec, a[1..], b, exec(a[0], m));
    }
  }

  lemma {:induction false} CommuteAll<M(!new)>(exec: (Op, M) -> M, ops: seq<Op>, h: Op, m: M)
    requires forall i :: 0 <= i < |ops| ==> Commute(exec, ops[i], h)
    ensures Apply(exec, ops, exec(h, m)) == exec(h, Apply(exec, ops, m))
    decreases |ops|
  {
    if ops != [] {
      assert Commute(exec, ops[0], h);
      CommuteAll(exec, ops[1..], h, exec(ops[0], m));
    }
  }

  /** Operations that commute with all pending ones may be done before them. */
  lemma {:induction false} CommuteLists<M(!new)>(exec: (Op, M) -> M, ops: seq<Op>, hs: seq<Op>, m: M)
    requires forall i, j :: 0 <= i < |ops| && 0 <= j < |hs| ==> Commute(exec, ops[i], hs[j])
    ensures Apply(exec, ops, Apply(exec, hs, m)) == Apply(exec, hs, Apply(exec, ops, m))
    decreases |hs|
  {
    if hs != [] {
      CommuteAll(exec, ops, hs[0], m);
      assert forall j :: 0 <= j < |hs[1..]| ==> hs[1..][j] == hs[j + 1];
      CommuteLists(exec, ops, hs[1..], exec(hs[0], m));
    }
  }

  /** One call: memory with the pending list folded over it moves as eager memory does. */
  lemma MemoryStep<M(!new)>(exec: (Op, M) -> M, s: State, c: Call, q: nat, m: M)
    requires SimOk(s) && Solo(s, q) && Enabled(s, c) && OnQueue(c, q) && SamePointer(s, c) && HostOk(exec, s, c, q)
    ensures var t := Step(s, c); SimOk(t) && Solo(t, q)
    ensures Apply(exec, Projected(Step(s, c), q), m) == Apply(exec, EagerOps(s, c), Apply(exec, Projected(s, q), m))
  {
    if c.StoreHost? || c.CreateBuffer? {
      HostMemoryStep(exec, s, c, q, m);
    } else {
      SimStep(s, c, q);
      hide SimOk, Step, EagerOps, Projected, Solo;
      ApplyConcat(exec, Projected(s, q), EagerOps(s, c), m);
    }
  }

  lemma HostMemoryStep<M(!new)>(exec: (Op, M) -> M, s: State, c: Call, q: nat, m: M)
    requires SimOk(s) && Solo(s, q) && (c.StoreHost? || c.CreateBuffer?) && HostOk(exec, s, c, q)
    ensures var t := Step(s, c); SimOk(t) && Solo(t, q)
    ensures Apply(exec, Projected(Step(s, c), q), m) == Apply(exec, EagerOps(s, c), Apply(exec, Projected(s, q), m))
  {
    hide SimOk, PendingOps, Solo, Effect, InitOps;
    var t, p, hs := Step(s, c), PendingOps(s, q), HostOps(s, c);
    assert EagerOps(s, c) == hs;
    if Accepted(s, c) {
      HostStep(s, c, q);
      assert forall i, j :: 0 <= i < |p| && 0 <= j < |hs| ==> Commute(exec, p[i], hs[j]);
      hide Accepted, HostOps, EagerOps, HostOk;
      calc {
        Apply(exec, Projected(t, q), m);
        Apply(exec, (s.log + hs) + p, m);
        { ApplyConcat(exec, s.log + hs, p, m); ApplyConcat(exec, s.log, hs, m); }
        Apply(exec, p, Apply(exec, hs, Apply(exec, s.log, m)));
        { CommuteLists(exec, p, hs, Apply(exec, s.log, m)); }
        Apply(exec, hs, Apply(exec, p, Apply(exec, s.log, m)));
        { ApplyConcat(exec, s.log, p, m); }
        Apply(exec, hs, Apply(exec, Projected(s, q), m));
      }
    }
  }

  /** For every run that mixes blocking and deferred calls on one queue, for every driver and
      every initial memory: memory with the pending list folded over it equals memory after
      executing each call at once. */
  lemma {:induction false} DeferredIsEager<M(!new)>(exec: (Op, M) -> M, s: State, cs: seq<Call>, q: nat, m: M)
    requires SimOk(s) && Solo(s, q) && Legal(exec, s, cs, q)
    ensures var t := Run(s, cs); SimOk(t) && Solo(t, q)
    ensures Apply(exec, Projected(Run(s, cs), q), m) == Apply(exec, Projected(s, q) + EagerLog(s, cs), m)
    decreases |cs|
  {
    hide SimOk, Step, EagerOps, Projected, Solo, Enabled, OnQueue, SamePointer, HostOk;
    if cs == [] {
      assert Projected(s, q) + EagerLog(s, cs) == Projected(s, q);
    } else {
      var t := Step(s, cs[0]);
      MemoryStep(exec, s, cs[0], q, m);
      DeferredIsEager(exec, t, cs[1..], q, m);
      ApplyConcat(exec, Projected(t, q), EagerLog(t, cs[1..]), m);
      ApplyConcat(exec, Projected(s, q), EagerOps(s, cs[0]) + EagerLog(t, cs[1..]), m);
      ApplyConcat(exec, EagerOps(s, cs[0]), EagerLog(t, cs[1..]), Apply(exec, Projected(s, q), m));
    }
  }

  lemma EmptySim(q: nat)
    ensures SimOk(Empty) && Solo(Empty, q) && Projected(Empty, q) == []
  {
  }

  /** From the start of the program: after clFinish the memory is the eager one. */
  lemma FinishReachesEager<M(!new)>(exec: (Op, M) -> M, cs: seq<Call>, q: nat, m: M)
    requires Legal(exec, Empty, cs, q)
    ensures Apply(exec, Finish(Run(Empty, cs), q).log, m) == Apply(exec, EagerLog(Empty, cs), m)
  {
    EmptySim(q);
    hide SimOk, Finish, Projected;
    DeferredIsEager(exec, Empty, cs, q, m);
    FinishSim(Run(Empty, cs), q);
    assert [] + EagerLog(Empty, cs) == EagerLog(Empty, cs);
  }
}
