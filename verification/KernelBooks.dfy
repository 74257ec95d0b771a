/** Kernels and programs: their reference counts and the kernel list of each program. */
module KernelBooks {
  import opened RefCounts
  import opened Runtime

  function NodeLaunch(n: Node): Bag { if n.command.RunKernel? then multiset{n.command.kernel} else multiset{} }

  function QueueLaunches(o: Obj<QueueData>): Bag { Collect(o.data.pending, NodeLaunch) }

  /** Pending launches, by kernel. */
  function PendingLaunches(queues: seq<Obj<QueueData>>): Bag { Collect(queues, QueueLaunches) }

  function ProgramRef(o: Obj<KernelData>): Bag {
    if o.live && o.data.program.Some? then multiset{o.data.program.value} else multiset{}
  }

  /** Live kernels, by program. */
  function LiveKernels(kernels: seq<Obj<KernelData>>): Bag { Collect(kernels, ProgramRef) }

  /** A program's list holds each of its live kernels once and nothing else. */
  ghost predicate ListOk(l: seq<nat>, p: nat, kernels: seq<Obj<KernelData>>) {
    && NoDuplicates(l)
    && |l| == LiveKernels(kernels)[p]
    && forall i {:trigger l[i]} :: 0 <= i < |l| ==> Alive(kernels, l[i]) && kernels[l[i]].data.program == Some(p)
  }

  ghost predicate ListsOk(kernels: seq<Obj<KernelData>>, programs: seq<Obj<ProgramData>>) {
    && (forall p {:trigger programs[p]} :: 0 <= p < |programs| ==> ListOk(programs[p].data.kernels, p, kernels))
    && (forall k :: 0 <= k < |kernels| ==> Listed(k, kernels[k], programs))
  }

  /** A live kernel is on its program's list. */
  ghost predicate Listed(k: nat, o: Obj<KernelData>, programs: seq<Obj<ProgramData>>) {
    o.live ==>
      o.data.program.Some? && o.data.program.value < |programs| && k in programs[o.data.program.value].data.kernels
  }

  /** `refs` are references to kernels in flight inside a call. */
  ghost predicate KernelOk(s: State, refs: Bag) {
    && Balanced(s.kernels, PendingLaunches(s.queues) + refs)
    && Balanced(s.programs, LiveKernels(s.kernels))
    && ListsOk(s.kernels, s.programs)
  }

  ghost predicate KernelInv(s: State) { KernelOk(s, multiset{}) }

  ghost predicate SameLaunches(a: seq<Obj<QueueData>>, b: seq<Obj<QueueData>>) {
    PendingLaunches(a) == PendingLaunches(b)
  }

  lemma KernelFrame(s: State, t: State, refs: Bag)
    requires KernelOk(s, refs) && t.kernels == s.kernels && t.programs == s.programs && SameLaunches(s.queues, t.queues)
    ensures KernelOk(t, refs)
  {
    hide Balanced, ListsOk, PendingLaunches;
  }

  // ----- releasing programs -----

  /** When the last reference to a program goes, its kernel list is empty: the loop that would
      orphan its kernels never runs its body. */
  lemma DyingProgramHasNoKernels(s: State, p: nat)
    requires ListsOk(s.kernels, s.programs) && Balanced(s.programs, LiveKernels(s.kernels) + multiset{p})
    requires p < |s.programs| && s.programs[p].refcount == 1
    ensures s.programs[p].data.kernels == [] && s.programs[p].app == 0
  {
    assert Owes(s.programs[p], (LiveKernels(s.kernels) + multiset{p})[p]);
  }

  lemma ReleaseProgramOk(s: State, p: nat)
    requires ListsOk(s.kernels, s.programs) && Balanced(s.programs, LiveKernels(s.kernels) + multiset{p})
    ensures var t := ReleaseProgram(s, p);
      t.kernels == s.kernels && Balanced(t.programs, LiveKernels(t.kernels)) && ListsOk(t.kernels, t.programs)
    ensures p < |s.programs| && ReleaseProgram(s, p).programs == Release(s.programs, p)
  {
    ReleaseBalanced(s.programs, LiveKernels(s.kernels), p);
    if s.programs[p].refcount == 1 { DyingProgramHasNoKernels(s, p); }
    hide LiveKernels, Balanced, ListOk;
  }

  // ----- releasing kernels -----

  /** What unlinking a dying kernel does to a list. */
  lemma UnlinkListOk(l: seq<nat>, x: nat, kernels: seq<Obj<KernelData>>, k: nat, o: Obj<KernelData>, p: nat)
    requires ListOk(l, x, kernels) && Alive(kernels, k) && kernels[k].data.program == Some(p) && !o.live
    requires LiveKernels(kernels) == LiveKernels(kernels[k := o]) + multiset{p} && (x == p ==> k in l)
    ensures ListOk(if x == p then Unlink(l, k) else l, x, kernels[k := o])
  {
    hide LiveKernels, Unlink;
    if x == p { UnlinkFacts(l, k); }
    hide NoDuplicates;
    var r, ks := if x == p then Unlink(l, k) else l, kernels[k := o];
    forall i | 0 <= i < |r| ensures Alive(ks, r[i]) && ks[r[i]].data.program == Some(x) {
      assert r[i] in r && r[i] in l;
    }
  }

  /** Unlinking a dying kernel from its program's list. */
  lemma UnlinkOk(kernels: seq<Obj<KernelData>>, programs: seq<Obj<ProgramData>>, k: nat, p: nat, o: Obj<KernelData>)
    requires ListsOk(kernels, programs) && Alive(kernels, k) && kernels[k].data.program == Some(p)
    requires !o.live && o.data == kernels[k].data
    ensures p < |programs| && k in programs[p].data.kernels
    ensures var d := programs[p].data;
      ListsOk(kernels[k := o], SetData(programs, p, d.(kernels := Unlink(d.kernels, k))))
    ensures LiveKernels(kernels) == LiveKernels(kernels[k := o]) + multiset{p}
  {
    CollectUpdate(kernels, k, o, ProgramRef);
    assert Listed(k, kernels[k], programs);
    var ks, d := kernels[k := o], programs[p].data;
    var ps := SetData(programs, p, d.(kernels := Unlink(d.kernels, k)));
    assert LiveKernels(kernels) == LiveKernels(ks) + multiset{p};
    hide LiveKernels, Collect;
    assert NoDuplicates(d.kernels) by { assert ListOk(d.kernels, p, kernels); }
    UnlinkFacts(d.kernels, k);
    hide ListOk, Unlink, NoDuplicates;
    forall x | 0 <= x < |ks| ensures Listed(x, ks[x], ps) { assert Listed(x, kernels[x], programs); }
    forall x | 0 <= x < |ps| ensures ListOk(ps[x].data.kernels, x, ks) {
      UnlinkListOk(programs[x].data.kernels, x, kernels, k, o, p);
    }
  }

  lemma ReleaseKernelOk(s: State, k: nat, refs: Bag)
    requires KernelOk(s, refs + multiset{k})
    ensures KernelOk(ReleaseKernel(s, k), refs)
  {
    var bag := PendingLaunches(s.queues) + refs;
    BagOrder(PendingLaunches(s.queues), refs, multiset{k});
    ReleaseBalanced(s.kernels, bag, k);
    assert k in bag + multiset{k};
    UsableIsAlive(s.kernels, bag + multiset{k}, k);
    var o := Release(s.kernels, k)[k];
    assert Listed(k, s.kernels[k], s.programs);
    var p := s.kernels[k].data.program.value;
    hide PendingLaunches, Balanced, LiveKernels;
    if o.refcount == 0 {
      UnlinkOk(s.kernels, s.programs, k, p, o);
      hide ListsOk;
      var d := s.programs[p].data;
      var t := s.(kernels := s.kernels[k := o], programs := SetData(s.programs, p, d.(kernels := Unlink(d.kernels, k))));
      SetDataBalanced(s.programs, LiveKernels(s.kernels), p, d.(kernels := Unlink(d.kernels, k)));
      ReleaseProgramOk(t, p);
    } else {
      KernelCounters(s.kernels, s.programs, k, o);
    }
  }

  /** A change that leaves every kernel alive and on its program. */
  lemma ListOkFrame(l: seq<nat>, p: nat, kernels: seq<Obj<KernelData>>, k: nat, o: Obj<KernelData>)
    requires ListOk(l, p, kernels) && k < |kernels| && o.live == kernels[k].live && o.data.program == kernels[k].data.program
    requires LiveKernels(kernels[k := o]) == LiveKernels(kernels)
    ensures ListOk(l, p, kernels[k := o])
  {
    hide LiveKernels, NoDuplicates;
  }

  /** A change to a kernel's counters or arguments alone. */
  lemma KernelCounters(kernels: seq<Obj<KernelData>>, programs: seq<Obj<ProgramData>>, k: nat, o: Obj<KernelData>)
    requires ListsOk(kernels, programs) && k < |kernels| && o.live == kernels[k].live
    requires o.data.program == kernels[k].data.program
    ensures ListsOk(kernels[k := o], programs) && LiveKernels(kernels[k := o]) == LiveKernels(kernels)
  {
    CollectSame(kernels, k, o, ProgramRef);
    hide LiveKernels, ListOk, Collect;
    var ks := kernels[k := o];
    forall x | 0 <= x < |ks| ensures Listed(x, ks[x], programs) { assert Listed(x, kernels[x], programs); }
    hide Listed;
    forall x | 0 <= x < |programs| ensures ListOk(programs[x].data.kernels, x, ks) {
      ListOkFrame(programs[x].data.kernels, x, kernels, k, o);
    }
  }
}
