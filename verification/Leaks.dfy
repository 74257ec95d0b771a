/** References the runtime takes and never gives back, and where map_count starts: both are known
    exactly for every object of every run. */
module Leaks {
  import opened RefCounts
  import opened Runtime
  import opened Frames
  import opened Platform

  /** One reference for every device of the context but the first; none for a sub-buffer. */
  function Spare(contexts: Contexts, d: MemData): nat {
    if d.parent.None? && |contexts(d.context)| > 0 then |contexts(d.context)| - 1 else 0
  }

  function Failure(s: State, c: Call, m: nat): nat { if MapFails(s, c) && c.m == m then 1 else 0 }

  /** How many maps of buffer `m` fail in a run. */
  function FailedMaps(s: State, cs: seq<Call>, m: nat): nat
    decreases |cs|
  {
    if cs == [] then 0 else Failure(s, cs[0], m) + FailedMaps(Step(s, cs[0]), cs[1..], m)
  }

  /** What a step adds: objects that start without leaks. */
  ghost predicate StartsClean(s: State, t: State, contexts: Contexts) {
    (forall m :: |s.mems| <= m < |t.mems| ==>
      t.mems[m].leaked == Spare(contexts, t.mems[m].data) && (t.mems[m].data.parent.None? ==> t.mems[m].data.mapBase == 0))
    && forall p :: |s.programs| <= p < |t.programs| ==> t.programs[p].leaked == 0
  }

  lemma CreateLeaks(s: State, c: Call, contexts: Contexts, n: nat)
    requires Creates(c) && Accepted(s, c) && OnPlatform(contexts, n, c)
    ensures var t := Step(s, c); Grow(s, t) && SameLeaks(s.mems, t.mems) && SameLeaks(s.programs, t.programs) && StartsClean(s, t, contexts)
  {
    var t := Step(s, c);
    if c.CreateBuffer? {
      assert t.mems == Create(s.mems, MemData(None, c.context, c.size, c.devicePtrs, 0, 0, []), t.mems[|s.mems|].leaked);
    }
  }

  lemma MapFailLeaks(s: State, c: Call)
    requires MapFails(s, c)
    ensures var t := Step(s, c);
      Grow(s, t) && SameLeaks(s.programs, t.programs) && |t.mems| == |s.mems| && |t.programs| == |s.programs|
      && forall m :: 0 <= m < |s.mems| ==> t.mems[m].leaked == s.mems[m].leaked + Failure(s, c, m)
  {
    var event := EventHandle(s, c.event);
    var s1 := BeforeMap(s, c.q, c.m, c.event, false);
    BeforeMapQuiet(s, c.q, c.m, c.event, false);
    QuietIsKept(s, s1);
    hide Quiet;
    var t := Step(s, c);
    assert t == MarkComplete(s1.(mems := Leak(s1.mems, c.m)), event);
  }

  /** One call: leaks of existing buffers grow by its own failure, programs leak nothing. */
  lemma StepLeaks(s: State, c: Call, contexts: Contexts, n: nat)
    requires OnPlatform(contexts, n, c)
    ensures var t := Step(s, c);
      Grow(s, t) && SameLeaks(s.programs, t.programs) && StartsClean(s, t, contexts)
      && forall m {:trigger t.mems[m]} :: 0 <= m < |s.mems| ==> t.mems[m].leaked == s.mems[m].leaked + Failure(s, c, m)
  {
    if MapFails(s, c) {
      hide Step;
      MapFailLeaks(s, c);
    } else if Creates(c) && Accepted(s, c) {
      CreateLeaks(s, c, contexts, n);
    } else if !Accepted(s, c) {
      SelfKept(s);
    } else {
      hide Step, Accepted;
      StepKept(s, c);
    }
  }

  ghost predicate Clean(s: State) {
    (forall m :: 0 <= m < |s.mems| && s.mems[m].data.parent.None? ==> s.mems[m].data.mapBase == 0)
    && forall p :: 0 <= p < |s.programs| ==> s.programs[p].leaked == 0
  }

  lemma NewMemClean(s: State, d: MemData, leaked: nat)
    requires Clean(s) && (d.parent.None? ==> d.mapBase == 0)
    ensures Clean(s.(mems := Create(s.mems, d, leaked)))
  {
  }

  lemma CreateClean(s: State, c: Call)
    requires Clean(s) && Creates(c) && Accepted(s, c)
    ensures Clean(Effect(s, c))
  {
    match c
    case CreateBuffer(context, size, ptrs, devices, _) =>
      NewMemClean(s, MemData(None, context, size, ptrs, 0, 0, []), if devices != [] then |devices| - 1 else 0);
    case CreateSubBuffer(m, origin, size, _, garbage) =>
      NewMemClean(s, SubBufferData(s.mems[m].data, m, origin, size, garbage), 0);
    case CreateProgram(_) =>
  }

  /** Uninitialised map counts are only those of sub-buffers, and programs leak nothing. */
  lemma StepClean(s: State, c: Call)
    requires Clean(s)
    ensures Clean(Step(s, c))
  {
    hide Effect, Accepted, MapFails, Failure;
    if MapFails(s, c) {
      MapFailLeaks(s, c);
    } else if Creates(c) {
      if Accepted(s, c) { CreateClean(s, c); }
    } else {
      StepKept(s, c);
    }
  }

  lemma {:induction false} RunClean(s: State, cs: seq<Call>)
    requires Clean(s)
    ensures Clean(Run(s, cs))
    decreases |cs|
  {
    hide Clean, Step;
    if cs != [] {
      StepClean(s, cs[0]);
      RunClean(Step(s, cs[0]), cs[1..]);
    }
  }

  /** What a run does to a buffer that is there at its start. */
  lemma {:induction false} RunLeaks(s: State, cs: seq<Call>, contexts: Contexts, n: nat, m: nat)
    requires AllOnPlatform(contexts, n, cs) && m < |s.mems|
    ensures var t := Run(s, cs);
      m < |t.mems| && SameFixed(s.mems[m].data, t.mems[m].data) && t.mems[m].leaked == s.mems[m].leaked + FailedMaps(s, cs, m)
    decreases |cs|
  {
    hide Step, OnPlatform;
    if cs != [] {
      StepLeaks(s, cs[0], contexts, n);
      assert OnPlatform(contexts, n, cs[0]);
      assert forall i :: 0 <= i < |cs[1..]| ==> cs[1..][i] == cs[i + 1];
      RunLeaks(Step(s, cs[0]), cs[1..], contexts, n, m);
    }
  }

  /** A buffer is in nobody's failed maps before it exists. */
  lemma NotYetFailed(s: State, c: Call, m: nat)
    requires m >= |s.mems|
    ensures Failure(s, c, m) == 0
  {
  }

  /** For every buffer of every run: the references kept for good are one for each further device
      of its context and one for each failed map of it. */
  lemma {:induction false} LeakedExactly(s: State, cs: seq<Call>, contexts: Contexts, n: nat, m: nat)
    requires AllOnPlatform(contexts, n, cs) && |s.mems| <= m < |Run(s, cs).mems|
    ensures var o := Run(s, cs).mems[m]; o.leaked == Spare(contexts, o.data) + FailedMaps(s, cs, m)
    decreases |cs|
  {
    hide Step, OnPlatform, Spare;
    if cs != [] {
      var t := Step(s, cs[0]);
      assert OnPlatform(contexts, n, cs[0]);
      assert forall i :: 0 <= i < |cs[1..]| ==> cs[1..][i] == cs[i + 1];
      StepLeaks(s, cs[0], contexts, n);
      NotYetFailed(s, cs[0], m);
      if m < |t.mems| {
        RunLeaks(t, cs[1..], contexts, n, m);
        assert Spare(contexts, t.mems[m].data) == Spare(contexts, Run(t, cs[1..]).mems[m].data) by {
          SpareFixed(contexts, t.mems[m].data, Run(t, cs[1..]).mems[m].data);
        }
      } else {
        LeakedExactly(t, cs[1..], contexts, n, m);
      }
    }
  }

  lemma SpareFixed(contexts: Contexts, a: MemData, b: MemData)
    requires SameFixed(a, b)
    ensures Spare(contexts, a) == Spare(contexts, b)
  {
  }
}
