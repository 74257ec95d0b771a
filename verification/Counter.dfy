/** The locked reference counter of lib/CL/pocl_cl.h under every interleaving of threads. The
    retain and release macros are split into their steps: lock, load, store, unlock. A thread
    may retain or release only while it holds a reference. */
module Counter {
  import opened RefCounts

  /** Where a thread is inside a macro; `delta` is +1 for retain and -1 for release. */
  datatype Pc =
    | Idle
    | Locked(delta: int)
    | Loaded(delta: int, value: int)
    | Stored(delta: int, value: int)

  /** `holds` is how many references a thread owns; `seen` are the counts that completed
      releases returned, in order. */
  datatype Thread = Thread(pc: Pc, holds: int)
  datatype State = State(lock: Option<nat>, count: int, threads: seq<Thread>, seen: seq<int>)

  datatype Action = Enter(delta: int) | Load | Store | Leave | Give(to: nat)

  predicate Enabled(s: State, t: nat, a: Action) {
    t < |s.threads| &&
    var th := s.threads[t];
    match a
    case Enter(delta) => th.pc.Idle? && th.holds > 0 && s.lock.None? && (delta == 1 || delta == -1)
    case Load => th.pc.Locked?
    case Store => th.pc.Loaded?
    case Leave => th.pc.Stored?
    case Give(to) => th.pc.Idle? && th.holds > 0 && to < |s.threads| && to != t
  }

  function Step(s: State, t: nat, a: Action): State
    requires Enabled(s, t, a)
  {
    var th := s.threads[t];
    match a
    case Enter(delta) => s.(lock := Some(t), threads := s.threads[t := th.(pc := Locked(delta))])
    case Load => s.(threads := s.threads[t := th.(pc := Loaded(th.pc.delta, s.count))])
    case Store =>
      var v := th.pc.value + th.pc.delta;
      s.(count := v, threads := s.threads[t := Thread(Stored(th.pc.delta, v), th.holds + th.pc.delta)],
         seen := if th.pc.delta == -1 then s.seen + [v] else s.seen)
    case Leave => s.(lock := None, threads := s.threads[t := th.(pc := Idle)])
    case Give(to) =>
      s.(threads := s.threads[t := th.(holds := th.holds - 1)][to := s.threads[to].(holds := s.threads[to].holds + 1)])
  }

  // ----- runs -----

  datatype Event = Event(thread: nat, action: Action)

  ghost predicate Valid(s: State, es: seq<Event>)
    decreases |es|
  {
    es != [] ==> Enabled(s, es[0].thread, es[0].action) && Valid(Step(s, es[0].thread, es[0].action), es[1..])
  }

  function Run(s: State, es: seq<Event>): State
    requires Valid(s, es)
    decreases |es|
  {
    if es == [] then s else Run(Step(s, es[0].thread, es[0].action), es[1..])
  }

  function Held(threads: seq<Thread>): int {
    if threads == [] then 0 else threads[0].holds + Held(threads[1..])
  }

  /** POCL_INIT_OBJECT, generalised: threads hold the references the counter says. */
  ghost predicate Init(s: State) {
    && s.lock == None && s.seen == [] && s.count == Held(s.threads) && s.count > 0
    && forall t :: 0 <= t < |s.threads| ==> s.threads[t].pc == Idle && s.threads[t].holds >= 0
  }

  /** What is known of a thread, given who has the lock. */
  ghost predicate ThreadOk(s: State, t: nat, th: Thread) {
    && th.holds >= 0 && (th.pc.Idle? <==> s.lock != Some(t))
    && (th.pc.Locked? || th.pc.Loaded? ==> th.holds > 0 && (th.pc.delta == 1 || th.pc.delta == -1))
    && (th.pc.Loaded? || th.pc.Stored? ==> th.pc.value == s.count)
  }

  /** A release returns zero only as the last of all releases, and when nothing is held any more. */
  ghost predicate SeenOk(s: State) {
    && (forall i :: 0 <= i < |s.seen| ==> s.seen[i] >= 0 && (s.seen[i] == 0 ==> i == |s.seen| - 1 && s.count == 0))
    && (s.count == 0 ==> s.seen != [] && s.seen[|s.seen| - 1] == 0)
  }

  ghost predicate Inv(s: State) {
    && s.count == Held(s.threads)
    && (forall t :: 0 <= t < |s.threads| ==> ThreadOk(s, t, s.threads[t]))
    && (s.lock.Some? ==> s.lock.value < |s.threads|)
    && SeenOk(s)
  }

  lemma {:induction false} HeldUpdate(threads: seq<Thread>, t: nat, th: Thread)
    requires t < |threads|
    ensures Held(threads[t := th]) == Held(threads) - threads[t].holds + th.holds
    decreases |threads|
  {
    if t == 0 {
      assert threads[t := th][1..] == threads[1..];
    } else {
      assert threads[t := th][1..] == threads[1..][t - 1 := th];
      HeldUpdate(threads[1..], t - 1, th);
    }
  }

  /** A thread's holding is part of the total. */
  lemma {:induction false} HeldBound(threads: seq<Thread>, t: nat)
    requires t < |threads| && forall i :: 0 <= i < |threads| ==> threads[i].holds >= 0
    ensures 0 <= threads[t].holds <= Held(threads)
    decreases |threads|
  {
    HeldNonNegative(threads[1..]);
    if t > 0 { HeldBound(threads[1..], t - 1); }
  }

  lemma {:induction false} HeldNonNegative(threads: seq<Thread>)
    requires forall i :: 0 <= i < |threads| ==> threads[i].holds >= 0
    ensures Held(threads) >= 0
    decreases |threads|
  {
    if threads != [] { HeldNonNegative(threads[1..]); }
  }

  lemma StepInv(s: State, t: nat, a: Action)
    requires Inv(s) && Enabled(s, t, a)
    ensures Inv(Step(s, t, a))
  {
    var u := Step(s, t, a);
    assert ThreadOk(s, t, s.threads[t]);
    match a {
      case Give(to) =>
        assert ThreadOk(s, to, s.threads[to]);
        var mid := s.threads[t := s.threads[t].(holds := s.threads[t].holds - 1)];
        HeldUpdate(s.threads, t, mid[t]);
        HeldUpdate(mid, to, u.threads[to]);
      case _ =>
        HeldUpdate(s.threads, t, u.threads[t]);
    }
    HeldBound(s.threads, t);
    forall i | 0 <= i < |u.threads| ensures ThreadOk(u, i, u.threads[i]) {
      assert ThreadOk(s, i, s.threads[i]);
    }
    HeldBound(u.threads, t);
  }

  lemma {:induction false} RunInv(s: State, es: seq<Event>)
    requires Inv(s) && Valid(s, es)
    ensures Inv(Run(s, es))
    decreases |es|
  {
    if es != [] {
      StepInv(s, es[0].thread, es[0].action);
      RunInv(Step(s, es[0].thread, es[0].action), es[1..]);
    }
  }

  /** What an action is meant to do to the references of thread `t`, and to the count. */
  function Meant(e: Event, t: nat): int {
    match e.action
    case Enter(delta) => if e.thread == t then delta else 0
    case Give(to) => (if to == t then 1 else 0) - (if e.thread == t then 1 else 0)
    case _ => 0
  }

  function AllMeant(es: seq<Event>, t: nat): int {
    if es == [] then 0 else Meant(es[0], t) + AllMeant(es[1..], t)
  }

  function MeantForCount(es: seq<Event>): int {
    if es == [] then 0 else (if es[0].action.Enter? then es[0].action.delta else 0) + MeantForCount(es[1..])
  }

  /** What the thread inside a macro has yet to store. */
  function Underway(pc: Pc): int {
    match pc
    case Locked(delta) => delta
    case Loaded(delta, _) => delta
    case _ => 0
  }

  function InFlight(s: State): int {
    if s.lock.Some? && s.lock.value < |s.threads| then Underway(s.threads[s.lock.value].pc) else 0
  }

  lemma StepMeant(s: State, e: Event, t: nat)
    requires Inv(s) && Enabled(s, e.thread, e.action) && t < |s.threads|
    ensures var u := Step(s, e.thread, e.action);
      && |u.threads| == |s.threads|
      && u.threads[t].holds + Underway(u.threads[t].pc) == s.threads[t].holds + Underway(s.threads[t].pc) + Meant(e, t)
      && u.count + InFlight(u) == s.count + InFlight(s) + if e.action.Enter? then e.action.delta else 0
  {
    assert ThreadOk(s, e.thread, s.threads[e.thread]);
  }

  /** No update is lost, whatever the interleaving: each thread holds what it started with and what
      it retained and was given, less what it released and gave away, and the count has moved by every
      retain and release entered but the one that has yet to store. */
  lemma {:induction false} NothingLost(s: State, es: seq<Event>, t: nat)
    requires Inv(s) && Valid(s, es) && t < |s.threads|
    ensures var u := Run(s, es);
      && |u.threads| == |s.threads|
      && u.threads[t].holds + Underway(u.threads[t].pc) == s.threads[t].holds + Underway(s.threads[t].pc) + AllMeant(es, t)
      && u.count + InFlight(u) == s.count + InFlight(s) + MeantForCount(es)
    decreases |es|
  {
    hide Inv, Enabled, Step, Underway, InFlight, Meant;
    if es != [] {
      var u := Step(s, es[0].thread, es[0].action);
      StepInv(s, es[0].thread, es[0].action);
      StepMeant(s, es[0], t);
      NothingLost(u, es[1..], t);
    }
  }

  function Zeros(seen: seq<int>): nat {
    if seen == [] then 0 else (if seen[0] == 0 then 1 else 0) + Zeros(seen[1..])
  }

  lemma {:induction false} ZerosAtEnd(seen: seq<int>)
    requires forall i :: 0 <= i < |seen| && seen[i] == 0 ==> i == |seen| - 1
    ensures Zeros(seen) == if seen != [] && seen[|seen| - 1] == 0 then 1 else 0
    decreases |seen|
  {
    if |seen| > 1 {
      assert forall i :: 0 <= i < |seen[1..]| && seen[1..][i] == 0 ==> seen[i + 1] == 0;
      ZerosAtEnd(seen[1..]);
    }
  }

  /** For every interleaving: at most one release returns zero, exactly one has when the counter
      is zero, and from then on the only step left is that release's own unlock. */
  lemma DestroyedOnce(s: State, es: seq<Event>)
    requires Init(s) && Valid(s, es)
    ensures var t := Run(s, es);
      && Zeros(t.seen) <= 1 && (Zeros(t.seen) == 1 <==> t.count == 0)
      && t.count == Held(t.threads)
      && (t.count == 0 ==> forall i: nat, a :: Enabled(t, i, a) ==> a == Leave && t.lock == Some(i) && t.threads[i].pc == Stored(-1, 0))
  {
    assert Inv(s);
    RunInv(s, es);
    var t := Run(s, es);
    ZerosAtEnd(t.seen);
    if t.count == 0 {
      LastReleaser(s, es);
      forall i: nat, a | Enabled(t, i, a) ensures a == Leave && t.lock == Some(i) && t.threads[i].pc == Stored(-1, 0) {
        assert ThreadOk(t, i, t.threads[i]);
        HeldBound(t.threads, i);
      }
    }
  }

  /** A thread between store and unlock with the counter at zero got there by a release. */
  ghost predicate ReleasedToZero(s: State) {
    forall t :: 0 <= t < |s.threads| && s.threads[t].pc.Stored? && s.count == 0 ==> s.threads[t].pc.delta == -1
  }

  lemma {:induction false} LastReleaserFrom(s: State, es: seq<Event>)
    requires Inv(s) && ReleasedToZero(s) && Valid(s, es)
    ensures ReleasedToZero(Run(s, es))
    decreases |es|
  {
    if es != [] {
      var t, a := es[0].thread, es[0].action;
      var u := Step(s, t, a);
      StepInv(s, t, a);
      assert ThreadOk(s, t, s.threads[t]);
      HeldBound(s.threads, t);
      assert ReleasedToZero(u);
      LastReleaserFrom(u, es[1..]);
    }
  }

  lemma LastReleaser(s: State, es: seq<Event>)
    requires Init(s) && Valid(s, es)
    ensures ReleasedToZero(Run(s, es))
  {
    assert Inv(s);
    LastReleaserFrom(s, es);
  }
}
