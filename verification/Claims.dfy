/** The references the application holds, counted from the calls of a run alone: one when an object
    is made, one more for each retain and one less for each release. No other call moves them. */
module Claims {
  import opened Runtime
  import SimBooks
  import Deferral
  import opened Tables

  datatype Kind = Mem | Queue | Event | Kernel | Program

  function HeldBy(s: State, kind: Kind, i: nat): nat {
    match kind
    case Mem => Has(s.mems, i)
    case Queue => Has(s.queues, i)
    case Event => Has(s.events, i)
    case Kernel => Has(s.kernels, i)
    case Program => Has(s.programs, i)
  }

  /** What a call asks for or gives up. */
  function Claim(c: Call, kind: Kind, i: nat): int {
    match c
    case RetainMemObject(m) => if kind.Mem? && m == i then 1 else 0
    case ReleaseMemObject(m) => if kind.Mem? && m == i then -1 else 0
    case RetainQueueCall(q) => if kind.Queue? && q == i then 1 else 0
    case ReleaseQueueCall(q) => if kind.Queue? && q == i then -1 else 0
    case RetainEvent(e) => if kind.Event? && e == i then 1 else 0
    case ReleaseEventCall(e) => if kind.Event? && e == i then -1 else 0
    case RetainKernel(k) => if kind.Kernel? && k == i then 1 else 0
    case ReleaseKernelCall(k) => if kind.Kernel? && k == i then -1 else 0
    case RetainProgram(p) => if kind.Program? && p == i then 1 else 0
    case ReleaseProgramCall(p) => if kind.Program? && p == i then -1 else 0
    case _ => 0
  }

  function AllClaims(cs: seq<Call>, kind: Kind, i: nat): int {
    if cs == [] then 0 else Claim(cs[0], kind, i) + AllClaims(cs[1..], kind, i)
  }

  lemma SameHeldBy(s: State, t: State, kind: Kind, i: nat)
    requires SameHeld(s, t)
    ensures HeldBy(t, kind, i) == HeldBy(s, kind, i)
  {
  }

  lemma CreditIsClaim(s: State, c: Call, kind: Kind, i: nat)
    requires Enabled(s, c)
    ensures HeldBy(Credit(s, c), kind, i) == HeldBy(s, kind, i) + Claim(c, kind, i)
  {
    hide ArgBuffers;
  }

  lemma StepClaims(s: State, c: Call, kind: Kind, i: nat)
    requires SimBooks.SimOk(s) && Enabled(s, c)
    ensures HeldBy(Step(s, c), kind, i) == HeldBy(s, kind, i) + Claim(c, kind, i)
  {
    StepHeld(s, c);
    hide SimBooks.SimOk, Step, SameHeld, HeldBy, Enabled;
    CreditIsClaim(s, c, kind, i);
    SameHeldBy(Credit(s, c), Step(s, c), kind, i);
  }

  /** The calls name only objects the application holds. */
  ghost predicate AllEnabled(s: State, cs: seq<Call>)
    decreases |cs|
  {
    cs != [] ==> Enabled(s, cs[0]) && AllEnabled(Step(s, cs[0]), cs[1..])
  }

  lemma {:induction false} RunClaims(s: State, cs: seq<Call>, kind: Kind, i: nat)
    requires SimBooks.SimOk(s) && AllEnabled(s, cs)
    ensures HeldBy(Run(s, cs), kind, i) == HeldBy(s, kind, i) + AllClaims(cs, kind, i)
    decreases |cs|
  {
    hide SimBooks.SimOk, Step, HeldBy, Enabled;
    if cs != [] {
      StepClaims(s, cs[0], kind, i);
      Deferral.SimOkStep(s, cs[0]);
      RunClaims(Step(s, cs[0]), cs[1..], kind, i);
    }
  }
}
