/** The platform a run takes place on: how many devices there are, and which of them each context
    has. Contexts are made before the calls that are modelled, and never change. */
module Platform {
  import opened Runtime

  /** The dev_ids of a context's devices, by position. */
  type Contexts = nat -> seq<nat>

  /** What clCreateBuffer leaves in `device_ptrs` when all its allocations succeed: a pointer at
      the dev_id of each device of the context, and null everywhere else. */
  predicate Allocated(devices: seq<nat>, n: nat, ptrs: seq<int>) {
    |ptrs| == n && (forall d :: d in devices ==> d < n)
    && forall d :: 0 <= d < n ==> ptrs[d] >= 0 && (ptrs[d] != NULL <==> d in devices)
  }

  /** A queue is for a device of the platform, which has its position in the context if it is one of
      the context's; clCreateCommandQueue accepts others too. A buffer is allocated on the devices
      of its context. */
  predicate OnPlatform(contexts: Contexts, n: nat, c: Call) {
    match c
    case CreateQueue(context, devIndex, devId, _) =>
      devId < n && (devId in contexts(context) ==> devIndex < |contexts(context)| && contexts(context)[devIndex] == devId)
    case CreateBuffer(context, _, ptrs, devices, _) => devices == contexts(context) && Allocated(devices, n, ptrs)
    case _ => true
  }

  predicate AllOnPlatform(contexts: Contexts, n: nat, cs: seq<Call>) {
    forall i :: 0 <= i < |cs| ==> OnPlatform(contexts, n, cs[i])
  }
}
