/** A driver that shows which of the application's stores may be made while commands are pending:
    one flat address space, with reads, writes and copies as byte copies, as in the basic device. */
module FlatMemory {
  import opened Runtime
  import opened SimBooks
  import opened Simulation
  import opened Deferral

  type Memory = seq<int>

  /** memcpy; bytes outside the address space are not touched. */
  function Memcpy(mem: Memory, dst: int, src: int, n: nat): Memory {
    seq(|mem|, a requires 0 <= a < |mem| =>
      if dst <= a < dst + n && 0 <= src + (a - dst) < |mem| then mem[src + (a - dst)] else mem[a])
  }

  function Store(mem: Memory, at: int, bytes: seq<int>): Memory {
    seq(|mem|, a requires 0 <= a < |mem| => if at <= a < at + |bytes| then bytes[a - at] else mem[a])
  }

  /** The operations of the basic device: the transfers and the initial contents of a new buffer are
      byte copies, and mapping finds the memory up to date already. `kernel` stands for the rest. */
  function BasicDevice(kernel: (Op, Memory) -> Memory): (Op, Memory) -> Memory {
    (op: Op, mem: Memory) =>
      match op
      case OpRead(host, dev, cb) => Memcpy(mem, host, dev, cb)
      case OpWrite(host, dev, cb) => Memcpy(mem, dev, host, cb)
      case OpCopy(src, dst, cb) => Memcpy(mem, dst, src, cb)
      case OpMap(_, _, _, _) => mem
      case OpCreate(host, dev, cb) => Memcpy(mem, dev, host, cb)
      case HostStore(at, bytes) => Store(mem, at, bytes)
      case _ => kernel(op, mem)
  }

  // ----- when a store and a copy commute -----

  predicate Stored(a: int, at: int, bytes: seq<int>) { at <= a < at + |bytes| }

  /** The i-th byte copied comes from outside the store and goes outside of it, or the store puts
      the same byte at both ends. */
  predicate SameAt(dst: int, src: int, i: nat, at: int, bytes: seq<int>) {
    dst + i >= 0 && src + i >= 0 ==>
      (Stored(dst + i, at, bytes) <==> Stored(src + i, at, bytes))
      && (Stored(dst + i, at, bytes) ==> bytes[dst + i - at] == bytes[src + i - at])
  }

  predicate Agrees(dst: int, src: int, cb: nat, at: int, bytes: seq<int>) {
    forall i :: 0 <= i < cb ==> SameAt(dst, src, i, at, bytes)
  }

  ghost predicate CopyCommutes(dst: int, src: int, cb: nat, at: int, bytes: seq<int>) {
    forall mem: Memory :: Memcpy(Store(mem, at, bytes), dst, src, cb) == Store(Memcpy(mem, dst, src, cb), at, bytes)
  }

  lemma AgreeingCommutes(dst: int, src: int, cb: nat, at: int, bytes: seq<int>, mem: Memory)
    requires Agrees(dst, src, cb, at, bytes)
    ensures Memcpy(Store(mem, at, bytes), dst, src, cb) == Store(Memcpy(mem, dst, src, cb), at, bytes)
  {
    var l, r := Memcpy(Store(mem, at, bytes), dst, src, cb), Store(Memcpy(mem, dst, src, cb), at, bytes);
    forall a | 0 <= a < |mem| ensures l[a] == r[a] {
      var i := a - dst;
      if 0 <= i < cb && 0 <= src + i < |mem| {
        assert SameAt(dst, src, i, at, bytes);
      }
    }
  }

  /** A memory in which every byte differs from a given one. */
  lemma DisagreeingShows(dst: int, src: int, cb: nat, at: int, bytes: seq<int>, i: nat)
    requires i < cb && !SameAt(dst, src, i, at, bytes)
    ensures !CopyCommutes(dst, src, cb, at, bytes)
  {
    var d, s := dst + i, src + i;
    var v := if Stored(d, at, bytes) then bytes[d - at] + 1 else bytes[s - at] + 1;
    var mem: Memory := seq((if d > s then d else s) + 1, _ => v);
    assert Memcpy(Store(mem, at, bytes), dst, src, cb)[d] == Store(mem, at, bytes)[s];
    assert Store(Memcpy(mem, dst, src, cb), at, bytes)[d] == if Stored(d, at, bytes) then bytes[d - at] else mem[s];
  }

  lemma CopyCommutesIff(dst: int, src: int, cb: nat, at: int, bytes: seq<int>)
    ensures CopyCommutes(dst, src, cb, at, bytes) <==> Agrees(dst, src, cb, at, bytes)
  {
    if Agrees(dst, src, cb, at, bytes) {
      forall mem: Memory ensures Memcpy(Store(mem, at, bytes), dst, src, cb) == Store(Memcpy(mem, dst, src, cb), at, bytes) {
        AgreeingCommutes(dst, src, cb, at, bytes, mem);
      }
    } else {
      var i: nat :| i < cb && !SameAt(dst, src, i, at, bytes);
      DisagreeingShows(dst, src, cb, at, bytes, i);
    }
  }

  /** The destination and source of a transfer. */
  function Ends(op: Op): (int, int)
    requires op.OpRead? || op.OpWrite? || op.OpCopy?
  {
    match op
    case OpRead(host, dev, _) => (host, dev)
    case OpWrite(host, dev, _) => (dev, host)
    case OpCopy(src, dst, _) => (dst, src)
  }

  lemma TransferIs(kernel: (Op, Memory) -> Memory, op: Op, mem: Memory)
    requires op.OpRead? || op.OpWrite? || op.OpCopy?
    ensures BasicDevice(kernel)(op, mem) == Memcpy(mem, Ends(op).0, Ends(op).1, op.cb)
  {
  }

  lemma StoreIs(kernel: (Op, Memory) -> Memory, at: int, bytes: seq<int>, mem: Memory)
    ensures BasicDevice(kernel)(HostStore(at, bytes), mem) == Store(mem, at, bytes)
  {
  }

  /** A read, write, copy or initial copy brings each byte from where the call says to where it says,
      and changes no other byte. */
  lemma TransferMoves(kernel: (Op, Memory) -> Memory, op: Op, mem: Memory)
    requires op.OpRead? || op.OpWrite? || op.OpCopy? || op.OpCreate?
    ensures |BasicDevice(kernel)(op, mem)| == |mem|
    ensures var from := if op.OpRead? then op.devicePtr else if op.OpCopy? then op.srcPtr else op.hostPtr;
      var to := if op.OpRead? then op.hostPtr else if op.OpCopy? then op.dstPtr else op.devicePtr;
      forall a :: 0 <= a < |mem| ==>
        BasicDevice(kernel)(op, mem)[a] == if to <= a < to + op.cb && 0 <= from + (a - to) < |mem| then mem[from + (a - to)] else mem[a]
  {
    if op.OpCreate? { CreateIs(kernel, op.hostPtr, op.devicePtr, op.cb, mem); } else { TransferIs(kernel, op, mem); }
    hide BasicDevice;
  }

  /** A store puts its bytes where it says and changes no other byte. */
  lemma StoreMoves(kernel: (Op, Memory) -> Memory, at: int, bytes: seq<int>, mem: Memory)
    ensures |BasicDevice(kernel)(HostStore(at, bytes), mem)| == |mem|
    ensures forall a :: 0 <= a < |mem| ==>
      BasicDevice(kernel)(HostStore(at, bytes), mem)[a] == if at <= a < at + |bytes| then bytes[a - at] else mem[a]
  {
    StoreIs(kernel, at, bytes, mem);
    hide BasicDevice;
  }

  /** The two orders of a store and a transfer. */
  lemma Orders(kernel: (Op, Memory) -> Memory, op: Op, at: int, bytes: seq<int>, mem: Memory)
    requires op.OpRead? || op.OpWrite? || op.OpCopy?
    ensures var exec, h, (dst, src) := BasicDevice(kernel), HostStore(at, bytes), Ends(op);
      exec(op, exec(h, mem)) == Memcpy(Store(mem, at, bytes), dst, src, op.cb)
      && exec(h, exec(op, mem)) == Store(Memcpy(mem, dst, src, op.cb), at, bytes)
  {
    hide BasicDevice, Memcpy, Store, Ends;
    var (dst, src) := Ends(op);
    StoreIs(kernel, at, bytes, mem);
    TransferIs(kernel, op, Store(mem, at, bytes));
    TransferIs(kernel, op, mem);
    StoreIs(kernel, at, bytes, Memcpy(mem, dst, src, op.cb));
  }

  /** A store may be made while a transfer is pending exactly when the two agree on every byte. */
  lemma StoreCommutesIff(kernel: (Op, Memory) -> Memory, op: Op, at: int, bytes: seq<int>)
    requires op.OpRead? || op.OpWrite? || op.OpCopy?
    ensures Commute(BasicDevice(kernel), op, HostStore(at, bytes)) <==> Agrees(Ends(op).0, Ends(op).1, op.cb, at, bytes)
  {
    hide BasicDevice, Memcpy, Store, Ends, Agrees;
    var exec, h := BasicDevice(kernel), HostStore(at, bytes);
    var (dst, src) := Ends(op);
    CopyCommutesIff(dst, src, op.cb, at, bytes);
    if Agrees(dst, src, op.cb, at, bytes) {
      forall mem: Memory ensures exec(op, exec(h, mem)) == exec(h, exec(op, mem)) {
        Orders(kernel, op, at, bytes, mem);
        AgreeingCommutes(dst, src, op.cb, at, bytes, mem);
      }
    } else {
      var mem: Memory :| Memcpy(Store(mem, at, bytes), dst, src, op.cb) != Store(Memcpy(mem, dst, src, op.cb), at, bytes);
      Orders(kernel, op, at, bytes, mem);
      assert exec(op, exec(h, mem)) != exec(h, exec(op, mem));
    }
  }

  // ----- creating a buffer from host memory -----

  predicate Disjoint(a: int, n: nat, b: int, m: nat) { a + n <= b || b + m <= a }

  /** The i-th byte from `from` on is no byte that the copy brings from elsewhere. */
  predicate StableAt(dst: int, src: int, cb: nat, made: int, from: int, i: nat) {
    made + i >= 0 && from + i >= 0 && dst <= from + i < dst + cb && src + (from + i - dst) >= 0 ==> src == dst
  }

  predicate Stable(dst: int, src: int, cb: nat, made: int, from: int, size: nat) {
    forall i :: 0 <= i < size ==> StableAt(dst, src, cb, made, from, i)
  }

  ghost predicate CopiesCommute(dst: int, src: int, cb: nat, made: int, from: int, size: nat) {
    forall mem: Memory :: Memcpy(Memcpy(mem, made, from, size), dst, src, cb) == Memcpy(Memcpy(mem, dst, src, cb), made, from, size)
  }

  lemma StableCommutes(dst: int, src: int, cb: nat, made: int, from: int, size: nat, mem: Memory)
    requires Disjoint(made, size, dst, cb) && Disjoint(made, size, src, cb) && Stable(dst, src, cb, made, from, size)
    ensures Memcpy(Memcpy(mem, made, from, size), dst, src, cb) == Memcpy(Memcpy(mem, dst, src, cb), made, from, size)
  {
    var created, copied := Memcpy(mem, made, from, size), Memcpy(mem, dst, src, cb);
    var l, r := Memcpy(created, dst, src, cb), Memcpy(copied, made, from, size);
    forall a | 0 <= a < |mem| ensures l[a] == r[a] {
      if made <= a < made + size && 0 <= from + (a - made) < |mem| {
        var i := a - made;
        assert StableAt(dst, src, cb, made, from, i);
        assert copied[from + i] == mem[from + i];
      }
    }
  }

  /** Memory in which every byte is its own address tells the two orders apart. */
  lemma UnstableShows(dst: int, src: int, cb: nat, made: int, from: int, size: nat, i: nat)
    requires Disjoint(made, size, dst, cb) && Disjoint(made, size, src, cb) && i < size && !StableAt(dst, src, cb, made, from, i)
    ensures !CopiesCommute(dst, src, cb, made, from, size)
  {
    var a, origin := from + i, src + (from + i - dst);
    var top := if made + i > a then (if made + i > origin then made + i else origin) else if a > origin then a else origin;
    var mem: Memory := seq(top + 1, j => j);
    assert Memcpy(Memcpy(mem, made, from, size), dst, src, cb)[made + i] == Memcpy(mem, made, from, size)[made + i] == mem[a] == a;
    assert Memcpy(Memcpy(mem, dst, src, cb), made, from, size)[made + i] == Memcpy(mem, dst, src, cb)[a] == mem[origin] == origin;
  }

  /** A buffer may be created from host memory while a transfer is pending that its new memory has
      nothing to do with, exactly when the transfer brings nothing new to the bytes it is created from. */
  lemma CreateCommutesIff(kernel: (Op, Memory) -> Memory, op: Op, from: int, made: int, size: nat)
    requires op.OpRead? || op.OpWrite? || op.OpCopy?
    requires Disjoint(made, size, Ends(op).0, op.cb) && Disjoint(made, size, Ends(op).1, op.cb)
    ensures Commute(BasicDevice(kernel), op, OpCreate(from, made, size)) <==> Stable(Ends(op).0, Ends(op).1, op.cb, made, from, size)
  {
    hide BasicDevice, Memcpy, Ends, Stable, StableAt, Disjoint;
    var exec, h := BasicDevice(kernel), OpCreate(from, made, size);
    var (dst, src) := Ends(op);
    if Stable(dst, src, op.cb, made, from, size) {
      forall mem: Memory ensures exec(op, exec(h, mem)) == exec(h, exec(op, mem)) {
        CopyOrders(kernel, op, from, made, size, mem);
        StableCommutes(dst, src, op.cb, made, from, size, mem);
      }
    } else {
      var i: nat :| i < size && !StableAt(dst, src, op.cb, made, from, i) by { NotStable(dst, src, op.cb, made, from, size); }
      UnstableShows(dst, src, op.cb, made, from, size, i);
      var mem: Memory :| Memcpy(Memcpy(mem, made, from, size), dst, src, op.cb) != Memcpy(Memcpy(mem, dst, src, op.cb), made, from, size);
      CopyOrders(kernel, op, from, made, size, mem);
      assert exec(op, exec(h, mem)) != exec(h, exec(op, mem));
    }
  }

  lemma NotStable(dst: int, src: int, cb: nat, made: int, from: int, size: nat)
    requires !Stable(dst, src, cb, made, from, size)
    ensures exists i: nat :: i < size && !StableAt(dst, src, cb, made, from, i)
  {
  }

  lemma CreateIs(kernel: (Op, Memory) -> Memory, from: int, made: int, size: nat, mem: Memory)
    ensures BasicDevice(kernel)(OpCreate(from, made, size), mem) == Memcpy(mem, made, from, size)
  {
  }

  lemma CopyOrders(kernel: (Op, Memory) -> Memory, op: Op, from: int, made: int, size: nat, mem: Memory)
    requires op.OpRead? || op.OpWrite? || op.OpCopy?
    ensures var exec, h, (dst, src) := BasicDevice(kernel), OpCreate(from, made, size), Ends(op);
      exec(op, exec(h, mem)) == Memcpy(Memcpy(mem, made, from, size), dst, src, op.cb)
      && exec(h, exec(op, mem)) == Memcpy(Memcpy(mem, dst, src, op.cb), made, from, size)
  {
    hide BasicDevice, Memcpy, Ends;
    var (dst, src) := Ends(op);
    CreateIs(kernel, from, made, size, mem);
    TransferIs(kernel, op, Memcpy(mem, made, from, size));
    TransferIs(kernel, op, mem);
    CreateIs(kernel, from, made, size, Memcpy(mem, dst, src, op.cb));
  }

  // ----- kernels -----

  predicate Lies(a: int, at: int, n: nat) { at <= a < at + n }

  function Range(at: int, n: nat): set<int> { set a | at <= a < at + n && Lies(a, at, n) }

  ghost predicate AgreeOn(a: Memory, b: Memory, where: set<int>) {
    |a| == |b| && forall i :: 0 <= i < |a| && i in where ==> a[i] == b[i]
  }

  ghost predicate AgreeOff(a: Memory, b: Memory, where: set<int>) {
    |a| == |b| && forall i :: 0 <= i < |a| && i !in where ==> a[i] == b[i]
  }

  /** The operation reads and writes only the addresses of its footprint. */
  ghost predicate Local(exec: (Op, Memory) -> Memory, op: Op, foot: set<int>) {
    forall mem: Memory, other: Memory :: AgreeOn(mem, other, foot) ==>
      AgreeOn(exec(op, mem), exec(op, other), foot) && AgreeOff(exec(op, mem), mem, foot)
  }

  /** Kernels keep to their footprints. */
  ghost predicate LocalKernels(kernel: (Op, Memory) -> Memory, foot: Op -> set<int>) {
    forall op: Op :: op.OpRun? ==> Local(kernel, op, foot(op))
  }

  lemma UseLocal(exec: (Op, Memory) -> Memory, op: Op, foot: set<int>, mem: Memory, other: Memory)
    requires Local(exec, op, foot) && AgreeOn(mem, other, foot)
    ensures AgreeOn(exec(op, mem), exec(op, other), foot) && AgreeOff(exec(op, mem), mem, foot)
  {
    hide AgreeOn, AgreeOff;
  }

  lemma OffIsOn(a: Memory, b: Memory, off: set<int>, on: set<int>)
    requires AgreeOff(a, b, off) && off !! on
    ensures AgreeOn(b, a, on)
  {
  }

  lemma OnSelf(a: Memory, where: set<int>)
    ensures AgreeOn(a, a, where)
  {
  }

  /** Operations with separate footprints commute. */
  lemma LocalsCommute(exec: (Op, Memory) -> Memory, a: Op, footA: set<int>, b: Op, footB: set<int>)
    requires Local(exec, a, footA) && Local(exec, b, footB) && footA !! footB
    ensures Commute(exec, a, b)
  {
    hide Local, AgreeOn, AgreeOff;
    forall mem: Memory ensures exec(a, exec(b, mem)) == exec(b, exec(a, mem)) {
      var x, y := exec(a, mem), exec(b, mem);
      OnSelf(mem, footA);
      OnSelf(mem, footB);
      UseLocal(exec, a, footA, mem, mem);
      UseLocal(exec, b, footB, mem, mem);
      OffIsOn(y, mem, footB, footA);
      OffIsOn(x, mem, footA, footB);
      UseLocal(exec, a, footA, mem, y);
      UseLocal(exec, b, footB, mem, x);
      OnSelf(y, footA);
      OnSelf(x, footB);
      UseLocal(exec, a, footA, y, y);
      UseLocal(exec, b, footB, x, x);
      SameEverywhere(mem, x, y, exec(a, y), exec(b, x), footA, footB);
    }
  }

  lemma SameEverywhere(mem: Memory, x: Memory, y: Memory, l: Memory, r: Memory, footA: set<int>, footB: set<int>)
    requires footA !! footB && AgreeOff(x, mem, footA) && AgreeOff(y, mem, footB)
    requires AgreeOn(x, l, footA) && AgreeOff(l, y, footA) && AgreeOn(y, r, footB) && AgreeOff(r, x, footB)
    ensures l == r
  {
    forall i | 0 <= i < |mem| ensures l[i] == r[i] {
      if i in footA { assert i !in footB; }
    }
  }

  /** What a store or the creation of a buffer touches. */
  function Touched(h: Op): set<int>
    requires h.HostStore? || h.OpCreate?
  {
    match h
    case HostStore(at, bytes) => Range(at, |bytes|)
    case OpCreate(from, made, size) => Range(from, size) + Range(made, size)
  }

  lemma HostOpLocal(kernel: (Op, Memory) -> Memory, h: Op)
    requires h.HostStore? || h.OpCreate?
    ensures Local(BasicDevice(kernel), h, Touched(h))
  {
    var exec, foot := BasicDevice(kernel), Touched(h);
    forall mem: Memory, other: Memory | AgreeOn(mem, other, foot)
      ensures AgreeOn(exec(h, mem), exec(h, other), foot) && AgreeOff(exec(h, mem), mem, foot)
    {
      match h
      case HostStore(at, bytes) => StoreLocal(mem, other, at, bytes);
      case OpCreate(from, made, size) => CopyLocal(mem, other, made, from, size);
    }
  }

  lemma StoreLocal(mem: Memory, other: Memory, at: int, bytes: seq<int>)
    requires |mem| == |other|
    ensures AgreeOn(Store(mem, at, bytes), Store(other, at, bytes), Range(at, |bytes|)) && AgreeOff(Store(mem, at, bytes), mem, Range(at, |bytes|))
  {
  }

  lemma CopyLocal(mem: Memory, other: Memory, dst: int, src: int, n: nat)
    requires AgreeOn(mem, other, Range(src, n) + Range(dst, n))
    ensures AgreeOn(Memcpy(mem, dst, src, n), Memcpy(other, dst, src, n), Range(src, n) + Range(dst, n))
    ensures AgreeOff(Memcpy(mem, dst, src, n), mem, Range(src, n) + Range(dst, n))
  {
  }

  lemma KernelLocal(kernel: (Op, Memory) -> Memory, foot: Op -> set<int>, op: Op)
    requires LocalKernels(kernel, foot) && op.OpRun?
    ensures Local(BasicDevice(kernel), op, foot(op))
  {
    var exec := BasicDevice(kernel);
    assert Local(kernel, op, foot(op));
    assert forall mem: Memory :: exec(op, mem) == kernel(op, mem);
  }

  // ----- runs -----

  /** What a caller can check before a store or the creation of a buffer from host memory: it agrees
      with every pending transfer and keeps out of the footprint of every pending kernel. */
  predicate Clear(foot: Op -> set<int>, op: Op, h: Op)
    requires h.HostStore? || h.OpCreate?
  {
    match op
    case OpRun(_, _, _) => foot(op) !! Touched(h)
    case OpMap(_, _, _, _) => true
    case OpRead(_, _, _) => TransferClear(op, h)
    case OpWrite(_, _, _) => TransferClear(op, h)
    case OpCopy(_, _, _) => TransferClear(op, h)
    case _ => false
  }

  predicate TransferClear(op: Op, h: Op)
    requires h.HostStore? || h.OpCreate?
    requires op.OpRead? || op.OpWrite? || op.OpCopy?
  {
    var (dst, src) := Ends(op);
    match h
    case HostStore(at, bytes) => Agrees(dst, src, op.cb, at, bytes)
    case OpCreate(from, made, size) =>
      Disjoint(made, size, dst, op.cb) && Disjoint(made, size, src, op.cb) && Stable(dst, src, op.cb, made, from, size)
  }

  lemma ClearCommutes(kernel: (Op, Memory) -> Memory, foot: Op -> set<int>, op: Op, h: Op)
    requires LocalKernels(kernel, foot) && (h.HostStore? || h.OpCreate?) && Clear(foot, op, h)
    ensures Commute(BasicDevice(kernel), op, h)
  {
    hide Memcpy, Store, Agrees, LocalKernels, Local, Stable, Disjoint, Touched;
    if op.OpRun? {
      hide Commute, BasicDevice;
      KernelLocal(kernel, foot, op);
      HostOpLocal(kernel, h);
      LocalsCommute(BasicDevice(kernel), op, foot(op), h, Touched(h));
    } else if !op.OpMap? {
      hide BasicDevice, Commute;
      match h
      case HostStore(at, bytes) => StoreCommutesIff(kernel, op, at, bytes);
      case OpCreate(from, made, size) => CreateCommutesIff(kernel, op, from, made, size);
    }
  }

  /** What the call does to host memory at once is clear of everything pending. */
  predicate HostClear(foot: Op -> set<int>, s: State, c: Call, q: nat) {
    forall i, j :: 0 <= i < |PendingOps(s, q)| && 0 <= j < |HostOps(s, c)| ==>
      (HostOps(s, c)[j].HostStore? || HostOps(s, c)[j].OpCreate?) && Clear(foot, PendingOps(s, q)[i], HostOps(s, c)[j])
  }

  /** A run that keeps the rules, whose stores, and buffers made from host memory, are clear of what
      is pending. */
  predicate Careful(foot: Op -> set<int>, s: State, cs: seq<Call>, q: nat)
    decreases |cs|
  {
    cs != [] ==>
      Enabled(s, cs[0]) && OnQueue(cs[0], q) && SamePointer(s, cs[0]) && HostClear(foot, s, cs[0], q)
      && Careful(foot, Step(s, cs[0]), cs[1..], q)
  }

  lemma HostClearIsOk(kernel: (Op, Memory) -> Memory, foot: Op -> set<int>, s: State, c: Call, q: nat)
    requires LocalKernels(kernel, foot) && HostClear(foot, s, c, q)
    ensures HostOk(BasicDevice(kernel), s, c, q)
  {
    hide LocalKernels, Clear, Commute, PendingOps, HostOps;
    forall i, j | 0 <= i < |PendingOps(s, q)| && 0 <= j < |HostOps(s, c)|
      ensures Commute(BasicDevice(kernel), PendingOps(s, q)[i], HostOps(s, c)[j])
    {
      ClearCommutes(kernel, foot, PendingOps(s, q)[i], HostOps(s, c)[j]);
    }
  }

  lemma {:induction false} CarefulIsLegal(kernel: (Op, Memory) -> Memory, foot: Op -> set<int>, s: State, cs: seq<Call>, q: nat)
    requires LocalKernels(kernel, foot) && Careful(foot, s, cs, q)
    ensures Legal(BasicDevice(kernel), s, cs, q)
    decreases |cs|
  {
    hide LocalKernels, HostClear, HostOk, Step, Enabled, OnQueue, SamePointer;
    if cs != [] {
      HostClearIsOk(kernel, foot, s, cs[0], q);
      CarefulIsLegal(kernel, foot, Step(s, cs[0]), cs[1..], q);
    }
  }

  /** On the basic device, whatever local kernels do: after clFinish the memory of a careful run is
      the one that executing each call at once gives. */
  lemma BasicDeviceReachesEager(kernel: (Op, Memory) -> Memory, foot: Op -> set<int>, cs: seq<Call>, q: nat, mem: Memory)
    requires LocalKernels(kernel, foot) && Careful(foot, Empty, cs, q)
    ensures Apply(BasicDevice(kernel), Finish(Run(Empty, cs), q).log, mem) == Apply(BasicDevice(kernel), EagerLog(Empty, cs), mem)
  {
    hide LocalKernels, Careful, Legal, Run, Finish;
    CarefulIsLegal(kernel, foot, Empty, cs, q);
    FinishReachesEager(BasicDevice(kernel), cs, q, mem);
  }

  /** A creation that is not clear: the new buffer gets the bytes that a pending read has yet to
      replace. */
  lemma CreatedTooEarlyShows(kernel: (Op, Memory) -> Memory)
    ensures !Stable(0, 1, 1, 2, 0, 1)
    ensures var exec, read, create := BasicDevice(kernel), OpRead(0, 1, 1), OpCreate(0, 2, 1);
      Apply(exec, [create, read], [5, 7, 0]) == [7, 7, 5] && Apply(exec, [read, create], [5, 7, 0]) == [7, 7, 7]
  {
    assert !StableAt(0, 1, 1, 2, 0, 0);
    var exec, read, create := BasicDevice(kernel), OpRead(0, 1, 1), OpCreate(0, 2, 1);
    assert Memcpy([5, 7, 0], 2, 0, 1) == [5, 7, 5] && Memcpy([5, 7, 5], 0, 1, 1) == [7, 7, 5];
    assert Memcpy([5, 7, 0], 0, 1, 1) == [7, 7, 0] && Memcpy([7, 7, 0], 2, 0, 1) == [7, 7, 7];
    assert exec(create, [5, 7, 0]) == [5, 7, 5] && exec(read, [5, 7, 5]) == [7, 7, 5];
    assert exec(read, [5, 7, 0]) == [7, 7, 0] && exec(create, [7, 7, 0]) == [7, 7, 7];
    assert [create, read][1..] == [read] && [read, create][1..] == [create];
    assert Apply(exec, [read], [5, 7, 5]) == Apply(exec, [], exec(read, [5, 7, 5]));
    assert Apply(exec, [create], [7, 7, 0]) == Apply(exec, [], exec(create, [7, 7, 0]));
  }

  /** A store that does not agree: overwriting the source of a pending write changes what the
      device receives. */
  lemma OverwrittenSourceShows(kernel: (Op, Memory) -> Memory)
    ensures !Agrees(1, 0, 1, 0, [7])
    ensures var exec, w, h := BasicDevice(kernel), OpWrite(0, 1, 1), HostStore(0, [7]);
      Apply(exec, [h, w], [5, 0]) == [7, 7] && Apply(exec, [w, h], [5, 0]) == [7, 5]
  {
    var exec, w, h := BasicDevice(kernel), OpWrite(0, 1, 1), HostStore(0, [7]);
    assert !SameAt(1, 0, 0, 0, [7]);
    assert Store([5, 0], 0, [7]) == [7, 0] && Memcpy([7, 0], 1, 0, 1) == [7, 7];
    assert Memcpy([5, 0], 1, 0, 1) == [5, 5] && Store([5, 5], 0, [7]) == [7, 5];
    assert exec(h, [5, 0]) == [7, 0] && exec(w, [7, 0]) == [7, 7];
    assert exec(w, [5, 0]) == [5, 5] && exec(h, [5, 5]) == [7, 5];
    assert [h, w][1..] == [w] && [w, h][1..] == [h];
    assert Apply(exec, [w], [7, 0]) == Apply(exec, [], exec(w, [7, 0]));
    assert Apply(exec, [h], [5, 5]) == Apply(exec, [], exec(h, [5, 5]));
  }
}
