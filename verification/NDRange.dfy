/** How clEnqueueNDRangeKernel splits an index space into work-groups, and the identifiers
    get_global_id gives to the work-items. */
module NDRange {
  import opened RefCounts

  datatype Triple = Triple(x: nat, y: nat, z: nat)

  /** What the launch records for the device (struct pocl_context). */
  datatype Context = Context(workDim: nat, groups: Triple, offset: Triple, global: Triple, local: Triple)

  datatype Device = Device(cpu: bool, maxDimensions: nat, maxGroupSize: nat, maxItemSizes: seq<nat>)

  datatype Code = InvalidWorkDimension | InvalidGlobalWorkSize | InvalidWorkGroupSize | InvalidWorkItemSize | InvalidEventWaitList

  datatype Outcome = Launch(pc: Context) | Error(code: Code) | DividesByZero

  predicate Positive(t: Triple) { t.x > 0 && t.y > 0 && t.z > 0 }

  predicate Divides(d: nat, n: nat) { d > 0 && n % d == 0 }

  predicate Exact(local: Triple, global: Triple) {
    Divides(local.x, global.x) && Divides(local.y, global.y) && Divides(local.z, global.z)
  }

  // ----- the search for a work-group size -----

  /** The k-th size tried: the preferred multiple halved k times, rounding down each time. */
  function Halved(m: nat, k: nat): nat { if k == 0 then m else Halved(m, k - 1) / 2 }

  predicate Fits(size: nat, globalX: nat) { Divides(size, globalX) && size <= globalX }

  /** `size` is the k-th size tried and the first, hence the largest, that fits. */
  predicate FirstFit(m: nat, globalX: nat, size: nat, k: nat) {
    size == Halved(m, k) && Fits(size, globalX) && forall j :: 0 <= j < k ==> !Fits(Halved(m, j), globalX)
  }

  /** The loop taken when the application gives no local size. */
  method ChooseLocal(multiple: Option<nat>, globalX: nat) returns (localX: nat)
    requires globalX > 0
    ensures Fits(localX, globalX)
    ensures multiple == None || multiple == Some(0) ==> localX == 1
    ensures multiple.Some? && multiple.value > 0 ==> exists k :: FirstFit(multiple.value, globalX, localX, k)
  {
    localX := 1;
    if multiple.Some? {
      var m := multiple.value;
      ghost var k := 0;
      while m >= 1
        invariant m == Halved(multiple.value, k)
        invariant forall j :: 0 <= j < k ==> !Fits(Halved(multiple.value, j), globalX)
        invariant multiple.value > 0 ==> m > 0
      {
        if globalX % m == 0 && m <= globalX {
          localX := m;
          assert FirstFit(multiple.value, globalX, localX, k);
          break;
        }
        m, k := m / 2, k + 1;
      }
    }
  }

  lemma {:induction false} HalvedShrinks(m: nat, j: nat, k: nat)
    requires j <= k
    ensures Halved(m, k) <= Halved(m, j)
    decreases k
  {
    if j < k { HalvedShrinks(m, j, k - 1); }
  }

  /** Among the sizes tried, the chosen one is the largest that fits; there is only one choice. */
  lemma FirstFitLargest(m: nat, globalX: nat, size: nat, k: nat)
    requires FirstFit(m, globalX, size, k)
    ensures forall j: nat :: Fits(Halved(m, j), globalX) ==> Halved(m, j) <= size
    ensures forall other: nat, j: nat :: FirstFit(m, globalX, other, j) ==> other == size
  {
    forall j: nat | Fits(Halved(m, j), globalX) ensures Halved(m, j) <= size {
      assert k <= j;
      HalvedShrinks(m, k, j);
    }
    forall other: nat, j: nat | FirstFit(m, globalX, other, j) ensures other == size {
      assert j == k;
    }
  }

  function Pow2(n: nat): nat { if n == 0 then 1 else 2 * Pow2(n - 1) }

  lemma {:induction false} HalvedPow2(n: nat, k: nat)
    requires k <= n
    ensures Halved(Pow2(n), k) == Pow2(n - k)
    decreases k
  {
    if k > 0 { HalvedPow2(n, k - 1); }
  }

  lemma TwoStep(d: nat, e: nat, q: nat, p: nat)
    requires d == 2 * e && d * q == 2 * p
    ensures e * q == p
  {
    assert 2 * (e * q) == d * q;
  }

  lemma OddQuotient(d: nat, q: nat, p: nat)
    requires d % 2 == 1 && d * q == 2 * p
    ensures q % 2 == 0
  {
    var a := d / 2;
    assert (2 * a + 1) * q == 2 * (a * q) + q;
  }

  /** The divisors of a power of two are the smaller powers of two. */
  lemma {:induction false} Pow2Divisor(n: nat, d: nat, q: nat) returns (i: nat)
    requires d * q == Pow2(n)
    ensures i <= n && d == Pow2(i)
    decreases n
  {
    if n == 0 {
      Larger(d, q);
      i := 0;
    } else if d % 2 == 0 {
      TwoStep(d, d / 2, q, Pow2(n - 1));
      i := Pow2Divisor(n - 1, d / 2, q);
      i := i + 1;
    } else {
      OddQuotient(d, q, Pow2(n - 1));
      TwoStep(q, q / 2, d, Pow2(n - 1));
      i := Pow2Divisor(n - 1, d, q / 2);
    }
  }

  lemma Larger(d: nat, q: nat)
    requires q != 0
    ensures d * q >= d
  {
  }

  /** A common divisor of a power of two and the global size is one of the sizes tried. */
  lemma CommonDivisorTried(n: nat, globalX: nat, d: nat) returns (j: nat)
    requires globalX > 0 && Divides(d, Pow2(n)) && Divides(d, globalX)
    ensures j <= n && Halved(Pow2(n), j) == d && Fits(d, globalX)
  {
    var i := Pow2Divisor(n, d, Pow2(n) / d);
    HalvedPow2(n, n - i);
    DivisorSmall(d, globalX);
    j := n - i;
  }

  /** For a preferred multiple that is a power of two the search finds the greatest common
      divisor of the multiple and the global size. */
  lemma GreatestCommonDivisor(n: nat, globalX: nat, size: nat, k: nat, d: nat)
    requires globalX > 0 && FirstFit(Pow2(n), globalX, size, k)
    requires Divides(d, Pow2(n)) && Divides(d, globalX)
    ensures d <= size && Divides(size, Pow2(n)) && Divides(size, globalX)
  {
    hide Divides, Pow2, Halved;
    var j := CommonDivisorTried(n, globalX, d);
    FirstFitLargest(Pow2(n), globalX, size, k);
    assert k <= j;
    HalvedPow2(n, k);
    Pow2Divides(n, n - k);
  }

  lemma DivisorSmall(d: nat, n: nat)
    requires Divides(d, n) && n > 0
    ensures d <= n
  {
    if d > n { SmallMod(n, d); }
  }

  lemma SmallMod(n: nat, d: nat)
    requires n < d
    ensures n % d == n && n / d == 0
  {
  }

  lemma {:induction false} Pow2Positive(n: nat)
    ensures Pow2(n) > 0
  {
    if n > 0 { Pow2Positive(n - 1); }
  }

  lemma {:induction false} Pow2Divides(n: nat, i: nat)
    requires i <= n
    ensures Divides(Pow2(i), Pow2(n))
    decreases n
  {
    Pow2Positive(i);
    if i < n {
      Pow2Divides(n - 1, i);
      var d, q := Pow2(i), Pow2(n - 1) / Pow2(i);
      assert Pow2(n - 1) == d * q;
      assert Pow2(n) == d * (2 * q) + 0 by { assert d * (2 * q) == 2 * (d * q); }
      DivMod(d, 2 * q, 0);
    } else {
      assert Pow2(n) == Pow2(i) * 1 + 0;
      DivMod(Pow2(i), 1, 0);
    }
  }

  // ----- when the search finds the greatest common divisor -----

  predicate CommonDivisor(d: nat, m: nat, globalX: nat) { Divides(d, m) && Divides(d, globalX) }

  ghost predicate Greatest(size: nat, m: nat, globalX: nat) {
    CommonDivisor(size, m, globalX) && forall d: nat {:trigger CommonDivisor(d, m, globalX)} :: CommonDivisor(d, m, globalX) ==> d <= size
  }

  /** Halving m exactly, as long as it goes, yields precisely the divisors of m. */
  ghost predicate HalvingsAreDivisors(m: nat) {
    (forall k: nat :: Halved(m, k) > 0 ==> Divides(Halved(m, k), m))
    && forall d {:trigger Divides(d, m)} :: Divides(d, m) ==> exists k: nat :: Halved(m, k) == d
  }

  lemma {:induction false} HalvedStrictly(m: nat, k: nat)
    requires Halved(m, k) > 0
    ensures forall j :: 0 <= j < k ==> Halved(m, j) > Halved(m, k)
    decreases k
  {
    if k > 0 { HalvedStrictly(m, k - 1); }
  }

  /** One is among the sizes tried, and from there on nothing positive is. */
  lemma {:induction false} OneIsTried(m: nat, k: nat) returns (j: nat)
    requires Halved(m, k) > 0
    ensures Halved(m, j) == 1
    decreases Halved(m, k)
  {
    if Halved(m, k) == 1 { j := k; } else { j := OneIsTried(m, k + 1); }
  }

  /** The search always ends. */
  lemma SomeFit(m: nat, globalX: nat, from: nat, one: nat) returns (size: nat, k: nat)
    requires from <= one && Fits(Halved(m, one), globalX) && forall j :: 0 <= j < from ==> !Fits(Halved(m, j), globalX)
    ensures FirstFit(m, globalX, size, k)
    decreases one - from
  {
    if Fits(Halved(m, from), globalX) { size, k := Halved(m, from), from; }
    else { size, k := SomeFit(m, globalX, from + 1, one); }
  }

  lemma SearchEnds(m: nat, globalX: nat) returns (size: nat, k: nat)
    requires m > 0 && globalX > 0
    ensures FirstFit(m, globalX, size, k)
  {
    var one := OneIsTried(m, 0);
    size, k := SomeFit(m, globalX, 0, one);
  }

  /** The search finds the greatest common divisor of m and every global size. */
  ghost predicate FindsGreatest(m: nat) {
    forall globalX: nat, size: nat, k: nat :: globalX > 0 && FirstFit(m, globalX, size, k) ==> Greatest(size, m, globalX)
  }

  lemma FindsWhenDivisors(m: nat)
    requires m > 0 && HalvingsAreDivisors(m)
    ensures FindsGreatest(m)
  {
    forall globalX: nat, size: nat, k: nat | globalX > 0 && FirstFit(m, globalX, size, k) ensures Greatest(size, m, globalX) {
      forall d: nat | CommonDivisor(d, m, globalX) ensures d <= size {
        var j: nat :| Halved(m, j) == d;
        DivisorSmall(d, globalX);
        FirstFitLargest(m, globalX, size, k);
      }
    }
  }

  /** A halving that does not divide m is chosen for itself as global size. */
  lemma StrayHalving(m: nat, k: nat)
    requires m > 0 && Halved(m, k) > 0 && !Divides(Halved(m, k), m)
    ensures !FindsGreatest(m)
  {
    var g := Halved(m, k);
    HalvedStrictly(m, k);
    assert g % g == 0;
    assert FirstFit(m, g, g, k);
    assert !CommonDivisor(g, m, g);
  }

  /** A divisor of m that is no halving is missed for itself as global size. */
  lemma MissedDivisor(m: nat, d: nat)
    requires m > 0 && Divides(d, m) && forall k: nat :: Halved(m, k) != d
    ensures !FindsGreatest(m)
  {
    var size, k := SearchEnds(m, d);
    assert size != d && size <= d;
    assert d % d == 0;
    assert CommonDivisor(d, m, d);
    assert !Greatest(size, m, d);
  }

  /** For every preferred multiple: the search finds the greatest common divisor for all global
      sizes exactly when the halvings of the multiple are its divisors. */
  lemma FindsGreatestIff(m: nat)
    requires m > 0
    ensures FindsGreatest(m) <==> HalvingsAreDivisors(m)
  {
    hide Divides, Halved, FirstFit, Greatest;
    if HalvingsAreDivisors(m) {
      FindsWhenDivisors(m);
    } else if k: nat :| Halved(m, k) > 0 && !Divides(Halved(m, k), m) {
      StrayHalving(m, k);
    } else {
      var d :| Divides(d, m) && forall k: nat :: Halved(m, k) != d;
      MissedDivisor(m, d);
    }
  }

  /** 6 and 4 share 2, but the sizes tried are 6, 3 and 1. */
  lemma MissesCommonDivisor()
    ensures FirstFit(6, 4, 1, 2) && CommonDivisor(2, 6, 4) && !HalvingsAreDivisors(6)
  {
    assert Halved(6, 1) == 3 && Halved(6, 2) == 1 && Halved(6, 3) == 0;
    forall k: nat ensures Halved(6, k) != 2 {
      if k > 3 { HalvedShrinks(6, 3, k); }
    }
    assert Divides(2, 6);
  }

  // ----- the checks and the split -----

  function Padded(s: seq<nat>, missing: nat): Triple
    requires 1 <= |s| <= 3
  {
    Triple(s[0], if |s| > 1 then s[1] else missing, if |s| > 2 then s[2] else missing)
  }

  /** One number for each dimension, and 1 for those that are not given. */
  predicate Sizes(t: Triple, s: seq<nat>) {
    1 <= |s| <= 3 && t.x == s[0] && t.y == (if |s| > 1 then s[1] else 1) && t.z == (if |s| > 2 then s[2] else 1)
  }

  /** Dimensions beyond work_dim get offset 1 when offsets are given, 0 when not. */
  function Offset(offset: Option<seq<nat>>): Triple
    requires offset.Some? ==> 1 <= |offset.value| <= 3
  {
    if offset.Some? then Padded(offset.value, 1) else Triple(0, 0, 0)
  }

  function Product(t: Triple): nat { t.x * t.y * t.z }

  predicate ItemsFit(d: Device, workDim: nat, local: Triple)
    requires 1 <= workDim <= |d.maxItemSizes|
  {
    local.x <= d.maxItemSizes[0]
    && (workDim > 1 ==> local.y <= d.maxItemSizes[1])
    && (workDim > 2 ==> local.z <= d.maxItemSizes[2])
  }

  predicate WaitListOk(given: bool, count: nat) { given <==> count > 0 }

  /** The first local size that does not divide its global size is zero: the remainder by zero
      is evaluated. */
  predicate HitsZero(local: Triple, global: Triple) {
    local.x == 0
    || (Divides(local.x, global.x) && (local.y == 0 || (Divides(local.y, global.y) && local.z == 0)))
  }

  /** The local size a launch uses: the one it is given, or the result of the search. */
  ghost predicate Chosen(local: Option<seq<nat>>, multiple: Option<nat>, globalX: nat, chosen: Triple)
    requires local.Some? ==> 1 <= |local.value| <= 3
  {
    if local.Some? then Sizes(chosen, local.value)
    else
      chosen == Triple(chosen.x, 1, 1) && Fits(chosen.x, globalX)
      && (if multiple.Some? && multiple.value > 0 then exists k :: FirstFit(multiple.value, globalX, chosen.x, k) else chosen.x == 1)
  }

  /** The outcome of a launch over `global` in groups of `local`. */
  predicate Decides(d: Device, workDim: nat, global: Triple, local: Triple, waitGiven: bool, waitCount: nat, o: Outcome)
    requires 1 <= workDim <= |d.maxItemSizes|
  {
    var small := Product(local) <= d.maxGroupSize;
    var fits := small && ItemsFit(d, workDim, local);
    (o.Launch? <==> Positive(local) && (d.cpu ==> fits && Exact(local, global) && WaitListOk(waitGiven, waitCount)))
    && (o == DividesByZero <==> if d.cpu then fits && HitsZero(local, global) else !Positive(local))
    && (o == Error(InvalidWorkItemSize) <==> d.cpu && small && !fits)
    && (o == Error(InvalidEventWaitList) <==> d.cpu && fits && Exact(local, global) && !WaitListOk(waitGiven, waitCount))
    && (o == Error(InvalidWorkGroupSize) <==> d.cpu && (!small || (fits && !HitsZero(local, global) && !Exact(local, global))))
  }

  /** The local size is refused or divided by, in the order the code tests it; other devices than
      CPUs skip the tests. */
  method CheckLocal(d: Device, workDim: nat, global: Triple, local: Triple, waitGiven: bool, waitCount: nat) returns (o: Option<Outcome>)
    requires 1 <= workDim <= d.maxDimensions <= 3 && |d.maxItemSizes| == d.maxDimensions
    ensures !d.cpu ==> o == None
    ensures o.Some? ==> !o.value.Launch? && Decides(d, workDim, global, local, waitGiven, waitCount, o.value)
    ensures d.cpu && o == None ==> Positive(local) && Exact(local, global)
    ensures d.cpu && o == None ==>
      forall pc :: Decides(d, workDim, global, local, waitGiven, waitCount, Launch(pc))
  {
    if !d.cpu { return None; }
    if local.x * local.y * local.z > d.maxGroupSize { return Some(Error(InvalidWorkGroupSize)); }
    if local.x > d.maxItemSizes[0] || (workDim > 1 && local.y > d.maxItemSizes[1]) || (workDim > 2 && local.z > d.maxItemSizes[2]) {
      return Some(Error(InvalidWorkItemSize));
    }
    if local.x == 0 { return Some(DividesByZero); }
    if global.x % local.x != 0 { return Some(Error(InvalidWorkGroupSize)); }
    if local.y == 0 { return Some(DividesByZero); }
    if global.y % local.y != 0 { return Some(Error(InvalidWorkGroupSize)); }
    if local.z == 0 { return Some(DividesByZero); }
    if global.z % local.z != 0 { return Some(Error(InvalidWorkGroupSize)); }
    if (!waitGiven && waitCount > 0) || (waitGiven && waitCount == 0) { return Some(Error(InvalidEventWaitList)); }
    return None;
  }

  /** The launch splits the index space it was given. */
  predicate SplitOf(pc: Context, offset: Option<seq<nat>>, global: seq<nat>)
    requires 1 <= |global| <= 3
    requires offset.Some? ==> 1 <= |offset.value| <= 3
  {
    pc.workDim == |global| && Sizes(pc.global, global)
    && (offset.Some? ==> Sizes(pc.offset, offset.value)) && (offset.None? ==> pc.offset == Triple(0, 0, 0))
    && Positive(pc.global) && Positive(pc.local)
    && pc.groups == Triple(pc.global.x / pc.local.x, pc.global.y / pc.local.y, pc.global.z / pc.local.z)
  }

  /** clEnqueueNDRangeKernel up to the point where the command is filled in. */
  method Prepare(d: Device, workDim: nat, offset: Option<seq<nat>>, global: seq<nat>, local: Option<seq<nat>>,
                 multiple: Option<nat>, waitGiven: bool, waitCount: nat) returns (o: Outcome, ghost chosen: Triple)
    requires d.maxDimensions <= 3 && |d.maxItemSizes| == d.maxDimensions
    requires |global| == workDim && (offset.Some? ==> |offset.value| == workDim) && (local.Some? ==> |local.value| == workDim)
    ensures o == Error(InvalidWorkDimension) <==> !(1 <= workDim <= d.maxDimensions)
    ensures o == Error(InvalidGlobalWorkSize) <==> 1 <= workDim <= d.maxDimensions && 0 in global
    ensures 1 <= workDim <= d.maxDimensions && 0 !in global ==>
      Chosen(local, multiple, global[0], chosen)
      && forall all :: Sizes(all, global) ==> Decides(d, workDim, all, chosen, waitGiven, waitCount, o)
    ensures o.Launch? ==> 1 <= workDim <= 3 && SplitOf(o.pc, offset, global) && o.pc.local == chosen
    ensures o.Launch? && (d.cpu || local.None?) ==> Exact(o.pc.local, o.pc.global)
  {
    chosen := Triple(1, 1, 1);
    if workDim < 1 || workDim > d.maxDimensions { return Error(InvalidWorkDimension), chosen; }
    var globals := Padded(global, 1);
    if globals.x == 0 || globals.y == 0 || globals.z == 0 { return Error(InvalidGlobalWorkSize), chosen; }
    var locals;
    if local.Some? {
      locals := Padded(local.value, 1);
    } else {
      var x := ChooseLocal(multiple, globals.x);
      locals := Triple(x, 1, 1);
    }
    chosen := locals;
    var refused := CheckLocal(d, workDim, globals, locals, waitGiven, waitCount);
    if refused.Some? { return refused.value, chosen; }
    if !Positive(locals) { return DividesByZero, chosen; }
    var groups := Triple(globals.x / locals.x, globals.y / locals.y, globals.z / locals.z);
    return Launch(Context(workDim, groups, Offset(offset), globals, locals)), chosen;
  }

  // ----- work-item identifiers -----

  /** get_global_id inside work-item `item` of work-group `group`. */
  function GetGlobalId(pc: Context, group: Triple, item: Triple, dimension: nat): nat {
    match dimension
    case 0 => pc.offset.x + pc.local.x * group.x + item.x
    case 1 => pc.offset.y + pc.local.y * group.y + item.y
    case 2 => pc.offset.z + pc.local.z * group.z + item.z
    case _ => 0
  }

  function GlobalId(pc: Context, group: Triple, item: Triple): Triple {
    Triple(GetGlobalId(pc, group, item, 0), GetGlobalId(pc, group, item, 1), GetGlobalId(pc, group, item, 2))
  }

  predicate Below(a: Triple, b: Triple) { a.x < b.x && a.y < b.y && a.z < b.z }

  /** The point lies in the box that starts at the offset and has the global size. */
  predicate InBox(pc: Context, id: Triple) {
    pc.offset.x <= id.x < pc.offset.x + pc.global.x
    && pc.offset.y <= id.y < pc.offset.y + pc.global.y
    && pc.offset.z <= id.z < pc.offset.z + pc.global.z
  }

  /** The group and the item of a point of the box. */
  function GroupOf(pc: Context, id: Triple): Triple
    requires Positive(pc.local) && InBox(pc, id)
  {
    Triple((id.x - pc.offset.x) / pc.local.x, (id.y - pc.offset.y) / pc.local.y, (id.z - pc.offset.z) / pc.local.z)
  }

  function ItemOf(pc: Context, id: Triple): Triple
    requires Positive(pc.local) && InBox(pc, id)
  {
    Triple((id.x - pc.offset.x) % pc.local.x, (id.y - pc.offset.y) % pc.local.y, (id.z - pc.offset.z) % pc.local.z)
  }

  lemma DivMod(l: nat, g: nat, i: nat)
    requires i < l
    ensures (l * g + i) / l == g && (l * g + i) % l == i
  {
    var n := l * g + i;
    assert n == l * (n / l) + n % l;
    assert l * (g - n / l) == n % l - i;
    if g > n / l { assert l * (g - n / l) >= l by { Larger(l, g - n / l); } }
    if g < n / l { assert l * (n / l - g) >= l by { Larger(l, n / l - g); } }
  }

  lemma Monotone(l: nat, a: nat, b: nat)
    requires a <= b
    ensures l * a <= l * b
  {
  }

  /** One dimension: a work-item's position is below the global size. */
  lemma Inside(l: nat, n: nat, g: nat, i: nat)
    requires l > 0 && i < l && g < n / l
    ensures l * g + i < n
  {
    Monotone(l, g + 1, n / l);
    assert l * (g + 1) == l * g + l;
    assert n == l * (n / l) + n % l;
  }

  lemma InsideGroup(l: nat, n: nat, p: nat)
    requires Divides(l, n) && p < n
    ensures p / l < n / l
  {
    assert n == l * (n / l) && p == l * (p / l) + p % l;
    if p / l >= n / l { Monotone(l, n / l, p / l); }
  }

  ghost predicate Split(pc: Context) {
    Positive(pc.local)
    && pc.groups == Triple(pc.global.x / pc.local.x, pc.global.y / pc.local.y, pc.global.z / pc.local.z)
  }

  /** Every work-item of a launch gets a point of the box, and the point determines it. */
  lemma WorkItemInBox(pc: Context, group: Triple, item: Triple)
    requires Split(pc) && Below(group, pc.groups) && Below(item, pc.local)
    ensures InBox(pc, GlobalId(pc, group, item))
    ensures GroupOf(pc, GlobalId(pc, group, item)) == group && ItemOf(pc, GlobalId(pc, group, item)) == item
  {
    Inside(pc.local.x, pc.global.x, group.x, item.x);
    Inside(pc.local.y, pc.global.y, group.y, item.y);
    Inside(pc.local.z, pc.global.z, group.z, item.z);
    DivMod(pc.local.x, group.x, item.x);
    DivMod(pc.local.y, group.y, item.y);
    DivMod(pc.local.z, group.z, item.z);
    var id := GlobalId(pc, group, item);
    assert id.x - pc.offset.x == pc.local.x * group.x + item.x;
    assert id.y - pc.offset.y == pc.local.y * group.y + item.y;
    assert id.z - pc.offset.z == pc.local.z * group.z + item.z;
  }

  lemma RoundTrip(l: nat, p: nat)
    requires l > 0
    ensures l * (p / l) + p % l == p && p % l < l
  {
  }

  /** When the local sizes divide the global sizes every point of the box is some work-item's. */
  lemma PointIsWorkItem(pc: Context, id: Triple)
    requires Split(pc) && Exact(pc.local, pc.global) && InBox(pc, id)
    ensures Below(GroupOf(pc, id), pc.groups) && Below(ItemOf(pc, id), pc.local)
    ensures GlobalId(pc, GroupOf(pc, id), ItemOf(pc, id)) == id
  {
    InsideGroup(pc.local.x, pc.global.x, id.x - pc.offset.x);
    InsideGroup(pc.local.y, pc.global.y, id.y - pc.offset.y);
    InsideGroup(pc.local.z, pc.global.z, id.z - pc.offset.z);
    RoundTrip(pc.local.x, id.x - pc.offset.x);
    RoundTrip(pc.local.y, id.y - pc.offset.y);
    RoundTrip(pc.local.z, id.z - pc.offset.z);
  }

  ghost predicate Reached(pc: Context, id: Triple) {
    exists group, item :: Below(group, pc.groups) && Below(item, pc.local) && GlobalId(pc, group, item) == id
  }

  lemma LastMissed(l: nat, n: nat, g: nat, i: nat)
    requires l > 0 && n > 0 && i < l && g < n / l && l * g + i == n - 1
    ensures Divides(l, n)
  {
    Monotone(l, g + 1, n / l);
    assert l * (g + 1) == l * g + l;
    assert n == l * (n / l) + n % l;
  }

  /** The work-items cover the box exactly when the local sizes divide the global sizes. On a
      CPU the checks ensure it; elsewhere the split truncates and the rest is never run. */
  lemma CoversIffExact(pc: Context)
    requires Split(pc) && Positive(pc.global)
    ensures (forall id :: InBox(pc, id) ==> Reached(pc, id)) <==> Exact(pc.local, pc.global)
  {
    if Exact(pc.local, pc.global) {
      forall id | InBox(pc, id) ensures Reached(pc, id) { PointIsWorkItem(pc, id); }
    }
    if forall id :: InBox(pc, id) ==> Reached(pc, id) {
      var last := Triple(pc.offset.x + pc.global.x - 1, pc.offset.y + pc.global.y - 1, pc.offset.z + pc.global.z - 1);
      assert InBox(pc, last);
      var group, item :| Below(group, pc.groups) && Below(item, pc.local) && GlobalId(pc, group, item) == last;
      LastMissed(pc.local.x, pc.global.x, group.x, item.x);
      LastMissed(pc.local.y, pc.global.y, group.y, item.y);
      LastMissed(pc.local.z, pc.global.z, group.z, item.z);
    }
  }

  /** On an accelerator ten points in groups of four are split into two groups, and the last two are never run. */
  lemma TruncatedSplitMisses()
    ensures var pc := Context(1, Triple(2, 1, 1), Triple(0, 0, 0), Triple(10, 1, 1), Triple(4, 1, 1));
      Split(pc) && InBox(pc, Triple(9, 0, 0)) && !Reached(pc, Triple(9, 0, 0))
  {
  }
}
