/** The bounds test of the three rectangle calls, and what addresses a rectangle has. */
module Rect {

  datatype Vec = Vec(x: nat, y: nat, z: nat)

  /** Where a rectangle lies in one of its two places. */
  datatype Side = Side(origin: Vec, rowPitch: nat, slicePitch: nat)

  /** The geometry of a rectangle call: the buffer, or the source of a copy, comes first; host
      memory, or the destination, second. */
  datatype Shape = Shape(region: Vec, first: Side, second: Side)

  /** Where one byte of a rectangle lies. */
  function Address(s: Side, p: Vec): nat {
    s.origin.x + p.x + s.rowPitch * (s.origin.y + p.y) + s.slicePitch * (s.origin.z + p.z)
  }

  predicate InRegion(region: Vec, p: Vec) { p.x < region.x && p.y < region.y && p.z < region.z }

  /** The test as the code has it: only the far corner is compared, and only when the region is
      not empty. */
  predicate CornerFits(s: Side, region: Vec, size: nat) {
    !(region.x * region.y * region.z > 0
      && s.origin.x + region.x - 1 + s.rowPitch * (s.origin.y + region.y - 1) + s.slicePitch * (s.origin.z + region.z - 1) >= size)
  }

  lemma MulMonotone(c: nat, a: nat, b: nat)
    requires a <= b
    ensures c * a <= c * b
  {
  }

  lemma NonEmpty(region: Vec)
    ensures region.x * region.y * region.z > 0 <==> region.x > 0 && region.y > 0 && region.z > 0
  {
    var xy := region.x * region.y;
    assert xy > 0 <==> region.x > 0 && region.y > 0;
    assert xy * region.z > 0 <==> xy > 0 && region.z > 0;
  }

  /** The far corner has the largest address of the region. */
  lemma CornerIsLast(s: Side, region: Vec, p: Vec)
    requires InRegion(region, p)
    ensures Address(s, p) <= Address(s, Vec(region.x - 1, region.y - 1, region.z - 1))
  {
    MulMonotone(s.rowPitch, s.origin.y + p.y, s.origin.y + region.y - 1);
    MulMonotone(s.slicePitch, s.origin.z + p.z, s.origin.z + region.z - 1);
  }

  /** The corner test accepts a rectangle exactly when every byte of it lies in the buffer. */
  lemma CornerFitsIff(s: Side, region: Vec, size: nat)
    ensures CornerFits(s, region, size) <==> forall p :: InRegion(region, p) ==> Address(s, p) < size
  {
    NonEmpty(region);
    if InRegion(region, Vec(0, 0, 0)) {
      var corner := Vec(region.x - 1, region.y - 1, region.z - 1);
      assert CornerFits(s, region, size) <==> Address(s, corner) < size;
      assert InRegion(region, corner);
      forall p | InRegion(region, p) ensures Address(s, p) <= Address(s, corner) {
        CornerIsLast(s, region, p);
      }
    }
  }

  // ----- distinct addresses -----

  ghost predicate Distinct(s: Side, region: Vec) {
    forall p, r :: InRegion(region, p) && InRegion(region, r) && Address(s, p) == Address(s, r) ==> p == r
  }

  /** How far one slice reaches before the next may start. */
  function Extent(s: Side, region: Vec): nat {
    if region.y <= 1 then region.x else region.y * s.rowPitch
  }

  /** Rows are apart, and so are slices. */
  predicate WidePitches(s: Side, region: Vec) {
    (region.y <= 1 || region.x <= s.rowPitch) && (region.z <= 1 || Extent(s, region) <= s.slicePitch)
  }

  /** Slices consist of whole rows; it matters only when there are several of both. */
  predicate WholeRows(s: Side, region: Vec) {
    region.y > 1 && region.z > 1 && s.rowPitch > 0 ==> s.slicePitch % s.rowPitch == 0
  }

  lemma Gap(c: nat, a: nat, b: nat)
    requires a < b
    ensures c * a + c <= c * b
  {
    MulMonotone(c, a + 1, b);
    assert c * (a + 1) == c * a + c;
  }

  /** Positions in a slice are below its extent. */
  lemma InSlice(s: Side, region: Vec, p: Vec)
    requires InRegion(region, p) && (region.y <= 1 || region.x <= s.rowPitch)
    ensures p.x + s.rowPitch * p.y < Extent(s, region)
  {
    if region.y > 1 {
      Gap(s.rowPitch, p.y, region.y);
      assert s.rowPitch * region.y == region.y * s.rowPitch;
    } else {
      assert s.rowPitch * p.y == 0;
    }
  }

  /** Position relative to the first byte of the region. */
  function Relative(s: Side, p: Vec): nat { p.x + s.rowPitch * p.y + s.slicePitch * p.z }

  lemma AddressRelative(s: Side, p: Vec)
    ensures Address(s, p) == Address(s, Vec(0, 0, 0)) + Relative(s, p)
  {
    assert s.rowPitch * (s.origin.y + p.y) == s.rowPitch * s.origin.y + s.rowPitch * p.y;
    assert s.slicePitch * (s.origin.z + p.z) == s.slicePitch * s.origin.z + s.slicePitch * p.z;
    assert s.rowPitch * (s.origin.y + 0) == s.rowPitch * s.origin.y && s.slicePitch * (s.origin.z + 0) == s.slicePitch * s.origin.z;
  }

  lemma SliceApart(s: Side, region: Vec, p: Vec, r: Vec)
    requires WidePitches(s, region) && InRegion(region, p) && InRegion(region, r) && p.z < r.z
    ensures Relative(s, p) < Relative(s, r)
  {
    InSlice(s, region, p);
    Gap(s.slicePitch, p.z, r.z);
    MulMonotone(s.rowPitch, 0, r.y);
  }

  lemma RowApart(s: Side, region: Vec, p: Vec, r: Vec)
    requires WidePitches(s, region) && InRegion(region, p) && InRegion(region, r) && p.z == r.z && p.y < r.y
    ensures Relative(s, p) < Relative(s, r)
  {
    Gap(s.rowPitch, p.y, r.y);
  }

  /** With wide pitches no two bytes of a rectangle share an address. */
  lemma WideIsDistinct(s: Side, region: Vec)
    requires WidePitches(s, region)
    ensures Distinct(s, region)
  {
    hide Address, InRegion, WidePitches;
    forall p, r | InRegion(region, p) && InRegion(region, r) && Address(s, p) == Address(s, r) ensures p == r {
      AddressRelative(s, p);
      AddressRelative(s, r);
      if p.z < r.z { SliceApart(s, region, p, r); }
      if r.z < p.z { SliceApart(s, region, r, p); }
      if p.z == r.z && p.y < r.y { RowApart(s, region, p, r); }
      if p.z == r.z && r.y < p.y { RowApart(s, region, r, p); }
    }
  }

  /** Two different bytes at the same place. */
  lemma Clash(s: Side, region: Vec, p: Vec, r: Vec)
    requires InRegion(region, p) && InRegion(region, r) && p != r && Relative(s, p) == Relative(s, r)
    ensures !Distinct(s, region)
  {
    AddressRelative(s, p);
    AddressRelative(s, r);
  }

  /** With narrow pitches two bytes do. */
  lemma NarrowClashes(s: Side, region: Vec)
    requires InRegion(region, Vec(0, 0, 0)) && WholeRows(s, region) && !WidePitches(s, region)
    ensures !Distinct(s, region)
  {
    hide Distinct, Extent;
    if region.y > 1 && s.rowPitch < region.x {
      Clash(s, region, Vec(s.rowPitch, 0, 0), Vec(0, 1, 0));
    } else if region.y <= 1 {
      assert s.slicePitch < region.x by { ExtentCases(s, region); }
      Clash(s, region, Vec(s.slicePitch, 0, 0), Vec(0, 0, 1));
    } else {
      var k := s.slicePitch / s.rowPitch;
      assert s.slicePitch == s.rowPitch * k;
      assert k < region.y by {
        ExtentCases(s, region);
        if k >= region.y { MulMonotone(s.rowPitch, region.y, k); }
      }
      Clash(s, region, Vec(0, k, 0), Vec(0, 0, 1));
    }
  }

  lemma ExtentCases(s: Side, region: Vec)
    ensures Extent(s, region) == if region.y <= 1 then region.x else s.rowPitch * region.y
  {
  }

  /** The bytes of a non-empty rectangle have distinct addresses exactly when its pitches are
      wide. */
  lemma AddressesDistinctIff(s: Side, region: Vec)
    requires InRegion(region, Vec(0, 0, 0)) && WholeRows(s, region)
    ensures Distinct(s, region) <==> WidePitches(s, region)
  {
    hide Distinct, WholeRows;
    if WidePitches(s, region) { WideIsDistinct(s, region); } else { NarrowClashes(s, region); }
  }

  /** Pitch zero, for which OpenCL says the packed pitch is meant, is passed on as it is: a
      rectangle of two rows is accepted by a buffer that holds one, and the rows coincide. */
  lemma ZeroPitchOverlaps()
    ensures var s := Side(Vec(0, 0, 0), 0, 0);
      CornerFits(s, Vec(2, 2, 1), 2) && !Distinct(s, Vec(2, 2, 1))
  {
    var s := Side(Vec(0, 0, 0), 0, 0);
    Clash(s, Vec(2, 2, 1), Vec(0, 0, 0), Vec(0, 1, 0));
  }

  /** Without whole rows slices may interleave and bytes stay distinct: rows of pitch 2 with one
      byte each, slices 1 apart. */
  lemma InterleavedSlices()
    ensures var s := Side(Vec(0, 0, 0), 2, 1);
      Distinct(s, Vec(1, 2, 2)) && !WidePitches(s, Vec(1, 2, 2)) && !WholeRows(s, Vec(1, 2, 2))
  {
  }

  // ----- the start the basic device computes -----

  /** Where the rectangle functions of the basic device put a byte: the slice offset is multiplied
      by the row pitch as well. */
  function DriverAddress(s: Side, p: Vec): nat {
    s.origin.x + s.rowPitch * (s.origin.y + s.slicePitch * s.origin.z) + s.rowPitch * p.y + s.slicePitch * p.z + p.x
  }

  lemma DriverOffset(s: Side, p: Vec)
    ensures DriverAddress(s, p) - Address(s, p) == s.slicePitch * s.origin.z * (s.rowPitch - 1)
  {
    var o := s.slicePitch * s.origin.z;
    assert s.rowPitch * (s.origin.y + o) == s.rowPitch * s.origin.y + s.rowPitch * o;
    assert s.rowPitch * (s.origin.y + p.y) == s.rowPitch * s.origin.y + s.rowPitch * p.y;
    assert s.slicePitch * (s.origin.z + p.z) == o + s.slicePitch * p.z;
    assert o * (s.rowPitch - 1) == s.rowPitch * o - o;
  }

  /** The driver's addresses are the tested ones exactly when the rectangle starts in the first
      slice, or the slice pitch is zero, or the row pitch is one. */
  lemma DriverAddressIff(s: Side, p: Vec)
    ensures DriverAddress(s, p) == Address(s, p) <==> s.origin.z == 0 || s.slicePitch == 0 || s.rowPitch == 1
  {
    DriverOffset(s, p);
    var o := s.slicePitch * s.origin.z;
    assert o == 0 <==> s.origin.z == 0 || s.slicePitch == 0;
    assert o * (s.rowPitch - 1) == 0 <==> o == 0 || s.rowPitch == 1;
  }

  /** A rectangle of one byte in the second slice of a buffer of eight bytes is accepted, and the
      driver addresses byte eight. */
  lemma DriverLeavesBuffer()
    ensures var s := Side(Vec(0, 0, 1), 2, 4);
      CornerFits(s, Vec(1, 1, 1), 8) && DriverAddress(s, Vec(0, 0, 0)) == 8
  {
  }

  /** The far corner has the driver's largest address as well. */
  lemma DriverCornerIsLast(s: Side, region: Vec, p: Vec)
    requires InRegion(region, p)
    ensures DriverAddress(s, p) <= DriverAddress(s, Vec(region.x - 1, region.y - 1, region.z - 1))
  {
    MulMonotone(s.rowPitch, p.y, region.y - 1);
    MulMonotone(s.slicePitch, p.z, region.z - 1);
  }

  /** The driver keeps a non-empty rectangle in the buffer exactly when its own address of the far
      corner is below the size; the test only looks at the tested address. */
  lemma DriverFitsIff(s: Side, region: Vec, size: nat)
    requires InRegion(region, Vec(0, 0, 0))
    ensures var corner := Vec(region.x - 1, region.y - 1, region.z - 1);
      (forall p :: InRegion(region, p) ==> DriverAddress(s, p) < size)
      <==> Address(s, corner) + s.slicePitch * s.origin.z * (s.rowPitch - 1) < size
  {
    hide Address, DriverAddress;
    var corner := Vec(region.x - 1, region.y - 1, region.z - 1);
    DriverOffset(s, corner);
    assert InRegion(region, corner);
    forall p | InRegion(region, p) ensures DriverAddress(s, p) <= DriverAddress(s, corner) {
      DriverCornerIsLast(s, region, p);
    }
  }
}
