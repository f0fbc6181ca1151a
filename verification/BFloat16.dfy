/** The conversion of a binary32 bit pattern to bfloat16: add just under half a unit, and one more when the kept part
    is odd. */
module BFloat16 {
  import FlatIndex

  type Bits32 = b: nat | b < 0x1_0000_0000
  type Bits16 = b: nat | b < 0x1_0000

  function FloatToBFloat16Bits(bits: Bits32): Bits16 {
    var lsb := (bits / 0x1_0000) % 2;
    var rounding := 0x7FFF + lsb;
    ((bits + rounding) % 0x1_0000_0000) / 0x1_0000
  }

  // ── What the patterns mean ───────────────────────────────────────────

  const Sign := 0x8000_0000
  /** The magnitude pattern of infinity; those above it are not numbers. */
  const Infinity := 0x7F80_0000

  function Magnitude(bits: Bits32): nat {
    bits % Sign
  }

  predicate IsNaN(bits: Bits32) {
    Magnitude(bits) > Infinity
  }

  /** The binary32 pattern of a bfloat16 pattern: the same number. */
  function Widen(b: Bits16): Bits32 {
    b * 0x1_0000
  }

  function Pow2(e: nat): (p: nat)
    ensures p > 0
  {
    if e == 0 then 1 else 2 * Pow2(e - 1)
  }

  /** The value of a magnitude pattern in units of the smallest subnormal. Infinity stands for the number one step
      above the largest finite one, as rounding to nearest treats it. */
  function Units(m: nat): nat {
    var e, f := m / 0x80_0000, m % 0x80_0000;
    if e == 0 then f else (0x80_0000 + f) * Pow2(e - 1)
  }

  /** The value of a bfloat16 magnitude. */
  function Value(a: nat): nat {
    Units(a * 0x1_0000)
  }

  function Distance(x: nat, y: nat): nat {
    if x <= y then y - x else x - y
  }

  /** Step between neighbouring patterns above the bfloat16 magnitude a. */
  function Step(a: nat): (s: nat)
    ensures s > 0
  {
    Pow2(if a < 128 then 0 else a / 128 - 1)
  }

  /** The value of the pattern r places after the bfloat16 magnitude a. */
  function Point(a: nat, r: nat): nat {
    Units(a * 0x1_0000 + r)
  }

  function Below(a: nat, r: nat): nat {
    r * Step(a)
  }

  function Above(a: nat, r: nat): nat
    requires r <= 0x1_0000
  {
    (0x1_0000 - r) * Step(a)
  }

  /** Between a bfloat16 magnitude and the next one, both ends included, the value is affine in the pattern, also when
      the next one starts a new binade. */
  lemma AffineOnBuckets(a: nat, r: nat)
    requires r <= 0x1_0000
    ensures Point(a, r) == Value(a) + Below(a, r)
  {
    var e, f := a / 128, (a % 128) * 0x1_0000;
    assert a * 0x1_0000 == e * 0x80_0000 + f;
    UnitsInBinade(e, f);
    PointInBinade(a, r, e, f);
    hide Units, Value;
    if e > 0 { Distribute(0x80_0000 + f, r, Step(a)); }
  }

  lemma PointInBinade(a: nat, r: nat, e: nat, f: nat)
    requires r <= 0x1_0000 && e == a / 128 && f == (a % 128) * 0x1_0000
    ensures Point(a, r) == if e == 0 then f + r else (0x80_0000 + f + r) * Pow2(e - 1)
  {
    if f + r < 0x80_0000 {
      UnitsInBinade(e, f + r);
    } else {
      UnitsInBinade(e + 1, 0);
    }
    hide Units;
    assert a * 0x1_0000 + r == if f + r < 0x80_0000 then e * 0x80_0000 + (f + r) else (e + 1) * 0x80_0000;
  }

  lemma UnitsInBinade(e: nat, f: nat)
    requires f < 0x80_0000
    ensures Units(e * 0x80_0000 + f) == if e == 0 then f else (0x80_0000 + f) * Pow2(e - 1)
  {
    var m := e * 0x80_0000 + f;
    assert m / 0x80_0000 == e && m % 0x80_0000 == f;
  }

  lemma Distribute(x: nat, y: nat, p: nat)
    ensures (x + y) * p == x * p + y * p
  {
  }

  /** Larger bfloat16 magnitudes are larger values. */
  lemma {:induction false} UnitsIncrease(a: nat, b: nat)
    requires a <= b
    ensures Value(a) + (b - a) <= Value(b)
  {
    if a < b {
      UnitsIncrease(a, b - 1);
      AffineOnBuckets(b - 1, 0x1_0000);
      assert (b - 1) * 0x1_0000 + 0x1_0000 == b * 0x1_0000;
    }
  }

  /** The magnitude that rounding picks, by the position of the pattern between its neighbours. */
  lemma RoundedMagnitude(bits: Bits32)
    requires !IsNaN(bits)
    ensures var m, q := Magnitude(bits), Magnitude(Widen(FloatToBFloat16Bits(bits)));
            var a, r := m / 0x1_0000, m % 0x1_0000;
            && q == Pick(a, r) * 0x1_0000
            && q <= Infinity && Widen(FloatToBFloat16Bits(bits)) / Sign == bits / Sign
  {
    var s, m := bits / Sign, Magnitude(bits);
    var a, r := m / 0x1_0000, m % 0x1_0000;
    assert bits == s * Sign + a * 0x1_0000 + r;
    RoundedBits(s, a, r);
    hide FloatToBFloat16Bits;
    var b := s * 0x8000 + Pick(a, r);
    assert Widen(b) == s * Sign + Pick(a, r) * 0x1_0000;
  }

  lemma RoundedBits(s: nat, a: nat, r: nat)
    requires s < 2 && r < 0x1_0000 && a * 0x1_0000 + r <= Infinity
    ensures FloatToBFloat16Bits(s * Sign + a * 0x1_0000 + r) == s * 0x8000 + Pick(a, r)
  {
    var bits := s * Sign + a * 0x1_0000 + r;
    assert bits / 0x1_0000 == s * 0x8000 + a;
    assert (bits / 0x1_0000) % 2 == a % 2;
  }

  /** q is the bfloat16 magnitude nearest to m in value, the even one of two equally near ones. */
  ghost predicate NearestEven(q: nat, m: nat) {
    q <= 0x7F80 && forall other: nat | other <= 0x7F80 && other != q ::
      Distance(Value(q), Units(m)) < Distance(Value(other), Units(m))
      || (Distance(Value(q), Units(m)) == Distance(Value(other), Units(m)) && q % 2 == 0)
  }

  lemma WholeStep(a: nat, r: nat)
    requires r <= 0x1_0000
    ensures Below(a, 0x1_0000) == Below(a, r) + Above(a, r)
  {
    Distribute(r, 0x1_0000 - r, Step(a));
  }

  lemma DistanceIs(x: nat, d: nat)
    ensures Distance(x, x + d) == d == Distance(x + d, x)
  {
  }

  lemma EndOfBucket(a: nat)
    ensures Point(a, 0x1_0000) == Value(a + 1)
  {
    assert a * 0x1_0000 + 0x1_0000 == (a + 1) * 0x1_0000;
  }

  lemma NeighbourDistances(a: nat, r: nat)
    requires r <= 0x1_0000
    ensures Point(a, r) == Value(a) + Below(a, r)
    ensures Value(a + 1) == Point(a, r) + Above(a, r)
    ensures Distance(Value(a), Point(a, r)) == Below(a, r) && Distance(Value(a + 1), Point(a, r)) == Above(a, r)
  {
    AffineOnBuckets(a, r);
    AffineOnBuckets(a, 0x1_0000);
    EndOfBucket(a);
    WholeStep(a, r);
    hide *;
    DistanceIs(Value(a), Below(a, r));
    DistanceIs(Point(a, r), Above(a, r));
  }

  /** How far a bfloat16 magnitude is from a pattern between a and a + 1, at least. */
  lemma FarFromOthers(a: nat, r: nat, other: nat)
    requires r <= 0x1_0000
    ensures var d := Distance(Value(other), Point(a, r));
            if other <= a then d >= Below(a, r) + (a - other) else d >= Above(a, r) + (other - a - 1)
  {
    NeighbourDistances(a, r);
    hide Point, Value, Below, Above;
    if other <= a { UnitsIncrease(other, a); } else { UnitsIncrease(a + 1, other); }
  }

  /** The nearer neighbour of a pattern, the even one of two equally near ones. */
  function Pick(a: nat, r: nat): nat {
    if r < 0x8000 || (r == 0x8000 && a % 2 == 0) then a else a + 1
  }

  lemma Scaled(x: nat, y: nat, s: nat)
    requires s > 0
    ensures (x * s < y * s <==> x < y) && (x * s == y * s <==> x == y)
  {
    if x < y { FlatIndex.Grows(s, x, y); }
    if y < x { FlatIndex.Grows(s, y, x); }
  }

  lemma PickByDistance(a: nat, r: nat)
    requires r <= 0x1_0000
    ensures Pick(a, r) == if Below(a, r) < Above(a, r) || (Below(a, r) == Above(a, r) && a % 2 == 0) then a else a + 1
  {
    hide Step;
    Scaled(r, 0x1_0000 - r, Step(a));
  }

  /** Of two neighbours a and a + 1 at given distances, the nearer or even one beats everything else. */
  lemma NearerWins(a: nat, below: nat, above: nat, q: nat, other: nat, d: nat, e: nat)
    requires q == (if below < above || (below == above && a % 2 == 0) then a else a + 1)
    requires d == (if q == a then below else above)
    requires other != q && e >= if other <= a then below + (a - other) else above + (other - a - 1)
    ensures d < e || (d == e && q % 2 == 0 && other % 2 == 1)
  {
  }

  lemma OthersAreFarther(a: nat, r: nat, other: nat)
    requires r <= 0x1_0000 && other != Pick(a, r)
    ensures var m, q := Point(a, r), Pick(a, r);
            var d, e := Distance(Value(q), m), Distance(Value(other), m);
            d < e || (d == e && q % 2 == 0 && other % 2 == 1)
  {
    NeighbourDistances(a, r);
    PickByDistance(a, r);
    FarFromOthers(a, r, other);
    hide *;
    var m, q := Point(a, r), Pick(a, r);
    NearerWins(a, Below(a, r), Above(a, r), q, other, Distance(Value(q), m), Distance(Value(other), m));
  }

  lemma PickIsNearest(a: nat, r: nat)
    requires r < 0x1_0000 && a * 0x1_0000 + r <= Infinity
    ensures NearestEven(Pick(a, r), a * 0x1_0000 + r)
  {
    assert Pick(a, r) <= 0x7F80;
    hide Point, Value, Pick, Distance;
    forall other: nat | other != Pick(a, r)
      ensures var m, q := Point(a, r), Pick(a, r);
              var d, e := Distance(Value(q), m), Distance(Value(other), m);
              d < e || (d == e && q % 2 == 0)
    {
      OthersAreFarther(a, r, other);
    }
  }

  /** Every number is rounded to nearest, ties to even, and keeps its sign; see sections 3.4 and 4.3.1 of IEEE
      754-2019. */
  lemma RoundsToNearestEven(bits: Bits32)
    requires !IsNaN(bits)
    ensures var b := FloatToBFloat16Bits(bits);
            b / 0x8000 == bits / Sign && NearestEven(b % 0x8000, Magnitude(bits))
  {
    RoundedMagnitude(bits);
    hide NearestEven, FloatToBFloat16Bits;
    var m := Magnitude(bits);
    PickIsNearest(m / 0x1_0000, m % 0x1_0000);
  }

  lemma NearestIsPick(a: nat, r: nat, q: nat)
    requires r < 0x1_0000 && a * 0x1_0000 + r <= Infinity && NearestEven(q, a * 0x1_0000 + r)
    ensures q == Pick(a, r)
  {
    if q != Pick(a, r) {
      assert Pick(a, r) <= 0x7F80;
      OthersAreFarther(a, r, q);
      hide Point, Value, Pick, Distance;
    }
  }

  /** The nearest-even magnitude is unique, so the lemma above pins the result down. */
  lemma NearestEvenIsUnique(q: nat, q': nat, m: nat)
    requires m <= Infinity && NearestEven(q, m) && NearestEven(q', m)
    ensures q == q'
  {
    var a, r := m / 0x1_0000, m % 0x1_0000;
    assert m == a * 0x1_0000 + r;
    PickIsNearest(a, r);
    NearestIsPick(a, r, q);
    NearestIsPick(a, r, q');
  }

  /** Within a sign, larger inputs give larger or equal results. */
  lemma Monotone(x: Bits32, y: Bits32)
    requires !IsNaN(x) && !IsNaN(y) && x / Sign == y / Sign && x <= y
    ensures FloatToBFloat16Bits(x) <= FloatToBFloat16Bits(y)
  {
    RoundedMagnitude(x);
    RoundedMagnitude(y);
  }

  /** A number that bfloat16 can represent, infinities included, is kept. */
  lemma ExactOnBFloat16(b: Bits16)
    requires !IsNaN(Widen(b))
    ensures FloatToBFloat16Bits(Widen(b)) == b
  {
  }

  /** A finite number becomes an infinity exactly when it is at least half a step above the largest finite bfloat16. */
  lemma OverflowsToInfinity(bits: Bits32)
    requires Magnitude(bits) < Infinity
    ensures Magnitude(Widen(FloatToBFloat16Bits(bits))) == Infinity <==>
            2 * Units(Magnitude(bits)) >= Value(0x7F7F) + Value(0x7F80)
  {
    RoundedMagnitude(bits);
    var m := Magnitude(bits);
    var a, r := m / 0x1_0000, m % 0x1_0000;
    assert m == a * 0x1_0000 + r && a <= 0x7F7F && Units(m) == Point(a, r);
    hide FloatToBFloat16Bits, Units, Value, Pick, Point;
    RoundsUpIffFar(a, r);
  }

  lemma BelowTheLargest(a: nat, r: nat)
    requires a < 0x7F7F && r <= 0x1_0000
    ensures Point(a, r) <= Value(0x7F7F) < Value(0x7F80)
  {
    NeighbourDistances(a, r);
    hide Point, Value, Above;
    UnitsIncrease(a + 1, 0x7F7F);
    UnitsIncrease(0x7F7F, 0x7F80);
  }

  lemma RoundsUpIffFar(a: nat, r: nat)
    requires a <= 0x7F7F && r < 0x1_0000
    ensures Pick(a, r) == 0x7F80 <==> 2 * Point(a, r) >= Value(0x7F7F) + Value(0x7F80)
  {
    if a < 0x7F7F {
      BelowTheLargest(a, r);
      hide Point, Value;
    } else {
      PickByDistance(a, r);
      NeighbourDistances(a, r);
      hide Point, Value, Below, Above, Pick;
    }
  }

  /** What is not a number stays so except at both ends of the range: the low patterns round down to an infinity, the
      highest round up across the sign bit to a zero. */
  lemma NaNSurvivesIff(bits: Bits32)
    requires IsNaN(bits)
    ensures IsNaN(Widen(FloatToBFloat16Bits(bits))) <==> 0x7F80_8000 < Magnitude(bits) < 0x7FFF_8000
    ensures Magnitude(bits) <= 0x7F80_8000 ==> Magnitude(Widen(FloatToBFloat16Bits(bits))) == Infinity
    ensures Magnitude(bits) >= 0x7FFF_8000 ==> Magnitude(Widen(FloatToBFloat16Bits(bits))) == 0
  {
  }
}
