/** The counter layout of the latency buckets: which position a latency lands on, and the
    lowest latency of a position. Shifts, masks and leading zeros are written out on integers. */
module LatencyIndex {

  const HIGHEST_MICROSECONDS := 3_600_000_000
  const HALF_COUNT := 128
  const HALF_SHIFT := 7
  const COUNTS_LENGTH := 3328

  /** The position of the highest latency a counter is kept for; no later one is ever hit. */
  const LAST_REACHABLE := 3286

  function Pow2(k: nat): (p: nat)
    ensures p >= 1
  {
    if k == 0 then 1 else 2 * Pow2(k - 1)
  }

  /** x << k and x >> k. */
  function Shl(x: int, k: int): (r: int)
    ensures x >= 0 ==> r >= 0
  {
    if k <= 0 then x else 2 * Shl(x, k - 1)
  }

  function Shr(x: nat, k: int): nat {
    if k <= 0 then x else Shr(x, k - 1) / 2
  }

  /** Bitwise "or" and "and", bit by bit. */
  function BitOr(x: nat, y: nat): nat {
    if x == 0 then y else if y == 0 then x
    else 2 * BitOr(x / 2, y / 2) + (if x % 2 == 1 || y % 2 == 1 then 1 else 0)
  }

  function BitAnd(x: nat, y: nat): nat {
    if x == 0 || y == 0 then 0
    else 2 * BitAnd(x / 2, y / 2) + (if x % 2 == 1 && y % 2 == 1 then 1 else 0)
  }

  /** The number of bits needed to write x; 64 minus it is LeadingZeros64(x). */
  function BitLength(x: nat): nat {
    if x == 0 then 0 else 1 + BitLength(x / 2)
  }

  function LeadingZeros64(x: nat): int { 64 - BitLength(x) }

  function Clamp(microseconds: int): nat {
    if microseconds < 0 then 0
    else if microseconds > HIGHEST_MICROSECONDS then HIGHEST_MICROSECONDS
    else microseconds
  }

  function BucketIndex(v: nat): int { 64 - LeadingZeros64(BitOr(v, 255)) - 8 }

  /** The library's position for a value, without any clamping. */
  function LayoutIndex(v: nat): int {
    Shl(BucketIndex(v) + 1, HALF_SHIFT) + Shr(v, BucketIndex(v)) - HALF_COUNT
  }

  /** Every latency, clamped or not, lands on a counter that exists, and on none after the
      one-hour counter. */
  function CountsIndex(microseconds: int): (i: int)
    ensures 0 <= i <= LAST_REACHABLE < COUNTS_LENGTH
  {
    HourIsLast(Clamp(microseconds));
    LayoutIndex(Clamp(microseconds))
  }

  function ValueForIndex(i: nat): nat {
    if i < HALF_COUNT then i
    else Shl(BitAnd(i, HALF_COUNT - 1) + HALF_COUNT, Shr(i, HALF_SHIFT) - 1)
  }

  // ----- the bit operators, arithmetically

  lemma Pow2Facts()
    ensures Pow2(7) == 128 && Pow2(8) == 256 && Pow2(24) == 16_777_216
  {
    assert Pow2(4) == 16;
    assert Pow2(8) == 256;
    assert Pow2(12) == 4096;
    assert Pow2(16) == 65536;
    assert Pow2(20) == 1048576;
  }

  lemma DoublePow2(k: nat)
    ensures Pow2(k + 1) == 2 * Pow2(k)
  {
  }

  lemma MulGap(d: nat, x: int, y: int)
    requires x < y
    ensures d * x + d <= d * y
  {
    assert d * (y - x - 1) >= 0;
    assert d * y == d * x + d + d * (y - x - 1);
  }

  /** The quotient is the only number whose multiple is this close. */
  lemma Quotient(v: nat, d: nat, q: nat, r: nat)
    requires r < d && v == d * q + r
    ensures v / d == q && v % d == r
  {
    var q', r' := v / d, v % d;
    assert v == d * q' + r';
    if q' > q {
      MulGap(d, q, q');
    } else if q' < q {
      MulGap(d, q', q);
    }
  }

  lemma HalvedQuotient(v: nat, p: nat)
    requires p >= 1
    ensures v / (2 * p) == v / 2 / p && v % (2 * p) == 2 * (v / 2 % p) + v % 2
  {
    var q, r := v / 2 / p, v / 2 % p;
    assert v / 2 == p * q + r;
    assert v == 2 * (v / 2) + v % 2;
    assert (2 * p) * q == 2 * (p * q);
    Quotient(v, 2 * p, q, 2 * r + v % 2);
  }

  lemma OddMask(p: nat)
    requires p >= 1
    ensures (2 * p - 1) / 2 == p - 1 && (2 * p - 1) % 2 == 1
  {
  }

  lemma {:induction false} OrMask(v: nat, bits: nat, p: nat)
    requires p == Pow2(bits)
    ensures BitOr(v, p - 1) == v - v % p + p - 1
  {
    if v == 0 {
      Quotient(0, p, 0, 0);
    } else if bits == 0 {
      assert p == 1;
      Quotient(v, 1, v, 0);
    } else {
      var half := Pow2(bits - 1);
      OrMask(v / 2, bits - 1, half);
      OrMaskStep(v, half);
    }
  }

  lemma OrMaskStep(v: nat, p: nat)
    requires v > 0 && p >= 1
    requires BitOr(v / 2, p - 1) == v / 2 - v / 2 % p + p - 1
    ensures BitOr(v, 2 * p - 1) == v - v % (2 * p) + 2 * p - 1
  {
    OddMask(p);
    HalvedQuotient(v, p);
  }

  lemma {:induction false} AndMask(v: nat, bits: nat, p: nat)
    requires p == Pow2(bits)
    ensures BitAnd(v, p - 1) == v % p
  {
    if v == 0 {
      Quotient(0, p, 0, 0);
    } else if bits == 0 {
      assert p == 1;
      Quotient(v, 1, v, 0);
    } else {
      var half := Pow2(bits - 1);
      AndMask(v / 2, bits - 1, half);
      HalvedQuotient(v, half);
      OddMask(half);
    }
  }

  lemma {:induction false} ShlIsProduct(x: nat, k: nat)
    ensures Shl(x, k) == x * Pow2(k)
  {
    if k > 0 {
      ShlIsProduct(x, k - 1);
      assert 2 * (x * Pow2(k - 1)) == x * Pow2(k);
    } else {
      assert Pow2(0) == 1;
    }
  }

  lemma {:induction false} ShrBounds(x: nat, k: nat)
    ensures Shr(x, k) * Pow2(k) <= x < (Shr(x, k) + 1) * Pow2(k)
  {
    if k > 0 {
      ShrBounds(x, k - 1);
      HalfBounds(x, Shr(x, k - 1), Pow2(k - 1));
    } else {
      assert Pow2(0) == 1;
    }
  }

  lemma HalfBounds(x: nat, y: nat, p: nat)
    requires y * p <= x < (y + 1) * p
    ensures y / 2 * (2 * p) <= x < (y / 2 + 1) * (2 * p)
  {
    var z, r := y / 2, y % 2;
    assert y == 2 * z + r;
    assert y * p == 2 * (z * p) + r * p;
    assert (y + 1) * p == y * p + p;
    assert z * (2 * p) == 2 * (z * p) && (z + 1) * (2 * p) == 2 * (z * p) + 2 * p;
    assert 0 <= r * p <= p;
  }

  lemma {:induction false} BitLengthFacts(x: nat)
    requires x > 0
    ensures BitLength(x) >= 1 && Pow2(BitLength(x) - 1) <= x < Pow2(BitLength(x))
  {
    if x > 1 {
      BitLengthFacts(x / 2);
    }
  }

  lemma {:induction false} Pow2Monotone(j: nat, k: nat)
    requires j <= k
    ensures Pow2(j) <= Pow2(k)
  {
    if j < k {
      Pow2Monotone(j, k - 1);
    }
  }

  lemma MaskFacts(i: nat)
    ensures Shr(i, HALF_SHIFT) == i / 128
    ensures BitAnd(i, HALF_COUNT - 1) == i % 128
  {
    Pow2Facts();
    AndMask(i, 7, 128);
    ShrBounds(i, 7);
  }

  lemma BucketRange(v: nat)
    ensures BucketIndex(v) >= 0
    ensures v < 256 * Pow2(BucketIndex(v))
    ensures BucketIndex(v) > 0 ==> 128 * Pow2(BucketIndex(v)) <= v
  {
    var x := BitOr(v, 255);
    Pow2Facts();
    OrMask(v, 8, 256);
    RangeFromLength(v, x, BitLength(x));
  }

  lemma RangeFromLength(v: nat, x: nat, length: nat)
    requires x == v - v % 256 + 255 && length == BitLength(x)
    ensures length >= 8 && v < 256 * Pow2(length - 8)
    ensures length > 8 ==> 128 * Pow2(length - 8) <= v
  {
    hide BitLength, Pow2;
    Pow2Facts();
    BitLengthFacts(x);
    if length < 8 {
      Pow2Monotone(length, 7);
    } else {
      Pow2Add(length - 8, 8);
      if length > 8 {
        var p := Pow2(length - 9);
        Pow2Add(length - 9, 8);
        assert 256 * p <= 256 * (v / 256) + 255;
        assert p <= v / 256;
        DoublePow2(length - 9);
      }
    }
  }

  /** A value in bucket b > 0 lies in the upper half of the 256 sub-buckets of width 2^b. */
  lemma BucketFacts(v: nat)
    ensures var b := BucketIndex(v);
            && b >= 0
            && Shl(b + 1, HALF_SHIFT) == 128 * b + 128
            && Shr(v, b) < 256
            && (b > 0 ==> Shr(v, b) >= 128)
            && Shr(v, b) * Pow2(b) <= v < (Shr(v, b) + 1) * Pow2(b)
  {
    var b := BucketIndex(v);
    Pow2Facts();
    BucketRange(v);
    ShlIsProduct(b + 1, HALF_SHIFT);
    ShrBounds(v, b);
    SubBucketRange(v, Pow2(b), Shr(v, b));
  }

  lemma SubBucketRange(v: nat, p: nat, sub: nat)
    requires sub * p <= v < (sub + 1) * p
    ensures v < 256 * p ==> sub < 256
    ensures v >= 128 * p ==> sub >= 128
  {
    if sub >= 256 {
      MulGap(p, 255, sub);
    } else if sub < 127 {
      MulGap(p, sub + 1, 128);
    }
  }

  lemma {:induction false} Pow2Add(j: nat, k: nat)
    ensures Pow2(j + k) == Pow2(k) * Pow2(j)
  {
    if k > 0 {
      Pow2Add(j, k - 1);
    }
  }

  // ----- what the layout promises

  /** Every value lies between the lowest values of its own position and of the next one, and
      is at most one part in 128 above the lowest value of its position. */
  lemma LayoutTiles(v: nat)
    ensures LayoutIndex(v) >= 0
    ensures ValueForIndex(LayoutIndex(v)) <= v < ValueForIndex(LayoutIndex(v) + 1)
    ensures 128 * (v - ValueForIndex(LayoutIndex(v))) <= ValueForIndex(LayoutIndex(v))
  {
    hide BucketIndex, ValueForIndex, Shr, Shl;
    BucketFacts(v);
    var b, sub := BucketIndex(v), Shr(v, BucketIndex(v));
    assert LayoutIndex(v) == 128 * b + sub;
    ValueInBucket(b, sub);
    NextValue(b, sub);
    if b > 0 {
      RelativeError(v, Pow2(b), sub);
    } else {
      assert Pow2(0) == 1;
    }
  }

  lemma NextValue(b: nat, sub: nat)
    requires sub < 256 && (b > 0 ==> sub >= 128)
    ensures ValueForIndex(128 * b + sub + 1) == (sub + 1) * Pow2(b)
  {
    if sub == 255 {
      ValueInBucket(b + 1, 128);
      assert 128 * Pow2(b + 1) == 256 * Pow2(b);
    } else {
      ValueInBucket(b, sub + 1);
    }
  }

  lemma RelativeError(v: nat, p: nat, sub: nat)
    requires sub >= 128 && sub * p <= v < (sub + 1) * p
    ensures 128 * (v - sub * p) <= sub * p
  {
    assert (sub + 1) * p == sub * p + p;
    assert sub * p == 128 * p + (sub - 128) * p;
  }

  lemma ValueInBucket(b: nat, sub: nat)
    requires sub < 256 && (b > 0 ==> sub >= 128)
    ensures ValueForIndex(128 * b + sub) == sub * Pow2(b)
  {
    var i := 128 * b + sub;
    MaskFacts(i);
    ShlIsProduct(sub, b);
    assert Pow2(0) == 1;
    if i >= 128 {
      assert i / 128 == b + 1 && i % 128 == sub - 128;
      assert BitAnd(i, HALF_COUNT - 1) + HALF_COUNT == sub && Shr(i, HALF_SHIFT) - 1 == b;
    }
  }

  lemma ValueStep(i: nat)
    ensures ValueForIndex(i) < ValueForIndex(i + 1)
  {
    var b := if i < 128 then 0 else i / 128 - 1;
    var sub := i - 128 * b;
    ValueInBucket(b, sub);
    NextValue(b, sub);
    assert (sub + 1) * Pow2(b) == sub * Pow2(b) + Pow2(b);
  }

  lemma {:induction false} ValueStrictlyMonotone(i: nat, j: nat)
    requires i < j
    ensures ValueForIndex(i) < ValueForIndex(j)
    decreases j
  {
    ValueStep(j - 1);
    if i < j - 1 {
      ValueStrictlyMonotone(i, j - 1);
    }
  }

  lemma LayoutMonotone(v: nat, w: nat)
    requires v <= w
    ensures 0 <= LayoutIndex(v) <= LayoutIndex(w)
  {
    LayoutTiles(v);
    LayoutTiles(w);
    if LayoutIndex(w) + 1 < LayoutIndex(v) {
      ValueStrictlyMonotone(LayoutIndex(w) + 1, LayoutIndex(v));
    }
  }

  /** Without the clamp, decoding a position and encoding it again gives the position back. */
  lemma LayoutRoundTrip(i: nat)
    ensures LayoutIndex(ValueForIndex(i)) == i
  {
    ValueStep(i);
    BetweenValues(ValueForIndex(i), i);
  }

  lemma HourFacts()
    ensures ValueForIndex(LAST_REACHABLE) <= HIGHEST_MICROSECONDS < ValueForIndex(LAST_REACHABLE + 1)
    ensures LayoutIndex(HIGHEST_MICROSECONDS) == LAST_REACHABLE
  {
    Pow2Facts();
    ValueInBucket(24, 214);
    ValueInBucket(24, 215);
    BetweenValues(HIGHEST_MICROSECONDS, LAST_REACHABLE);
  }

  /** Tiling and strict growth pin the position of a value down. */
  lemma BetweenValues(v: nat, i: nat)
    requires ValueForIndex(i) <= v < ValueForIndex(i + 1)
    ensures LayoutIndex(v) == i
  {
    var j := LayoutIndex(v);
    LayoutTiles(v);
    if j + 1 < i {
      ValueStrictlyMonotone(j + 1, i);
    } else if i + 1 < j {
      ValueStrictlyMonotone(i + 1, j);
    }
  }

  lemma HourIsLast(v: nat)
    requires v <= HIGHEST_MICROSECONDS
    ensures 0 <= LayoutIndex(v) <= LAST_REACHABLE
  {
    HourFacts();
    LayoutMonotone(v, HIGHEST_MICROSECONDS);
  }

  lemma CountsIndexMonotone(v: int, w: int)
    requires v <= w
    ensures CountsIndex(v) <= CountsIndex(w)
  {
    LayoutMonotone(Clamp(v), Clamp(w));
  }

  /** The tiling for latencies up to one hour. */
  lemma CountsIndexTiles(v: int)
    requires 0 <= v <= HIGHEST_MICROSECONDS
    ensures ValueForIndex(CountsIndex(v)) <= v < ValueForIndex(CountsIndex(v) + 1)
    ensures 128 * (v - ValueForIndex(CountsIndex(v))) <= ValueForIndex(CountsIndex(v))
  {
    LayoutTiles(v);
  }

  /** The clamped encoder undoes the decoder exactly on the positions that can be hit: the
      41 positions after the one-hour counter decode to more than one hour. */
  lemma RoundTripExactly(i: nat)
    ensures CountsIndex(ValueForIndex(i)) == i <==> i <= LAST_REACHABLE
  {
    HourFacts();
    LayoutRoundTrip(i);
    if i < LAST_REACHABLE {
      ValueStrictlyMonotone(i, LAST_REACHABLE);
    } else if i > LAST_REACHABLE + 1 {
      ValueStrictlyMonotone(LAST_REACHABLE + 1, i);
    }
  }

  /** A position is hit by some latency exactly when it is not after the one-hour counter. */
  lemma ReachableExactly(i: nat)
    ensures (exists v: int :: CountsIndex(v) == i) <==> i <= LAST_REACHABLE
  {
    RoundTripExactly(i);
    if i > LAST_REACHABLE {
      assert forall v: int :: CountsIndex(v) != i;
    }
  }

  /** The decoded values of all counters fit a 64-bit signed integer. */
  lemma DecodedFitsInt64(i: nat)
    requires i < COUNTS_LENGTH
    ensures ValueForIndex(i) < 0x8000_0000_0000_0000
  {
    Pow2Facts();
    assert Pow2(25) == 2 * Pow2(24);
    ValueInBucket(25, 128);
    ValueStrictlyMonotone(i, COUNTS_LENGTH);
  }
}
