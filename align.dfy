/** The libxcam alignment macros XCAM_ALIGN_UP, XCAM_ALIGN_DOWN and
    XCAM_ALIGN_AROUND over an alignment 2^k.

    Their definitions live in libxcam's common header, which is not part of
    this model. Up and Down are taken to be the mask forms
    `(v + a - 1) & ~(a - 1)` and `v & ~(a - 1)` for a power of two `a`, and
    Around the division form `(v + a / 2) / a * a` on signed integers. Masking
    with `~(2^k - 1)` clears the low k bits of a two's-complement value;
    ClearLowBits does that one bit at a time, and ClearLowBitsIsFloorDivision
    shows it equals the floor-division form. C's `/` truncates towards zero
    instead, which TruncDiv models and AlignAroundIsDivision ties Around to. */
module Align {

  function Pow2(k: nat): (p: int)
    ensures p >= 1
  {
    if k == 0 then 1 else 2 * Pow2(k - 1)
  }

  /** `a / 2` for `a` = 2^k. */
  function Half(k: nat): int
  {
    if k == 0 then 0 else Pow2(k - 1)
  }

  /** `v & ~(2^k - 1)`: the low k bits of `v` cleared, one arithmetic shift at
      a time (Dafny's `/ 2` rounds towards minus infinity, as a two's-complement
      shift does). */
  function ClearLowBits(v: int, k: nat): int
    decreases k
  {
    if k == 0 then v else 2 * ClearLowBits(v / 2, k - 1)
  }

  /** `v` is a multiple of 2^k: its low k bits are clear. */
  predicate IsMultiple(v: int, k: nat)
    decreases k
  {
    k == 0 || (v % 2 == 0 && IsMultiple(v / 2, k - 1))
  }

  /** `r` is the largest multiple of 2^k not above `v`. */
  predicate IsFloorAligned(r: int, v: int, k: nat)
  {
    IsMultiple(r, k) && r <= v < r + Pow2(k)
  }

  /** `r` is the smallest multiple of 2^k not below `v`. */
  predicate IsCeilAligned(r: int, v: int, k: nat)
  {
    IsMultiple(r, k) && v <= r < v + Pow2(k)
  }

  /** `r` is the multiple of 2^k nearest to `v`, a tie going upwards. */
  predicate IsNearestAligned(r: int, v: int, k: nat)
  {
    IsMultiple(r, k) && v + Half(k) - Pow2(k) < r <= v + Half(k)
  }

  /** `r` is `(v + a / 2) / a * a` for `a` = 2^k with C's division: the
      quotient is truncated towards zero, so for `v + a / 2 >= 0` the result is
      rounded down and below that it is rounded up. */
  predicate IsAroundAligned(r: int, v: int, k: nat)
  {
    var x := v + Half(k);
    if x >= 0 then IsFloorAligned(r, x, k) else IsCeilAligned(r, x, k)
  }

  /** C's integer division `n / d` for `d > 0`: truncation towards zero. */
  function TruncDiv(n: int, d: int): int
    requires d > 0
  {
    if n >= 0 then n / d else -((-n) / d)
  }

  /** The C expression `x / a * a` for `a` = 2^k. */
  function TruncDivAlign(x: int, k: nat): int
  {
    TruncDiv(x, Pow2(k)) * Pow2(k)
  }

  /** XCAM_ALIGN_DOWN */
  function AlignDown(v: int, k: nat): (r: int)
    ensures IsFloorAligned(r, v, k)
  {
    ClearLowBitsFloor(v, k);
    ClearLowBits(v, k)
  }

  /** XCAM_ALIGN_UP */
  function AlignUp(v: int, k: nat): (r: int)
    ensures IsCeilAligned(r, v, k)
  {
    ClearLowBitsFloor(v + Pow2(k) - 1, k);
    ClearLowBits(v + Pow2(k) - 1, k)
  }

  /** XCAM_ALIGN_AROUND */
  function AlignAround(v: int, k: nat): (r: int)
    ensures IsAroundAligned(r, v, k)
    ensures v + Half(k) >= 0 ==> IsNearestAligned(r, v, k)
  {
    ClearTowardZero(v + Half(k), k)
  }

  /** `x / 2^k * 2^k` with the quotient truncated towards zero: the low k bits
      of the magnitude cleared, the sign kept. */
  function ClearTowardZero(x: int, k: nat): (r: int)
    ensures x >= 0 ==> IsFloorAligned(r, x, k)
    ensures x < 0 ==> IsCeilAligned(r, x, k)
  {
    if x >= 0 then
      ClearLowBitsFloor(x, k);
      ClearLowBits(x, k)
    else
      ClearLowBitsFloor(-x, k);
      MultipleNegate(ClearLowBits(-x, k), k);
      -ClearLowBits(-x, k)
  }

  /** Clearing the low k bits rounds down to a multiple of 2^k. */
  lemma {:induction false} ClearLowBitsFloor(v: int, k: nat)
    decreases k
    ensures IsMultiple(ClearLowBits(v, k), k)
    ensures ClearLowBits(v, k) <= v < ClearLowBits(v, k) + Pow2(k)
  {
    if k > 0 {
      ClearLowBitsFloor(v / 2, k - 1);
      assert ClearLowBits(v, k) / 2 == ClearLowBits(v / 2, k - 1);
    }
  }

  /** The mask form equals the floor-division form `v / 2^k * 2^k`. */
  lemma {:induction false} ClearLowBitsIsFloorDivision(v: int, k: nat)
    decreases k
    ensures ClearLowBits(v, k) == v / Pow2(k) * Pow2(k)
  {
    if k == 0 {
      DivModUnique(v, 1, v, 0);
    } else {
      var p := Pow2(k - 1);
      ClearLowBitsIsFloorDivision(v / 2, k - 1);
      var q, r := (v / 2) / p, (v / 2) % p;
      assert v / 2 == q * p + r;
      assert v == q * (2 * p) + (2 * r + v % 2);
      DivModUnique(v, 2 * p, q, 2 * r + v % 2);
      assert q * (2 * p) == 2 * (q * p);
    }
  }

  /** Around is the C expression `(v + a / 2) / a * a`, division truncating. */
  lemma AlignAroundIsDivision(v: int, k: nat)
    ensures AlignAround(v, k) == TruncDivAlign(v + Half(k), k)
  {
    ClearTowardZeroIsDivision(v + Half(k), k);
  }

  lemma ClearTowardZeroIsDivision(x: int, k: nat)
    ensures ClearTowardZero(x, k) == TruncDivAlign(x, k)
  {
    if x >= 0 {
      ClearLowBitsIsFloorDivision(x, k);
    } else {
      ClearLowBitsIsFloorDivision(-x, k);
      TruncDivBelowZero(x, Pow2(k));
    }
  }

  /** Below zero the truncating division rounds the other way: -20 goes to 0
      on a 16-column alignment, where the nearest multiple is -16. */
  lemma AroundTruncatesNegative()
    ensures AlignAround(-20, 4) == 0
    ensures IsNearestAligned(-16, -20, 4)
  {
    assert IsMultiple(0, 4) && IsMultiple(-16, 4);
    MultipleUnique(0, AlignAround(-20, 4), 4);
  }

  /** A value is a multiple of 2^k exactly when clearing its low k bits leaves
      it unchanged. */
  lemma {:induction false} MultipleIffFixed(v: int, k: nat)
    decreases k
    ensures IsMultiple(v, k) <==> ClearLowBits(v, k) == v
  {
    if k > 0 {
      MultipleIffFixed(v / 2, k - 1);
    }
  }

  /** IsMultiple is divisibility by 2^k. */
  lemma MultipleIsMod(v: int, k: nat)
    ensures IsMultiple(v, k) <==> v % Pow2(k) == 0
  {
    MultipleIffFixed(v, k);
    ClearLowBitsIsFloorDivision(v, k);
  }

  /** Sums and differences of multiples of 2^k are multiples of 2^k. */
  lemma {:induction false} MultipleSum(x: int, y: int, z: int, k: nat)
    requires IsMultiple(x, k) && IsMultiple(y, k)
    requires z == x + y || z == x - y
    ensures IsMultiple(z, k)
    decreases k
  {
    if k > 0 {
      MultipleSum(x / 2, y / 2, z / 2, k - 1);
    }
  }

  /** The negation of a multiple of 2^k is a multiple of 2^k. */
  lemma {:induction false} MultipleNegate(v: int, k: nat)
    decreases k
    requires IsMultiple(v, k)
    ensures IsMultiple(-v, k)
  {
    if k > 0 {
      MultipleNegate(v / 2, k - 1);
      assert (-v) / 2 == -(v / 2);
    }
  }

  /** 2^k is a multiple of itself. */
  lemma {:induction false} MultiplePow2(k: nat)
    decreases k
    ensures IsMultiple(Pow2(k), k)
  {
    if k > 0 {
      MultiplePow2(k - 1);
      assert Pow2(k) / 2 == Pow2(k - 1);
    }
  }

  /** A negative multiple of 2^k is at most -2^k. */
  lemma {:induction false} MultipleNegativeBound(v: int, k: nat)
    decreases k
    requires IsMultiple(v, k) && v < 0
    ensures v <= -Pow2(k)
  {
    if k > 0 {
      MultipleNegativeBound(v / 2, k - 1);
    }
  }

  /** A multiple of 2^k is a multiple of every smaller power of two. */
  lemma {:induction false} MultipleWeaken(v: int, k: nat, j: nat)
    decreases j
    requires IsMultiple(v, k) && j <= k
    ensures IsMultiple(v, j)
  {
    if j > 0 {
      MultipleWeaken(v / 2, k - 1, j - 1);
    }
  }

  /** Two multiples of 2^k closer than 2^k to each other are the same value. */
  lemma {:induction false} MultipleUnique(r1: int, r2: int, k: nat)
    decreases k
    requires IsMultiple(r1, k) && IsMultiple(r2, k)
    requires r1 - Pow2(k) < r2 < r1 + Pow2(k)
    ensures r1 == r2
  {
    if k > 0 {
      MultipleUnique(r1 / 2, r2 / 2, k - 1);
    }
  }

  /** The three characterisations pin the value down: each macro is the only
      value meeting its characterisation. */
  lemma AlignCharacterised(r: int, v: int, k: nat)
    ensures IsFloorAligned(r, v, k) <==> r == AlignDown(v, k)
    ensures IsCeilAligned(r, v, k) <==> r == AlignUp(v, k)
    ensures IsAroundAligned(r, v, k) <==> r == AlignAround(v, k)
  {
    if IsFloorAligned(r, v, k) {
      MultipleUnique(r, AlignDown(v, k), k);
    }
    if IsCeilAligned(r, v, k) {
      MultipleUnique(r, AlignUp(v, k), k);
    }
    if IsAroundAligned(r, v, k) {
      MultipleUnique(r, AlignAround(v, k), k);
    }
  }

  /** A value that is already aligned is left unchanged by Down and Up, and by
      Around when it is not negative. A negative multiple of an alignment
      above 1 is moved up by one alignment step by Around's truncation. */
  lemma AlignFixesAligned(v: int, k: nat)
    requires IsMultiple(v, k)
    ensures AlignDown(v, k) == v && AlignUp(v, k) == v
    ensures v >= 0 || k == 0 ==> AlignAround(v, k) == v
    ensures v < 0 && k > 0 ==> AlignAround(v, k) == v + Pow2(k)
  {
    MultipleUnique(v, AlignDown(v, k), k);
    MultipleUnique(v, AlignUp(v, k), k);
    if v >= 0 || k == 0 {
      MultipleUnique(v, AlignAround(v, k), k);
    } else {
      MultipleNegativeBound(v, k);
      MultiplePow2(k);
      MultipleSum(v, Pow2(k), v + Pow2(k), k);
      MultipleUnique(v + Pow2(k), AlignAround(v, k), k);
    }
  }

  lemma {:induction false} Pow2Monotonic(j: nat, k: nat)
    requires j <= k
    ensures Pow2(j) <= Pow2(k)
  {
    if j < k {
      Pow2Monotonic(j, k - 1);
    }
  }

  lemma MulPos(n: int, d: int)
    requires n >= 1 && d > 0
    ensures n * d >= d
  {
    assert n * d == (n - 1) * d + d;
  }

  lemma TruncDivBelowZero(n: int, d: int)
    requires n < 0 && d > 0
    ensures TruncDiv(n, d) * d == -((-n) / d * d)
  {
    var q := (-n) / d;
    assert TruncDiv(n, d) == -q;
    assert (-q) * d == -(q * d);
  }

  /** Euclidean division has exactly one quotient and remainder. */
  lemma DivModUnique(n: int, d: int, q: int, r: int)
    requires d > 0 && 0 <= r < d && n == q * d + r
    ensures n / d == q && n % d == r
  {
    var q0, r0 := n / d, n % d;
    assert n == q0 * d + r0;
    assert (q - q0) * d == r0 - r;
    if q > q0 {
      MulPos(q - q0, d);
    } else if q < q0 {
      MulPos(q0 - q, d);
    }
  }
}
