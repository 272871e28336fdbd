/** IEEE 754 binary64 (section 4.3.1 of IEEE 754-2019, roundTiesToEven) over the reals: the
    rounding function, the proof that it rounds to the nearest representable value, and the
    few operations `calculate_fee` uses. The sign of zero is not kept. */
module Binary64 {

  const MIN_EXPONENT := -1022
  const MAX_EXPONENT := 1023

  function Abs(x: real): real {
    if x < 0.0 then -x else x
  }

  /** x * 2^k, by repeated doubling or halving so that everything here stays linear. */
  function Ldexp(x: real, k: int): real
    decreases if k < 0 then -k else k, x
  {
    if k == 0 then x else if k > 0 then 2.0 * Ldexp(x, k - 1) else Ldexp(x, k + 1) / 2.0
  }

  function Pow2(k: int): real {
    Ldexp(1.0, k)
  }

  /** Nearest integer, ties to even. */
  function Nearest(q: real): int {
    var f := q.Floor;
    if q - f as real < 0.5 || (q - f as real == 0.5 && f % 2 == 0) then f else f + 1
  }

  /** Exponent of the binade `x` lies in, clamped to the exponent range. */
  function Binade(x: real, k: int): (b: int)
    requires x >= 0.0 && MIN_EXPONENT <= k
    ensures MIN_EXPONENT <= b <= k
    ensures b > MIN_EXPONENT ==> Pow2(b) <= x
    ensures b < k ==> x < Pow2(b + 1)
    decreases k - MIN_EXPONENT, x
  {
    if k == MIN_EXPONENT || Pow2(k) <= x then k else Binade(x, k - 1)
  }

  /** The multiple of 2^e nearest to `x`, ties to the even multiple. */
  function RoundTo(x: real, e: int): real {
    Ldexp(Nearest(Ldexp(x, -e)) as real, e)
  }

  /** Exponent of the distance between neighbouring values around `x`. */
  function StepExponent(x: real): int
    requires x >= 0.0
  {
    Binade(x, MAX_EXPONENT) - 52
  }

  /** Rounding of a magnitude, before the overflow test. */
  function Round(x: real): real
    requires x >= 0.0
  {
    RoundTo(x, StepExponent(x))
  }

  predicate IsFloat(r: real, m: nat, e: int) {
    m < 0x20_0000_0000_0000 && MIN_EXPONENT - 52 <= e <= MAX_EXPONENT - 52 && r == Ldexp(m as real, e)
  }

  // ---------- scaling by powers of two ----------

  lemma LdexpNext(x: real, k: int)
    ensures Ldexp(x, k + 1) == 2.0 * Ldexp(x, k)
  {
  }

  lemma {:induction false} LdexpAdd(x: real, j: int, k: int)
    ensures Ldexp(Ldexp(x, j), k) == Ldexp(x, j + k)
    decreases if k < 0 then -k else k
  {
    if k > 0 {
      LdexpAdd(x, j, k - 1);
      LdexpNext(x, j + k - 1);
    } else if k < 0 {
      LdexpAdd(x, j, k + 1);
      LdexpNext(x, j + k);
    }
  }

  lemma {:induction false} LdexpMinus(x: real, y: real, k: int)
    ensures Ldexp(x - y, k) == Ldexp(x, k) - Ldexp(y, k)
    decreases if k < 0 then -k else k
  {
    if k > 0 {
      LdexpMinus(x, y, k - 1);
    } else if k < 0 {
      LdexpMinus(x, y, k + 1);
    }
  }

  lemma {:induction false} LdexpSign(x: real, k: int)
    ensures (x > 0.0 <==> Ldexp(x, k) > 0.0) && (x < 0.0 <==> Ldexp(x, k) < 0.0)
    decreases if k < 0 then -k else k
  {
    if k > 0 {
      LdexpSign(x, k - 1);
    } else if k < 0 {
      LdexpSign(x, k + 1);
    }
  }

  lemma {:induction false} LdexpOrder(x: real, y: real, k: int)
    ensures x <= y <==> Ldexp(x, k) <= Ldexp(y, k)
  {
    LdexpMinus(x, y, k);
    LdexpSign(x - y, k);
  }

  lemma {:induction false} LdexpAbs(x: real, k: int)
    ensures Abs(Ldexp(x, k)) == Ldexp(Abs(x), k)
  {
    LdexpSign(x, k);
    LdexpMinus(0.0, x, k);
    LdexpSign(0.0, k);
  }

  lemma {:induction false} Pow2Mono(j: int, k: int)
    requires j <= k
    ensures 0.0 < Pow2(j) <= Pow2(k)
    decreases k - j
  {
    LdexpSign(1.0, j);
    if j < k {
      LdexpNext(1.0, k - 1);
      Pow2Mono(j, k - 1);
    }
  }

  lemma Pow2Values()
    ensures Pow2(52) == 4503599627370496.0 && Pow2(53) == 9007199254740992.0
    ensures Pow2(64) == 18446744073709551616.0
    ensures Pow2(128) == 340282366920938463463374607431768211456.0
  {
    Pow2By8(0); Pow2By8(8); Pow2By8(16); Pow2By8(24); Pow2By8(32); Pow2By8(40);
    LdexpNext(1.0, 48); LdexpNext(1.0, 49); LdexpNext(1.0, 50); LdexpNext(1.0, 51); LdexpNext(1.0, 52);
    Pow2By8(48); Pow2By8(56); Pow2By8(64); Pow2By8(72); Pow2By8(80); Pow2By8(88);
    Pow2By8(96); Pow2By8(104); Pow2By8(112); Pow2By8(120);
  }

  lemma Pow2By8(k: int)
    ensures Pow2(k + 8) == 256.0 * Pow2(k)
  {
    LdexpNext(1.0, k); LdexpNext(1.0, k + 1); LdexpNext(1.0, k + 2); LdexpNext(1.0, k + 3);
    LdexpNext(1.0, k + 4); LdexpNext(1.0, k + 5); LdexpNext(1.0, k + 6); LdexpNext(1.0, k + 7);
  }

  /** A binade's lower end is 2^52 of its steps. */
  lemma BinadeSteps(b: int)
    ensures Pow2(b) == Ldexp(4503599627370496.0, b - 52)
    ensures Pow2(b + 1) == Ldexp(9007199254740992.0, b - 52)
  {
    Pow2Values();
    LdexpAdd(1.0, 52, b - 52);
    LdexpAdd(1.0, 53, b - 52);
  }

  // ---------- nearest integer ----------

  lemma NearestBest(q: real, t: int)
    ensures Abs(Nearest(q) as real - q) <= Abs(t as real - q)
    ensures t != Nearest(q) && Abs(Nearest(q) as real - q) == Abs(t as real - q) ==> Nearest(q) % 2 == 0
  {
    var f := q.Floor;
    if t <= f {
      assert t as real <= f as real;
    } else {
      assert t as real >= f as real + 1.0;
    }
  }

  lemma NearestMono(p: real, q: real)
    requires p <= q
    ensures Nearest(p) <= Nearest(q)
  {
    assert p.Floor <= q.Floor;
  }

  // ---------- rounding to a multiple of 2^e ----------

  lemma DistanceScales(n: int, x: real, e: int)
    ensures Abs(Ldexp(n as real, e) - x) == Ldexp(Abs(n as real - Ldexp(x, -e)), e)
  {
    var q := Ldexp(x, -e);
    LdexpAdd(x, -e, e);
    LdexpMinus(n as real, q, e);
    LdexpAbs(n as real - q, e);
  }

  /** Among the multiples of 2^e, `RoundTo(x, e)` is a nearest one. */
  lemma RoundToBest(x: real, e: int, t: int)
    ensures Abs(RoundTo(x, e) - x) <= Abs(Ldexp(t as real, e) - x)
  {
    var q := Ldexp(x, -e);
    NearestBest(q, t);
    DistanceScales(Nearest(q), x, e);
    DistanceScales(t, x, e);
    LdexpOrder(Abs(Nearest(q) as real - q), Abs(t as real - q), e);
  }

  /** Rounding to a fixed step keeps the order. */
  lemma RoundToMono(x: real, y: real, e: int)
    requires x <= y
    ensures RoundTo(x, e) <= RoundTo(y, e)
  {
    LdexpOrder(x, y, -e);
    NearestMono(Ldexp(x, -e), Ldexp(y, -e));
    LdexpOrder(Nearest(Ldexp(x, -e)) as real, Nearest(Ldexp(y, -e)) as real, e);
  }

  lemma RoundToFixes(t: int, e: int)
    ensures RoundTo(Ldexp(t as real, e), e) == Ldexp(t as real, e)
  {
    LdexpAdd(t as real, e, -e);
  }

  // ---------- rounding ----------

  lemma {:induction false} CoarserMultiple(m: nat, e: int, k: int) returns (t: nat)
    requires k <= e
    ensures Ldexp(m as real, e) == Ldexp(t as real, k)
    decreases e - k
  {
    if e == k {
      t := m;
    } else {
      LdexpAdd(m as real, 1, e - 1);
      t := CoarserMultiple(2 * m, e - 1, k);
    }
  }

  /** Round to nearest: no representable value is closer to `x` than `Round(x)`. */
  lemma RoundIsNearest(x: real, r: real, m: nat, e: int)
    requires x >= 0.0 && IsFloat(r, m, e)
    ensures Abs(Round(x) - x) <= Abs(r - x)
  {
    hide Ldexp, RoundTo;
    var b := Binade(x, MAX_EXPONENT);
    if b - 52 <= e {
      var t := CoarserMultiple(m, e, b - 52);
      RoundToBest(x, b - 52, t);
    } else {
      // r is below the binade of x, whose lower end is a multiple of the step
      LdexpOrder(m as real, 9007199254740992.0, e);
      BinadeSteps(e + 52);
      Pow2Mono(e + 53, b);
      BinadeSteps(b);
      RoundToBest(x, b - 52, 4503599627370496);
    }
  }

  /** Ties to even: when another representable value is just as near, the significand of `Round(x)`
      at the precision of `x` is even. */
  lemma RoundTiesToEven(x: real, r: real, m: nat, e: int) returns (n: int, k: int)
    requires 0.0 <= x && IsFloat(r, m, e) && r != Round(x) && Abs(r - x) == Abs(Round(x) - x)
    ensures Round(x) == Ldexp(n as real, k) && n % 2 == 0
    ensures MIN_EXPONENT - 52 <= k <= MAX_EXPONENT - 52
    ensures k > MIN_EXPONENT - 52 ==> Pow2(k + 52) <= x
    ensures k < MAX_EXPONENT - 52 ==> x < Pow2(k + 53)
  {
    var b := Binade(x, MAX_EXPONENT);
    k := b - 52;
    n := Nearest(Ldexp(x, -k));
    if k <= e {
      var t := CoarserMultiple(m, e, k);
      TiedNeighbour(x, k, n, t);
    } else {
      LdexpOrder(9007199254740992.0, m as real, e);
      BinadeSteps(e + 52);
      Pow2Mono(e + 53, b);
      BinadeSteps(b);
      RoundToBest(x, k, 4503599627370496);
    }
  }

  lemma TiedNeighbour(x: real, k: int, n: int, t: int)
    requires n == Nearest(Ldexp(x, -k)) && n != t
    requires Abs(Ldexp(t as real, k) - x) == Abs(Ldexp(n as real, k) - x)
    ensures n % 2 == 0
  {
    var q := Ldexp(x, -k);
    NearestBest(q, t);
    DistanceScales(n, x, k);
    DistanceScales(t, x, k);
    LdexpOrder(Abs(n as real - q), Abs(t as real - q), k);
    LdexpOrder(Abs(t as real - q), Abs(n as real - q), k);
  }

  lemma RoundFixes(r: real, m: nat, e: int)
    requires IsFloat(r, m, e)
    ensures r >= 0.0 && Round(r) == r
  {
    LdexpSign(m as real, e);
    RoundIsNearest(r, r, m, e);
  }

  lemma RoundFixesInteger(n: nat)
    requires n <= 0x20_0000_0000_0000
    ensures Round(n as real) == n as real
  {
    if n < 0x20_0000_0000_0000 {
      RoundFixes(n as real, n, 0);
    } else {
      Pow2Values();
      RoundFixes(n as real, 1, 53);
    }
  }

  lemma {:induction false} RoundRange(x: real)
    requires x >= 0.0
    ensures Round(x) >= 0.0
    ensures var b := Binade(x, MAX_EXPONENT);
      (b > MIN_EXPONENT ==> Pow2(b) <= Round(x)) && (b < MAX_EXPONENT ==> Round(x) <= Pow2(b + 1))
  {
    var b := Binade(x, MAX_EXPONENT);
    BinadeSteps(b);
    LdexpSign(0.0, b - 52);
    RoundToMono(0.0, x, b - 52);
    RoundToFixes(0, b - 52);
    if b > MIN_EXPONENT {
      RoundToMono(Pow2(b), x, b - 52);
      RoundToFixes(4503599627370496, b - 52);
    }
    if b < MAX_EXPONENT {
      RoundToMono(x, Pow2(b + 1), b - 52);
      RoundToFixes(9007199254740992, b - 52);
    }
  }

  lemma {:induction false} BinadeMono(x: real, y: real, k: int)
    requires 0.0 <= x <= y && MIN_EXPONENT <= k
    ensures Binade(x, k) <= Binade(y, k)
    decreases k - MIN_EXPONENT
  {
    if k > MIN_EXPONENT && Pow2(k) > y {
      BinadeMono(x, y, k - 1);
    }
  }

  lemma RoundMono(x: real, y: real)
    requires 0.0 <= x <= y
    ensures 0.0 <= Round(x) <= Round(y)
  {
    BinadeMono(x, y, MAX_EXPONENT);
    RoundRange(x);
    var b, c := Binade(x, MAX_EXPONENT), Binade(y, MAX_EXPONENT);
    if b == c {
      RoundToMono(x, y, b - 52);
    } else {
      RoundRange(y);
      Pow2Mono(b + 1, c);
    }
  }

  /** Rounding is off by at most half a step, which is at most 2^-53 of a value of 1 or more. */
  lemma RoundError(x: real)
    requires 1.0 <= x < Pow2(MAX_EXPONENT)
    ensures Ldexp(Abs(Round(x) - x), 53) <= x
  {
    var b := Binade(x, MAX_EXPONENT);
    var q := Ldexp(x, 52 - b);
    var d := Abs(Nearest(q) as real - q);
    NearestClose(q);
    DistanceScales(Nearest(q), x, b - 52);
    LdexpAdd(d, b - 52, 53);
    LdexpNext(0.5, b);
    LdexpOrder(d, 0.5, b + 1);
    HalfDoubled(b);
    NormalBinade(x, b);
  }

  lemma NearestClose(q: real)
    ensures Abs(Nearest(q) as real - q) <= 0.5
  {
  }

  lemma {:induction false} HalfDoubled(b: int)
    ensures Ldexp(0.5, b + 1) == Pow2(b)
  {
    LdexpAdd(0.5, 1, b);
  }

  lemma {:induction false} NormalBinade(x: real, b: int)
    requires x >= 1.0 && b == Binade(x, MAX_EXPONENT)
    ensures Pow2(b) <= x
  {
    if b == MIN_EXPONENT {
      Pow2Mono(MIN_EXPONENT + 1, 0);
    }
  }

  /** The result of rounding is itself representable unless it overflows. */
  lemma RoundIsFloat(x: real) returns (m: nat, e: int)
    requires x >= 0.0 && Round(x) < Pow2(MAX_EXPONENT + 1)
    ensures IsFloat(Round(x), m, e)
  {
    var b := Binade(x, MAX_EXPONENT);
    RoundRange(x);
    m, e := FactorIsFloat(Round(x), Nearest(Ldexp(x, 52 - b)), b);
  }

  lemma FactorIsFloat(r: real, n: int, b: int) returns (m: nat, e: int)
    requires MIN_EXPONENT <= b <= MAX_EXPONENT && r == Ldexp(n as real, b - 52)
    requires 0.0 <= r && if b == MAX_EXPONENT then r < Pow2(b + 1) else r <= Pow2(b + 1)
    ensures IsFloat(r, m, e)
  {
    BinadeSteps(b);
    LdexpSign(n as real, b - 52);
    LdexpOrder(n as real, 9007199254740992.0, b - 52);
    if n < 0x20_0000_0000_0000 {
      m, e := n, b - 52;
    } else {
      LdexpAdd(4503599627370496.0, 1, b - 52);
      m, e := 0x10_0000_0000_0000, b - 51;
    }
  }

  lemma RoundIdempotent(x: real)
    requires x >= 0.0 && Round(x) < Pow2(MAX_EXPONENT + 1)
    ensures Round(x) >= 0.0 && Round(Round(x)) == Round(x)
  {
    var m, e := RoundIsFloat(x);
    RoundFixes(Round(x), m, e);
  }

  // ---------- values and operations ----------

  datatype F64 = NaN | Infinite(negative: bool) | Finite(value: real)

  const U64_MAX: int := 0xFFFF_FFFF_FFFF_FFFF

  function FromReal(x: real): F64 {
    var magnitude := Round(Abs(x));
    if magnitude >= Pow2(MAX_EXPONENT + 1) then Infinite(x < 0.0)
    else Finite(if x < 0.0 then -magnitude else magnitude)
  }

  /** `n as f64` for an unsigned integer. */
  function FromInteger(n: nat): F64 {
    FromReal(n as real)
  }

  /** The exact product, before rounding. */
  function Mul(x: real, y: real): real {
    x * y
  }

  function Times(a: F64, b: F64): F64 {
    match (a, b)
    case (Finite(x), Finite(y)) => FromReal(Mul(x, y))
    case (Infinite(s), Infinite(t)) => Infinite(s != t)
    case (Infinite(s), Finite(y)) => if y == 0.0 then NaN else Infinite(s != (y < 0.0))
    case (Finite(x), Infinite(t)) => if x == 0.0 then NaN else Infinite((x < 0.0) != t)
    case _ => NaN
  }

  lemma TimesCommutes(a: F64, b: F64)
    ensures Times(a, b) == Times(b, a)
  {
    hide FromReal;
    if a.Finite? && b.Finite? {
      assert Mul(a.value, b.value) == Mul(b.value, a.value);
    }
  }

  function CeilReal(x: real): int {
    if x == x.Floor as real then x.Floor else x.Floor + 1
  }

  function Ceil(a: F64): F64 {
    if a.Finite? then Finite(CeilReal(a.value) as real) else a
  }

  /** `a as u64`: truncating, saturating, 0 for NaN. */
  function ToU64(a: F64): (n: nat)
    ensures n <= U64_MAX
  {
    match a
    case NaN => 0
    case Infinite(negative) => if negative then 0 else U64_MAX
    case Finite(v) =>
      if v < 0.0 then 0 else if v.Floor > U64_MAX then U64_MAX else v.Floor
  }
}
