/** The arithmetic of `calculate_fee` (app.rs): two binary64 products, each rounded up to a u64. */
module Fee {
  import opened Binary64

  const U128_MAX: int := 0xFFFF_FFFF_FFFF_FFFF_FFFF_FFFF_FFFF_FFFF

  const TWO_64: int := U64_MAX + 1

  type u64 = n: int | 0 <= n <= U64_MAX
  type u128 = n: int | 0 <= n <= U128_MAX

  /** The literal 1.2 of DEFAULT_GAS_ADJUSTMENT as a binary64 value. */
  const DEFAULT_GAS_ADJUSTMENT: F64 := Finite(5404319552844595.0 / 4503599627370496.0)

  const MIN_GAS_PRICE: u128 := 2500

  function GasLimit(gasUsed: u64, adjustment: F64): u64 {
    ToU64(Ceil(Times(FromInteger(gasUsed), adjustment)))
  }

  function FeeAmount(gasLimit: u64, gasPrice: u128): u64 {
    ToU64(Ceil(Times(FromInteger(gasLimit), FromInteger(gasPrice))))
  }

  /** The integer formula the computation stands for: ceil(6 g / 5). */
  function SixFifths(g: nat): nat {
    (6 * g + 4) / 5
  }

  // ---------- rounding up to a u64 ----------

  /** `(x rounded to binary64).ceil() as u64`. */
  function CeilU64(x: real): nat
    requires x >= 0.0
  {
    if CeilReal(Round(x)) > U64_MAX then U64_MAX else if Round(x) < 0.0 then 0 else CeilReal(Round(x))
  }

  lemma LimitExceedsU64()
    ensures Pow2(MAX_EXPONENT + 1) > 2.0 * Pow2(128) && Pow2(128) > U128_MAX as real && Pow2(64) > U64_MAX as real
  {
    Pow2Values();
    LdexpNext(1.0, 128);
    LdexpNext(1.0, 129);
    Pow2Mono(130, MAX_EXPONENT + 1);
  }

  lemma CeilOfFromReal(x: real)
    requires x >= 0.0
    ensures ToU64(Ceil(FromReal(x))) == CeilU64(x)
  {
    LimitExceedsU64();
    RoundRange(x);
  }

  lemma IntegersAreFinite(n: nat)
    requires n <= U128_MAX
    ensures FromInteger(n) == Finite(Round(n as real)) && Round(n as real) >= 0.0
  {
    LimitExceedsU64();
    RoundRange(n as real);
    RoundMono(n as real, Pow2(128));
    Pow2Values();
    RoundFixes(Pow2(128), 1, 128);
  }

  lemma CeilU64Mono(x: real, y: real)
    requires 0.0 <= x <= y
    ensures CeilU64(x) <= CeilU64(y)
  {
    RoundMono(x, y);
    CeilMono(Round(x), Round(y));
  }

  lemma CeilMono(x: real, y: real)
    requires x <= y
    ensures CeilReal(x) <= CeilReal(y)
  {
    assert x.Floor <= y.Floor;
  }

  lemma ProductNonNegative(a: real, b: real)
    requires a >= 0.0 && b >= 0.0
    ensures Mul(a, b) >= 0.0
  {
  }

  lemma ProductOrder(a: real, b: real, u: real, p: real, q: real)
    requires a <= b && u >= 0.0 && p == Mul(a, u) && q == Mul(b, u)
    ensures p <= q
  {
  }

  lemma TimesFinite(x: real, y: real, p: real)
    requires p == Mul(x, y)
    ensures Times(Finite(x), Finite(y)) == FromReal(p)
  {
  }

  /** `p` is the exact product of the converted gas amount and a non-negative adjustment. */
  lemma GasLimitIs(gasUsed: u64, v: real, p: real)
    requires v >= 0.0 && p == Mul(Round(gasUsed as real), v)
    ensures p >= 0.0 && GasLimit(gasUsed, Finite(v)) == CeilU64(p)
  {
    IntegersAreFinite(gasUsed);
    ProductNonNegative(Round(gasUsed as real), v);
    TimesFinite(Round(gasUsed as real), v, p);
    CeilOfFromReal(p);
  }

  /** `n` is the least integer that is not below `x`, or the greatest u64 if that one is greater. */
  predicate LeastAbove(n: int, x: real) {
    if x > U64_MAX as real then n == U64_MAX else n as real - 1.0 < x <= n as real
  }

  /** The gas limit for every adjustment: nothing for NaN and from 0 down; for plus infinity all there
      is unless no gas was used; otherwise the product, rounded twice, rounded up and saturated. */
  lemma GasLimitExactly(gasUsed: u64, adjustment: F64)
    ensures match adjustment
            case NaN => GasLimit(gasUsed, adjustment) == 0
            case Infinite(negative) => GasLimit(gasUsed, adjustment) == if negative || gasUsed == 0 then 0 else U64_MAX
            case Finite(v) =>
              if v <= 0.0 then GasLimit(gasUsed, adjustment) == 0
              else Mul(Round(gasUsed as real), v) >= 0.0 &&
                   LeastAbove(GasLimit(gasUsed, adjustment), Round(Mul(Round(gasUsed as real), v)))
  {
    hide Round, Mul, CeilU64, LeastAbove, RoundTo;
    IntegersAreFinite(gasUsed);
    match adjustment
    case NaN =>
    case Infinite(_) =>
      RoundFixesInteger(0);
      RoundFixesInteger(1);
      if gasUsed > 0 { RoundMono(1.0, gasUsed as real); }
    case Finite(v) =>
      var p := Mul(Round(gasUsed as real), v);
      if v < 0.0 {
        NegativeAdjustment(gasUsed, v, p);
      } else {
        GasLimitIs(gasUsed, v, p);
        CeilU64Least(p);
        if v == 0.0 { NoGas(gasUsed, p); }
      }
  }

  lemma NoGas(gasUsed: u64, p: real)
    requires p == Mul(Round(gasUsed as real), 0.0)
    ensures CeilU64(p) == 0
  {
    assert p == 0.0;
    RoundFixesInteger(0);
  }

  lemma CeilU64Least(x: real)
    requires x >= 0.0
    ensures LeastAbove(CeilU64(x), Round(x))
  {
    RoundRange(x);
  }

  /** The fee amount for every limit and price, likewise. */
  lemma FeeAmountExactly(limit: u64, price: u128)
    ensures Mul(Round(limit as real), Round(price as real)) >= 0.0
    ensures LeastAbove(FeeAmount(limit, price), Round(Mul(Round(limit as real), Round(price as real))))
  {
    hide Round, Mul, CeilU64, LeastAbove;
    IntegersAreFinite(limit);
    IntegersAreFinite(price);
    var p := Mul(Round(limit as real), Round(price as real));
    ProductNonNegative(Round(limit as real), Round(price as real));
    TimesFinite(Round(limit as real), Round(price as real), p);
    CeilOfFromReal(p);
    CeilU64Least(p);
  }

  // ---------- monotonicity ----------

  lemma NegativeGivesZero(x: real)
    requires x <= 0.0
    ensures ToU64(Ceil(FromReal(x))) == 0
  {
    RoundRange(-x);
    if x == 0.0 {
      RoundFixesInteger(0);
      LimitExceedsU64();
    }
  }

  lemma NegativeAdjustment(g: u64, v: real, p: real)
    requires v < 0.0 && p == Mul(Round(g as real), v)
    ensures GasLimit(g, Finite(v)) == 0
  {
    IntegersAreFinite(g);
    NonPositive(Round(g as real), v);
    TimesFinite(Round(g as real), v, p);
    NegativeGivesZero(p);
  }

  lemma NonPositive(a: real, v: real)
    requires a >= 0.0 && v <= 0.0
    ensures Mul(a, v) <= 0.0
  {
  }

  /** Using more gas never lowers the gas limit, whatever the adjustment is. */
  lemma GasLimitMonotone(g: u64, g': u64, adjustment: F64)
    requires g <= g'
    ensures GasLimit(g, adjustment) <= GasLimit(g', adjustment)
  {
    if adjustment.Finite? {
      var a, a', v := Round(g as real), Round(g' as real), adjustment.value;
      GasLimitMonotoneFinite(g, g', v, Mul(a, v), Mul(a', v));
    } else {
      IntegersAreFinite(g);
      IntegersAreFinite(g');
      RoundMono(g as real, g' as real);
    }
  }

  lemma GasLimitsOfOrderedProducts(g: u64, g': u64, v: real, p: real, p': real)
    requires v >= 0.0 && p == Mul(Round(g as real), v) && p' == Mul(Round(g' as real), v) && p <= p'
    ensures GasLimit(g, Finite(v)) <= GasLimit(g', Finite(v))
  {
    GasLimitIs(g, v, p);
    GasLimitIs(g', v, p');
    CeilU64Mono(p, p');
  }

  lemma GasLimitMonotoneFinite(g: u64, g': u64, v: real, p: real, p': real)
    requires g <= g' && p == Mul(Round(g as real), v) && p' == Mul(Round(g' as real), v)
    ensures GasLimit(g, Finite(v)) <= GasLimit(g', Finite(v))
  {
    if v >= 0.0 {
      RoundMono(g as real, g' as real);
      ProductOrder(Round(g as real), Round(g' as real), v, p, p');
      GasLimitsOfOrderedProducts(g, g', v, p, p');
    } else {
      NegativeAdjustment(g, v, p);
    }
  }

  /** The fee amount is monotone in the gas limit. */
  lemma FeeAmountMonotone(limit: u64, limit': u64, gasPrice: u128)
    requires limit <= limit'
    ensures FeeAmount(limit, gasPrice) <= FeeAmount(limit', gasPrice)
  {
    GasLimitMonotone(limit, limit', FromInteger(gasPrice));
  }

  /** Using more gas never lowers the fee, whatever the adjustment and the price are. */
  lemma FeeMonotoneInGasUsed(g: u64, g': u64, adjustment: F64, gasPrice: u128)
    requires g <= g'
    ensures FeeAmount(GasLimit(g, adjustment), gasPrice) <= FeeAmount(GasLimit(g', adjustment), gasPrice)
  {
    GasLimitMonotone(g, g', adjustment);
    FeeAmountMonotone(GasLimit(g, adjustment), GasLimit(g', adjustment), gasPrice);
  }

  // ---------- lower bound ----------

  /** The gas limit covers the gas used under every finite adjustment of at least 1 exactly when
      converting the gas used to binary64 does not round it down; up to 2^53 it never does. */
  lemma GasLimitCovers(gasUsed: u64)
    ensures (forall v: real | v >= 1.0 :: GasLimit(gasUsed, Finite(v)) >= gasUsed) <==>
            Round(gasUsed as real) >= gasUsed as real
    ensures gasUsed <= 0x20_0000_0000_0000 ==> Round(gasUsed as real) >= gasUsed as real
  {
    if gasUsed <= 0x20_0000_0000_0000 {
      RoundFixesInteger(gasUsed);
    }
    if Round(gasUsed as real) >= gasUsed as real {
      forall v: real | v >= 1.0 ensures GasLimit(gasUsed, Finite(v)) >= gasUsed {
        CoversAt(gasUsed, v, Mul(Round(gasUsed as real), v));
      }
    } else {
      UncoveredAtOne(gasUsed);
      assert GasLimit(gasUsed, Finite(1.0)) < gasUsed;
    }
  }

  /** The first gas amount that is not covered: it is converted to 2^53. */
  lemma FirstUncovered()
    ensures GasLimit(0x20_0000_0000_0001, Finite(1.0)) < 0x20_0000_0000_0001
  {
    FeeAmountInexact();
    RoundFixesInteger(1);
    IntegersAreFinite(1);
  }

  lemma RoundedGasIsFixed(gasUsed: u64)
    ensures Round(gasUsed as real) >= 0.0
    ensures Round(Round(gasUsed as real)) == Round(gasUsed as real)
  {
    IntegersAreFinite(gasUsed);
    RoundIdempotent(gasUsed as real);
  }

  lemma CoversAt(gasUsed: u64, v: real, p: real)
    requires v >= 1.0 && Round(gasUsed as real) >= gasUsed as real
    requires p == Mul(Round(gasUsed as real), v)
    ensures GasLimit(gasUsed, Finite(v)) >= gasUsed
  {
    var a := Round(gasUsed as real);
    GasLimitIs(gasUsed, v, p);
    RoundedGasIsFixed(gasUsed);
    Grows(a, v, p);
    RoundMono(a, p);
    CeilMono(gasUsed as real, Round(p));
  }

  lemma Grows(a: real, v: real, p: real)
    requires a >= 0.0 && v >= 1.0 && p == Mul(a, v)
    ensures a <= p
  {
  }

  lemma UncoveredAtOne(gasUsed: u64)
    requires Round(gasUsed as real) < gasUsed as real
    ensures GasLimit(gasUsed, Finite(1.0)) < gasUsed
  {
    GasLimitIs(gasUsed, 1.0, Round(gasUsed as real));
    RoundedGasIsFixed(gasUsed);
    BigRoundIsInteger(gasUsed);
  }

  /** Above 2^53 the step is a whole number, so a rounded value is one too. */
  lemma BigRoundIsInteger(n: nat)
    requires Round(n as real) != n as real
    ensures Round(n as real) == Round(n as real).Floor as real
  {
    if n <= 0x20_0000_0000_0000 {
      RoundFixesInteger(n);
    } else {
      Pow2Values();
      var b := Binade(n as real, MAX_EXPONENT);
      if b < 52 {
        Pow2Mono(b + 1, 52);
        assert false;
      }
      LdexpInteger(Nearest(Ldexp(n as real, 52 - b)), b - 52);
    }
  }

  lemma {:induction false} LdexpInteger(n: int, k: nat)
    ensures Ldexp(n as real, k) == Ldexp(n as real, k).Floor as real
  {
    if k > 0 {
      LdexpInteger(n, k - 1);
      var f := Ldexp(n as real, k - 1).Floor;
      assert Ldexp(n as real, k) == (2 * f) as real;
    }
  }

  lemma {:induction false} ProductOfNats(m: nat, n: nat)
    ensures (m * n) as real == m as real * n as real
  {
    if m > 0 {
      ProductOfNats(m - 1, n);
      assert m * n == (m - 1) * n + n;
      assert m as real * n as real == (m - 1) as real * n as real + n as real;
    }
  }

  // ---------- exactness of the fee amount ----------

  /** The fee amount is the integer product for every limit and price whose product is at most P
      exactly when P is at most 2^53. */
  lemma FeeAmountExactUpTo(P: nat)
    ensures (forall limit: u64, price: u128 | limit * price <= P :: FeeAmount(limit, price) == limit * price) <==>
            P <= 0x20_0000_0000_0000
  {
    if P <= 0x20_0000_0000_0000 {
      forall limit: u64, price: u128 | limit * price <= P ensures FeeAmount(limit, price) == limit * price {
        FeeAmountExact(limit, price);
      }
    } else {
      var limit: u64, price: u128 := 0x20_0000_0000_0001, 1;
      FeeAmountInexact();
      assert limit * price <= P && FeeAmount(limit, price) != limit * price;
    }
  }

  lemma FeeAmountExact(limit: u64, price: u128)
    requires limit * price <= 0x20_0000_0000_0000
    ensures FeeAmount(limit, price) == limit * price
  {
    ExactProduct(limit, price);
    FeeAmountOfExactProduct(limit, price, limit * price, Round(price as real));
  }

  lemma FeeAmountOfExactProduct(limit: u64, price: u128, n: nat, v: real)
    requires v == Round(price as real) && Mul(Round(limit as real), v) == n as real && n <= 0x20_0000_0000_0000
    ensures FeeAmount(limit, price) == n
  {
    IntegersAreFinite(price);
    GasLimitIs(limit, v, n as real);
    RoundFixesInteger(n);
  }

  lemma ExactProduct(limit: u64, price: u128)
    requires limit * price <= 0x20_0000_0000_0000
    ensures Mul(Round(limit as real), Round(price as real)) == (limit * price) as real
  {
    RoundFixesInteger(0);
    ProductOfNats(limit, price);
    if limit > 0 && price > 0 {
      FactorsBelow(limit, price);
      RoundFixesInteger(limit);
      RoundFixesInteger(price);
    }
  }

  lemma FactorsBelow(a: nat, b: nat)
    requires a > 0 && b > 0
    ensures a <= a * b && b <= a * b
  {
  }

  /** 2^53 + 1 is a tie between 2^53 and 2^53 + 2, and goes to the even significand. */
  lemma FeeAmountInexact()
    ensures FeeAmount(0x20_0000_0000_0001, 1) == 0x20_0000_0000_0000
  {
    Pow2Values();
    LdexpNext(1.0, 53);
    var x := 9007199254740993.0;
    BinadeAt(x, 53);
    LdexpNext(x, -1);
    LdexpNext(4503599627370496.0, 0);
    assert Nearest(4503599627370496.5) == 4503599627370496;
    assert RoundTo(x, 1) == 9007199254740992.0;
    FeeAmountOfTie();
  }

  lemma FeeAmountOfTie()
    requires Round(9007199254740993.0) == 9007199254740992.0
    ensures FeeAmount(0x20_0000_0000_0001, 1) == 0x20_0000_0000_0000
  {
    RoundFixesInteger(1);
    IntegersAreFinite(1);
    GasLimitIs(0x20_0000_0000_0001, 1.0, 9007199254740992.0);
    RoundFixesInteger(0x20_0000_0000_0000);
  }

  lemma {:induction false} BinadeAt(x: real, k: int)
    requires MIN_EXPONENT < k < MAX_EXPONENT && Pow2(k) <= x < Pow2(k + 1) && x >= 0.0
    ensures Binade(x, MAX_EXPONENT) == k
  {
    var b := Binade(x, MAX_EXPONENT);
    if b < k {
      Pow2Mono(b + 1, k);
    } else if b > k {
      Pow2Mono(k + 1, b);
    }
  }

  // ---------- exactness of the default adjustment ----------

  /** 1.2 is not representable; the constant is the binary64 value nearest to it. */
  lemma DefaultAdjustmentIsRounded()
    ensures DEFAULT_GAS_ADJUSTMENT == FromReal(1.2)
    ensures DEFAULT_GAS_ADJUSTMENT.value == 1.2 - 0.2 / 4503599627370496.0
  {
    LdexpNext(1.0, 0);
    BinadeAt(1.2, 0);
    LdexpOf52(1.2);
    assert Ldexp(1.2, 52) == 5404319552844595.2;
    var r := Ldexp(5404319552844595.0, -52);
    LdexpAdd(5404319552844595.0, -52, 52);
    LdexpOf52(r);
    assert Round(1.2) == r;
    LimitExceedsU64();
    Pow2Mono(1, 128);
  }

  lemma {:induction false} LdexpOf52(x: real)
    ensures Ldexp(x, 52) == 4503599627370496.0 * x
  {
    LdexpBy13(x, 0);
    LdexpBy13(x, 13);
    LdexpBy13(x, 26);
    LdexpBy13(x, 39);
  }

  lemma LdexpBy13(x: real, k: int)
    ensures Ldexp(x, k + 13) == 8192.0 * Ldexp(x, k)
  {
    LdexpNext(x, k); LdexpNext(x, k + 1); LdexpNext(x, k + 2); LdexpNext(x, k + 3); LdexpNext(x, k + 4);
    LdexpNext(x, k + 5); LdexpNext(x, k + 6); LdexpNext(x, k + 7); LdexpNext(x, k + 8); LdexpNext(x, k + 9);
    LdexpNext(x, k + 10); LdexpNext(x, k + 11); LdexpNext(x, k + 12);
  }

  /** A product more than half a step above `m`, for steps of a quarter, a half or one, does not
      round down to `m`: a representable value above `m` is closer. */
  lemma StaysAbove(x: real, m: nat, k: int)
    requires (k == -2 && m < 0x8_0000_0000_0000) || (k == -1 && m < 0x10_0000_0000_0000) ||
             (k == 0 && m < 0x20_0000_0000_0000)
    requires x > m as real + 0.5 * Pow2(k)
    ensures Round(x) > m as real
  {
    var f := if k == 0 then m + 1 else if k == -1 then 2 * m + 1 else 4 * m + 1;
    var r := Ldexp(f as real, k);
    assert Pow2(0) == 1.0 && Pow2(-1) == 0.5 && Pow2(-2) == 0.25;
    assert r == m as real + Pow2(k) by {
      LdexpNext(f as real, -1);
      LdexpNext(f as real, -2);
    }
    RoundFixesInteger(m + 1);
    if k < 0 { RoundFixes(r, f, k); }
    if x > r {
      RoundMono(r, x);
    } else if k == 0 {
      RoundIsNearestInteger(x, m + 1);
    } else {
      RoundIsNearest(x, r, f, k);
    }
  }

  lemma RoundIsNearestInteger(x: real, n: nat)
    requires x >= 0.0 && n <= 0x20_0000_0000_0000
    ensures Abs(Round(x) - x) <= Abs(n as real - x)
  {
    if n < 0x20_0000_0000_0000 {
      RoundIsNearest(x, n as real, n, 0);
    } else {
      Pow2Values();
      RoundIsNearest(x, n as real, 1, 53);
    }
  }

  /** Less than half a step away from `m`, or half a step above an even `m`. */
  predicate LostAt(x: real, m: nat) {
    && 0x4_0000_0000_0000 <= m < 0x20_0000_0000_0000
    && (m as real <= x || (m > 0x10_0000_0000_0000 && m as real - 0.5 < x))
    && (x <= m as real + 0.125 || (m >= 0x8_0000_0000_0000 && x <= m as real + 0.25) ||
        (m >= 0x10_0000_0000_0000 && (x < m as real + 0.5 || (x == m as real + 0.5 && m % 2 == 0))))
  }

  /** Such a value rounds to `m`. */
  lemma RoundDown(x: real, m: nat)
    requires LostAt(x, m)
    ensures Round(x) == m as real
  {
    BinadesOfLost();
    Scaled(x);
    ScaledBack(m);
    if m < 0x8_0000_0000_0000 {
      BinadeAt(x, 50);
      RoundToIs(x, -2, 4 * m, m);
    } else if m < 0x10_0000_0000_0000 {
      BinadeAt(x, 51);
      RoundToIs(x, -1, 2 * m, m);
    } else {
      BinadeAt(x, 52);
      RoundToIs(x, 0, m, m);
    }
  }

  lemma {:induction false} Scaled(x: real)
    ensures Ldexp(x, 0) == x && Ldexp(x, 1) == 2.0 * x && Ldexp(x, 2) == 4.0 * x
  {
    LdexpNext(x, 0);
    LdexpNext(x, 1);
  }

  lemma {:induction false} ScaledBack(m: nat)
    ensures Ldexp((2 * m) as real, -1) == m as real && Ldexp((4 * m) as real, -2) == m as real
  {
    LdexpNext((2 * m) as real, -1);
    LdexpNext((4 * m) as real, -2);
    LdexpNext((4 * m) as real, -1);
  }

  lemma RoundToIs(x: real, e: int, f: int, m: nat)
    requires var q := Ldexp(x, -e);
      f as real - 0.5 < q < f as real + 0.5 || (q == f as real + 0.5 && f % 2 == 0)
    requires Ldexp(f as real, e) == m as real
    ensures RoundTo(x, e) == m as real
  {
    NearestIs(Ldexp(x, -e), f);
  }

  lemma NearestIs(q: real, f: int)
    requires f as real - 0.5 < q < f as real + 0.5 || (q == f as real + 0.5 && f % 2 == 0)
    ensures Nearest(q) == f
  {
    assert q.Floor == if q < f as real then f - 1 else f;
  }

  lemma BinadesOfLost()
    ensures Pow2(50) == 1125899906842624.0 && Pow2(51) == 2251799813685248.0
    ensures Pow2(52) == 4503599627370496.0 && Pow2(53) == 9007199254740992.0
  {
    Pow2Values();
    LdexpNext(1.0, 51);
    LdexpNext(1.0, 50);
  }

  /** The exact product falls short of 6 g / 5 by g / (5 * 2^52). */
  function Product(g: nat): real {
    g as real * 1.2 - g as real * 0.2 / 4503599627370496.0
  }

  lemma DefaultGasLimitIs(g: nat)
    requires 6 * g <= 5 * 0x20_0000_0000_0000
    ensures 0.0 <= Product(g) && GasLimit(g, DEFAULT_GAS_ADJUSTMENT) == CeilU64(Product(g))
  {
    RoundFixesInteger(g);
    DefaultAdjustmentIsRounded();
    GasLimitIs(g, DEFAULT_GAS_ADJUSTMENT.value, Product(g));
  }

  /** Where the shortfall of the constant swallows the fraction of 6 g / 5. */
  predicate OneLess(g: nat) {
    || (g % 5 == 1 && g >= 0x6_0000_0000_0000)
    || (g % 5 == 2 && g >= 0xC_0000_0000_0000)
    || (g % 5 == 3 && 6 * g >= 5 * 0x10_0000_0000_0000)
    || (g % 5 == 4 && g >= 0x18_0000_0000_0000)
  }

  /** With the default adjustment the gas limit is the integer ceiling of 6 g / 5, or one less for
      the gas amounts named by OneLess. This covers every limit up to 2^53, above which binary64
      no longer holds every integer. */
  lemma DefaultGasLimitExactly(g: nat)
    requires 6 * g <= 5 * 0x20_0000_0000_0000
    ensures GasLimit(g, DEFAULT_GAS_ADJUSTMENT) == if OneLess(g) then SixFifths(g) - 1 else SixFifths(g)
  {
    DefaultGasLimitIs(g);
    var x, n := Product(g), SixFifths(g);
    ProductBelow(g, x, n);
    RoundBelow(x, n);
    if g == 0 {
    } else if OneLess(g) {
      ProductLost(g, x, n);
      RoundDown(x, n - 1);
    } else {
      ProductKept(g, x, n);
      var k := if g % 5 == 1 then -2 else if g % 5 == 0 || g % 5 == 4 then 0 else -1;
      assert Pow2(0) == 1.0 && Pow2(-1) == 0.5 && Pow2(-2) == 0.25;
      StaysAbove(x, n - 1, k);
    }
  }

  /** The product relative to the integer below it; the shortfall is `d`. */
  lemma ProductIs(g: nat, x: real, n: nat, d: real)
    requires g > 0 && x == Product(g) && n == SixFifths(g) && d == g as real * 0.2 / 4503599627370496.0
    ensures x == (n - 1) as real + (if g % 5 == 0 then 1.0 else 0.2 * (g % 5) as real) - d
    ensures 6 * g <= 5 * (n as int) <= 6 * g + 4
  {
    var k, f := g / 5, g % 5;
    assert g == 5 * k + f;
    assert n == 6 * k + f + (if f == 0 then 0 else 1);
    assert g as real * 1.2 == (6 * k + f) as real + 0.2 * f as real;
  }

  lemma ProductBelow(g: nat, x: real, n: nat)
    requires 6 * g <= 5 * 0x20_0000_0000_0000 && x == Product(g) && n == SixFifths(g)
    ensures n <= 0x20_0000_0000_0000 && x <= n as real && (g > 0 ==> n > 0)
  {
    if g > 0 { ProductIs(g, x, n, g as real * 0.2 / 4503599627370496.0); }
  }

  lemma ProductLost(g: nat, x: real, n: nat)
    requires OneLess(g) && 6 * g <= 5 * 0x20_0000_0000_0000 && x == Product(g) && n == SixFifths(g)
    ensures n > 0 && LostAt(x, n - 1)
  {
    var d := g as real * 0.2 / 4503599627370496.0;
    ProductIs(g, x, n, d);
    if g % 5 == 4 && x == (n - 1) as real + 0.5 {
      assert d == 0.3;
      assert g == 0x18_0000_0000_0000;
    }
  }

  lemma ProductKept(g: nat, x: real, n: nat)
    requires g > 0 && !OneLess(g) && 6 * g <= 5 * 0x20_0000_0000_0000 && x == Product(g) && n == SixFifths(g)
    ensures n > 0
    ensures match g % 5
            case 1 => n < 0x8_0000_0000_0000 && x > (n - 1) as real + 0.125
            case 2 => n <= 0x10_0000_0000_0000 && x > (n - 1) as real + 0.25
            case 3 => n <= 0x10_0000_0000_0000 && x > (n - 1) as real + 0.25
            case _ => n <= 0x20_0000_0000_0000 && x > (n - 1) as real + 0.5
  {
    ProductIs(g, x, n, g as real * 0.2 / 4503599627370496.0);
  }

  lemma RoundBelow(x: real, n: nat)
    requires 0.0 <= x <= n as real && n <= 0x20_0000_0000_0000
    ensures 0.0 <= Round(x) <= n as real
  {
    RoundRange(x);
    RoundMono(x, n as real);
    RoundFixesInteger(n);
  }

  /** The binary64 computation agrees with the integer formula for every gas amount up to G
      exactly when G is below 3 * 2^49. */
  lemma DefaultGasLimitExactUpTo(G: u64)
    ensures (forall g: u64 | g <= G :: GasLimit(g, DEFAULT_GAS_ADJUSTMENT) == SixFifths(g)) <==>
            G < 0x6_0000_0000_0000
  {
    if G < 0x6_0000_0000_0000 {
      forall g: u64 | g <= G ensures GasLimit(g, DEFAULT_GAS_ADJUSTMENT) == SixFifths(g) {
        DefaultGasLimitExactly(g);
      }
    } else {
      var g: u64 := 0x6_0000_0000_0000;
      DefaultGasLimitExactly(g);
      assert g <= G && GasLimit(g, DEFAULT_GAS_ADJUSTMENT) != SixFifths(g);
    }
  }

  /** For every gas amount the limit is within one unit and one part in 2^49 of 6/5 of it, up to the
      saturation of the cast. */
  lemma DefaultGasLimitNear(g: u64) returns (m: nat)
    ensures GasLimit(g, DEFAULT_GAS_ADJUSTMENT) == if m > U64_MAX then U64_MAX else m
    ensures -5 * 0x2_0000_0000_0000 - g <= (5 * m - 6 * g) * 0x2_0000_0000_0000 <= 5 * 0x2_0000_0000_0000 + g
  {
    hide GasLimit, Round;
    IntegersAreFinite(g);
    var a := Round(g as real);
    var p := Shrunk(a);
    m := DefaultGasLimitOf(g, a, p);
    if g == 0 {
      RoundFixesInteger(0);
    } else {
      LimitExceedsU64();
      SmallError(g as real, a);
      AtLeastOne(g, a);
      ShrunkRange(a, Pow2(128));
      SmallError(p, Round(p));
      ErrorsAddUp(g, a, p, Round(p), m);
    }
  }

  /** The exact product of `a` and the constant. */
  function Shrunk(a: real): real {
    a * 1.2 - a * 0.2 / 4503599627370496.0
  }

  lemma DefaultGasLimitOf(g: u64, a: real, p: real) returns (m: nat)
    requires a == Round(g as real) && a >= 0.0 && p == Shrunk(a)
    ensures p >= 0.0 && Round(p) <= m as real < Round(p) + 1.0 && (p == 0.0 ==> m == 0)
    ensures GasLimit(g, DEFAULT_GAS_ADJUSTMENT) == if m > U64_MAX then U64_MAX else m
  {
    hide Round, GasLimit;
    DefaultAdjustmentIsRounded();
    assert p == Mul(a, DEFAULT_GAS_ADJUSTMENT.value);
    GasLimitIs(g, DEFAULT_GAS_ADJUSTMENT.value, p);
    RoundRange(p);
    RoundFixesInteger(0);
    m := CeilReal(Round(p));
  }

  lemma ShrunkRange(a: real, bound: real)
    requires 1.0 <= a <= bound
    ensures 1.0 <= Shrunk(a) < 2.0 * bound
  {
  }

  lemma SmallError(x: real, r: real)
    requires 1.0 <= x < 2.0 * Pow2(128) && r == Round(x)
    ensures Abs(r - x) * 9007199254740992.0 <= x
  {
    LimitExceedsU64();
    LdexpNext(1.0, 128);
    Pow2Mono(130, MAX_EXPONENT);
    LdexpNext(1.0, 129);
    RoundError(x);
    LdexpOf52(Abs(r - x));
    LdexpNext(Abs(r - x), 52);
  }

  lemma AtLeastOne(g: u64, a: real)
    requires g >= 1 && a == Round(g as real)
    ensures 1.0 <= a <= Pow2(128)
  {
    RoundMono(1.0, g as real);
    RoundFixesInteger(1);
    LimitExceedsU64();
    RoundMono(g as real, Pow2(128));
    Pow2Values();
    RoundFixes(Pow2(128), 1, 128);
  }

  lemma ErrorsAddUp(g: nat, a: real, p: real, r: real, m: nat)
    requires Abs(a - g as real) * 9007199254740992.0 <= g as real
    requires p == Shrunk(a)
    requires Abs(r - p) * 9007199254740992.0 <= p && r <= m as real < r + 1.0
    ensures -5 * 0x2_0000_0000_0000 - g <= (5 * m - 6 * g) * 0x2_0000_0000_0000 <= 5 * 0x2_0000_0000_0000 + g
  {
    var x, e := g as real, 0.00000000000000012;
    assert x - x * e <= a <= x + x * e;
    assert 6.0 * x - x * 6.1 * e - 5.0 * 0.00000000000000005 * x <= 5.0 * p <= 6.0 * x + x * 6.1 * e;
    assert (5 * m - 6 * g) as real == 5.0 * m as real - 6.0 * x;
  }

  /** The whole computation under default settings is integer arithmetic as long as neither
      threshold is crossed. */
  lemma DefaultFeeExact(g: u64, price: u128)
    requires g < 0x6_0000_0000_0000 && SixFifths(g) * price <= 0x20_0000_0000_0000
    ensures FeeAmount(GasLimit(g, DEFAULT_GAS_ADJUSTMENT), price) == SixFifths(g) * price
  {
    DefaultGasLimitExactly(g);
    FeeAmountExact(SixFifths(g), price);
  }
}
