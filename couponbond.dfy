/** The coupon-bond price of functions/getCouponBondPrice2.cpp: `n` years of `m`
    coupons a year, discounted period by period at `ytm / m`, plus the
    discounted face value `f`. The exponents are whole numbers, so `pow` is an
    exact integer power here. */
module CouponBond {
  import opened Series

  /** Discount factor base for one period. */
  function PeriodBase(m: int, ytm: real): real
    requires m != 0
  {
    1.0 + ytm / m as real
  }

  /** The source's precondition: a non-zero `m`, and a non-zero period base
      whenever there is at least one period to discount over. */
  predicate PriceDefined(n: int, m: int, ytm: real)
  {
    m != 0 && (n * m != 0 ==> PeriodBase(m, ytm) != 0.0)
  }

  /** The coupon paid each period: the annual rate `coupon` on face `f`, over
      `m` payments a year. */
  function CouponPayment(coupon: real, f: real, m: int): real
    requires m != 0
  {
    coupon * f / m as real
  }

  /** Sum of `count` coupons of `c`, the coupon of period `i` discounted by `b^i`. */
  function CouponSum(c: real, b: real, count: nat): real
    requires count == 0 || b != 0.0
  {
    if count == 0 then 0.0 else CouponSum(c, b, count - 1) + c / Pow(b, count)
  }

  /** Number of loop iterations: `n * m` when positive, none otherwise. */
  function Periods(n: int, m: int): nat
  {
    if n * m > 0 then n * m else 0
  }

  /** The price the code computes, stated by its parts. */
  function CouponBondPrice(n: int, coupon: real, m: int, ytm: real, f: real): real
    requires PriceDefined(n, m, ytm)
  {
    CouponSum(CouponPayment(coupon, f, m), PeriodBase(m, ytm), Periods(n, m))
      + Discounted(f, PeriodBase(m, ytm), n * m)
  }

  /** The present value of `f` due after `e` periods at base `b`: the amount
      that compounds back to `f`. */
  function Discounted(f: real, b: real, e: int): (v: real)
    requires e == 0 || b != 0.0
    ensures v * IntPow(b, e) == f
  {
    f / IntPow(b, e)
  }

  /** `getCouponBondPrice2`: the loop over periods `1 .. n * m` followed by the
      discounted face value. */
  method GetCouponBondPrice2(n: int, coupon: real, m: int, ytm: real, f: real) returns (price: real)
    requires PriceDefined(n, m, ytm)
    ensures price == CouponBondPrice(n, coupon, m, ytm, f)
  {
    price := 0.0;
    var periods := n * m;
    var b := 1.0 + ytm / m as real;
    ghost var count := Periods(n, m);
    ghost var c := CouponPayment(coupon, f, m);
    assert count == if periods > 0 then periods else 0;
    assert b == PeriodBase(m, ytm);
    var i := 1;
    while i <= periods
      invariant 1 <= i <= count + 1
      invariant price == CouponSum(c, b, i - 1)
    {
      price := price + (coupon * f / m as real) / Pow(b, i);
      i := i + 1;
    }
    assert i - 1 == count;
    price := price + Discounted(f, b, periods);
  }

  /** With no periods the price is the face value. */
  lemma NoPeriods(n: int, coupon: real, m: int, ytm: real, f: real)
    requires m != 0 && n * m == 0
    ensures CouponBondPrice(n, coupon, m, ytm, f) == f
  {
  }

  /** At zero yield nothing is discounted: the face value plus `n` years of
      coupons `coupon * f`. */
  lemma ZeroYield(n: int, coupon: real, m: int, f: real)
    requires m != 0 && n * m >= 0
    ensures CouponBondPrice(n, coupon, m, 0.0, f) == f * (1.0 + coupon * n as real)
  {
    var N := Periods(n, m);
    var c := CouponPayment(coupon, f, m);
    CouponSumAtOne(c, N);
    IntPowOne(n * m);
    assert N as real == n as real * m as real;
    calc {
      N as real * c;
      n as real * m as real * (coupon * f / m as real);
      n as real * (coupon * f);
    }
  }

  lemma {:induction false} CouponSumAtOne(c: real, count: nat)
    ensures CouponSum(c, 1.0, count) == count as real * c
  {
    if count > 0 {
      CouponSumAtOne(c, count - 1);
      PowOne(count);
    }
  }

  /** Without coupons the bond is a discounted face value. */
  lemma ZeroCoupon(n: int, m: int, ytm: real, f: real)
    requires PriceDefined(n, m, ytm)
    ensures CouponBondPrice(n, 0.0, m, ytm, f) == Discounted(f, PeriodBase(m, ytm), n * m)
  {
    CouponSumZero(PeriodBase(m, ytm), Periods(n, m));
  }

  lemma {:induction false} CouponSumZero(b: real, count: nat)
    requires count == 0 || b != 0.0
    ensures CouponSum(0.0, b, count) == 0.0
  {
    if count > 0 {
      CouponSumZero(b, count - 1);
      assert 0.0 / Pow(b, count) == 0.0;
    }
  }

  /** The price is proportional to the face value. */
  lemma LinearInFace(n: int, coupon: real, m: int, ytm: real, f: real)
    requires PriceDefined(n, m, ytm)
    ensures CouponBondPrice(n, coupon, m, ytm, f) == f * CouponBondPrice(n, coupon, m, ytm, 1.0)
  {
    PriceParts(coupon, m, f, PeriodBase(m, ytm), Periods(n, m), n * m);
  }

  /** `LinearInFace` over any base and period counts: both the coupons and the
      discounted face value scale with `f`. */
  lemma PriceParts(coupon: real, m: int, f: real, b: real, count: nat, e: int)
    requires m != 0 && (count == 0 || b != 0.0) && (e == 0 || b != 0.0)
    ensures CouponSum(CouponPayment(coupon, f, m), b, count) + Discounted(f, b, e)
            == f * (CouponSum(CouponPayment(coupon, 1.0, m), b, count) + Discounted(1.0, b, e))
  {
    CouponsLinear(coupon, m, f, b, count);
    DiscountedLinear(f, b, e);
    Distribute(f, CouponSum(CouponPayment(coupon, 1.0, m), b, count), Discounted(1.0, b, e),
               CouponSum(CouponPayment(coupon, f, m), b, count), Discounted(f, b, e));
  }

  lemma CouponsLinear(coupon: real, m: int, f: real, b: real, count: nat)
    requires m != 0 && (count == 0 || b != 0.0)
    ensures CouponSum(CouponPayment(coupon, f, m), b, count) == f * CouponSum(CouponPayment(coupon, 1.0, m), b, count)
  {
    var c1 := CouponPayment(coupon, 1.0, m);
    var cf := CouponPayment(coupon, f, m);
    assert cf == f * c1 by {
      DivScale(f, coupon, m as real);
    }
    CouponSumScale(f, c1, cf, b, count);
  }

  lemma DiscountedLinear(f: real, b: real, e: int)
    requires e == 0 || b != 0.0
    ensures Discounted(f, b, e) == f * Discounted(1.0, b, e)
  {
    DivScale(f, 1.0, IntPow(b, e));
  }

  lemma Distribute(a: real, x: real, y: real, ax: real, ay: real)
    requires ax == a * x && ay == a * y
    ensures ax + ay == a * (x + y)
  {
  }

  lemma {:induction false} CouponSumScale(a: real, c: real, ac: real, b: real, count: nat)
    requires count == 0 || b != 0.0
    requires ac == a * c
    ensures CouponSum(ac, b, count) == a * CouponSum(c, b, count)
  {
    if count > 0 {
      CouponSumScale(a, c, ac, b, count - 1);
      DivScale(a, c, Pow(b, count));
    }
  }

  /** A positive face value, non-negative coupons, at least one coupon a year
      and a positive period base give a positive price. */
  lemma PricePositive(n: int, coupon: real, m: int, ytm: real, f: real)
    requires m >= 1 && f > 0.0 && coupon >= 0.0
    requires PeriodBase(m, ytm) > 0.0
    ensures CouponBondPrice(n, coupon, m, ytm, f) > 0.0
  {
    var b := PeriodBase(m, ytm);
    var c := CouponPayment(coupon, f, m);
    assert coupon * f >= 0.0;
    assert c >= 0.0;
    CouponSumNonNegative(c, b, Periods(n, m));
  }

  lemma {:induction false} CouponSumNonNegative(c: real, b: real, count: nat)
    requires c >= 0.0 && b > 0.0
    ensures CouponSum(c, b, count) >= 0.0
  {
    if count > 0 {
      CouponSumNonNegative(c, b, count - 1);
      assert c / Pow(b, count) >= 0.0;
    }
  }
}
