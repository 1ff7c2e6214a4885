/** The zero-coupon bond price of functions/getZeroCouponBondPrice2.cpp: the
    face value discounted over `n` whole periods at `ytm`. */
module ZeroCouponBond {
  import opened Series
  import CouponBond

  /** `getZeroCouponBondPrice2`. The base `1 + ytm` must be non-zero unless
      there is nothing to discount over. Compounding the price for `n` periods
      gives back the face value. */
  function GetZeroCouponBondPrice2(n: int, ytm: real, f: real): (price: real)
    requires n == 0 || 1.0 + ytm != 0.0
    ensures price * IntPow(1.0 + ytm, n) == f
  {
    f / IntPow(1.0 + ytm, n)
  }

  /** No periods or a zero yield: the price is the face value. */
  lemma NoDiscount(n: int, ytm: real, f: real)
    requires n == 0 || ytm == 0.0
    ensures GetZeroCouponBondPrice2(n, ytm, f) == f
  {
    if ytm == 0.0 {
      IntPowOne(n);
    }
  }

  /** A positive face value and a positive base give a positive price. */
  lemma PricePositive(n: int, ytm: real, f: real)
    requires f > 0.0 && 1.0 + ytm > 0.0
    ensures GetZeroCouponBondPrice2(n, ytm, f) > 0.0
  {
    var p := IntPow(1.0 + ytm, n);
    assert f / p > 0.0;
  }

  /** A zero-coupon bond is a coupon bond with no coupon and one period a year. */
  lemma IsCouponBondWithoutCoupon(n: int, ytm: real, f: real)
    requires n == 0 || 1.0 + ytm != 0.0
    ensures CouponBond.PriceDefined(n, 1, ytm)
    ensures GetZeroCouponBondPrice2(n, ytm, f) == CouponBond.CouponBondPrice(n, 0.0, 1, ytm, f)
  {
    assert ytm / 1 as real == ytm;
    assert CouponBond.PeriodBase(1, ytm) == 1.0 + ytm;
    CouponBond.ZeroCoupon(n, 1, ytm, f);
  }
}
