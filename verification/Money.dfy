/** Amounts are integers in minor units, but shares of them are computed on floating-point Numbers (section 6.1.6.1 of
    ECMA-262) and floored. */
module Money {
  import opened Common

  /** `bps` hundredths of a percent of an amount, rounded down. */
  function Share(amount: int, bps: int): int {
    amount * bps / 10000
  }

  function Pow2(e: int): real
    decreases if e < 0 then -e else e
  {
    if e == 0 then 1.0 else if e > 0 then 2.0 * Pow2(e - 1) else Pow2(e + 1) / 2.0
  }

  function Scaled(m: int, e: int): real {
    m as real * Pow2(e)
  }

  predicate IsScaled(x: real, m: int, e: int) {
    -0x20_0000_0000_0000 < m < 0x20_0000_0000_0000 && -1074 <= e <= 971 && x == Scaled(m, e)
  }

  /** A finite Number: a significand of 53 bits and an exponent. */
  ghost predicate IsNumber(x: real) {
    exists m: int, e: int :: IsScaled(x, m, e)
  }

  function Gap(x: real, y: real): real {
    if x <= y then y - x else x - y
  }

  /** `d` is a Number nearest to the exact value `x`, whichever way ties are broken. */
  ghost predicate RoundsTo(x: real, d: real) {
    IsNumber(d) && forall d' :: IsNumber(d') ==> Gap(x, d) <= Gap(x, d')
  }

  lemma IntegersAreNumbers(n: int)
    requires -0x20_0000_0000_0000 < n < 0x20_0000_0000_0000
    ensures IsNumber(n as real)
  {
    assert IsScaled(n as real, n, 0);
  }

  lemma IntegersAreExact(n: int, d: real)
    requires -0x20_0000_0000_0000 < n < 0x20_0000_0000_0000 && RoundsTo(n as real, d)
    ensures d == n as real
  {
    IntegersAreNumbers(n);
  }

  lemma Any<T>(s: set<T>) returns (x: T)
    requires s != {}
    ensures x in s
  {
    x :| x in s;
  }

  lemma {:induction false} NearestOf(x: real, candidates: set<real>) returns (d: real)
    requires candidates != {}
    ensures d in candidates && forall d' :: d' in candidates ==> Gap(x, d) <= Gap(x, d')
    decreases |candidates|
  {
    d := Any(candidates);
    var rest := candidates - {d};
    if rest != {} {
      var e := NearestOf(x, rest);
      if Gap(x, e) < Gap(x, d) {
        d := e;
      }
    }
    forall d' | d' in candidates ensures Gap(x, d) <= Gap(x, d') {
      assert d' in rest || d' !in rest;
    }
  }

  /** Every exact value can be rounded: there are finitely many Numbers. */
  lemma EveryValueRounds(x: real) returns (d: real)
    ensures RoundsTo(x, d)
  {
    var numbers := set m: int, e: int
      | -0x20_0000_0000_0000 < m < 0x20_0000_0000_0000 && -1074 <= e <= 971 :: Scaled(m, e);
    forall y ensures IsNumber(y) <==> y in numbers {
      if IsNumber(y) {
        var m, e :| IsScaled(y, m, e);
      }
      if y in numbers {
        var m: int, e: int :| -0x20_0000_0000_0000 < m < 0x20_0000_0000_0000 && -1074 <= e <= 971 && y == Scaled(m, e);
        assert IsScaled(y, m, e);
      }
    }
    IntegersAreNumbers(0);
    d := NearestOf(x, numbers);
  }

  lemma SmallestStep()
    ensures Pow2(-14) == 1.0 / 16384.0
  {
    assert Pow2(-4) == 1.0 / 16.0;
    assert Pow2(-8) == 1.0 / 256.0;
    assert Pow2(-12) == 1.0 / 4096.0;
  }

  /** The Number one step below an integer, in units of 2^-14. */
  lemma JustBelowIsANumber(n: int)
    requires -0x8000_0000 <= n <= 0x8000_0000
    ensures IsNumber(n as real - 1.0 / 16384.0)
  {
    SmallestStep();
    var m := n * 16384 - 1;
    assert m as real == n as real * 16384.0 - 1.0;
    assert IsScaled(n as real - 1.0 / 16384.0, m, -14);
  }

  /** A quotient that is not an integer is at least 1/10000 away from the next one, and some Number lies in between:
      rounding never reaches that integer. */
  lemma QuotientKeepsItsFloor(p: int, d: real)
    requires -0x8000_0000 * 10000 <= p < 0x8000_0000 * 10000
    requires RoundsTo(p as real / 10000.0, d)
    ensures d.Floor == p / 10000
  {
    var x, q, r := p as real / 10000.0, p / 10000, p % 10000;
    assert p == q * 10000 + r;
    assert p as real == q as real * 10000.0 + r as real;
    assert x == q as real + r as real / 10000.0;
    IntegersAreNumbers(q);
    assert Gap(x, d) <= Gap(x, q as real);
    assert d >= q as real;
    if r != 0 {
      assert r as real <= 9999.0;
      JustBelowIsANumber(q + 1);
      assert Gap(x, d) <= Gap(x, (q + 1) as real - 1.0 / 16384.0);
    }
    assert d < (q + 1) as real;
  }

  lemma ProductFits(amount: int, bps: int)
    requires -0x8000_0000 <= amount <= MAX_INT32 && 0 <= bps <= 10000
    ensures -0x8000_0000 * 10000 <= amount * bps < 0x8000_0000 * 10000
  {
    if amount >= 0 {
      assert amount * bps <= amount * 10000;
    } else {
      assert amount * bps >= amount * 10000;
    }
  }

  /** For every 32-bit amount and every rate up to 100%, rounding the product and the quotient to Numbers and flooring
      gives exact integer division. */
  lemma FloatFloorIsIntegerDivision(amount: int, bps: int, product: real, quotient: real)
    requires -0x8000_0000 <= amount <= MAX_INT32 && 0 <= bps <= 10000
    requires RoundsTo((amount * bps) as real, product)
    requires RoundsTo(product / 10000.0, quotient)
    ensures quotient.Floor == Share(amount, bps)
  {
    var p := amount * bps;
    ProductFits(amount, bps);
    IntegersAreExact(p, product);
    QuotientKeepsItsFloor(p, quotient);
  }

  /** What is taken is never negative and never more than the amount, and the rest is zero only for a zero amount or
      a full rate. */
  lemma ShareIsWithin(amount: int, bps: int)
    requires amount >= 0 && 0 <= bps <= 10000
    ensures 0 <= Share(amount, bps) <= amount
    ensures Share(amount, bps) == amount <==> amount == 0 || bps == 10000
  {
    assert 0 <= amount * bps;
    assert amount * bps <= amount * 10000;
    if amount > 0 && bps < 10000 {
      assert amount * bps <= amount * 9999;
    }
  }

  /** Exact shares in hundredths of a percent of a minor unit, summed. */
  function ExactTotal(orders: seq<(int, int)>): int {
    if orders == [] then 0 else ExactTotal(orders[..|orders| - 1]) + orders[|orders| - 1].0 * orders[|orders| - 1].1
  }

  function BookedTotal(orders: seq<(int, int)>): int {
    if orders == [] then 0
    else BookedTotal(orders[..|orders| - 1]) + Share(orders[|orders| - 1].0, orders[|orders| - 1].1)
  }

  /** Over `n` orders rounding loses less than `n` minor units and never books too much. */
  lemma {:induction false} RoundingLossIsBounded(orders: seq<(int, int)>)
    requires orders != []
    ensures 0 <= ExactTotal(orders) - 10000 * BookedTotal(orders) < 10000 * |orders|
  {
    if |orders| > 1 {
      RoundingLossIsBounded(orders[..|orders| - 1]);
    }
  }
}
