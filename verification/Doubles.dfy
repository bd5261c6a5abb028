/** The conversion of an integer to a double: 53 significant bits, to nearest, ties to even. */
module Doubles {

  /** Integers up to this size are doubles themselves. */
  const MANTISSA: int := 0x20_0000_0000_0000

  /** The multiple of `ulp` nearest to `x`; halfway, the even multiple. */
  function Nearest(x: nat, ulp: nat): nat
    requires 0 < ulp
  {
    var q, r := x / ulp, x % ulp;
    if 2 * r < ulp || (2 * r == ulp && q % 2 == 0) then q * ulp else (q + 1) * ulp
  }

  /** Rounds to the precision that 53 bits leave, starting from a first guess of it. */
  function RoundFrom(x: nat, ulp: nat): nat
    requires 0 < ulp
    decreases x - MANTISSA * ulp
  {
    if x < MANTISSA * ulp then Nearest(x, ulp) else RoundFrom(x, 2 * ulp)
  }

  function ToDouble(x: int): int {
    if x < 0 then 0 - RoundFrom(-x, 1) else RoundFrom(x, 1)
  }

  lemma Scale(a: int, b: int, ulp: nat)
    requires a <= b
    ensures a * ulp <= b * ulp
  {
  }

  /** A number and the two multiples around it. */
  lemma Neighbours(x: nat, ulp: nat)
    requires 0 < ulp
    ensures var q := x / ulp; x == q * ulp + x % ulp && (q + 1) * ulp == q * ulp + ulp
  {
  }

  /** A number between two multiples stays between them, and moves by half a step at most. */
  lemma NearestBetween(x: nat, ulp: nat, low: nat, high: nat)
    requires 0 < ulp && low * ulp <= x <= high * ulp
    ensures low * ulp <= Nearest(x, ulp) <= high * ulp
    ensures -(ulp as int) <= 2 * (Nearest(x, ulp) - x) <= ulp
  {
    var q := x / ulp;
    Neighbours(x, ulp);
    if q < low { Scale(q + 1, low, ulp); } else { Scale(low, q, ulp); }
    if q < high { Scale(q + 1, high, ulp); } else { Scale(high, q, ulp); }
  }

  lemma NearestMonotone(x: nat, y: nat, ulp: nat)
    requires 0 < ulp && x <= y
    ensures Nearest(x, ulp) <= Nearest(y, ulp)
  {
    var q, q' := x / ulp, y / ulp;
    Neighbours(x, ulp);
    Neighbours(y, ulp);
    if q' < q { Scale(q' + 1, q, ulp); }
    if q < q' { Scale(q + 1, q', ulp); }
  }

  lemma {:induction false} RoundFromAtLeast(x: nat, ulp: nat)
    requires 0 < ulp && MANTISSA * ulp <= x
    ensures MANTISSA * ulp <= RoundFrom(x, 2 * ulp)
    decreases x - MANTISSA * ulp
  {
    if x < MANTISSA * (2 * ulp) {
      NearestBetween(x, 2 * ulp, MANTISSA / 2, MANTISSA);
    } else {
      RoundFromAtLeast(x, 2 * ulp);
    }
  }

  lemma {:induction false} RoundFromMonotone(x: nat, y: nat, ulp: nat)
    requires 0 < ulp && x <= y
    ensures RoundFrom(x, ulp) <= RoundFrom(y, ulp)
    decreases y - MANTISSA * ulp
  {
    if y < MANTISSA * ulp {
      NearestMonotone(x, y, ulp);
    } else if x < MANTISSA * ulp {
      NearestBetween(x, ulp, 0, MANTISSA);
      RoundFromAtLeast(y, ulp);
    } else {
      RoundFromMonotone(x, y, 2 * ulp);
    }
  }

  lemma {:induction false} RoundFromClose(x: nat, ulp: nat)
    requires 0 < ulp && MANTISSA * ulp <= 2 * x
    ensures -(x as int) <= MANTISSA * (RoundFrom(x, ulp) - x) <= x
    decreases x - MANTISSA * ulp
  {
    if x < MANTISSA * ulp {
      NearestBetween(x, ulp, 0, MANTISSA);
    } else {
      RoundFromClose(x, 2 * ulp);
    }
  }

  /** Rounding keeps order, so it never lets a lighter producer overtake a heavier one. */
  lemma ToDoubleMonotone(x: int, y: int)
    requires x <= y
    ensures ToDouble(x) <= ToDouble(y)
  {
    if 0 <= x {
      RoundFromMonotone(x, y, 1);
    } else if y < 0 {
      RoundFromMonotone(-y, -x, 1);
    }
  }

  lemma ToDoubleExact(x: int)
    requires -MANTISSA <= x <= MANTISSA
    ensures ToDouble(x) == x
  {
    var m := if x < 0 then -x else x;
    if m == MANTISSA {
      assert RoundFrom(m, 1) == Nearest(m, 2);
    }
  }

  function Pow2(e: nat): (p: nat)
    ensures 0 < p
  {
    if e == 0 then 1 else 2 * Pow2(e - 1)
  }

  /** A number with 53 significant bits. */
  predicate Represents(mantissa: nat, exponent: nat, x: nat) {
    mantissa <= MANTISSA && x == mantissa * Pow2(exponent)
  }

  lemma {:induction false} RoundFromFits(x: nat, e: nat)
    ensures exists m, k :: Represents(m, k, RoundFrom(x, Pow2(e)))
    decreases x - MANTISSA * Pow2(e)
  {
    var ulp := Pow2(e);
    if x < MANTISSA * ulp {
      var q := x / ulp;
      Neighbours(x, ulp);
      if MANTISSA <= q { Scale(MANTISSA, q, ulp); }
      assert Represents(q, e, RoundFrom(x, ulp)) || Represents(q + 1, e, RoundFrom(x, ulp));
    } else {
      assert Pow2(e + 1) == 2 * ulp;
      RoundFromFits(x, e + 1);
      assert RoundFrom(x, ulp) == RoundFrom(x, Pow2(e + 1));
    }
  }

  /** The result is a double. */
  lemma ToDoubleFits(x: int)
    ensures var d := if x < 0 then 0 - ToDouble(x) else ToDouble(x);
            exists m, k :: Represents(m, k, d)
  {
    RoundFromFits(if x < 0 then -x else x, 0);
  }

  /** Rounding keeps the sign, and moves a number by one part in 2^53 at most. */
  lemma ToDoubleClose(x: int)
    ensures 0 < ToDouble(x) <==> 0 < x
    ensures ToDouble(x) < 0 <==> x < 0
    ensures var m := if x < 0 then -x else x; -m <= MANTISSA * (ToDouble(x) - x) <= m
  {
    if -MANTISSA <= x <= MANTISSA {
      ToDoubleExact(x);
    } else {
      RoundFromClose(if x < 0 then -x else x, 1);
    }
  }
}
