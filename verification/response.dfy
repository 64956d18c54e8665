/**
 * The response functions shared by both sorters: the share of a memory
 * equal to a symbol, and the probabilities of picking up and dropping.
 * Python's floats are modelled as exact reals.
 */
module Response {
  /** `kp`, the pick-up constant of the response function. */
  const Kp: real := 0.1
  /** `km`, the drop constant of the response function. */
  const Km: real := 0.3

  /** `count / len(memory)`: a share of a non-empty memory. */
  function Share(count: nat, len: nat): (f: real)
    requires 0 < count <= len
    ensures 0.0 < f <= 1.0
    ensures f == 1.0 <==> count == len
    ensures f * (len as real) == count as real
  {
    var f := (count as real) / (len as real);
    assert f * (len as real) == count as real;
    f
  }

  /** A larger count is a larger share. */
  lemma ShareMonotone(c: nat, c': nat, len: nat)
    requires 0 < c <= c' <= len
    ensures Share(c, len) <= Share(c', len)
  {
    var f, f' := Share(c, len), Share(c', len);
    assert (f' - f) * (len as real) == (c' - c) as real;
    PositiveFactor(f' - f, len as real);
  }

  /** `a / b` for `0 <= a < b`: a proper fraction. */
  function Ratio(a: real, b: real): (q: real)
    requires 0.0 <= a < b
    ensures 0.0 <= q < 1.0
    ensures 0.0 < a <==> 0.0 < q
    ensures q * b == a
  {
    var q := a / b;
    assert q * b == a;
    PositiveFactor(q, b);
    PositiveFactor(1.0 - q, b);
    assert (1.0 - q) * b == b - a;
    q
  }

  /** With a positive second factor, a product has the sign of the first. */
  lemma PositiveFactor(x: real, b: real)
    requires 0.0 < b
    ensures 0.0 < x * b <==> 0.0 < x
    ensures 0.0 <= x * b <==> 0.0 <= x
  {
  }

  /** The square of a fraction is a fraction no larger than it. */
  lemma SquareFacts(q: real)
    requires 0.0 <= q <= 1.0
    ensures 0.0 <= q * q <= q
    ensures 0.0 < q ==> 0.0 < q * q
    ensures q < 1.0 ==> q * q < 1.0
  {
  }

  /** `q ** 2` for a fraction `q`. */
  function Squared(q: real): (p: real)
    requires 0.0 <= q <= 1.0
    ensures 0.0 <= p <= q
    ensures 0.0 < q <==> 0.0 < p
    ensures p < 1.0 <==> q < 1.0
  {
    SquareFacts(q);
    var p := q * q;
    assert 0.0 < q ==> 0.0 < p by {
      if 0.0 < q {
        calc { p; q * q; > 0.0; }
      }
    }
    assert q < 1.0 ==> p < 1.0 by {
      if q < 1.0 {
        calc { p; q * q; < 1.0; }
      }
    }
    assert p <= q by {
      calc { p; q * q; <= q; }
    }
    p
  }

  /** `(kp / (kp + f)) ** 2`, the probability of picking up. */
  function PickUpChance(f: real): (p: real)
    requires 0.0 <= f
    ensures 0.0 < p <= 1.0
    ensures 0.0 < f ==> p < 1.0
  {
    Squared(1.0 - Ratio(f, Kp + f))
  }

  /** `(f / (km + f)) ** 2`, the probability of dropping. */
  function DropChance(f: real): (p: real)
    requires 0.0 <= f
    ensures 0.0 <= p < 1.0
    ensures 0.0 < f ==> 0.0 < p
  {
    Squared(Ratio(f, Km + f))
  }

  /** A fraction grows with its numerator against a fixed offset: `f / (k + f)` rises with `f`. */
  lemma RatioMonotone(k: real, f: real, g: real)
    requires 0.0 < k && 0.0 <= f <= g
    ensures Ratio(f, k + f) <= Ratio(g, k + g)
  {
    var q, q' := Ratio(f, k + f), Ratio(g, k + g);
    var x, y := k + f, k + g;
    assert q * x == f && q' * y == g;
    var d := x * y;
    assert 0.0 < d by {
      PositiveFactor(x, y);
    }
    assert (q' - q) * d == k * (g - f) by {
      calc {
        (q' - q) * d;
        (q' * y) * x - (q * x) * y;
        g * x - f * y;
        k * (g - f);
      }
    }
    PositiveFactor(g - f, k);
    PositiveFactor(q' - q, d);
  }

  /** Squaring keeps the order of fractions. */
  lemma SquaredMonotone(q: real, q': real)
    requires 0.0 <= q <= q' <= 1.0
    ensures Squared(q) <= Squared(q')
  {
    calc {
      Squared(q);
      q * q;
      <= q * q';
      <= q' * q';
      Squared(q');
    }
  }

  /**
   * The denser the symbol in memory, the less likely a pick-up and the more
   * likely a drop: the two response curves run in opposite directions.
   */
  lemma ChancesMonotone(f: real, g: real)
    requires 0.0 <= f <= g
    ensures PickUpChance(g) <= PickUpChance(f)
    ensures DropChance(f) <= DropChance(g)
  {
    RatioMonotone(Kp, f, g);
    RatioMonotone(Km, f, g);
    SquaredMonotone(1.0 - Ratio(g, Kp + g), 1.0 - Ratio(f, Kp + f));
    SquaredMonotone(Ratio(f, Km + f), Ratio(g, Km + g));
  }

  /**
   * In a memory of nothing but the current symbol, an agent picks up with
   * probability (0.1 / 1.1)^2 and drops with probability (1 / 1.3)^2.
   */
  lemma SaturatedChances()
    ensures PickUpChance(1.0) == 1.0 / 121.0
    ensures DropChance(1.0) == 100.0 / 169.0
  {
    var q := Ratio(1.0, Kp + 1.0);
    assert q * 1.1 == 1.0;
    assert 1.0 - q == 1.0 / 11.0;
    var r := Ratio(1.0, Km + 1.0);
    assert r * 1.3 == 1.0;
    assert r == 10.0 / 13.0;
  }
}
