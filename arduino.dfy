/** The two Arduino core helpers the controller relies on: `map`, the
    linear re-scaling of a value from one range to another, and
    `constrain`, a clamp. Both are stated over C `long` arithmetic, whose
    division truncates toward zero (Dafny's `/` is Euclidean). */
module Arduino {

  function Abs(n: int): (r: nat)
    ensures r == n || r == -n
  {
    if n < 0 then -n else n
  }

  /** C division (`/` on signed integers since C99): the quotient is
      truncated toward zero, so the remainder takes the sign of the
      dividend and is smaller than the divisor in magnitude. */
  function TruncDiv(n: int, d: int): (q: int)
    requires d != 0
    ensures Abs(n - q * d) < Abs(d)
    ensures n - q * d == 0 || (n - q * d < 0 <==> n < 0)
    ensures d > 0 ==> q == if n >= 0 then n / d else -((-n) / d)
  {
    var a := Abs(n) / Abs(d);
    TruncDivFacts(n, d, a);
    if (n < 0) == (d < 0) then a else -a
  }

  lemma TruncDivFacts(n: int, d: int, a: int)
    requires d != 0 && a == Abs(n) / Abs(d)
    ensures var q := if (n < 0) == (d < 0) then a else -a;
      Abs(n - q * d) < Abs(d) && (n - q * d == 0 || (n - q * d < 0 <==> n < 0))
  {
    var r := Abs(n) - a * Abs(d);
    assert 0 <= r < Abs(d);
    var q := if (n < 0) == (d < 0) then a else -a;
    if n < 0 && d < 0 {
      assert q * d == -(a * Abs(d));
    } else if n < 0 {
      assert q * d == -(a * Abs(d));
    } else if d < 0 {
      assert q * d == a * Abs(d);
    } else {
      assert q * d == a * Abs(d);
    }
    assert n - q * d == (if n < 0 then -r else r);
  }

  /** Truncating division by a positive divisor is monotone in the dividend. */
  lemma {:induction false} TruncDivMonotone(n1: int, n2: int, d: int)
    requires d > 0 && n1 <= n2
    ensures TruncDiv(n1, d) <= TruncDiv(n2, d)
  {
    SignedQuotientMonotone(n1, n2, d);
  }

  /** The quotient of a positive divisor truncated toward zero, written by
      sign cases over Euclidean division, is monotone in the dividend. */
  lemma SignedQuotientMonotone(n1: int, n2: int, d: int)
    requires d > 0 && n1 <= n2
    ensures (if n1 >= 0 then n1 / d else -((-n1) / d)) <= (if n2 >= 0 then n2 / d else -((-n2) / d))
  {
    if 0 <= n1 {
      DivMonotone(n1, n2, d);
    } else if n2 < 0 {
      DivMonotone(-n2, -n1, d);
    } else {
      DivMonotone(0, -n1, d);
      DivMonotone(0, n2, d);
    }
  }

  lemma DivMonotone(a: int, b: int, d: int)
    requires 0 <= a <= b && d > 0
    ensures a / d <= b / d
  {
    var qa, qb := a / d, b / d;
    if qa > qb {
      assert qa * d <= a && b < qb * d + d;
      MulMonotone(qb + 1, qa, d);
    }
  }

  /** A non-negative dividend below `k * d` has a quotient below `k`. */
  lemma DivBelow(n: int, d: int, k: int)
    requires 0 <= n < k * d && d > 0
    ensures n / d < k
  {
    var q := n / d;
    if q >= k {
      MulMonotone(k, q, d);
    }
  }

  /** Arduino's `map(x, inMin, inMax, outMin, outMax)`:
      `(x - inMin) * (outMax - outMin) / (inMax - inMin) + outMin` on `long`,
      with the division truncating toward zero. */
  function Map(x: int, inMin: int, inMax: int, outMin: int, outMax: int): (r: int)
    requires inMax != inMin
    ensures inMin < inMax && outMin <= outMax && inMin <= x <= inMax ==> outMin <= r <= outMax
  {
    if inMin < inMax && outMin <= outMax && inMin <= x <= inMax then
      MulMonotone(0, x - inMin, outMax - outMin);
      MulMonotone(x - inMin, inMax - inMin, outMax - outMin);
      TruncDivRange((x - inMin) * (outMax - outMin), inMax - inMin, outMax - outMin);
      TruncDiv((x - inMin) * (outMax - outMin), inMax - inMin) + outMin
    else
      TruncDiv((x - inMin) * (outMax - outMin), inMax - inMin) + outMin
  }

  /** A dividend in `[0, m * d]` has a truncated quotient in `[0, m]`. */
  lemma TruncDivRange(n: int, d: int, m: int)
    requires d > 0 && m >= 0 && 0 <= n <= m * d
    ensures 0 <= TruncDiv(n, d) <= m
  {
    assert (m + 1) * d == m * d + d;
    DivBelow(n, d, m + 1);
  }

  /** `map` sends the low end of the input range to the low end of the output range. */
  lemma MapLowEnd(inMin: int, inMax: int, outMin: int, outMax: int)
    requires inMax != inMin
    ensures Map(inMin, inMin, inMax, outMin, outMax) == outMin
  {
  }

  /** On a rising input range and a rising output range, `map` is monotone. */
  lemma {:induction false} MapMonotone(x1: int, x2: int, inMin: int, inMax: int, outMin: int, outMax: int)
    requires inMin < inMax && outMin <= outMax && x1 <= x2
    ensures Map(x1, inMin, inMax, outMin, outMax) <= Map(x2, inMin, inMax, outMin, outMax)
  {
    var k := outMax - outMin;
    MulMonotone(x1 - inMin, x2 - inMin, k);
    TruncDivMonotone((x1 - inMin) * k, (x2 - inMin) * k, inMax - inMin);
  }

  lemma MulMonotone(a: int, b: int, k: int)
    requires a <= b && k >= 0
    ensures a * k <= b * k
  {
  }

  /** Arduino's `constrain(x, lo, hi)`: `x` clamped into `[lo, hi]`. */
  function Constrain(x: int, lo: int, hi: int): (r: int)
    requires lo <= hi
    ensures lo <= r <= hi
    ensures lo <= x <= hi ==> r == x
  {
    if x < lo then lo else if x > hi then hi else x
  }

  /** The clamp returns the point of `[lo, hi]` nearest to `x`. */
  lemma ConstrainIsNearest(x: int, lo: int, hi: int, y: int)
    requires lo <= hi && lo <= y <= hi
    ensures Abs(Constrain(x, lo, hi) - x) <= Abs(y - x)
  {
  }
}
