/** Small facts about integer multiplication, division and powers of two
    that the solver does not find on its own. */
module Arith {

  function Pow2(n: nat): (p: nat)
    ensures p >= 1
  {
    if n == 0 then 1 else 2 * Pow2(n - 1)
  }

  lemma {:induction false} Pow2Add(a: nat, b: nat)
    ensures Pow2(a + b) == Pow2(a) * Pow2(b)
    decreases a
  {
    if a > 0 {
      Pow2Add(a - 1, b);
    }
  }

  lemma {:induction false} Pow2Monotone(a: nat, b: nat)
    requires a <= b
    ensures Pow2(a) <= Pow2(b)
    decreases b
  {
    if a < b {
      Pow2Monotone(a, b - 1);
    }
  }

  lemma Pow2Small()
    ensures Pow2(8) == 0x100 && Pow2(10) == 0x400 && Pow2(12) == 0x1000 && Pow2(16) == 0x1_0000
  {
    Pow2Add(8, 2);
    Pow2Add(8, 4);
    Pow2Add(8, 8);
    assert Pow2(8) == 0x100;
  }

  lemma Pow2Of32()
    ensures Pow2(32) == 0x1_0000_0000
  {
    Pow2Add(16, 16);
    assert Pow2(16) == 0x1_0000 by {
      Pow2Add(8, 8);
      assert Pow2(8) == 256;
    }
  }

  lemma DivMonotone(n: int, n': int, d: int)
    requires 0 < d && n <= n'
    ensures n / d <= n' / d
  {
    var x := n / d - n' / d;
    assert d * x == (n - n % d) - (n' - n' % d);
    assert d * x < d;
  }

  lemma DivBelow(n: int, d: int)
    requires 0 < d && 0 <= n
    ensures n / d <= n
  {
    var q := n / d;
    assert d * q <= n;
  }

  lemma DivBound(n: int, d: int, b: int)
    requires 0 < d && 0 <= n < b * d
    ensures n / d < b
  {
    var q := n / d;
    assert d * q <= n < d * b;
    assert d * (b - q) > 0;
  }

  lemma MulStrict(a: int, b: int, p: int)
    requires 0 <= a < b && 0 < p
    ensures a * p < b * p
  {
    assert b * p - a * p == (b - a) * p;
  }

  lemma ModSmall(w: int, m: int)
    requires 0 <= w < m
    ensures w % m == w
  {
  }

  lemma MulSign(p: int, x: int)
    requires p > 0
    ensures x >= 1 ==> p * x >= p
    ensures x <= -1 ==> p * x <= -p
  {
    assert p * x - p == p * (x - 1);
    assert p * x + p == p * (x + 1);
  }

  lemma MulDiv(a: int, p: int)
    requires 0 < p
    ensures (a * p) / p == a
  {
    var q, r := (a * p) / p, (a * p) % p;
    assert p * (a - q) == r;
    MulSign(p, a - q);
  }

  lemma DivBracket(n: int, d: int)
    requires 0 < d
    ensures (n / d) * d <= n < (n / d + 1) * d
    ensures 0 <= n ==> 0 <= n / d
  {
    var q, r := n / d, n % d;
    assert n == d * q + r;
    assert (q + 1) * d == q * d + d;
  }

  lemma MulMonotone(a: int, x: int, y: int)
    requires 0 <= a && x <= y
    ensures a * x <= a * y
  {
    assert a * y - a * x == a * (y - x);
  }

  lemma MulCancelLess(x: int, y: int, p: int)
    requires 0 < p && x * p < y * p
    ensures x < y
  {
    assert (y - x) * p == y * p - x * p;
    MulSign(p, y - x);
  }
}
