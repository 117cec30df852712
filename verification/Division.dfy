/** Whole-number division, where it meets multiplication. */
module Division {

  lemma DivideIs(x: int, p: int, q: int, r: int)
    requires p > 0 && 0 <= r < p && x == q * p + r
    ensures x / p == q
  {
    var d := x / p - q;
    assert d * p == r - x % p;
    assert d >= 1 ==> d * p >= p;
    assert d <= -1 ==> d * p <= -p;
  }

  lemma DivideTwice(x: int, y: int, z: int)
    requires x >= 0 && y > 0 && z > 0
    ensures x / y / z == x / (z * y)
  {
    var q := x / (z * y);
    var r := x - q * (z * y);
    assert q * (z * y) == (q * z) * y;
    assert 0 <= r < z * y;
    var d := x / y - q * z;
    assert x / y * y <= x < x / y * y + y;
    assert d * y <= r && r < d * y + y;
    assert d < 0 ==> d * y + y <= 0;
    assert d >= z ==> d * y >= z * y;
    DivideIs(x / y, z, q, d);
  }

  lemma AtLeast(x: int, y: int, n: int)
    requires y > 0 && y * n <= x
    ensures x / y >= n
  {
    var q := x / y;
    assert x < (q + 1) * y;
    assert q + 1 <= n ==> (q + 1) * y <= n * y;
  }

  lemma OneMore(x: nat, n: nat)
    requires x >= 1 && n > 1
    ensures x / n == (x - 1) / n + if x % n == 0 then 1 else 0
  {
    var q, r := (x - 1) / n, (x - 1) % n;
    assert x - 1 == q * n + r;
    if r == n - 1 {
      assert x == (q + 1) * n + 0;
      DivideIs(x, n, q + 1, 0);
    } else {
      DivideIs(x, n, q, r + 1);
    }
  }

  lemma Multiple(x: nat, m: nat, n: nat)
    requires m > 0 && n > 0
    ensures x % (m * n) == 0 ==> x % m == 0
  {
    if x % (m * n) == 0 {
      var q := x / (m * n);
      assert x == q * (m * n);
      assert x == (q * n) * m + 0;
      DivideIs(x, m, q * n, 0);
    }
  }
}
