/** Remainders by a divisor that is not a constant. */
module Modulo {

  /** Quotient and remainder are the only ones. */
  lemma Unique(a: int, n: int, q: int, r: int)
    requires n > 0 && 0 <= r < n && a == q * n + r
    ensures a % n == r && a / n == q
  {
    var p, s := a / n, a % n;
    assert a == p * n + s;
    if p > q {
      Grows(p, q, n);
    } else if p < q {
      Grows(q, p, n);
    }
  }

  lemma Grows(p: int, q: int, n: int)
    requires p > q && n > 0
    ensures p * n >= q * n + n
  {
    assert p * n == (p - q) * n + q * n;
    AtLeast(p - q, n);
  }

  lemma AtLeast(k: int, n: int)
    requires k >= 1 && n > 0
    ensures k * n >= n
  {
  }

  /** One divisor more leaves the same remainder. */
  lemma Cycle(a: int, n: int)
    requires n > 0
    ensures (a + n) % n == a % n
  {
    assert a + n == (a / n + 1) * n + a % n;
    Unique(a + n, n, a / n + 1, a % n);
  }

  /** Numbers less than a divisor apart leave different remainders. */
  lemma Window(a: int, b: int, n: int)
    requires n > 0 && a < b < a + n
    ensures a % n != b % n
  {
    if a % n == b % n {
      var p, q := a / n, b / n;
      assert a == p * n + a % n && b == q * n + b % n;
      assert b - a == q * n - p * n;
      if q > p { Grows(q, p, n); } else if q < p { Grows(p, q, n); }
    }
  }

  /** A remainder by a multiple may be taken first. */
  lemma Nested(a: int, w: int, n: int)
    requires n > 0 && w > 0 && w % n == 0
    ensures (a % w) % n == a % n
  {
    var m, k := w / n, a / w;
    assert w == m * n;
    assert a == k * w + a % w;
    assert k * w == (k * m) * n;
    var r := (a % w) % n;
    assert a == (k * m) * n + ((a % w) / n) * n + r;
    assert (k * m) * n + ((a % w) / n) * n == (k * m + (a % w) / n) * n;
    Unique(a, n, k * m + (a % w) / n, r);
  }

  /** Taking away what is not a multiple changes the remainder, and what is does not. */
  lemma Less(a: int, w: int, n: int)
    requires n > 0
    ensures (a - w) % n == a % n <==> w % n == 0
  {
    var p, q, r, s := a / n, w / n, a % n, w % n;
    assert a - w == (p - q) * n + (r - s);
    if s == 0 {
      Unique(a - w, n, p - q, r);
    } else if r >= s {
      Unique(a - w, n, p - q, r - s);
    } else {
      assert a - w == (p - q - 1) * n + (r - s + n);
      Unique(a - w, n, p - q - 1, r - s + n);
    }
  }
}
