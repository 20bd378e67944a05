/**
 * JavaScript's integer remainder, and the facts about Euclidean `/` and `%` that the
 * wrap-around proofs of the image slider and the wind rose use.
 */
module JsMath {

  /** JavaScript's `%`: the remainder truncated toward zero. */
  function JsRem(a: int, n: int): (r: int)
    requires n > 0
    ensures a >= 0 ==> r == a % n
    ensures a < 0 ==> r == -((-a) % n) && r <= 0
    ensures -n < r < n
  {
    if a >= 0 then a % n else -((-a) % n)
  }

  lemma MulAtLeast(n: int, d: int)
    requires n > 0 && d >= 1
    ensures n * d >= n
    decreases d
  {
    if d > 1 {
      MulAtLeast(n, d - 1);
    }
  }

  /** Euclidean division is unique: a quotient and a remainder in [0, n) are `/` and `%`. */
  lemma ModUnique(x: int, n: int, k: int, r: int)
    requires n > 0 && 0 <= r < n && x == n * k + r
    ensures x % n == r && x / n == k
  {
    var q, m := x / n, x % n;
    assert n * q + m == n * k + r;
    if q > k {
      MulAtLeast(n, q - k);
      assert false;
    } else if q < k {
      MulAtLeast(n, k - q);
      assert false;
    }
  }

  lemma ModOfShift(y: int, q: int, n: int)
    requires n > 0
    ensures (y + n * q) % n == y % n
  {
    assert y == n * (y / n) + y % n;
    assert y + n * q == n * (y / n + q) + y % n;
    ModUnique(y + n * q, n, y / n + q, y % n);
  }

  /** Reducing the left operand modulo `n` first does not change a sum modulo `n`. */
  lemma ModAddLeft(a: int, x: int, n: int)
    requires n > 0
    ensures ((a % n) + x) % n == (a + x) % n
  {
    assert a % n + x == (a + x) + n * (-(a / n));
    ModOfShift(a + x, -(a / n), n);
  }
}
