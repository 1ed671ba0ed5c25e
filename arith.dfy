/** Small facts about integer division and multiplication used by the layout proofs. */
module Arith {

  function Min(a: int, b: int): int { if a <= b then a else b }

  function Max(a: int, b: int): int { if a >= b then a else b }

  /** Sign of a multiple of a positive integer. */
  lemma MulSign(k: int, n: int)
    requires n >= 1
    ensures k >= 1 ==> k * n >= n
    ensures k <= 0 ==> k * n <= 0
    ensures k >= 0 ==> k * n >= 0
  {
  }

  /** Multiplying by a non-negative integer preserves order. */
  lemma MulMono(a: int, b: int, n: int)
    requires a <= b && n >= 0
    ensures a * n <= b * n
  {
    assert b * n - a * n == (b - a) * n;
  }

  /** Order of two multiples of a positive integer is the order of the factors. */
  lemma MulCancel(a: int, b: int, n: int)
    requires n >= 1 && a * n < b * n
    ensures a < b
  {
    assert (a - b) * n == a * n - b * n;
    MulSign(a - b, n);
  }

  /** Euclidean division is determined by its quotient and remainder. */
  lemma DivModUnique(a: int, n: int, q: int, r: int)
    requires n >= 1 && 0 <= r < n && a == q * n + r
    ensures a / n == q && a % n == r
  {
    var d := q - a / n;
    assert d * n == a % n - r by {
      assert q * n - (a / n) * n == (q - a / n) * n;
    }
    MulSign(d, n);
    MulSign(-d, n);
    assert (-d) * n == -(d * n);
  }

  /** Multiplying by a positive real preserves order. */
  lemma RealMulMono(a: int, b: int, s: real)
    requires a <= b && s > 0.0
    ensures a as real * s <= b as real * s
    ensures a < b ==> a as real * s + s <= b as real * s
  {
    assert b as real * s - a as real * s == (b - a) as real * s;
    assert (b - a) as real * s == (b - a - 1) as real * s + s;
  }

  /** Order of two multiples of a positive real is the order of the factors. */
  lemma RealMulCancel(a: int, b: int, s: real)
    requires s > 0.0 && a as real * s < b as real * s
    ensures a < b
  {
    if b <= a {
      RealMulMono(b, a, s);
    }
  }

  /** A count of strides that fits below a length is below any count that overshoots it. */
  lemma FewerStrides(a: int, b: int, s: real, len: real)
    requires s > 0.0 && a as real * s <= len < b as real * s
    ensures a < b
  {
    RealMulCancel(a, b, s);
  }

  /** Product of non-negative reals, strictly positive when both factors are. */
  lemma RealNonNegMul(a: real, b: real)
    requires a >= 0.0 && b > 0.0
    ensures a * b >= 0.0
    ensures a > 0.0 ==> a * b > 0.0
  {
  }

  /** Multiplying reals by a positive real preserves order. */
  lemma RealLessMul(a: real, b: real, s: real)
    requires a <= b && s > 0.0
    ensures a * s <= b * s
    ensures a < b ==> a * s < b * s
  {
    assert b * s - a * s == (b - a) * s;
    RealNonNegMul(b - a, s);
  }

  /** Scaling numerator and denominator by the same non-zero factor leaves a quotient unchanged. */
  lemma DivScale(a: real, s: real, k: real)
    requires s != 0.0 && k != 0.0
    ensures (k * a) / (k * s) == a / s
  {
    var t := a / s;
    assert t * s == a;
    assert t * (k * s) == k * a;
  }

  /** Removing one block of n leaves the remainder as it was. */
  lemma ModShift(k: int, n: int)
    requires n >= 1 && n <= k
    ensures k % n == (k - n) % n
  {
    var q, r := (k - n) / n, (k - n) % n;
    assert k == (q + 1) * n + r;
    DivModUnique(k, n, q + 1, r);
  }

  /** Euclidean division splits an integer into quotient and remainder. */
  lemma DivMod(a: int, n: int)
    requires n >= 1
    ensures a == (a / n) * n + a % n && 0 <= a % n < n
  {
  }

  /** An index below `len` lies in one of the ceil(len / n) blocks of n. */
  lemma DivBelowCeil(k: int, len: int, n: int)
    requires n >= 1 && 0 <= k < len
    ensures 0 <= k / n < (len + n - 1) / n
  {
    DivMod(k, n);
    DivMod(len + n - 1, n);
    MulSign(k / n, n);
    assert (k / n) * n <= k;
    MulCancel(k / n, (len + n - 1) / n, n);
  }
}
