/**
  * Numeric ground shared by every module: the constants the source derives
  * from `Math.PI`, the JavaScript operators that have no exact counterpart in
  * Dafny (`Math.min`, `Math.max`, `Math.abs`, the floating-point `%`), and the
  * transcendental functions of the platform's `Math` object.
  *
  * Every number is a mathematical `real`; Float32 storage and IEEE rounding,
  * NaN and the infinities are not modelled.
  */
module Numerics {

  /** `Math.PI` as JavaScript prints it. */
  const PI: real := 3.141592653589793
  const DEG2RAD: real := PI / 180.0
  const PI_HALF: real := PI * 0.5
  const PI_2: real := PI * 2.0

  /**
    * The part of the platform's `Math` object the source calls. The functions
    * are inputs of the model: nothing is assumed about them except what
    * `Lawful` states.
    */
  datatype MathLib = MathLib(
    sin: real -> real,
    cos: real -> real,
    tan: real -> real,
    exp: real -> real,
    sqrt: real -> real)

  /**
    * The facts about the platform functions the proofs rely on, and no more:
    * the values at 0, the Pythagorean identity, positivity of `exp` and
    * `exp(t) <= 1` for `t <= 0`, and `sqrt` as the non-negative square root.
    */
  ghost predicate Lawful(m: MathLib) {
    && m.sin(0.0) == 0.0
    && m.cos(0.0) == 1.0
    && (forall t :: m.sin(t) * m.sin(t) + m.cos(t) * m.cos(t) == 1.0)
    && m.exp(0.0) == 1.0
    && (forall t :: m.exp(t) > 0.0)
    && (forall t :: t <= 0.0 ==> m.exp(t) <= 1.0)
    && (forall t :: t >= 0.0 ==> m.sqrt(t) >= 0.0 && m.sqrt(t) * m.sqrt(t) == t)
  }

  function Abs(x: real): real {
    if x < 0.0 then -x else x
  }

  /** `Math.min` on two numbers that are not NaN. */
  function Min(a: real, b: real): real {
    if a <= b then a else b
  }

  /** `Math.max` on two numbers that are not NaN. */
  function Max(a: real, b: real): real {
    if a >= b then a else b
  }

  /** Truncation toward zero, the quotient that JavaScript's `%` implies. */
  function Trunc(q: real): (t: int)
    ensures q >= 0.0 ==> 0 <= t && t as real <= q < t as real + 1.0
    ensures q <= 0.0 ==> t <= 0 && t as real - 1.0 < q <= t as real
  {
    if q >= 0.0 then q.Floor else -((-q).Floor)
  }

  /**
    * JavaScript's `x % n` on numbers: the remainder of truncated division,
    * which keeps the sign of the dividend (Dafny's own `%` is Euclidean and
    * only defined on integers).
    */
  function TruncRem(x: real, n: real): (r: real)
    requires n > 0.0
    ensures r == x - (Trunc(x / n) as real) * n
    ensures -n < r < n
    ensures x >= 0.0 ==> r >= 0.0
    ensures x <= 0.0 ==> r <= 0.0
  {
    var t := Trunc(x / n);
    DivisionSign(x, n);
    RemainderBounds(x, n, x / n, t as real);
    x - (t as real) * n
  }

  /**
    * With `q == x / n` and `t` its truncation, `x - t * n` is `n` times the
    * fraction `q - t`, which lies in (-1, 1) with the sign of `x`.
    */
  lemma RemainderBounds(x: real, n: real, q: real, t: real)
    requires n > 0.0 && q == x / n
    requires q >= 0.0 ==> t <= q < t + 1.0
    requires q <= 0.0 ==> t - 1.0 < q <= t
    requires x >= 0.0 ==> q >= 0.0
    requires x <= 0.0 ==> q <= 0.0
    ensures -n < x - t * n < n
    ensures x >= 0.0 ==> x - t * n >= 0.0
    ensures x <= 0.0 ==> x - t * n <= 0.0
  {
    var f := q - t;
    ScaleBounds(f, n);
    ScaledFraction(x, n, t);
    TransferBounds(x, n, t, f);
  }

  /** Scaling the fraction `x / n - t` back by `n` leaves `x` less `t` whole multiples of `n`. */
  lemma ScaledFraction(x: real, n: real, t: real)
    requires n > 0.0
    ensures (x / n - t) * n == x - t * n
  {
    assert (x / n) * n == x;
  }

  lemma TransferBounds(x: real, n: real, t: real, f: real)
    requires -n < f * n < n && f * n == x - t * n
    ensures -n < x - t * n < n
  {
  }

  lemma DivisionSign(x: real, n: real)
    requires n > 0.0
    ensures x >= 0.0 ==> x / n >= 0.0
    ensures x <= 0.0 ==> x / n <= 0.0
  {
    assert (x / n) * n == x;
  }

  /** A factor strictly between -1 and 1 keeps a positive `n` strictly inside (-n, n). */
  lemma ScaleBounds(f: real, n: real)
    requires n > 0.0 && -1.0 < f < 1.0
    ensures -n < f * n < n
    ensures f >= 0.0 ==> f * n >= 0.0
    ensures f <= 0.0 ==> f * n <= 0.0
  {
    assert (1.0 - f) * n > 0.0;
    assert (1.0 + f) * n > 0.0;
  }

  lemma ProductAtLeast(q: real, n: real)
    requires n > 0.0 && q >= 1.0
    ensures q * n >= n
  {
    assert (q - 1.0) * n >= 0.0;
  }

  /** A value already strictly inside (-n, n) is its own remainder. */
  lemma TruncRemInRange(x: real, n: real)
    requires n > 0.0 && -n < x < n
    ensures TruncRem(x, n) == x
  {
    var q := x / n;
    assert q * n == x;
    if q >= 1.0 {
      ProductAtLeast(q, n);
      assert false;
    }
    if q <= -1.0 {
      ProductAtLeast(-q, n);
      assert false;
    }
    assert Trunc(q) == 0;
  }
}
