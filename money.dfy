/**
  Money is modelled with exact reals. `Round2` is what
  `parseFloat(x.toFixed(2))` computes on an exact value: the nearest multiple of
  0.01, with a tie going away from zero (toFixed rounds the magnitude and puts
  the sign back). `Ceil` is `Math.ceil`.
 */
module Money {

  function Abs(x: real): real {
    if x < 0.0 then -x else x
  }

  /** True of an amount with at most two decimals. */
  predicate IsCents(x: real) {
    (x * 100.0).Floor as real == x * 100.0
  }

  /** The number of cents nearest to a non-negative amount, a tie rounding up. */
  function HalfUpCents(y: real): (n: int)
    ensures n as real - 0.5 <= y * 100.0 < n as real + 0.5
  {
    (y * 100.0 + 0.5).Floor
  }

  function Round2(x: real): (r: real)
    ensures IsCents(r)
    ensures -0.005 <= r - x <= 0.005
    ensures 0.0 <= x ==> -0.005 < r - x
    ensures x < 0.0 ==> r - x < 0.005
  {
    var n := if x < 0.0 then -HalfUpCents(-x) else HalfUpCents(x);
    CentsAmount(n);
    n as real / 100.0
  }

  lemma CentsAmount(n: int)
    ensures IsCents(n as real / 100.0)
  {
    assert (n as real / 100.0) * 100.0 == n as real;
  }

  /** No amount with two decimals is nearer to x than Round2(x). */
  lemma Round2Nearest(x: real, c: int)
    ensures Abs(Round2(x) - x) <= Abs(c as real / 100.0 - x)
  {
    var r := Round2(x);
    var n := (r * 100.0).Floor;
    assert n as real == r * 100.0;
    if c != n {
      assert c <= n - 1 || c >= n + 1;
      assert Abs(c as real - x * 100.0) >= 0.5;
      assert Abs(c as real / 100.0 - x) * 100.0 == Abs(c as real - x * 100.0);
      assert Abs(r - x) * 100.0 == Abs(n as real - x * 100.0);
    }
  }

  /** On a tie the result is the one further from zero. */
  lemma Round2TieAwayFromZero(x: real)
    requires Abs(Round2(x) - x) == 0.005
    ensures Abs(Round2(x)) > Abs(x)
  {
  }

  /** An amount that already has two decimals is left as it is. */
  lemma Round2OfCents(x: real)
    requires IsCents(x)
    ensures Round2(x) == x
  {
    var r := Round2(x);
    var n := (r * 100.0).Floor;
    var m := (x * 100.0).Floor;
    assert n as real == r * 100.0 && m as real == x * 100.0;
    assert -0.5 <= n as real - m as real <= 0.5;
    assert n == m;
  }

  lemma Round2Idempotent(x: real)
    ensures Round2(Round2(x)) == Round2(x)
  {
    Round2OfCents(Round2(x));
  }

  /** Math.ceil: the least integer not below x. */
  function Ceil(x: real): (c: int)
    ensures c as real - 1.0 < x <= c as real
  {
    -((-x).Floor)
  }

  // Multiplication facts the page-count and rounding proofs rely on.

  lemma MulLe(a: real, b: real, s: real)
    requires a <= b && 0.0 < s
    ensures a * s <= b * s
  {
    assert (b - a) * s >= 0.0;
  }

  lemma MulLt(a: real, b: real, s: real)
    requires a < b && 0.0 < s
    ensures a * s < b * s
  {
    assert (b - a) * s > 0.0;
  }

  lemma MulMonotone(a: int, b: int, s: nat)
    requires a <= b
    ensures a * s <= b * s
  {
    assert (b - a) * s >= 0;
  }

  /** Multiplying `c - 1 < t / s <= c` through by `s`. */
  lemma ScaleBounds(t: real, s: real, c: int)
    requires 0.0 <= t && 0.0 < s && (c - 1) as real < t / s <= c as real
    ensures t <= c as real * s && (c - 1) as real * s < t && 0 <= c
  {
    var x := t / s;
    assert x * s == t;
    MulLe(x, c as real, s);
    MulLt((c - 1) as real, x, s);
  }

  lemma IntMulAsReal(a: int, b: int)
    ensures (a * b) as real == a as real * b as real
  {
  }
}
