/** Real-number helpers: absolute value, powers, and Python's `round(x, n)` on exact values. */
module Numeric {

  function Abs(x: real): real {
    if x < 0.0 then -x else x
  }

  function Pow10(n: nat): (p: nat)
    ensures p >= 1
  {
    if n == 0 then 1 else 10 * Pow10(n - 1)
  }

  function Pow2(n: nat): (p: nat)
    ensures p >= 1
  {
    if n == 0 then 1 else 2 * Pow2(n - 1)
  }

  /** Nearest integer to `y`, ties to the even neighbour (the rule of Python's `round`). */
  function RoundHalfEven(y: real): (k: int)
    ensures Abs(k as real - y) <= 0.5
    ensures y == y.Floor as real ==> k == y.Floor
    ensures y - y.Floor as real == 0.5 ==> k % 2 == 0
  {
    var f := y.Floor;
    var d := y - f as real;
    if d < 0.5 then f
    else if d > 0.5 then f + 1
    else if f % 2 == 0 then f
    else f + 1
  }

  /**
   * `round(x, places)` applied to the exact value `x`: the nearest multiple of
   * 10^-places, ties to even. It is never further from `x` than half a unit
   * of the last kept place.
   */
  function Round(x: real, places: nat): (r: real)
    ensures Abs(r - x) <= 0.5 / Pow10(places) as real
  {
    var s := Pow10(places) as real;
    var k := RoundHalfEven(x * s);
    ScaleBack(x, s, k);
    k as real / s
  }

  lemma ScaleBack(x: real, s: real, k: int)
    requires s >= 1.0
    requires Abs(k as real - x * s) <= 0.5
    ensures Abs(k as real / s - x) <= 0.5 / s
  {
    var e := k as real - x * s;
    var q := k as real / s - x;
    assert q * s == e;
    DivideBound(q, s, e);
  }

  lemma DivideBound(q: real, s: real, e: real)
    requires s > 0.0 && q * s == e && Abs(e) <= 0.5
    ensures Abs(q) <= 0.5 / s
  {
    var h := 0.5 / s;
    assert h * s == 0.5;
    if q > h {
      assert q * s > h * s;
    }
  }

  /** Two values each rounded to `places` stay within one unit of their exact sum. */
  lemma RoundedSum(x: real, y: real, places: nat)
    ensures Abs(Round(x, places) + Round(y, places) - (x + y)) <= 1.0 / Pow10(places) as real
  {
    var s := Pow10(places) as real;
    assert 0.5 / s + 0.5 / s == 1.0 / s;
  }

  lemma RoundHalfEvenAt(y: real, k: int)
    requires k as real - 0.5 < y < k as real + 0.5
    ensures RoundHalfEven(y) == k
  {
    var f := y.Floor;
    assert f == k || f == k - 1;
  }

  /** When `x` is strictly within half a unit of `k` at the last kept place, `round` gives exactly `k`. */
  lemma RoundAt(x: real, places: nat, k: int)
    requires k as real - 0.5 < x * Pow10(places) as real < k as real + 0.5
    ensures Round(x, places) == k as real / Pow10(places) as real
  {
    RoundHalfEvenAt(x * Pow10(places) as real, k);
  }
}
