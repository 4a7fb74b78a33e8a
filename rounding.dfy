/** Python's `round(x, 1)` on the exact value of a number: the nearest
    multiple of 0.1, ties going to the even tenth. */
module Rounding {

  function Abs(x: real): real
  {
    if x < 0.0 then -x else x
  }

  /** x is a whole number of tenths. */
  predicate IsTenth(x: real)
  {
    (x * 10.0).Floor as real == x * 10.0
  }

  /** x is a whole number of halves. */
  predicate IsHalf(x: real)
  {
    (x * 2.0).Floor as real == x * 2.0
  }

  /** The number of tenths `round(x, 1)` picks: the nearest integer to 10x,
      the even one on a tie. */
  function NearestTenths(x: real): (k: int)
    ensures x * 10.0 - 0.5 <= k as real <= x * 10.0 + 0.5
    ensures k as real == x * 10.0 + 0.5 || k as real == x * 10.0 - 0.5 ==> k % 2 == 0
  {
    var n := (x * 10.0).Floor;
    var f := x * 10.0 - n as real;
    if f < 0.5 then n
    else if f > 0.5 then n + 1
    else if n % 2 == 0 then n
    else n + 1
  }

  function Round1(x: real): (r: real)
    ensures IsTenth(r)
    ensures x - 0.05 <= r <= x + 0.05
  {
    NearestTenths(x) as real / 10.0
  }

  /** No tenth is closer to x than Round1(x). */
  lemma Round1Nearest(x: real, m: int)
    ensures Abs(x - Round1(x)) <= Abs(x - m as real / 10.0)
  {
    var k := NearestTenths(x);
    assert Round1(x) * 10.0 == k as real;
    if m != k {
      // m is at least as far from 10x as k, because k is within 0.5 of 10x
      assert Abs(x * 10.0 - k as real) <= 0.5;
      assert Abs(x * 10.0 - m as real) >= 0.5;
    }
  }

  /** Rounding leaves a number that already is a whole number of tenths unchanged. */
  lemma Round1Exact(x: real)
    requires IsTenth(x)
    ensures Round1(x) == x
  {
    var n := (x * 10.0).Floor;
    assert n as real == x * 10.0;
    assert NearestTenths(x) == n;
  }

  lemma Round1Monotone(x: real, y: real)
    requires x <= y
    ensures Round1(x) <= Round1(y)
  {
    var nx, ny := (x * 10.0).Floor, (y * 10.0).Floor;
    assert nx <= ny;
    if nx < ny {
      assert NearestTenths(x) <= nx + 1 <= ny <= NearestTenths(y);
    } else {
      assert x * 10.0 - nx as real <= y * 10.0 - ny as real;
    }
  }

  /** Every whole number of halves is a whole number of tenths. */
  lemma HalfIsTenth(x: real)
    requires IsHalf(x)
    ensures IsTenth(x)
  {
    var k := (x * 2.0).Floor;
    assert x * 10.0 == (5 * k) as real;
  }

  /** Moving a whole number of halves by one half gives a whole number of halves. */
  lemma HalfStep(x: real)
    requires IsHalf(x)
    ensures IsHalf(x - 0.5) && IsHalf(x + 0.5)
  {
    var k := (x * 2.0).Floor;
    assert (x - 0.5) * 2.0 == (k - 1) as real;
    assert (x + 0.5) * 2.0 == (k + 1) as real;
  }

  /** A whole number of tenths scaled by an integer stays one. */
  lemma ScaledTenth(x: real, c: int)
    requires IsTenth(x)
    ensures IsTenth(c as real * x)
  {
    var k := (x * 10.0).Floor;
    assert c as real * x * 10.0 == (c * k) as real;
  }
}
