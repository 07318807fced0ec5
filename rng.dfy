/** Random draws. A math/rand generator is modelled as an infinite sequence
    of draws in [0, 1) together with the number of draws already consumed.
    Every call of Float32 or Intn consumes exactly one draw. */
module Rng {

  import opened Reals

  /** A value of rand.Float32: a real in [0, 1). */
  type Unit = r: real | 0.0 <= r < 1.0

  datatype Stream = Stream(draw: nat -> Unit, at: nat) {

    /** rand.Float32: the next draw. */
    function Float32(): (r: (Unit, Stream))
      ensures r.1.draw == draw && r.1.at == at + 1
    {
      (draw(at), Stream(draw, at + 1))
    }

    /** rand.Intn(n), which the source only calls with n > 0 (it panics
        otherwise, and callers model that panic themselves). The integer is
        the draw scaled to [0, n) and rounded down. */
    function Intn(n: int): (r: (int, Stream))
      requires n > 0
      ensures 0 <= r.0 < n
      ensures r.1.draw == draw && r.1.at == at + 1
    {
      var u := draw(at);
      var x := Mul(u, n as real);
      ScaledBelow(u, n as real);
      var k := x.Floor;
      assert k as real <= x < n as real;
      (k, Stream(draw, at + 1))
    }
  }

  lemma ScaledBelow(u: real, n: real)
    requires 0.0 <= u < 1.0 && n > 0.0
    ensures 0.0 <= Mul(u, n) < n
  {
    var d := 1.0 - u;
    MulPositive(d, n);
    assert Mul(u, n) == n - Mul(d, n);
  }

  /** A draw scaled by a bound n >= 0 lies in [0, n]. */
  lemma ScaledWithin(u: real, n: real)
    requires 0.0 <= u < 1.0 && n >= 0.0
    ensures 0.0 <= Mul(u, n) <= n
  {
    if n > 0.0 {
      ScaledBelow(u, n);
    } else {
      assert Mul(u, n) == 0.0;
    }
  }
}
