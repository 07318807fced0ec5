/** Two-dimensional vectors over the reals, with the raylib vector operations
    the simulation uses. Square root, cosine and sine are not computable on
    reals; they come in as a MathLib value whose Valid predicate states the
    only facts the model relies on. */
module Vec {

  import opened Reals

  datatype Vec2 = Vec2(x: real, y: real)

  const ZERO := Vec2(0.0, 0.0)

  /** The host's sqrt, cos and sin, as uninterpreted functions. */
  datatype MathLib = MathLib(sqrt: real -> real, cos: real -> real, sin: real -> real) {
    ghost predicate Valid() {
      && (forall x :: 0.0 <= x ==> 0.0 <= sqrt(x) && sqrt(x) * sqrt(x) == x)
      && (forall a :: cos(a) * cos(a) + sin(a) * sin(a) == 1.0)
    }
  }

  function Add(a: Vec2, b: Vec2): Vec2 { Vec2(a.x + b.x, a.y + b.y) }

  function Sub(a: Vec2, b: Vec2): Vec2 { Vec2(a.x - b.x, a.y - b.y) }

  function Scale(v: Vec2, k: real): Vec2 { Vec2(v.x * k, v.y * k) }

  function LengthSq(v: Vec2): real { Sq(v.x) + Sq(v.y) }

  /** Vector2Length */
  function Length(v: Vec2, m: MathLib): real { m.sqrt(LengthSq(v)) }

  /** Vector2Distance */
  function Distance(a: Vec2, b: Vec2, m: MathLib): real { Length(Sub(a, b), m) }

  /** Vector2Normalize: a non-zero vector is scaled by the inverse of its
      length; the zero vector is returned as it is. */
  function Normalize(v: Vec2, m: MathLib): Vec2 {
    var l := Length(v, m);
    if l > 0.0 then Scale(v, 1.0 / l) else v
  }

  /** rotateVector (main.go): the standard rotation matrix, with the cosine
      and sine of the angle taken from the math library. */
  function RotateVector(v: Vec2, angle: real, m: MathLib): (r: Vec2)
    ensures m.Valid() ==> LengthSq(r) == LengthSq(v) && Length(r, m) == Length(v, m)
    ensures m.cos(angle) == 1.0 && m.sin(angle) == 0.0 ==> r == v
  {
    var c, s := m.cos(angle), m.sin(angle);
    var r := Vec2(v.x * c - v.y * s, v.x * s + v.y * c);
    assert m.Valid() ==> LengthSq(r) == LengthSq(v) by {
      if m.Valid() {
        assert Sq(c) + Sq(s) == 1.0;
        RotationSq(v.x, v.y, c, s);
      }
    }
    r
  }

  lemma RotationSq(x: real, y: real, c: real, s: real)
    requires c * c + s * s == 1.0
    ensures (x * c - y * s) * (x * c - y * s) + (x * s + y * c) * (x * s + y * c) == x * x + y * y
  {
    calc {
      (x * c - y * s) * (x * c - y * s) + (x * s + y * c) * (x * s + y * c);
      x * x * (c * c + s * s) + y * y * (c * c + s * s);
      x * x + y * y;
    }
  }

  lemma LengthSqNonNeg(v: Vec2)
    ensures LengthSq(v) >= 0.0
  {
    SquareNonNeg(v.x);
    SquareNonNeg(v.y);
  }

  lemma LengthNonNeg(v: Vec2, m: MathLib)
    requires m.Valid()
    ensures Length(v, m) >= 0.0
    ensures Length(v, m) * Length(v, m) == LengthSq(v)
  {
    LengthSqNonNeg(v);
    assert Sq(m.sqrt(LengthSq(v))) == LengthSq(v);
  }

  /** Only the zero vector has length zero. */
  lemma LengthZero(v: Vec2, m: MathLib)
    requires m.Valid()
    ensures Length(v, m) == 0.0 <==> v == ZERO
  {
    LengthSqNonNeg(v);
    SqrtZero(LengthSq(v), m);
    LengthSqZero(v);
  }

  lemma SqrtZero(x: real, m: MathLib)
    requires m.Valid() && x >= 0.0
    ensures m.sqrt(x) == 0.0 <==> x == 0.0
  {
    var r := m.sqrt(x);
    assert r >= 0.0 && Sq(m.sqrt(x)) == x;
    if r != 0.0 {
      SquarePositive(r);
    }
  }

  lemma LengthSqZero(v: Vec2)
    ensures LengthSq(v) == 0.0 <==> v == ZERO
  {
    SquareNonNeg(v.x);
    SquareNonNeg(v.y);
    if v.x != 0.0 {
      SquarePositive(v.x);
    }
    if v.y != 0.0 {
      SquarePositive(v.y);
    }
  }

  /** The length of a vector scaled by k >= 0 is k times its length. */
  lemma {:induction false} LengthOfScale(v: Vec2, k: real, m: MathLib)
    requires m.Valid() && k >= 0.0
    ensures Length(Scale(v, k), m) == k * Length(v, m)
  {
    var l := Length(v, m);
    LengthNonNeg(v, m);
    LengthNonNeg(Scale(v, k), m);
    assert LengthSq(Scale(v, k)) == k * k * LengthSq(v);
    assert (k * l) * (k * l) == k * k * (l * l);
    SquareInjective(Length(Scale(v, k), m), k * l);
  }

  /** A non-zero vector, normalized, has length one. */
  lemma {:induction false} NormalizeUnit(v: Vec2, m: MathLib)
    requires m.Valid() && v != ZERO
    ensures Length(v, m) > 0.0
    ensures Normalize(v, m) == Scale(v, 1.0 / Length(v, m))
    ensures Length(Normalize(v, m), m) == 1.0
  {
    LengthZero(v, m);
    LengthNonNeg(v, m);
    LengthOfScale(v, 1.0 / Length(v, m), m);
  }

  lemma ScaleScale(v: Vec2, a: real, b: real)
    ensures Scale(Scale(v, a), b) == Scale(v, a * b)
  {
  }

  /** Vector2Scale(Vector2Normalize(v), k) with k >= 0, on a non-zero v: the
      vector v itself times k / |v|, of length exactly k. */
  lemma {:induction false} RescaleNormalized(v: Vec2, k: real, m: MathLib)
    requires m.Valid() && v != ZERO && k >= 0.0
    ensures Length(v, m) > 0.0
    ensures Scale(Normalize(v, m), k) == Scale(v, k / Length(v, m))
    ensures Length(Scale(Normalize(v, m), k), m) == k
  {
    var l := Length(v, m);
    NormalizeUnit(v, m);
    ScaleScale(v, 1.0 / l, k);
    assert 1.0 / l * k == k / l;
    LengthOfScale(Normalize(v, m), k, m);
  }
}
