/** The agent of main.go. A boid's state as a value, with NewBoid,
    UpdateMove and the three phases of UpdateForces as functions on it, and
    the class Boid whose methods update those fields in place.

    Arithmetic is over the reals. Two places in UpdateForces divide by a
    quantity that can be zero: the distance to a boid at the same position,
    and the speed of a boid that has stopped. Go then produces a NaN, which
    every later comparison rejects, so the boid keeps a NaN position and
    velocity for ever and every other boid ignores it. The state records
    that as the flag nan. */
module Boids {

  import opened Wrappers
  import opened Reals
  import opened Vec
  import opened Rng

  /** The modifier globals sepMod, cohMod and alMod, which the keyboard
      handler changes and the lazy initialisation reads. cohMod is an int:
      it takes its type from the untyped constant 6. */
  datatype Tuning = Tuning(sepMod: real, cohMod: int, alMod: real)

  const INITIAL_TUNING := Tuning(1.25, 6, 0.75)

  /** Everything a boid update reads besides the boids: the math library,
      the modifier globals and the screen size in pixels. */
  datatype Env = Env(math: MathLib, tuning: Tuning, width: nat, height: nat) {
    ghost predicate Valid() {
      && math.Valid()
      && tuning.sepMod != 0.0 && tuning.cohMod != 0 && tuning.alMod != 0.0
    }
  }

  /** math.Pi */
  const PI: real := 3.14159265358979323846264338327950288419716939937510582097494459

  /** The fields of Boid that the simulation reads. initialized says that the
      sync.Once guard has fired; nan says that Pos and Vel have become NaN,
      in which case the values held in pos and vel mean nothing. */
  datatype BoidState = BoidState(
    pos: Vec2,
    vel: Vec2,
    cohesionStr: real,
    separationStr: real,
    alignmentStr: real,
    maxVel: real,
    closeRadius: real,
    radius: real,
    initialized: bool,
    nan: bool)

  /** NewBoid, given the two rand.Float32 draws for its velocity. */
  function NewBoidState(pos: Vec2, ux: Unit, uy: Unit): (b: BoidState)
    ensures b.pos == pos
    ensures -20.0 <= b.vel.x < 20.0 && -20.0 <= b.vel.y < 20.0
    ensures b.maxVel == 10.0 && b.closeRadius == 20.0 && b.radius == 30.0
    ensures b.separationStr * 1.25 == 1.0 && b.cohesionStr * 6.0 == 1.0 && b.alignmentStr * 0.75 == 1.0
    ensures !b.initialized && !b.nan
  {
    BoidState(pos, Vec2((ux * 2.0 - 1.0) * 20.0, (uy * 2.0 - 1.0) * 20.0),
              1.0 / 6.0, 1.0 / 1.25, 1.0 / 0.75, 10.0, 20.0, 30.0, false, false)
  }

  // ---------------------------------------------------------------------
  // UpdateMove

  /** One axis of the bounds check: first a coordinate past the far edge is
      set to 0, then a coordinate below 0 is set to the far edge. */
  function WrapAxis(c: real, bound: real): (r: real)
    requires bound >= 0.0
    ensures 0.0 <= r <= bound
    ensures 0.0 <= c <= bound ==> r == c
    ensures c > bound ==> r == 0.0
    ensures c < 0.0 ==> r == bound
  {
    var c1 := if c > bound then 0.0 else c;
    if c1 < 0.0 then bound else c1
  }

  /** UpdateMove: the position advances by the velocity and each axis is
      wrapped on its own. A NaN position stays NaN. */
  function Move(b: BoidState, width: nat, height: nat): (r: BoidState)
    ensures r == b.(pos := r.pos)
    ensures !b.nan ==> 0.0 <= r.pos.x <= width as real && 0.0 <= r.pos.y <= height as real
    ensures !b.nan && 0.0 <= b.pos.x + b.vel.x <= width as real ==> r.pos.x == b.pos.x + b.vel.x
    ensures !b.nan && 0.0 <= b.pos.y + b.vel.y <= height as real ==> r.pos.y == b.pos.y + b.vel.y
  {
    if b.nan then b
    else
      var p := Add(b.pos, b.vel);
      b.(pos := Vec2(WrapAxis(p.x, width as real), WrapAxis(p.y, height as real)))
  }

  // ---------------------------------------------------------------------
  // UpdateForces, phase 1: the once-guarded initialisation

  /** 1.0 / cohMod exactly as written: both operands are Go ints, so the
      division truncates toward zero (and a zero cohMod panics). */
  function LazyCohesionAsWritten(cohMod: int): (r: real)
    requires cohMod != 0
    ensures r == 0.0 || r == 1.0 || r == -1.0
  {
    TruncDiv(1, cohMod) as real
  }

  /** Go's integer division, which truncates toward zero. */
  function TruncDiv(a: int, b: int): int
    requires b != 0
  {
    var q := (if a < 0 then -a else a) / (if b < 0 then -b else b);
    if (a < 0) != (b < 0) then -q else q
  }

  /** The cohesion strength the initialisation evidently means to set, the
      reciprocal of cohMod, as NewBoid does with the constants. */
  function LazyCohesion(cohMod: int): (r: real)
    requires cohMod != 0
    ensures r * (cohMod as real) == 1.0
  {
    1.0 / (cohMod as real)
  }

  /** The once-guarded block: on the first call only, a fresh velocity from
      two draws, MaxVel 5 and the three strengths from the modifiers. */
  function LazyInit(b: BoidState, t: Tuning, s: Stream): (r: (BoidState, Stream))
    requires t.sepMod != 0.0 && t.cohMod != 0 && t.alMod != 0.0
    ensures r.0.initialized
    ensures r.0.pos == b.pos && r.0.closeRadius == b.closeRadius && r.0.radius == b.radius && r.0.nan == b.nan
    ensures b.initialized ==> r == (b, s)
    ensures !b.initialized ==>
      && r.0.maxVel == 5.0
      && r.0.separationStr * t.sepMod == 1.0
      && r.0.cohesionStr * (t.cohMod as real) == 1.0
      && r.0.alignmentStr * t.alMod == 1.0
      && -1.0 <= r.0.vel.x < 1.0 && -1.0 <= r.0.vel.y < 1.0
      && r.1 == Stream(s.draw, s.at + 2)
  {
    if b.initialized then (b, s)
    else
      var (ux, s1) := s.Float32();
      var (uy, s2) := s1.Float32();
      (b.(vel := Vec2(ux * 2.0 - 1.0, uy * 2.0 - 1.0),
          maxVel := 5.0,
          separationStr := 1.0 / t.sepMod,
          cohesionStr := LazyCohesion(t.cohMod),
          alignmentStr := 1.0 / t.alMod,
          initialized := true),
       s2)
  }

  // ---------------------------------------------------------------------
  // UpdateForces, phase 2: the neighbour scan

  /** The scan's accumulators. separationNaN says that the separation sum
      has become NaN (a boid at distance 0 inside CloseRadius). */
  datatype Sums = Sums(separation: Vec2, separationNaN: bool, alignment: Vec2, cohesion: Vec2, count: nat)

  const NO_SUMS := Sums(ZERO, false, ZERO, ZERO, 0)

  /** Whether boid o lies strictly within distance r of b for the scan;
      isSelf says whether o's slot holds b itself. A NaN position lies
      within no distance. */
  predicate Within(b: BoidState, o: BoidState, isSelf: bool, m: MathLib, r: real) {
    !isSelf && !o.nan && Distance(b.pos, o.pos, m) < r
  }

  /** One iteration of the scan loop. */
  function Visit(b: BoidState, o: BoidState, isSelf: bool, m: MathLib, acc: Sums): Sums {
    if isSelf || o.nan then acc
    else
      var d := Distance(b.pos, o.pos, m);
      var acc1 :=
        if d < b.closeRadius then
          if d == 0.0 then acc.(separationNaN := true)
          else acc.(separation := Add(acc.separation, Scale(Sub(b.pos, o.pos), 1.0 / d)))
        else acc;
      if d < b.radius then
        acc1.(alignment := Add(acc1.alignment, o.vel), cohesion := Add(acc1.cohesion, o.pos), count := acc1.count + 1)
      else acc1
  }

  /** The scan over the first n slots of the boid slice; self[i] says
      whether slot i holds the scanning boid itself. */
  function Scan(b: BoidState, flock: seq<BoidState>, self: seq<bool>, m: MathLib, n: nat): (r: Sums)
    requires |self| == |flock| && n <= |flock|
    ensures r.count <= n
    ensures r.separationNaN <==> exists i :: 0 <= i < n && ZeroDistanceClose(b, flock[i], self[i], m)
  {
    if n == 0 then NO_SUMS
    else
      var prev := Scan(b, flock, self, m, n - 1);
      assert ZeroDistanceClose(b, flock[n - 1], self[n - 1], m) ==> exists i :: 0 <= i < n && ZeroDistanceClose(b, flock[i], self[i], m);
      Visit(b, flock[n - 1], self[n - 1], m, prev)
  }

  /** Slot o is another boid at distance 0 inside CloseRadius, for which
      Go's separation divides by zero. */
  predicate ZeroDistanceClose(b: BoidState, o: BoidState, isSelf: bool, m: MathLib) {
    !isSelf && !o.nan && Distance(b.pos, o.pos, m) == 0.0 && 0.0 < b.closeRadius
  }

  /** The slots among the first n that the scan counts as neighbours. */
  ghost function Neighbours(b: BoidState, flock: seq<BoidState>, self: seq<bool>, m: MathLib, n: nat): set<int>
    requires |self| == |flock| && n <= |flock|
  {
    set i | 0 <= i < n && Within(b, flock[i], self[i], m, b.radius)
  }

  /** neighborCount is the number of other boids strictly within Radius. */
  lemma {:induction false} NeighbourCount(b: BoidState, flock: seq<BoidState>, self: seq<bool>, m: MathLib, n: nat)
    requires |self| == |flock| && n <= |flock|
    ensures Scan(b, flock, self, m, n).count == |Neighbours(b, flock, self, m, n)|
  {
    if n > 0 {
      NeighbourCount(b, flock, self, m, n - 1);
      VisitCount(b, flock[n - 1], self[n - 1], m, Scan(b, flock, self, m, n - 1));
      var before, after := Neighbours(b, flock, self, m, n - 1), Neighbours(b, flock, self, m, n);
      assert n - 1 !in before;
      if Within(b, flock[n - 1], self[n - 1], m, b.radius) {
        assert after == before + {n - 1};
      } else {
        assert after == before;
      }
    }
  }

  /** A visit counts the boid exactly when it lies within Radius. */
  lemma VisitCount(b: BoidState, o: BoidState, isSelf: bool, m: MathLib, acc: Sums)
    ensures Visit(b, o, isSelf, m, acc).count == acc.count + if Within(b, o, isSelf, m, b.radius) then 1 else 0
  {
  }

  /** The separation sum depends only on the boids strictly within
      CloseRadius: two slices that differ only at slots outside it give the
      same separation. */
  lemma {:induction false} SeparationOnlyClose(b: BoidState, f: seq<BoidState>, g: seq<BoidState>, self: seq<bool>, m: MathLib, n: nat)
    requires |self| == |f| == |g| && n <= |f|
    requires forall i :: 0 <= i < n ==>
      f[i] == g[i] || (!Within(b, f[i], self[i], m, b.closeRadius) && !Within(b, g[i], self[i], m, b.closeRadius))
    ensures Scan(b, f, self, m, n).separation == Scan(b, g, self, m, n).separation
    ensures Scan(b, f, self, m, n).separationNaN == Scan(b, g, self, m, n).separationNaN
  {
    if n > 0 {
      SeparationOnlyClose(b, f, g, self, m, n - 1);
    }
  }

  /** Alignment, cohesion and the count depend only on the boids strictly
      within Radius. */
  lemma {:induction false} SumsOnlyWithinRadius(b: BoidState, f: seq<BoidState>, g: seq<BoidState>, self: seq<bool>, m: MathLib, n: nat)
    requires |self| == |f| == |g| && n <= |f|
    requires forall i :: 0 <= i < n ==>
      f[i] == g[i] || (!Within(b, f[i], self[i], m, b.radius) && !Within(b, g[i], self[i], m, b.radius))
    ensures Scan(b, f, self, m, n).alignment == Scan(b, g, self, m, n).alignment
    ensures Scan(b, f, self, m, n).cohesion == Scan(b, g, self, m, n).cohesion
    ensures Scan(b, f, self, m, n).count == Scan(b, g, self, m, n).count
  {
    if n > 0 {
      SumsOnlyWithinRadius(b, f, g, self, m, n - 1);
    }
  }

  // ---------------------------------------------------------------------
  // UpdateForces, phase 3: the forces and the random turn

  /** The random turn; the source's comment says up to 90 degrees either
      way, but the factors bound it by PI * 0.0275, about 5 degrees. */
  function RandomAngle(u: Unit): (a: real)
    ensures -PI * 0.0275 <= a < PI * 0.0275
  {
    (u - 0.5) * PI * 0.5 * 0.11
  }

  /** The force application, taken only when some neighbour was counted;
      it then draws the random turn whatever the sums hold. */
  function ApplyForces(b: BoidState, acc: Sums, m: MathLib, s: Stream): (r: (BoidState, Stream))
    ensures r.0 == b.(vel := r.0.vel, nan := r.0.nan)
    ensures acc.count == 0 ==> r == (b, s)
    ensures acc.count > 0 ==> r.1 == Stream(s.draw, s.at + 1)
    ensures r.0.nan <==> b.nan || (acc.count > 0 && acc.separationNaN)
  {
    if acc.count == 0 then (b, s)
    else
      var (u, s1) := s.Float32();
      if acc.separationNaN then (b.(nan := true), s1)
      else
        var k := 1.0 / (acc.count as real);
        var separation := Scale(acc.separation, b.separationStr);
        var alignment := Scale(Sub(Scale(acc.alignment, k), b.vel), b.alignmentStr);
        var cohesion := Scale(Sub(Scale(acc.cohesion, k), b.pos), b.cohesionStr);
        var v := Add(Add(Add(b.vel, separation), alignment), cohesion);
        (b.(vel := RotateVector(v, RandomAngle(u), m)), s1)
  }

  /** With cohMod at its initial 6, the strength is set to 0 instead of
      1/6; the two agree only for cohMod 1 and -1. */
  lemma CohesionStrengthFinding(cohMod: int)
    requires cohMod != 0
    ensures LazyCohesionAsWritten(INITIAL_TUNING.cohMod) == 0.0 && LazyCohesion(INITIAL_TUNING.cohMod) * 6.0 == 1.0
    ensures LazyCohesionAsWritten(cohMod) == LazyCohesion(cohMod) <==> cohMod == 1 || cohMod == -1
  {
    if cohMod != 1 && cohMod != -1 {
      assert LazyCohesionAsWritten(cohMod) == 0.0;
    }
  }

  // ---------------------------------------------------------------------
  // UpdateForces, phase 4: the speed limit

  const MIN_VEL := 1.0

  /** The speed limit as written. A speed below 1 is rescaled by the unit
      vector times 1/speed, and then a speed above MaxVel by the unit vector
      times MaxVel/speed; each branch thus divides by the speed twice. A
      zero velocity yields NaN (the unit vector of zero is zero, times an
      infinite factor), shown as None. */
  function LimitSpeed(v: Vec2, maxVel: real, m: MathLib): (r: Option<Vec2>)
    requires m.Valid()
    ensures r.None? <==> v == ZERO
    ensures MIN_VEL <= Length(v, m) <= maxVel ==> r == Some(v)
  {
    var speed := Length(v, m);
    LengthZero(v, m);
    if speed == 0.0 then None
    else
      var v1 := if speed < MIN_VEL then Scale(Normalize(v, m), MIN_VEL / speed) else v;
      var speed2 := Length(v1, m);
      Some(if speed2 > maxVel then Scale(Normalize(v1, m), maxVel / speed2) else v1)
  }

  /** Each rescale replaces the velocity by a positive multiple of itself,
      so the limit keeps the direction. */
  lemma {:induction false} LimitSpeedKeepsDirection(v: Vec2, maxVel: real, m: MathLib)
    requires m.Valid() && v != ZERO && maxVel > 0.0
    ensures LimitSpeed(v, maxVel, m).Some?
    ensures exists k :: k > 0.0 && LimitSpeed(v, maxVel, m).value == Scale(v, k)
  {
    LimitSpeedUnfold(v, maxVel, m);
    var v1, k1 := MinRescale(v, m);
    var w, k2 := MaxRescale(v1, maxVel, m);
    ScaleScale(v, k1, k2);
    MulPositive(k1, k2);
    assert LimitSpeed(v, maxVel, m).value == Scale(v, Mul(k1, k2));
  }

  /** The two rescales of LimitSpeed on a nonzero velocity, in order. */
  lemma LimitSpeedUnfold(v: Vec2, maxVel: real, m: MathLib)
    requires m.Valid() && v != ZERO
    ensures Length(v, m) != 0.0
    ensures var v1 := if Length(v, m) < MIN_VEL then Scale(Normalize(v, m), MIN_VEL / Length(v, m)) else v;
      LimitSpeed(v, maxVel, m) ==
        Some(if Length(v1, m) > maxVel then Scale(Normalize(v1, m), maxVel / Length(v1, m)) else v1)
  {
    LengthZero(v, m);
  }

  /** The minimum-speed branch of the limit as a multiple of v, with the
      speed it leaves. */
  lemma MinRescale(v: Vec2, m: MathLib) returns (v1: Vec2, k: real)
    requires m.Valid() && v != ZERO
    ensures Length(v, m) > 0.0
    ensures v1 == if Length(v, m) < MIN_VEL then Scale(Normalize(v, m), MIN_VEL / Length(v, m)) else v
    ensures k > 0.0 && v1 == Scale(v, k) && v1 != ZERO
    ensures Length(v1, m) == if Length(v, m) < MIN_VEL then MIN_VEL / Length(v, m) else Length(v, m)
  {
    var s := Length(v, m);
    LengthNonNeg(v, m);
    LengthZero(v, m);
    if s < MIN_VEL {
      v1, k := Scale(Normalize(v, m), MIN_VEL / s), MIN_VEL / s / s;
      RescaleNormalized(v, MIN_VEL / s, m);
    } else {
      v1, k := v, 1.0;
      ScaleScale(v, 1.0, 1.0);
    }
    LengthZero(v1, m);
  }

  /** The maximum-speed branch of the limit as a multiple of its input,
      with the speed it leaves. */
  lemma MaxRescale(v1: Vec2, maxVel: real, m: MathLib) returns (w: Vec2, k: real)
    requires m.Valid() && v1 != ZERO && maxVel > 0.0
    ensures Length(v1, m) > 0.0
    ensures w == if Length(v1, m) > maxVel then Scale(Normalize(v1, m), maxVel / Length(v1, m)) else v1
    ensures k > 0.0 && w == Scale(v1, k)
    ensures Length(w, m) == if Length(v1, m) > maxVel then maxVel / Length(v1, m) else Length(v1, m)
  {
    var s := Length(v1, m);
    LengthNonNeg(v1, m);
    LengthZero(v1, m);
    if s > maxVel {
      w, k := Scale(Normalize(v1, m), maxVel / s), maxVel / s / s;
      RescaleNormalized(v1, maxVel / s, m);
    } else {
      w, k := v1, 1.0;
      ScaleScale(v1, 1.0, 1.0);
    }
  }

  /** The speed each branch of the limit produces, as written: the minimum
      branch gives 1/speed, the maximum branch MaxVel divided by the speed
      it sees. */
  lemma {:induction false} LimitSpeedLengths(v: Vec2, maxVel: real, m: MathLib)
    requires m.Valid() && v != ZERO && maxVel > 0.0
    ensures Length(v, m) > 0.0 && LimitSpeed(v, maxVel, m).Some?
    ensures var s, w := Length(v, m), LimitSpeed(v, maxVel, m).value;
      && (s < MIN_VEL && MIN_VEL / s <= maxVel ==> Length(w, m) == MIN_VEL / s)
      && (s < MIN_VEL && MIN_VEL / s > maxVel ==> Length(w, m) == maxVel / (MIN_VEL / s))
      && (s >= MIN_VEL && s > maxVel ==> Length(w, m) == maxVel / s)
  {
    LimitSpeedUnfold(v, maxVel, m);
    var v1, k1 := MinRescale(v, m);
    var w, k2 := MaxRescale(v1, maxVel, m);
  }

  /** After the limit the speed is positive and at most MaxVel; it may lie
      below the minimum of 1 that the code means to enforce. */
  lemma {:induction false} LimitSpeedBounds(v: Vec2, maxVel: real, m: MathLib)
    requires m.Valid() && v != ZERO && maxVel > 0.0
    ensures LimitSpeed(v, maxVel, m).Some?
    ensures 0.0 < Length(LimitSpeed(v, maxVel, m).value, m) <= maxVel
  {
    LimitSpeedLengths(v, maxVel, m);
    LimitSpeedUnfold(v, maxVel, m);
    var s := Length(v, m);
    var l := Length(LimitSpeed(v, maxVel, m).value, m);
    if s < MIN_VEL {
      QuotientAtLeastOne(MIN_VEL, s);
      if MIN_VEL / s > maxVel {
        QuotientAtMost(maxVel, MIN_VEL / s);
      }
    } else if s > maxVel {
      QuotientAtMost(maxVel, s);
    } else {
      assert LimitSpeed(v, maxVel, m).value == v;
    }
  }

  lemma QuotientAtMost(a: real, b: real)
    requires a > 0.0 && b >= 1.0
    ensures 0.0 < a / b <= a
  {
    var q := a / b;
    assert q * b == a;
    if q > a {
      MulPositive(q - a, b);
      assert Mul(q - a, b) == a - a * b;
      MulPositive(a, b - 1.0 + 1.0);
    }
  }

  lemma QuotientAtLeastOne(a: real, b: real)
    requires a >= 1.0 && 0.0 < b < 1.0
    ensures a / b > 1.0
  {
    var q := a / b;
    assert q * b == a;
    if q <= 1.0 {
      MulPositive(1.0 - q, b);
    }
  }

  /** A velocity of speed 10 under MaxVel 5 leaves the limit with speed
      0.5, below the minimum of 1. */
  lemma LimitSpeedCanEndBelowMinimum(m: MathLib)
    requires m.Valid()
    ensures LimitSpeed(Vec2(10.0, 0.0), 5.0, m).Some?
    ensures Length(LimitSpeed(Vec2(10.0, 0.0), 5.0, m).value, m) == 0.5
  {
    var v := Vec2(10.0, 0.0);
    LengthNonNeg(v, m);
    assert LengthSq(v) == 100.0;
    SquareInjective(Length(v, m), 10.0);
    LimitSpeedLengths(v, 5.0, m);
  }

  // ---------------------------------------------------------------------
  // UpdateForces as a whole

  /** UpdateForces on boid b, scanning the slice flock (as it was when the
      call began), where self marks the slots that hold b itself. */
  function UpdateForcesSpec(b: BoidState, flock: seq<BoidState>, self: seq<bool>, env: Env, s: Stream): (r: (BoidState, Stream))
    requires env.Valid() && |self| == |flock|
    ensures r.0.initialized
    ensures r.0.pos == b.pos && r.0.closeRadius == b.closeRadius && r.0.radius == b.radius
    ensures b.initialized ==> r.0 == b.(vel := r.0.vel, nan := r.0.nan)
    ensures b.initialized && b.nan ==> r == (b, s)
    ensures b.nan ==> r.0.nan
  {
    var init := LazyInit(b, env.tuning, s);
    if init.0.nan then init
    else
      var forced := ApplyForces(init.0, Scan(init.0, flock, self, env.math, |flock|), env.math, init.1);
      if forced.0.nan then forced
      else
        match LimitSpeed(forced.0.vel, forced.0.maxVel, env.math)
        case None => (forced.0.(nan := true), forced.1)
        case Some(v) => (forced.0.(vel := v), forced.1)
  }

  /** After UpdateForces a boid that is not NaN moves at a positive speed
      of at most MaxVel. */
  lemma UpdateForcesSpeedBound(b: BoidState, flock: seq<BoidState>, self: seq<bool>, env: Env, s: Stream)
    requires env.Valid() && |self| == |flock|
    ensures var r := UpdateForcesSpec(b, flock, self, env, s).0;
      !r.nan && r.maxVel > 0.0 ==> 0.0 < Length(r.vel, env.math) <= r.maxVel
  {
    var init := LazyInit(b, env.tuning, s);
    if !init.0.nan {
      var forced := ApplyForces(init.0, Scan(init.0, flock, self, env.math, |flock|), env.math, init.1);
      if !forced.0.nan && forced.0.vel != ZERO && forced.0.maxVel > 0.0 {
        LimitSpeedBounds(forced.0.vel, forced.0.maxVel, env.math);
      }
    }
  }

  /** A boid with no neighbour gets no force and no random turn: the
      velocity it has after the lazy initialisation reaches the speed limit
      as it is, and no draw is made beyond the initialisation's two. On an
      initialised boid that is its own velocity, and no draw at all. */
  lemma NoNeighboursNoForces(b: BoidState, flock: seq<BoidState>, self: seq<bool>, env: Env, s: Stream)
    requires env.Valid() && |self| == |flock|
    requires !b.nan
    requires |Neighbours(b, flock, self, env.math, |flock|)| == 0
    ensures var (init, t) := LazyInit(b, env.tuning, s);
      var r := UpdateForcesSpec(b, flock, self, env, s);
      && r.1 == t
      && (r.0.nan <==> init.vel == ZERO)
      && (!r.0.nan ==> r.0.vel == LimitSpeed(init.vel, init.maxVel, env.math).value)
    ensures b.initialized ==>
      var r := UpdateForcesSpec(b, flock, self, env, s);
      && r.1 == s
      && (r.0.nan <==> b.vel == ZERO)
      && (!r.0.nan ==> r.0.vel == LimitSpeed(b.vel, b.maxVel, env.math).value)
  {
    var init := LazyInit(b, env.tuning, s).0;
    assert Neighbours(init, flock, self, env.math, |flock|) == Neighbours(b, flock, self, env.math, |flock|);
    NeighbourCount(init, flock, self, env.math, |flock|);
  }

  /** The velocity a later call starts from keeps the strengths and MaxVel
      fixed by the first one: the initialisation never runs twice. */
  lemma {:induction false} InitialisesOnce(b: BoidState, flock: seq<BoidState>, self: seq<bool>, flock2: seq<BoidState>, self2: seq<bool>, env: Env, s: Stream, s2: Stream)
    requires env.Valid() && |self| == |flock| && |self2| == |flock2|
    ensures var b1 := UpdateForcesSpec(b, flock, self, env, s).0;
      var b2 := UpdateForcesSpec(b1, flock2, self2, env, s2).0;
      b2.maxVel == b1.maxVel && b2.separationStr == b1.separationStr &&
      b2.cohesionStr == b1.cohesionStr && b2.alignmentStr == b1.alignmentStr
  {
  }

  /** Two boids whose once-guard has not fired and which differ at most in
      MaxVel and the three strengths, the fields the guard overwrites. */
  predicate SameBeforeInit(a: BoidState, b: BoidState) {
    && !a.initialized && !b.initialized
    && a.pos == b.pos && a.vel == b.vel && a.nan == b.nan
    && a.closeRadius == b.closeRadius && a.radius == b.radius
  }

  /** Two boids that the scan of another boid cannot tell apart. */
  predicate SameMotion(a: BoidState, b: BoidState) {
    a.pos == b.pos && a.vel == b.vel && a.nan == b.nan
  }

  /** The scan reads only the positions, velocities and NaN state of the
      other boids. */
  lemma {:induction false} ScanReadsMotionOnly(b: BoidState, f: seq<BoidState>, g: seq<BoidState>, self: seq<bool>, m: MathLib, n: nat)
    requires |self| == |f| == |g| && n <= |f|
    requires forall i :: 0 <= i < n ==> SameMotion(f[i], g[i])
    ensures Scan(b, f, self, m, n) == Scan(b, g, self, m, n)
  {
    if n > 0 {
      ScanReadsMotionOnly(b, f, g, self, m, n - 1);
    }
  }

  /** On a boid's first call, UpdateForces does not depend on the MaxVel
      and strengths the boid was created with, nor on those of the others. */
  lemma {:induction false} FirstUpdateForgetsGenome(a: BoidState, b: BoidState, f: seq<BoidState>, g: seq<BoidState>, self: seq<bool>, env: Env, s: Stream)
    requires env.Valid() && |self| == |f| == |g|
    requires SameBeforeInit(a, b)
    requires forall i :: 0 <= i < |f| ==> SameMotion(f[i], g[i])
    ensures UpdateForcesSpec(a, f, self, env, s) == UpdateForcesSpec(b, g, self, env, s)
  {
    var (a1, s1) := LazyInit(a, env.tuning, s);
    assert LazyInit(b, env.tuning, s) == (a1, s1);
    ScanReadsMotionOnly(a1, f, g, self, env.math, |f|);
  }

  // ---------------------------------------------------------------------
  // The mutable boid

  class Boid {
    var pos: Vec2
    var vel: Vec2
    var cohesionStr: real
    var separationStr: real
    var alignmentStr: real
    var maxVel: real
    var closeRadius: real
    var radius: real
    var initialized: bool
    var nan: bool

    function State(): BoidState
      reads this
    {
      BoidState(pos, vel, cohesionStr, separationStr, alignmentStr, maxVel, closeRadius, radius, initialized, nan)
    }

    /** NewBoid, given the two velocity draws. */
    constructor (p: Vec2, ux: Unit, uy: Unit)
      ensures State() == NewBoidState(p, ux, uy)
    {
      pos := p;
      vel := Vec2((ux * 2.0 - 1.0) * 20.0, (uy * 2.0 - 1.0) * 20.0);
      maxVel := 10.0;
      closeRadius := 20.0;
      radius := 30.0;
      separationStr := 1.0 / 1.25;
      cohesionStr := 1.0 / 6.0;
      alignmentStr := 1.0 / 0.75;
      initialized := false;
      nan := false;
    }

    method UpdateMove(width: nat, height: nat)
      modifies this
      ensures State() == Move(old(State()), width, height)
    {
      if nan {
        return;
      }
      pos := Add(pos, vel);
      if pos.x > width as real {
        pos := pos.(x := 0.0);
      }
      if pos.x < 0.0 {
        pos := pos.(x := width as real);
      }
      if pos.y > height as real {
        pos := pos.(y := 0.0);
      }
      if pos.y < 0.0 {
        pos := pos.(y := height as real);
      }
    }

    /** UpdateForces: the once-guarded initialisation, the scan, the forces
        and the speed limit, in that order. */
    method UpdateForces(boids: seq<Boid>, env: Env, s: Stream) returns (s': Stream)
      requires env.Valid()
      modifies this
      ensures (State(), s') == UpdateForcesSpec(old(State()), old(Snap(boids)), SelfMask(boids, this), env, s)
    {
      ghost var snap := Snap(boids);
      ghost var self := SelfMask(boids, this);
      s' := Initialise(env.tuning, s);
      if nan {
        return;
      }
      var acc := ScanNeighbours(boids, env.math);
      ScanIgnoresSelf(State(), Snap(boids), snap, self, env.math, |boids|);
      s' := ApplyForcesInPlace(acc, env.math, s');
      if nan {
        return;
      }
      LimitSpeedInPlace(env.math);
    }

    /** The block behind sync.Once. */
    method Initialise(t: Tuning, s: Stream) returns (s': Stream)
      requires t.sepMod != 0.0 && t.cohMod != 0 && t.alMod != 0.0
      modifies this
      ensures (State(), s') == LazyInit(old(State()), t, s)
    {
      s' := s;
      if !initialized {
        var dx := s'.Float32();
        var dy := dx.1.Float32();
        vel := Vec2(dx.0 as real * 2.0 - 1.0, dy.0 as real * 2.0 - 1.0);
        maxVel := 5.0;
        separationStr := 1.0 / t.sepMod;
        cohesionStr := LazyCohesion(t.cohMod);
        alignmentStr := 1.0 / t.alMod;
        initialized := true;
        s' := dy.1;
      }
    }

    /** The loop over the slice, accumulating the three sums and the
        neighbour count. */
    method ScanNeighbours(boids: seq<Boid>, m: MathLib) returns (acc: Sums)
      ensures acc == Scan(State(), Snap(boids), SelfMask(boids, this), m, |boids|)
    {
      acc := NO_SUMS;
      var i := 0;
      while i < |boids|
        invariant 0 <= i <= |boids|
        invariant acc == Scan(State(), Snap(boids), SelfMask(boids, this), m, i)
      {
        var other := boids[i];
        if other != this && !other.nan {
          var d := Distance(pos, other.pos, m);
          if d < closeRadius {
            if d == 0.0 {
              acc := acc.(separationNaN := true);
            } else {
              acc := acc.(separation := Add(acc.separation, Scale(Sub(pos, other.pos), 1.0 / d)));
            }
          }
          if d < radius {
            acc := acc.(alignment := Add(acc.alignment, other.vel), cohesion := Add(acc.cohesion, other.pos), count := acc.count + 1);
          }
        }
        assert acc == Visit(State(), Snap(boids)[i], SelfMask(boids, this)[i], m, Scan(State(), Snap(boids), SelfMask(boids, this), m, i));
        i := i + 1;
      }
    }

    /** The force application and the random turn. */
    method ApplyForcesInPlace(acc: Sums, m: MathLib, s: Stream) returns (s': Stream)
      modifies this
      ensures (State(), s') == ApplyForces(old(State()), acc, m, s)
    {
      s' := s;
      if acc.count > 0 {
        var du := s'.Float32();
        s' := du.1;
        if acc.separationNaN {
          nan := true;
          return;
        }
        var k := 1.0 / (acc.count as real);
        var separation := Scale(acc.separation, separationStr);
        var alignment := Scale(Sub(Scale(acc.alignment, k), vel), alignmentStr);
        var cohesion := Scale(Sub(Scale(acc.cohesion, k), pos), cohesionStr);
        vel := Add(vel, separation);
        vel := Add(vel, alignment);
        vel := Add(vel, cohesion);
        vel := RotateVector(vel, RandomAngle(du.0), m);
      }
    }

    /** The minimum and maximum speed rescales. */
    method LimitSpeedInPlace(m: MathLib)
      requires m.Valid()
      modifies this
      ensures LimitSpeed(old(vel), maxVel, m).None? ==> State() == old(State()).(nan := true)
      ensures LimitSpeed(old(vel), maxVel, m).Some? ==> State() == old(State()).(vel := LimitSpeed(old(vel), maxVel, m).value)
    {
      var speed := Length(vel, m);
      LengthNonNeg(vel, m);
      LengthZero(vel, m);
      ghost var v0 := vel;
      if speed < MIN_VEL {
        if speed == 0.0 {
          nan := true;
          return;
        }
        vel := Scale(Normalize(vel, m), MIN_VEL / speed);
      }
      ghost var v1 := vel;
      speed := Length(vel, m);
      if speed > maxVel {
        vel := Scale(Normalize(vel, m), maxVel / speed);
      }
      LimitSpeedUnfold(v0, maxVel, m);
      assert LimitSpeed(v0, maxVel, m) == Some(vel);
    }
  }

  /** The scan never reads the slots that hold the scanning boid. */
  lemma {:induction false} ScanIgnoresSelf(b: BoidState, f: seq<BoidState>, g: seq<BoidState>, self: seq<bool>, m: MathLib, n: nat)
    requires |self| == |f| == |g| && n <= |f|
    requires forall i :: 0 <= i < n && !self[i] ==> f[i] == g[i]
    ensures Scan(b, f, self, m, n) == Scan(b, g, self, m, n)
  {
    if n > 0 {
      ScanIgnoresSelf(b, f, g, self, m, n - 1);
    }
  }

  /** The states of the boids a slice points to. */
  function Snap(boids: seq<Boid>): (r: seq<BoidState>)
    reads set b | b in boids
    ensures |r| == |boids| && forall i :: 0 <= i < |boids| ==> r[i] == boids[i].State()
  {
    seq(|boids|, i reads set b | b in boids requires 0 <= i < |boids| => boids[i].State())
  }

  /** Which slots of a slice hold the boid b itself. */
  function SelfMask(boids: seq<Boid>, b: Boid): (r: seq<bool>)
    ensures |r| == |boids| && forall i :: 0 <= i < |boids| ==> (r[i] <==> boids[i] == b)
  {
    seq(|boids|, i requires 0 <= i < |boids| => boids[i] == b)
  }
}
