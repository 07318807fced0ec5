/** The genetic parameter search of evol.go: a population of six-field
    genomes, a fitness that simulates a flock with each genome, and Evolve,
    which sorts the population in place, keeps its first half and
    overwrites the second half with children of the first. */
module Evol {

  import opened Wrappers
  import opened Reals
  import opened Vec
  import opened Rng
  import opened Boids
  import opened Flock

  datatype BoidParams = BoidParams(
    separationStr: real,
    cohesionStr: real,
    alignmentStr: real,
    closeRadius: real,
    radius: real,
    maxVel: real)

  /** RandomParams: six draws, taken in field order. */
  function RandomParams(s: Stream): (r: (BoidParams, Stream))
    ensures Drawn(r.0)
    ensures 0.0 <= r.0.separationStr < 0.1
    ensures 0.0 <= r.0.cohesionStr < 0.1
    ensures 0.0 <= r.0.alignmentStr < 0.1
    ensures 10.0 <= r.0.closeRadius < 40.0
    ensures 30.0 <= r.0.radius < 80.0
    ensures 1.0 <= r.0.maxVel < 5.0
    ensures r.1 == Stream(s.draw, s.at + 6)
  {
    var (u1, s1) := s.Float32();
    var (u2, s2) := s1.Float32();
    var (u3, s3) := s2.Float32();
    var (u4, s4) := s3.Float32();
    var (u5, s5) := s4.Float32();
    var (u6, s6) := s5.Float32();
    (BoidParams(u1 * 0.1, u2 * 0.1, u3 * 0.1, u4 * 30.0 + 10.0, u5 * 50.0 + 30.0, u6 * 4.0 + 1.0), s6)
  }

  /** The ranges RandomParams draws from. */
  predicate Drawn(p: BoidParams) {
    && 0.0 <= p.separationStr < 0.1
    && 0.0 <= p.cohesionStr < 0.1
    && 0.0 <= p.alignmentStr < 0.1
    && 10.0 <= p.closeRadius < 40.0
    && 30.0 <= p.radius < 80.0
    && 1.0 <= p.maxVel < 5.0
  }

  /** The ranges RandomParams draws from, except that mutation may push the
      separation strength above 0.1. */
  predicate Plausible(p: BoidParams) {
    && 0.0 <= p.separationStr
    && 0.0 <= p.cohesionStr < 0.1
    && 0.0 <= p.alignmentStr < 0.1
    && 10.0 <= p.closeRadius < 40.0
    && 30.0 <= p.radius < 80.0
    && 1.0 <= p.maxVel < 5.0
  }

  predicate AllPlausible(pop: seq<BoidParams>) {
    forall i :: 0 <= i < |pop| ==> Plausible(pop[i])
  }

  // ---------------------------------------------------------------------
  // Fitness

  /** A float32 value: a number, or NaN. */
  datatype Float = Num(value: real) | NaN

  /** Go's > on floats, false whenever a side is NaN. */
  predicate Greater(a: Float, b: Float) {
    a.Num? && b.Num? && a.value > b.value
  }

  const FLOCK_SIZE: nat := 50
  const FITNESS_STEPS: nat := 1000

  /** A boid as Fitness creates it: NewBoid, then the six genome fields. */
  function Seeded(params: BoidParams, pos: Vec2, ux: Unit, uy: Unit): BoidState {
    NewBoidState(pos, ux, uy).(
      separationStr := params.separationStr,
      cohesionStr := params.cohesionStr,
      alignmentStr := params.alignmentStr,
      closeRadius := params.closeRadius,
      radius := params.radius,
      maxVel := params.maxVel)
  }

  /** One boid of the first loop of Fitness: a position from math/rand (s1)
      and a velocity from math/rand/v2 (s2), two draws each. */
  function SeedBoid(params: BoidParams, env: Env, s1: Stream, s2: Stream): (r: (BoidState, Stream, Stream))
    ensures r.1 == Stream(s1.draw, s1.at + 2) && r.2 == Stream(s2.draw, s2.at + 2)
    ensures && !r.0.initialized && !r.0.nan
      && r.0.closeRadius == params.closeRadius && r.0.radius == params.radius
      && r.0.separationStr == params.separationStr && r.0.cohesionStr == params.cohesionStr
      && r.0.alignmentStr == params.alignmentStr && r.0.maxVel == params.maxVel
      && 0.0 <= r.0.pos.x <= env.width as real && 0.0 <= r.0.pos.y <= env.height as real
  {
    var ux := s1.Float32();
    var uy := ux.1.Float32();
    var vx := s2.Float32();
    var vy := vx.1.Float32();
    var pos := Vec2(Mul(ux.0, env.width as real), Mul(uy.0, env.height as real));
    ScaledWithin(ux.0, env.width as real);
    ScaledWithin(uy.0, env.height as real);
    (Seeded(params, pos, vx.0, vy.0), uy.1, vy.1)
  }

  /** The first n boids Fitness creates. */
  function InitialFlock(params: BoidParams, n: nat, env: Env, s1: Stream, s2: Stream): (r: (seq<BoidState>, Stream, Stream))
    ensures |r.0| == n
    ensures r.1 == Stream(s1.draw, s1.at + 2 * n) && r.2 == Stream(s2.draw, s2.at + 2 * n)
  {
    if n == 0 then ([], s1, s2)
    else
      var prev := InitialFlock(params, n - 1, env, s1, s2);
      var next := SeedBoid(params, env, prev.1, prev.2);
      (prev.0 + [next.0], next.1, next.2)
  }

  /** InitialFlock one boid further. */
  lemma InitialFlockNext(params: BoidParams, n: nat, env: Env, s1: Stream, s2: Stream, f: seq<BoidState>, t1: Stream, t2: Stream)
    requires InitialFlock(params, n, env, s1, s2) == (f, t1, t2)
    ensures var next := SeedBoid(params, env, t1, t2);
      InitialFlock(params, n + 1, env, s1, s2) == (f + [next.0], next.1, next.2)
  {
  }

  /** A boid as the first loop of Fitness leaves it: uninitialised,
      carrying the genome and within the screen. */
  predicate Planted(b: BoidState, params: BoidParams, env: Env) {
    && !b.initialized && !b.nan
    && b.closeRadius == params.closeRadius && b.radius == params.radius
    && b.separationStr == params.separationStr && b.cohesionStr == params.cohesionStr
    && b.alignmentStr == params.alignmentStr && b.maxVel == params.maxVel
    && InBounds(b, env)
  }

  /** Every boid Fitness creates is planted with the genome. */
  lemma {:induction false} InitialFlockFields(params: BoidParams, n: nat, env: Env, s1: Stream, s2: Stream)
    ensures forall i :: 0 <= i < n ==> Planted(InitialFlock(params, n, env, s1, s2).0[i], params, env)
  {
    if n > 0 {
      InitialFlockFields(params, n - 1, env, s1, s2);
      var prev := InitialFlock(params, n - 1, env, s1, s2);
      var next := SeedBoid(params, env, prev.1, prev.2);
      var f := InitialFlock(params, n, env, s1, s2).0;
      assert f == prev.0 + [next.0];
      forall i | 0 <= i < n
        ensures Planted(f[i], params, env)
      {
        if i < n - 1 {
          assert f[i] == prev.0[i];
        }
      }
    }
  }

  /** The sum of the speeds of the first n boids; NaN once a NaN velocity
      has been added. */
  function TotalSpeed(flock: seq<BoidState>, m: MathLib, n: nat): (r: Float)
    requires m.Valid() && n <= |flock|
    ensures r.NaN? <==> exists i :: 0 <= i < n && flock[i].nan
    ensures r.Num? ==> r.value >= 0.0
  {
    if n == 0 then Num(0.0)
    else
      match TotalSpeed(flock, m, n - 1)
      case NaN => NaN
      case Num(t) =>
        if flock[n - 1].nan then NaN
        else
          LengthNonNeg(flock[n - 1].vel, m);
          Num(t + Length(flock[n - 1].vel, m))
  }

  /** The flock at the end of a Fitness run. */
  function FinalFlock(params: BoidParams, env: Env, s1: Stream, s2: Stream): (r: seq<BoidState>)
    requires env.Valid()
    ensures |r| == FLOCK_SIZE
  {
    var (f0, t1, t2) := InitialFlock(params, FLOCK_SIZE, env, s1, s2);
    Run(f0, FITNESS_STEPS, env, t2).0
  }

  /** Fitness: the mean speed of the flock after 1000 steps, together with
      both streams as the call leaves them. The mean of non-negative speeds
      is non-negative, and it is NaN exactly when some boid has gone NaN. */
  function FitnessSpec(params: BoidParams, env: Env, s1: Stream, s2: Stream): (r: (Float, Stream, Stream))
    requires env.Valid()
    ensures r.0.Num? ==> r.0.value >= 0.0
    ensures r.0.NaN? <==> exists i :: 0 <= i < FLOCK_SIZE && FinalFlock(params, env, s1, s2)[i].nan
  {
    var (f0, t1, t2) := InitialFlock(params, FLOCK_SIZE, env, s1, s2);
    var (f, t3) := Run(f0, FITNESS_STEPS, env, t2);
    var total := TotalSpeed(f, env.math, FLOCK_SIZE);
    assert f == FinalFlock(params, env, s1, s2);
    (if total.NaN? then NaN else Num(total.value / FLOCK_SIZE as real), t1, t3)
  }

  /** Only CloseRadius and Radius of a genome affect its fitness: the lazy
      initialisation on each boid's first UpdateForces overwrites the other
      four fields before they are read. */
  lemma FitnessDependsOnlyOnRadii(p: BoidParams, q: BoidParams, env: Env, s1: Stream, s2: Stream)
    requires env.Valid()
    requires p.closeRadius == q.closeRadius && p.radius == q.radius
    ensures FitnessSpec(p, env, s1, s2) == FitnessSpec(q, env, s1, s2)
  {
    var (fp, t1, t2) := InitialFlock(p, FLOCK_SIZE, env, s1, s2);
    InitialFlocksAgree(p, q, FLOCK_SIZE, env, s1, s2);
    var fq := InitialFlock(q, FLOCK_SIZE, env, s1, s2).0;
    StepForgetsGenome(fp, fq, env, t2);
    RunAgreesAfterFirstStep(fp, fq, FITNESS_STEPS, env, t2);
  }

  lemma {:induction false} InitialFlocksAgree(p: BoidParams, q: BoidParams, n: nat, env: Env, s1: Stream, s2: Stream)
    requires p.closeRadius == q.closeRadius && p.radius == q.radius
    ensures var (fp, tp1, tp2) := InitialFlock(p, n, env, s1, s2);
      var (fq, tq1, tq2) := InitialFlock(q, n, env, s1, s2);
      tp1 == tq1 && tp2 == tq2 && forall i :: 0 <= i < n ==> SameBeforeInit(fp[i], fq[i])
  {
    if n > 0 {
      InitialFlocksAgree(p, q, n - 1, env, s1, s2);
    }
  }

  // ---------------------------------------------------------------------
  // The sort

  /** Data.Swap(j, j-1). */
  function SwapDown(a: seq<BoidParams>, j: nat): (r: seq<BoidParams>)
    requires 0 < j < |a|
    ensures |r| == |a| && multiset(r) == multiset(a)
    ensures r[j - 1] == a[j] && r[j] == a[j - 1]
    ensures forall k :: 0 <= k < |a| && k != j - 1 && k != j ==> r[k] == a[k]
  {
    a[j - 1 := a[j]][j := a[j - 1]]
  }

  /** The inner loop of Go's insertionSort_func, from slot j down: while
      Less(j, j-1), swap slots j and j-1. Less(j, j-1) is the comparator
      fitnesses[j] > fitnesses[j-1], read by position from a fitness slice
      that the swaps leave as it was. */
  function SiftDown(a: seq<BoidParams>, f: seq<Float>, j: nat): (r: seq<BoidParams>)
    requires j < |a| == |f|
    ensures |r| == |a| && multiset(r) == multiset(a)
    decreases j
  {
    if j > 0 && Greater(f[j], f[j - 1]) then SiftDown(SwapDown(a, j), f, j - 1) else a
  }

  /** The outer loop of insertionSort_func, from slot i on. */
  function SortFrom(a: seq<BoidParams>, f: seq<Float>, i: nat): (r: seq<BoidParams>)
    requires |a| == |f|
    ensures |r| == |a| && multiset(r) == multiset(a)
    decreases |a| - i
  {
    if i >= |a| then a else SortFrom(SiftDown(a, f, i), f, i + 1)
  }

  /** sort.Slice(population, func(i, j int) bool { return fitnesses[i] >
      fitnesses[j] }). For slices of at most 12 elements Go's pdqsort runs
      exactly this insertion sort. */
  function SortSpec(a: seq<BoidParams>, f: seq<Float>): (r: seq<BoidParams>)
    requires |a| == |f|
    ensures |r| == |a| && multiset(r) == multiset(a)
  {
    SortFrom(a, f, 1)
  }

  /** The sort does not order the population by fitness: with fitnesses
      1, 3, 2, 0 it only swaps the first two genomes, so the kept half holds
      the genomes of fitness 3 and 1 and drops the one of fitness 2. */
  lemma SortKeepsWrongHalf(p: seq<BoidParams>)
    requires |p| == 4
    ensures SortSpec(p, [Num(1.0), Num(3.0), Num(2.0), Num(0.0)]) == [p[1], p[0], p[2], p[3]]
  {
    var f := [Num(1.0), Num(3.0), Num(2.0), Num(0.0)];
    var q := SwapDown(p, 1);
    assert q == [p[1], p[0], p[2], p[3]];
    assert SiftDown(p, f, 1) == q by {
      assert Greater(f[1], f[0]);
      assert SiftDown(q, f, 0) == q;
    }
    assert SiftDown(q, f, 2) == q by { assert !Greater(f[2], f[1]); }
    assert SiftDown(q, f, 3) == q by { assert !Greater(f[3], f[2]); }
    assert SortFrom(q, f, 4) == q;
    assert SortFrom(q, f, 3) == SortFrom(q, f, 4);
    assert SortFrom(q, f, 2) == SortFrom(q, f, 3);
    assert SortFrom(p, f, 1) == SortFrom(q, f, 2);
  }

  // ---------------------------------------------------------------------
  // Breeding

  function Mutate(x: real, factor: real): real { x * factor }

  /** x is m itself, or m times a factor in [0.75, 1.25). */
  ghost predicate MutationOf(x: real, m: real) {
    x == m || exists k :: 0.75 <= k < 1.25 && x == Mutate(m, k)
  }

  /** c is the field-wise midpoint of p and q, with no mutation. */
  predicate Midpoint(c: BoidParams, p: BoidParams, q: BoidParams) {
    && c.separationStr == (p.separationStr + q.separationStr) / 2.0
    && c.cohesionStr == (p.cohesionStr + q.cohesionStr) / 2.0
    && c.alignmentStr == (p.alignmentStr + q.alignmentStr) / 2.0
    && c.closeRadius == (p.closeRadius + q.closeRadius) / 2.0
    && c.radius == (p.radius + q.radius) / 2.0
    && c.maxVel == (p.maxVel + q.maxVel) / 2.0
  }

  /** c is a child of p and q: the midpoint of each field, except that the
      separation strength may be mutated. */
  ghost predicate Offspring(c: BoidParams, p: BoidParams, q: BoidParams) {
    var mid := (p.separationStr + q.separationStr) / 2.0;
    Midpoint(c.(separationStr := mid), p, q) && MutationOf(c.separationStr, mid)
  }

  /** c is a child of two genomes of kept. */
  ghost predicate ChildOf(c: BoidParams, kept: seq<BoidParams>) {
    exists p, q :: 0 <= p < |kept| && 0 <= q < |kept| && Offspring(c, kept[p], kept[q])
  }

  /** c is the unmutated midpoint of two genomes of kept. */
  ghost predicate MidpointOf(c: BoidParams, kept: seq<BoidParams>) {
    exists p, q :: 0 <= p < |kept| && 0 <= q < |kept| && Midpoint(c, kept[p], kept[q])
  }

  /** One child: two parents picked by rand.Intn(half), their midpoint, and
      with probability 0.1 a separation strength scaled by a factor drawn
      in [0.75, 1.25). */
  function Breed(pop: seq<BoidParams>, half: nat, s: Stream): (r: (BoidParams, Stream))
    requires 0 < half <= |pop|
    ensures ChildOf(r.0, pop[..half])
    ensures r.1.draw == s.draw
    ensures s.draw(s.at + 2) < 0.1 ==> r.1.at == s.at + 4
    ensures s.draw(s.at + 2) >= 0.1 ==> r.1.at == s.at + 3 && MidpointOf(r.0, pop[..half])
  {
    var (i1, s1) := s.Intn(half);
    var (i2, s2) := s1.Intn(half);
    var p, q := pop[i1], pop[i2];
    var child := BoidParams(
      (p.separationStr + q.separationStr) / 2.0,
      (p.cohesionStr + q.cohesionStr) / 2.0,
      (p.alignmentStr + q.alignmentStr) / 2.0,
      (p.closeRadius + q.closeRadius) / 2.0,
      (p.radius + q.radius) / 2.0,
      (p.maxVel + q.maxVel) / 2.0);
    var (u, s3) := s2.Float32();
    var r :=
      if u < 0.1 then
        var (v, s4) := s3.Float32();
        (child.(separationStr := Mutate(child.separationStr, v * 0.5 + 0.75)), s4)
      else (child, s3);
    assert Offspring(r.0, pop[..half][i1], pop[..half][i2]);
    assert u >= 0.1 ==> Midpoint(r.0, pop[..half][i1], pop[..half][i2]);
    r
  }

  /** The breeding loop from slot i on: slots before i stay as they are and
      every later slot receives a child of two genomes of the kept half. */
  function BreedFrom(pop: seq<BoidParams>, i: nat, half: nat, s: Stream): (r: (seq<BoidParams>, Stream))
    requires 0 < half <= i <= |pop|
    ensures |r.0| == |pop|
    ensures r.0[..i] == pop[..i]
    ensures forall j :: i <= j < |pop| ==> ChildOf(r.0[j], pop[..half])
    decreases |pop| - i
  {
    if i == |pop| then (pop, s)
    else
      var (c, s1) := Breed(pop, half, s);
      var pop1 := pop[i := c];
      assert pop1[..half] == pop[..half];
      var r := BreedFrom(pop1, i + 1, half, s1);
      assert r.0[..i] == pop1[..i + 1][..i];
      r
  }

  /** A child of plausible parents is plausible. */
  lemma OffspringPlausible(c: BoidParams, p: BoidParams, q: BoidParams)
    requires Plausible(p) && Plausible(q) && Offspring(c, p, q)
    ensures Plausible(c)
  {
    var m := (p.separationStr + q.separationStr) / 2.0;
    if c.separationStr != m {
      var k :| 0.75 <= k < 1.25 && c.separationStr == Mutate(m, k);
      if m > 0.0 {
        MulPositive(m, k);
      }
    }
  }

  // ---------------------------------------------------------------------
  // Evolve

  /** The population Evolve starts from: one RandomParams per slot, in
      slot order. */
  function Populate(n: nat, s: Stream): (r: (seq<BoidParams>, Stream))
    ensures |r.0| == n && AllPlausible(r.0)
    ensures forall i :: 0 <= i < n ==> Drawn(r.0[i])
    ensures r.1 == Stream(s.draw, s.at + 6 * n)
  {
    if n == 0 then ([], s)
    else
      var (pop, t) := Populate(n - 1, s);
      var (p, t1) := RandomParams(t);
      (pop + [p], t1)
  }

  /** The fitness loop over the first n genomes. */
  function Evaluate(pop: seq<BoidParams>, n: nat, env: Env, s1: Stream, s2: Stream): (r: (seq<Float>, Stream, Stream))
    requires env.Valid() && n <= |pop|
    ensures |r.0| == n
  {
    if n == 0 then ([], s1, s2)
    else
      var prev := Evaluate(pop, n - 1, env, s1, s2);
      var x := FitnessSpec(pop[n - 1], env, prev.1, prev.2);
      (prev.0 + [x.0], x.1, x.2)
  }

  /** Evaluate one genome further. */
  lemma EvaluateNext(pop: seq<BoidParams>, n: nat, env: Env, s1: Stream, s2: Stream, fit: seq<Float>, t1: Stream, t2: Stream)
    requires env.Valid() && n < |pop|
    requires Evaluate(pop, n, env, s1, s2) == (fit, t1, t2)
    ensures var x := FitnessSpec(pop[n], env, t1, t2);
      Evaluate(pop, n + 1, env, s1, s2) == (fit + [x.0], x.1, x.2)
  {
  }

  /** The run-time panics Evolve can reach: make with a negative length,
      rand.Intn with a non-positive bound, and an index 0 into an empty
      slice (fitnesses[0] after a generation, or population[0] at the end). */
  datatype Panic = NegativeLength | IntnNonPositive | IndexOutOfRange

  /** One pass of the generation loop: evaluate, sort, breed, then read
      fitnesses[0] for the log line. With one genome the kept half is empty
      and rand.Intn(0) panics; with none the breeding loop does not run and
      fitnesses[0] is out of range. */
  function Generation(pop: seq<BoidParams>, env: Env, s1: Stream, s2: Stream): (r: Result<(seq<BoidParams>, Stream, Stream), Panic>)
    requires env.Valid()
    ensures r.Ok? <==> |pop| >= 2
    ensures |pop| == 1 ==> r == Err(IntnNonPositive)
    ensures |pop| == 0 ==> r == Err(IndexOutOfRange)
    ensures r.Ok? ==> |r.value.0| == |pop|
    ensures r.Ok? && AllPlausible(pop) ==> AllPlausible(r.value.0)
  {
    var n := |pop|;
    var (fit, t1, t2) := Evaluate(pop, n, env, s1, s2);
    var sorted := SortSpec(pop, fit);
    assert AllPlausible(pop) ==> AllPlausible(sorted) by {
      if AllPlausible(pop) {
        PermutationKeepsPlausible(pop, sorted);
      }
    }
    if n / 2 == 0 then
      if n > 0 then Err(IntnNonPositive) else Err(IndexOutOfRange)
    else
      var (bred, t3) := BreedFrom(sorted, n / 2, n / 2, t1);
      assert AllPlausible(sorted) ==> AllPlausible(bred) by {
        if AllPlausible(sorted) {
          BreedKeepsPlausible(sorted, n / 2, t1);
        }
      }
      Ok((bred, t3, t2))
  }

  /** Elitism: a generation of at least two genomes keeps the first half of
      the sorted population verbatim, fills the second half with children of
      that kept half only, and the sort itself only permutes the genomes. */
  lemma GenerationKeepsElites(pop: seq<BoidParams>, env: Env, s1: Stream, s2: Stream)
    requires env.Valid() && |pop| >= 2
    ensures var sorted := SortSpec(pop, Evaluate(pop, |pop|, env, s1, s2).0);
      var r := Generation(pop, env, s1, s2);
      var half := |pop| / 2;
      && multiset(sorted) == multiset(pop)
      && r.Ok?
      && r.value.0[..half] == sorted[..half]
      && forall j :: half <= j < |pop| ==> ChildOf(r.value.0[j], sorted[..half])
  {
    var (fit, t1, t2) := Evaluate(pop, |pop|, env, s1, s2);
    var sorted := SortSpec(pop, fit);
    var half := |pop| / 2;
    var (bred, t3) := BreedFrom(sorted, half, half, t1);
    assert Generation(pop, env, s1, s2) == Ok((bred, t3, t2));
  }

  lemma PermutationKeepsPlausible(a: seq<BoidParams>, b: seq<BoidParams>)
    requires AllPlausible(a) && multiset(a) == multiset(b)
    ensures AllPlausible(b)
  {
    forall i | 0 <= i < |b|
      ensures Plausible(b[i])
    {
      assert b[i] in multiset(a);
    }
  }

  /** Breeding from a plausible population leaves it plausible: the kept
      half is kept and every child is a child of the kept half. */
  lemma BreedKeepsPlausible(pop: seq<BoidParams>, half: nat, s: Stream)
    requires 0 < half <= |pop| && AllPlausible(pop)
    ensures AllPlausible(BreedFrom(pop, half, half, s).0)
  {
    var bred := BreedFrom(pop, half, half, s).0;
    var kept := pop[..half];
    forall i | 0 <= i < |bred|
      ensures Plausible(bred[i])
    {
      if i < half {
        assert bred[i] == bred[..half][i];
      } else {
        var p, q :| 0 <= p < |kept| && 0 <= q < |kept| && Offspring(bred[i], kept[p], kept[q]);
        OffspringPlausible(bred[i], kept[p], kept[q]);
      }
    }
  }

  /** The generation loop, run g times. */
  function Generations(pop: seq<BoidParams>, g: nat, env: Env, s1: Stream, s2: Stream): (r: Result<(seq<BoidParams>, Stream, Stream), Panic>)
    requires env.Valid()
    ensures r.Ok? <==> |pop| >= 2 || g == 0
    ensures r.Err? ==> r.error == if |pop| == 0 then IndexOutOfRange else IntnNonPositive
    ensures r.Ok? ==> |r.value.0| == |pop|
    ensures r.Ok? && AllPlausible(pop) ==> AllPlausible(r.value.0)
  {
    if g == 0 then Ok((pop, s1, s2))
    else
      var prev := Generations(pop, g - 1, env, s1, s2);
      if prev.Err? then prev else Generation(prev.value.0, env, prev.value.1, prev.value.2)
  }

  /** Evolve(generations, populationSize), returning population[0] or the
      panic that ends the run. */
  function EvolveSpec(generations: int, n: int, env: Env, s1: Stream, s2: Stream): (r: Result<BoidParams, Panic>)
    requires env.Valid()
    ensures r.Ok? <==> n >= 2 || (n == 1 && generations <= 0)
    ensures n < 0 ==> r == Err(NegativeLength)
    ensures n == 0 ==> r == Err(IndexOutOfRange)
    ensures n == 1 && generations > 0 ==> r == Err(IntnNonPositive)
    ensures generations <= 0 && n >= 1 ==> r == Ok(Populate(n, s1).0[0])
    ensures r.Ok? ==> Plausible(r.value)
  {
    if n < 0 then Err(NegativeLength)
    else
      var start := Populate(n, s1);
      var last := Generations(start.0, if generations > 0 then generations else 0, env, start.1, s2);
      if last.Err? then Err(last.error)
      else if n == 0 then Err(IndexOutOfRange)
      else Ok(last.value.0[0])
  }

  // ---------------------------------------------------------------------
  // The imperative code

  /** Fitness: builds the 50 boids, runs the step loop 1000 times and
      averages the speeds. */
  method Fitness(params: BoidParams, env: Env, s1: Stream, s2: Stream) returns (fitness: Float, s1': Stream, s2': Stream)
    requires env.Valid()
    ensures (fitness, s1', s2') == FitnessSpec(params, env, s1, s2)
  {
    var boids;
    boids, s1', s2' := BuildFlock(params, env, s1, s2);
    s2' := RunSteps(boids, FITNESS_STEPS, env, s2');
    var total := SumSpeeds(boids, env.math);
    fitness := if total.NaN? then NaN else Num(total.value / FLOCK_SIZE as real);
  }

  /** The first loop of Fitness: NewBoid at a random position, then the six
      genome fields. */
  method BuildFlock(params: BoidParams, env: Env, s1: Stream, s2: Stream) returns (boids: seq<Boid>, s1': Stream, s2': Stream)
    ensures Distinct(boids) && forall b :: b in boids ==> fresh(b)
    ensures (Snap(boids), s1', s2') == InitialFlock(params, FLOCK_SIZE, env, s1, s2)
  {
    boids := [];
    s1', s2' := s1, s2;
    for i := 0 to FLOCK_SIZE
      invariant |boids| == i && Distinct(boids)
      invariant forall b :: b in boids ==> fresh(b)
      invariant (Snap(boids), s1', s2') == InitialFlock(params, i, env, s1, s2)
    {
      ghost var f, t1, t2 := Snap(boids), s1', s2';
      var b;
      b, s1', s2' := NewSeeded(params, env, s1', s2');
      InitialFlockNext(params, i, env, s1, s2, f, t1, t2);
      assert Snap(boids + [b]) == f + [b.State()];
      boids := boids + [b];
    }
  }

  /** One iteration of the first loop of Fitness: NewBoid at a random
      position, then the six genome fields. */
  method NewSeeded(params: BoidParams, env: Env, s1: Stream, s2: Stream) returns (b: Boid, s1': Stream, s2': Stream)
    ensures fresh(b) && (b.State(), s1', s2') == SeedBoid(params, env, s1, s2)
  {
    var ux := s1.Float32();
    var uy := ux.1.Float32();
    s1' := uy.1;
    var vx := s2.Float32();
    var vy := vx.1.Float32();
    s2' := vy.1;
    b := new Boid(Vec2(Mul(ux.0, env.width as real), Mul(uy.0, env.height as real)), vx.0, vy.0);
    b.separationStr := params.separationStr;
    b.cohesionStr := params.cohesionStr;
    b.alignmentStr := params.alignmentStr;
    b.closeRadius := params.closeRadius;
    b.radius := params.radius;
    b.maxVel := params.maxVel;
  }

  /** The last loop of Fitness: the sum of the speeds. */
  method SumSpeeds(boids: seq<Boid>, m: MathLib) returns (total: Float)
    requires m.Valid()
    ensures total == TotalSpeed(Snap(boids), m, |boids|)
  {
    total := Num(0.0);
    for i := 0 to |boids|
      invariant total == TotalSpeed(Snap(boids), m, i)
    {
      if total.Num? {
        if boids[i].nan {
          total := NaN;
        } else {
          total := Num(total.value + Length(boids[i].vel, m));
        }
      }
    }
  }

  /** sort.Slice on the population array: Go's insertion sort, with the
      comparator reading the fitness slice by position. */
  method SortByFitness(population: array<BoidParams>, fitnesses: seq<Float>)
    requires population.Length == |fitnesses|
    modifies population
    ensures population[..] == SortSpec(old(population[..]), fitnesses)
  {
    var i := 1;
    while i < population.Length
      invariant 1 <= i
      invariant SortFrom(population[..], fitnesses, i) == SortSpec(old(population[..]), fitnesses)
      decreases population.Length - i
    {
      SiftDownInPlace(population, fitnesses, i);
      i := i + 1;
    }
  }

  /** The inner loop of the insertion sort, from slot i down. */
  method SiftDownInPlace(population: array<BoidParams>, fitnesses: seq<Float>, i: nat)
    requires i < population.Length == |fitnesses|
    modifies population
    ensures population[..] == SiftDown(old(population[..]), fitnesses, i)
  {
    var j := i;
    while j > 0 && Greater(fitnesses[j], fitnesses[j - 1])
      invariant 0 <= j <= i
      invariant SiftDown(population[..], fitnesses, j) == SiftDown(old(population[..]), fitnesses, i)
      decreases j
    {
      ghost var a := population[..];
      population[j], population[j - 1] := population[j - 1], population[j];
      assert population[..] == SwapDown(a, j);
      j := j - 1;
    }
  }

  /** The breeding loop over slots [n/2, n) of the population array. */
  method BreedInPlace(population: array<BoidParams>, s: Stream) returns (s': Stream)
    requires population.Length / 2 > 0
    modifies population
    ensures (population[..], s') == BreedFrom(old(population[..]), population.Length / 2, population.Length / 2, s)
  {
    var half := population.Length / 2;
    s' := s;
    for i := half to population.Length
      invariant BreedFrom(population[..], i, half, s') == BreedFrom(old(population[..]), half, half, s)
    {
      ghost var before, s0 := population[..], s';
      var child;
      child, s' := BreedChild(population, half, s');
      population[i] := child;
      assert population[..] == before[i := child];
      assert BreedFrom(before, i, half, s0) == BreedFrom(population[..], i + 1, half, s');
    }
  }

  /** One iteration of the breeding loop, up to the store: two parents from
      the kept half, their midpoint and the mutation. */
  method BreedChild(population: array<BoidParams>, half: nat, s: Stream) returns (child: BoidParams, s': Stream)
    requires 0 < half <= population.Length
    ensures (child, s') == Breed(population[..], half, s)
  {
    var pick1 := s.Intn(half);
    var pick2 := pick1.1.Intn(half);
    var parent1, parent2 := population[pick1.0], population[pick2.0];
    child := BoidParams(
      (parent1.separationStr + parent2.separationStr) / 2.0,
      (parent1.cohesionStr + parent2.cohesionStr) / 2.0,
      (parent1.alignmentStr + parent2.alignmentStr) / 2.0,
      (parent1.closeRadius + parent2.closeRadius) / 2.0,
      (parent1.radius + parent2.radius) / 2.0,
      (parent1.maxVel + parent2.maxVel) / 2.0);
    var u := pick2.1.Float32();
    s' := u.1;
    if u.0 < 0.1 {
      var v := s'.Float32();
      s' := v.1;
      child := child.(separationStr := Mutate(child.separationStr, v.0 as real * 0.5 + 0.75));
    }
  }

  /** Evolve: a random population, then the generation loop, then
      population[0]. A panic ends the run with its kind. */
  method Evolve(generations: int, populationSize: int, env: Env, s1: Stream, s2: Stream) returns (r: Result<BoidParams, Panic>)
    requires env.Valid()
    ensures r == EvolveSpec(generations, populationSize, env, s1, s2)
  {
    if populationSize < 0 {
      return Err(NegativeLength);
    }
    var population := new BoidParams[populationSize];
    var t1 := FillPopulation(population, s1);
    var t2 := s2;
    var failure;
    failure, t1, t2 := RunGenerations(population, if generations > 0 then generations else 0, env, t1, t2);
    if failure.Some? {
      return Err(failure.value);
    }
    if populationSize == 0 {
      return Err(IndexOutOfRange);
    }
    return Ok(population[0]);
  }

  /** The generation loop, g times; failure is the panic that ends it, if
      a pass panics. */
  method RunGenerations(population: array<BoidParams>, g: nat, env: Env, s1: Stream, s2: Stream) returns (failure: Option<Panic>, s1': Stream, s2': Stream)
    requires env.Valid()
    modifies population
    ensures var r := Generations(old(population[..]), g, env, s1, s2);
      && (failure.None? <==> r.Ok?)
      && (r.Err? ==> failure == Some(r.error))
      && (r.Ok? ==> (population[..], s1', s2') == r.value)
  {
    s1', s2' := s1, s2;
    ghost var pop0 := population[..];
    for gen := 0 to g
      invariant Generations(pop0, gen, env, s1, s2) == Ok((population[..], s1', s2'))
    {
      ghost var before := population[..];
      failure, s1', s2' := RunGeneration(population, env, s1', s2');
      if failure.Some? {
        assert |before| == |pop0| < 2;
        return;
      }
    }
    failure := None;
  }

  /** The first loop of Evolve: one RandomParams per slot. */
  method FillPopulation(population: array<BoidParams>, s: Stream) returns (s': Stream)
    modifies population
    ensures (population[..], s') == Populate(population.Length, s)
  {
    s' := s;
    for i := 0 to population.Length
      invariant (population[..i], s') == Populate(i, s)
    {
      ghost var before := population[..i];
      var drawn := RandomParams(s');
      var p := drawn.0;
      s' := drawn.1;
      population[i] := p;
      assert population[..i + 1] == before + [p];
    }
    assert population[..] == population[..population.Length];
  }

  /** One pass of the generation loop. failure is IntnNonPositive when the
      breeding loop reaches rand.Intn(0), and IndexOutOfRange when the log
      line reads fitnesses[0] of an empty population. */
  method RunGeneration(population: array<BoidParams>, env: Env, s1: Stream, s2: Stream) returns (failure: Option<Panic>, s1': Stream, s2': Stream)
    requires env.Valid()
    modifies population
    ensures var g := Generation(old(population[..]), env, s1, s2);
      && (failure.None? <==> g.Ok?)
      && (g.Err? ==> failure == Some(g.error))
      && (g.Ok? ==> (population[..], s1', s2') == g.value)
  {
    var n := population.Length;
    var fitnesses;
    fitnesses, s1', s2' := EvaluateAll(population[..], env, s1, s2);
    SortByFitness(population, fitnesses[..]);
    if n / 2 > 0 {
      s1' := BreedInPlace(population, s1');
    } else if n > 0 {
      return Some(IntnNonPositive), s1', s2';
    }
    if fitnesses.Length == 0 {
      return Some(IndexOutOfRange), s1', s2';
    }
    failure := None;
  }

  /** The fitness loop of a generation, over the population as it stands
      (the loop does not change it). */
  method EvaluateAll(population: seq<BoidParams>, env: Env, s1: Stream, s2: Stream) returns (fitnesses: array<Float>, s1': Stream, s2': Stream)
    requires env.Valid()
    ensures fresh(fitnesses)
    ensures (fitnesses[..], s1', s2') == Evaluate(population, |population|, env, s1, s2)
  {
    fitnesses := new Float[|population|];
    s1', s2' := s1, s2;
    for i := 0 to |population|
      invariant (fitnesses[..i], s1', s2') == Evaluate(population, i, env, s1, s2)
    {
      ghost var before, t1, t2 := fitnesses[..i], s1', s2';
      s1', s2' := EvaluateOne(population, i, fitnesses, env, s1', s2');
      EvaluateNext(population, i, env, s1, s2, before, t1, t2);
      assert fitnesses[..i + 1] == before + [fitnesses[i]];
    }
    assert fitnesses[..] == fitnesses[..|population|];
  }

  /** One iteration of the fitness loop: fitnesses[i] = Fitness(params). */
  method EvaluateOne(population: seq<BoidParams>, i: nat, fitnesses: array<Float>, env: Env, s1: Stream, s2: Stream) returns (s1': Stream, s2': Stream)
    requires env.Valid() && i < |population| == fitnesses.Length
    modifies fitnesses
    ensures var x := FitnessSpec(population[i], env, s1, s2);
      fitnesses[..] == old(fitnesses[..])[i := x.0] && s1' == x.1 && s2' == x.2
  {
    var x;
    x, s1', s2' := Fitness(population[i], env, s1, s2);
    fitnesses[i] := x;
  }
}
