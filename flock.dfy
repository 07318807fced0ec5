/** The step loop of main.go and of Fitness in evol.go: each boid in turn
    runs UpdateForces and then UpdateMove before the next boid starts, so
    the update is in place, Gauss-Seidel style. */
module Flock {

  import opened Vec
  import opened Rng
  import opened Boids

  /** No boid occurs twice in a slice. */
  predicate Distinct(boids: seq<Boid>) {
    forall i, j :: 0 <= i < j < |boids| ==> boids[i] != boids[j]
  }

  /** The self mask of slot k in a slice of distinct boids. */
  function IndexMask(n: nat, k: nat): (r: seq<bool>)
    ensures |r| == n && forall i :: 0 <= i < n ==> (r[i] <==> i == k)
  {
    seq(n, i => i == k)
  }

  /** Boid k's turn in the step loop: UpdateForces against the flock as it
      stands, then UpdateMove. No other slot changes. */
  function TurnSpec(flock: seq<BoidState>, k: nat, env: Env, s: Stream): (r: (seq<BoidState>, Stream))
    requires env.Valid() && k < |flock|
    ensures |r.0| == |flock|
    ensures forall j :: 0 <= j < |flock| && j != k ==> r.0[j] == flock[j]
  {
    var turn := UpdateForcesSpec(flock[k], flock, IndexMask(|flock|, k), env, s);
    (flock[k := Move(turn.0, env.width, env.height)], turn.1)
  }

  /** The flock after the step loop has updated its first k boids. */
  function Stages(flock: seq<BoidState>, k: nat, env: Env, s: Stream): (r: (seq<BoidState>, Stream))
    requires env.Valid() && k <= |flock|
    ensures |r.0| == |flock|
    ensures forall j :: k <= j < |flock| ==> r.0[j] == flock[j]
  {
    if k == 0 then (flock, s)
    else
      var prev := Stages(flock, k - 1, env, s);
      TurnSpec(prev.0, k - 1, env, prev.1)
  }

  /** One pass of the step loop over the whole flock. */
  function StepSpec(flock: seq<BoidState>, env: Env, s: Stream): (r: (seq<BoidState>, Stream))
    requires env.Valid()
    ensures |r.0| == |flock|
  {
    Stages(flock, |flock|, env, s)
  }

  /** Once boid j has had its turn, later turns leave it alone. */
  lemma {:induction false} UpdatedStaysPut(flock: seq<BoidState>, k: nat, j: nat, env: Env, s: Stream)
    requires env.Valid() && j < k <= |flock|
    ensures Stages(flock, k, env, s).0[j] == Stages(flock, j + 1, env, s).0[j]
  {
    hide TurnSpec;
    if k > j + 1 {
      UpdatedStaysPut(flock, k - 1, j, env, s);
      var prev := Stages(flock, k - 1, env, s);
      assert Stages(flock, k, env, s) == TurnSpec(prev.0, k - 1, env, prev.1);
    }
  }

  /** Boid k runs UpdateForces against a flock in which the boids before it
      already hold their state at the end of this step and the boids after
      it still hold their state from before the step. */
  lemma StepOrder(flock: seq<BoidState>, k: nat, env: Env, s: Stream)
    requires env.Valid() && k < |flock|
    ensures var seen, after := Stages(flock, k, env, s).0, StepSpec(flock, env, s).0;
      && (forall j :: 0 <= j < k ==> seen[j] == after[j])
      && (forall j :: k <= j < |flock| ==> seen[j] == flock[j])
  {
    forall j | 0 <= j < k
      ensures Stages(flock, k, env, s).0[j] == StepSpec(flock, env, s).0[j]
    {
      UpdatedStaysPut(flock, k, j, env, s);
      UpdatedStaysPut(flock, |flock|, j, env, s);
    }
  }

  /** The state boid j ends the step with: its own turn, forces then move. */
  lemma TurnResult(flock: seq<BoidState>, j: nat, env: Env, s: Stream)
    requires env.Valid() && j < |flock|
    ensures var (f, t) := Stages(flock, j, env, s);
      StepSpec(flock, env, s).0[j] == Move(UpdateForcesSpec(f[j], f, IndexMask(|f|, j), env, t).0, env.width, env.height)
  {
    UpdatedStaysPut(flock, |flock|, j, env, s);
  }

  /** After a step every boid has been initialised, and every boid whose
      position is not NaN lies within the screen. */
  lemma StepKeepsInBounds(flock: seq<BoidState>, env: Env, s: Stream)
    requires env.Valid()
    ensures forall j :: 0 <= j < |flock| ==> StepSpec(flock, env, s).0[j].initialized
    ensures forall j :: 0 <= j < |flock| ==> InBounds(StepSpec(flock, env, s).0[j], env)
  {
    forall j | 0 <= j < |flock|
      ensures StepSpec(flock, env, s).0[j].initialized && InBounds(StepSpec(flock, env, s).0[j], env)
    {
      TurnResult(flock, j, env, s);
    }
  }

  predicate InBounds(b: BoidState, env: Env) {
    !b.nan ==> 0.0 <= b.pos.x <= env.width as real && 0.0 <= b.pos.y <= env.height as real
  }

  /** A boid that has gone NaN stays exactly as it is, and draws nothing. */
  lemma {:induction false} NaNBoidsFrozen(flock: seq<BoidState>, k: nat, env: Env, s: Stream)
    requires env.Valid() && k <= |flock|
    requires forall j :: 0 <= j < |flock| && flock[j].nan ==> flock[j].initialized
    ensures forall j :: 0 <= j < |flock| && flock[j].nan ==> Stages(flock, k, env, s).0[j] == flock[j]
  {
    hide UpdateForcesSpec;
    if k > 0 {
      NaNBoidsFrozen(flock, k - 1, env, s);
      var prev := Stages(flock, k - 1, env, s);
      var b := prev.0[k - 1];
      assert b == flock[k - 1];
      if b.nan {
        assert UpdateForcesSpec(b, prev.0, IndexMask(|flock|, k - 1), env, prev.1).0 == b;
        assert Stages(flock, k, env, s).0 == prev.0;
      }
    }
  }

  /** n steps of the simulation. */
  function Run(flock: seq<BoidState>, steps: nat, env: Env, s: Stream): (r: (seq<BoidState>, Stream))
    requires env.Valid()
    ensures |r.0| == |flock|
  {
    if steps == 0 then (flock, s)
    else
      var (f, t) := Run(flock, steps - 1, env, s);
      StepSpec(f, env, t)
  }

  /** After at least one step, every boid is initialised and within the
      screen unless it has gone NaN. */
  lemma RunKeepsInBounds(flock: seq<BoidState>, steps: nat, env: Env, s: Stream)
    requires env.Valid() && steps > 0
    ensures forall j :: 0 <= j < |flock| ==> Run(flock, steps, env, s).0[j].initialized
    ensures forall j :: 0 <= j < |flock| ==> InBounds(Run(flock, steps, env, s).0[j], env)
  {
    var (f, t) := Run(flock, steps - 1, env, s);
    StepKeepsInBounds(f, env, t);
  }

  /** A step of a flock in which no boid has been initialised does not
      depend on the MaxVel and strengths the boids were created with. */
  lemma StepForgetsGenome(f: seq<BoidState>, g: seq<BoidState>, env: Env, s: Stream)
    requires env.Valid() && |f| == |g|
    requires forall i :: 0 <= i < |f| ==> SameBeforeInit(f[i], g[i])
    ensures StepSpec(f, env, s) == StepSpec(g, env, s)
  {
    StagesForgetGenome(f, g, |f|, env, s);
    var a, b := Stages(f, |f|, env, s), Stages(g, |g|, env, s);
    assert AgreeUpTo(a.0, b.0, f, g, |f|);
    assert a.0 == b.0;
  }

  lemma {:induction false} StagesForgetGenome(f: seq<BoidState>, g: seq<BoidState>, k: nat, env: Env, s: Stream)
    requires env.Valid() && |f| == |g| && k <= |f|
    requires forall i :: 0 <= i < |f| ==> SameBeforeInit(f[i], g[i])
    ensures Stages(f, k, env, s).1 == Stages(g, k, env, s).1
    ensures AgreeUpTo(Stages(f, k, env, s).0, Stages(g, k, env, s).0, f, g, k)
  {
    hide TurnSpec;
    if k > 0 {
      StagesForgetGenome(f, g, k - 1, env, s);
      var p, q := Stages(f, k - 1, env, s), Stages(g, k - 1, env, s);
      TurnKeepsAgreement(p.0, q.0, f, g, k, env, p.1);
    }
  }

  /** ff and gg, the flocks f and g after some turns, agree on their first k
      boids and still hold f's and g's boids from k on. */
  predicate AgreeUpTo(ff: seq<BoidState>, gg: seq<BoidState>, f: seq<BoidState>, g: seq<BoidState>, k: nat) {
    && |ff| == |gg| == |f| == |g| && k <= |f|
    && (forall j :: 0 <= j < k ==> ff[j] == gg[j])
    && (forall j :: k <= j < |f| ==> ff[j] == f[j] && gg[j] == g[j])
  }

  /** The turn of boid k - 1 extends the agreement of two flocks to their
      first k boids. */
  lemma TurnKeepsAgreement(ff: seq<BoidState>, gg: seq<BoidState>, f: seq<BoidState>, g: seq<BoidState>, k: nat, env: Env, t: Stream)
    requires env.Valid() && |f| == |g| && 0 < k <= |f|
    requires forall i :: 0 <= i < |f| ==> SameBeforeInit(f[i], g[i])
    requires AgreeUpTo(ff, gg, f, g, k - 1)
    ensures TurnSpec(ff, k - 1, env, t).1 == TurnSpec(gg, k - 1, env, t).1
    ensures AgreeUpTo(TurnSpec(ff, k - 1, env, t).0, TurnSpec(gg, k - 1, env, t).0, f, g, k)
  {
    hide TurnSpec;
    forall i | 0 <= i < |ff|
      ensures SameMotion(ff[i], gg[i])
    {
      if i >= k - 1 {
        assert ff[i] == f[i] && gg[i] == g[i];
      }
    }
    TurnForgetsGenome(ff, gg, k - 1, env, t);
  }

  /** Boid k's first turn gives the same result, and leaves the stream in the
      same place, in two flocks that differ only in the MaxVel and strengths
      of boids not yet initialised. */
  lemma TurnForgetsGenome(f: seq<BoidState>, g: seq<BoidState>, k: nat, env: Env, s: Stream)
    requires env.Valid() && |f| == |g| && k < |f|
    requires SameBeforeInit(f[k], g[k])
    requires forall i :: 0 <= i < |f| ==> SameMotion(f[i], g[i])
    ensures TurnSpec(f, k, env, s).1 == TurnSpec(g, k, env, s).1
    ensures forall j :: 0 <= j < |f| && f[j] == g[j] ==> TurnSpec(f, k, env, s).0[j] == TurnSpec(g, k, env, s).0[j]
    ensures TurnSpec(f, k, env, s).0[k] == TurnSpec(g, k, env, s).0[k]
  {
    FirstUpdateForgetsGenome(f[k], g[k], f, g, IndexMask(|f|, k), env, s);
  }

  /** Runs of at least one step agree once their first steps agree. */
  lemma {:induction false} RunAgreesAfterFirstStep(f: seq<BoidState>, g: seq<BoidState>, steps: nat, env: Env, s: Stream)
    requires env.Valid() && steps > 0
    requires StepSpec(f, env, s) == StepSpec(g, env, s)
    ensures Run(f, steps, env, s) == Run(g, steps, env, s)
  {
    if steps > 1 {
      RunAgreesAfterFirstStep(f, g, steps - 1, env, s);
    }
  }

  /** The step loop over a slice of distinct boids. */
  method Step(boids: seq<Boid>, env: Env, s: Stream) returns (s': Stream)
    requires env.Valid() && Distinct(boids)
    modifies set b | b in boids
    ensures (Snap(boids), s') == StepSpec(old(Snap(boids)), env, s)
  {
    hide TurnSpec;
    s' := s;
    ghost var start := Snap(boids);
    for k := 0 to |boids|
      invariant (Snap(boids), s') == Stages(start, k, env, s)
    {
      s' := Turn(boids, k, env, s');
    }
  }

  /** Boid k's turn in the step loop: UpdateForces, then UpdateMove. */
  method Turn(boids: seq<Boid>, k: nat, env: Env, s: Stream) returns (s': Stream)
    requires env.Valid() && Distinct(boids) && k < |boids|
    modifies boids[k]
    ensures (Snap(boids), s') == TurnSpec(old(Snap(boids)), k, env, s)
  {
    ghost var before := Snap(boids);
    assert SelfMask(boids, boids[k]) == IndexMask(|boids|, k);
    s' := boids[k].UpdateForces(boids, env, s);
    boids[k].UpdateMove(env.width, env.height);
    forall j | 0 <= j < |boids| && j != k
      ensures boids[j].State() == before[j]
    {
      assert boids[j] != boids[k];
    }
    assert Snap(boids) == before[k := boids[k].State()];
  }

  /** The outer loop of Fitness: steps passes of the step loop. */
  method RunSteps(boids: seq<Boid>, steps: nat, env: Env, s: Stream) returns (s': Stream)
    requires env.Valid() && Distinct(boids)
    modifies set b | b in boids
    ensures (Snap(boids), s') == Run(old(Snap(boids)), steps, env, s)
  {
    s' := s;
    for step := 0 to steps
      invariant (Snap(boids), s') == Run(old(Snap(boids)), step, env, s)
    {
      s' := Step(boids, env, s');
    }
  }
}
