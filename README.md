# Boids and their genetic parameter search, in Dafny

A model of the flocking simulation of boids-go and of the genetic algorithm
that searches for boid parameters by using the simulation as its fitness.

- `vec.dfy` (module `Vec`): the raylib vector operations the boids use, over
  `real`. Square root, cosine and sine come in as a `MathLib` value whose
  `Valid` predicate gives the only facts used: `sqrt(x) >= 0`,
  `sqrt(x)*sqrt(x) == x` for `x >= 0`, and `cos(a)^2 + sin(a)^2 == 1`.
  `rotateVector` is `Vec.RotateVector`.
- `rng.dfy` (module `Rng`): a `math/rand` generator as a `Stream`, an infinite
  sequence of draws in `[0, 1)` and the number of draws used so far.
  `Float32` uses one draw. `Intn(n)` uses one draw and gives it scaled to
  `[0, n)` and rounded down. `main.go` uses `math/rand/v2` and `evol.go` uses
  `math/rand`. The calls through `math/rand` and through `math/rand/v2` are
  threaded as two streams of arbitrary draws. In Go both packages' top-level
  functions use one runtime generator; in any run the draws made through
  each package still form their own sequence in program order, so
  splitting them by package loses nothing.
- `boids.dfy` (module `Boids`): the `Boid` of `main.go`. `BoidState` is the
  boid as a value. `NewBoidState`, `Move`, `LazyInit`, `Scan`, `ApplyForces`,
  `LimitSpeed` and `UpdateForcesSpec` are the functions that specify it. The
  class `Boids.Boid` has the same fields and updates them in place, in
  `UpdateMove` and `UpdateForces`. Each of its methods is proved equal to the
  function that specifies it. The `sync.Once` guard is the field
  `initialized`. The modifier globals `sepMod`, `cohMod` and `alMod` and the
  screen size are inputs (`Env`). `cohMod` is an `int`, as in Go.
- `flock.dfy` (module `Flock`): the step loop. Each boid in turn runs
  `UpdateForces` and then `UpdateMove` before the next boid starts. The
  update is therefore in place, Gauss-Seidel style. `Flock.Step` runs the loop
  over a slice of distinct `Boid` objects. `Flock.StepSpec` is the same loop
  on values.
- `evol.dfy` (module `Evol`): `BoidParams`, `RandomParams`, `Fitness` (50
  boids, 1000 steps, mean speed) and `Evolve`. `Evolve` keeps the population
  in an `array`. It sorts the array in place with Go's insertion sort, keeps
  slots `[0, n/2)` and overwrites slots `[n/2, n)` with midpoint children.
  The run-time panics it can reach are results (`Panic`). These are a negative
  `make` length, `rand.Intn(0)` when the population has one genome, and an
  index into an empty population: `fitnesses[0]` (evol.go:101) when there is
  at least one generation, `population[0]` (evol.go:105) otherwise.

## Floating point and NaN

Arithmetic is over `real`. Two divisions in `UpdateForces` can divide by
zero:

- the separation term divides by the distance to a boid at the same position;
- each speed rescale divides by the speed of a stopped boid.

In Go, either one turns the boid's velocity into NaN. Every later comparison
with NaN is false, so from then on the boid keeps a NaN velocity and
position. Every other boid's scan ignores it, and the `Fitness` mean becomes
NaN. The model records this as the flag `BoidState.nan` and as the value
`Evol.Float.NaN`. The comparator of `sort.Slice` is false whenever one side is
NaN, as in Go (`Evol.Greater`).

## Behaviour reproduced as written

Some of the code's own comments promise more than the code does: a turn
"between -90 and 90 degrees" (main.go:143), a population sorted "by fitness"
whose "top half" is kept (evol.go:73, evol.go:78), and "similar mutations for
other parameters" (evol.go:94). In each case below the model follows the code.

- Wrap bounds: the position wraps into the closed box `[0, W] x [0, H]`, not
  into `[0, W)`. A coordinate below 0 is set to exactly `W` (main.go:70-72).
- Speed limit: each rescale multiplies the unit vector by `limit/speed`, so
  it divides by the speed twice. The minimum branch leaves speed `1/speed`,
  and the maximum branch leaves `MaxVel/speed`. A boid can leave the limit
  slower than 1 (`Boids.LimitSpeedCanEndBelowMinimum`), and a boid with no
  neighbour can have its speed changed.
- The sort comparator reads `fitnesses[i]` by slot. The swaps move genomes
  but never move fitnesses, so the population is not ordered by fitness, and
  the kept half need not be the fittest half (`Evol.SortKeepsWrongHalf`). The
  fitness that `Evolve` logs as best is `fitnesses[0]`, which need not be
  the best.
- Mutation touches only `SeparationStr`.
- In `Fitness`, the first `UpdateForces` of each boid overwrites
  `SeparationStr`, `CohesionStr`, `AlignmentStr` and `MaxVel`. Only
  `CloseRadius` and `Radius` of the genome affect the fitness
  (`Evol.FitnessDependsOnlyOnRadii`).
- The random turn is at most `PI * 0.0275` radians either way (about 5
  degrees), not 90 degrees as its comment says.

## Model

| member | source | states |
|---|---|---|
| `Vec.RotateVector` | main.go:223-230 | Rotation by an angle whose cosine and sine satisfy `c*c + s*s == 1` keeps the squared length and the length. With cosine 1 and sine 0 it is the identity. |
| `Boids.NewBoidState` | main.go:36-49 | A new boid is at the given position, with velocity components in `[-20, 20)`, `MaxVel` 10, `CloseRadius` 20, `Radius` 30 and strengths `1/1.25`, `1/6` and `1/0.75`. Its once-guard has not fired. |
| `Boids.Boid.constructor` | main.go:36-49 | The object's fields are those of `NewBoidState`. |
| `Boids.WrapAxis` | main.go:66-80 | One axis of the bounds check. The result is in `[0, bound]`. A coordinate already in `[0, bound]` is kept, one above `bound` becomes 0, and one below 0 becomes `bound`. |
| `Boids.Move` | main.go:61-81 | After the move, a non-NaN boid lies in `[0, W] x [0, H]` for any start. Each coordinate of `Pos+Vel` already in range is kept exactly, the axes are wrapped independently, and every other field, including `Vel`, is unchanged. |
| `Boids.Boid.UpdateMove` | main.go:61-81 | Updates the position in place to `Move` of the old state. |
| `Boids.LazyCohesionAsWritten` | main.go:92 | `1.0 / cohMod` on Go ints truncates, so the strength is 0, 1 or -1. |
| `Boids.LazyCohesion` | main.go:92 | The corrected strength is the reciprocal of `cohMod`. |
| `Boids.CohesionStrengthFinding` | main.go:57-58 | With the initial `cohMod` 6, the code as written sets 0 where `1/6` is meant. The two agree only for `cohMod` 1 or -1. |
| `Boids.LazyInit` | main.go:88-94 | On the first call the block sets `MaxVel` 5, `SeparationStr*sepMod == 1`, the corrected `CohesionStr*cohMod == 1` (see Findings; as written it is 0) and `AlignmentStr*alMod == 1`, uses two draws for a velocity in `[-1, 1)` on each axis, and sets the guard. On a later call it changes nothing and draws nothing. Position and radii are never touched. |
| `Boids.Boid.Initialise` | main.go:88-94 | Updates the object in place to `LazyInit` of the old state, with the corrected cohesion strength. |
| `Boids.Scan` | main.go:96-124 | The scan over the first n slots, skipping the masked self slot: separation from boids within `CloseRadius`, cohesion and alignment sums and the count from those within `Radius`. The count is at most n, and the separation is NaN exactly when some other non-NaN boid is at distance 0 with `CloseRadius > 0` (Go's division by zero). |
| `Boids.NeighbourCount` | main.go:101-123 | `neighborCount` equals the number of slots, self excluded, whose boid is strictly within `Radius`. |
| `Boids.VisitCount` | main.go:106-123 | One loop iteration adds one to the count exactly when the other boid is strictly within `Radius`. |
| `Boids.SeparationOnlyClose` | main.go:106-113 | The separation sum depends only on the boids strictly within `CloseRadius`. |
| `Boids.SumsOnlyWithinRadius` | main.go:115-123 | The alignment sum, the cohesion sum and the count depend only on the boids strictly within `Radius`. |
| `Boids.ScanReadsMotionOnly` | main.go:101-124 | The scan reads only the other boids' positions, velocities and NaN state. |
| `Boids.ScanIgnoresSelf` | main.go:101-104 | The scan never reads the slots that hold the scanning boid itself. |
| `Boids.Boid.ScanNeighbours` | main.go:96-124 | The accumulation loop computes exactly the sums and count of `Scan` over the whole slice. |
| `Boids.RandomAngle` | main.go:143 | The random turn lies in `[-PI*0.0275, PI*0.0275)`. |
| `Boids.ApplyForces` | main.go:126-145 | With no neighbour the boid and the stream are unchanged. Otherwise exactly one draw is used, only `Vel` (or the NaN state) changes, and the boid becomes NaN exactly when the separation sum is NaN. |
| `Boids.Boid.ApplyForcesInPlace` | main.go:126-145 | Updates the object in place to `ApplyForces` of the old state. |
| `Boids.LimitSpeed` | main.go:147-158 | Fails (NaN) exactly for the zero velocity. A speed already in `[1, MaxVel]` leaves the velocity unchanged. |
| `Boids.LimitSpeedKeepsDirection` | main.go:149-158 | For a non-zero velocity and positive `MaxVel`, the result is a positive multiple of the input, so the direction is kept. |
| `Boids.LimitSpeedLengths` | main.go:150-158 | As written, the minimum branch leaves speed `1/speed`. The maximum branch leaves `MaxVel` divided by the speed it sees, on its own or after the minimum branch. |
| `Boids.LimitSpeedBounds` | main.go:147-158 | After the limit, the speed is positive and at most `MaxVel`. |
| `Boids.LimitSpeedCanEndBelowMinimum` | main.go:155-158 | A velocity of speed 10 under `MaxVel` 5 leaves with speed 0.5, below the minimum of 1. |
| `Boids.Boid.LimitSpeedInPlace` | main.go:147-158 | Updates `Vel` in place to `LimitSpeed` of the old velocity, or marks the boid NaN when the velocity is zero. |
| `Boids.UpdateForcesSpec` | main.go:86-160 | After `UpdateForces` the guard has fired, and position and radii are unchanged. On an initialised boid only `Vel` and the NaN state change. A NaN boid stays NaN, and an initialised NaN boid is left as it is with nothing drawn. |
| `Boids.Boid.UpdateForces` | main.go:86-160 | Updates the object in place to `UpdateForcesSpec` of its old state, scanning the slice as it was when the call began, with the slots that hold the boid itself marked. |
| `Boids.UpdateForcesSpeedBound` | main.go:147-158 | After `UpdateForces`, a non-NaN boid with positive `MaxVel` moves at a speed in `(0, MaxVel]`. |
| `Boids.NoNeighboursNoForces` | main.go:126-158 | For a non-NaN boid with no neighbour, no force and no random turn is applied. The only draws are the lazy initialisation's two on the first call. The velocity after initialisation reaches the limit unchanged, and the boid becomes NaN exactly when that velocity is zero. On an initialised boid no draw is made and its own velocity goes to the limit. |
| `Boids.InitialisesOnce` | main.go:88-94 | A second `UpdateForces` keeps the `MaxVel` and strengths fixed by the first one, so the initialisation never repeats. |
| `Boids.FirstUpdateForgetsGenome` | main.go:86-94 | On a boid's first call, the result does not depend on the `MaxVel` and strengths the boid was created with, nor on those of the other boids. |
| `Flock.TurnSpec` | main.go:194-197 | Boid k's turn (forces, then move) changes only slot k. |
| `Flock.Stages` | evol.go:46-49 | After k turns, the boids from slot k on are still as they were before the step. |
| `Flock.StepSpec` | main.go:194-197 | A step keeps the number of boids. |
| `Flock.UpdatedStaysPut` | evol.go:46-49 | Once boid j has had its turn, later turns in the same step leave it alone. |
| `Flock.StepOrder` | evol.go:46-49 | Boid k computes its forces against a flock in which boids `< k` already hold their state at the end of this step and boids `> k` still hold their state from before it. |
| `Flock.TurnResult` | main.go:194-197 | Boid j ends the step with the result of its own turn: `UpdateForces` against the partly updated flock, then `UpdateMove`. |
| `Flock.StepKeepsInBounds` | main.go:194-197 | After a step, every boid is initialised, and every non-NaN boid lies within the screen. |
| `Flock.NaNBoidsFrozen` | evol.go:46-49 | A boid that has become NaN stays exactly as it is for the rest of the step. |
| `Flock.Run` | evol.go:45-50 | A number of steps keeps the number of boids. |
| `Flock.RunKeepsInBounds` | evol.go:45-50 | After at least one step, every boid is initialised and within the screen unless it is NaN. |
| `Flock.StepForgetsGenome` | main.go:88-94 | A step of a flock in which no boid is yet initialised does not depend on the boids' `MaxVel` and strengths. |
| `Flock.TurnForgetsGenome` | main.go:86-94 | Boid k's first turn gives the same boid and stream in two flocks whose boids move alike and whose boid k differs only in `MaxVel` and strengths. The other slots are untouched. |
| `Flock.TurnKeepsAgreement` | main.go:194-197 | If two flocks agree on their first k-1 boids and still hold the original, not yet initialised boids from there on, turn k-1 extends the agreement to k boids and leaves the streams equal. |
| `Flock.StagesForgetGenome` | main.go:194-197 | After any number k of turns, two such flocks agree on their first k boids and have drawn the same numbers. |
| `Flock.RunAgreesAfterFirstStep` | evol.go:45-50 | Two runs whose first steps agree agree after any positive number of steps. |
| `Flock.Step` | main.go:194-197 | The in-place step loop over distinct boid objects leaves them in the states `StepSpec` gives. |
| `Flock.Turn` | main.go:195-196 | One iteration of the step loop updates boid k in place as `TurnSpec` says, and leaves every other object unchanged. |
| `Flock.RunSteps` | evol.go:45-50 | The outer loop of `Fitness` leaves the boids in the states `Run` gives. |
| `Rng.Stream.Intn` | evol.go:80-81 | A parent index lies in `[0, n)` and uses exactly one draw. |
| `Evol.RandomParams` | evol.go:20-29 | Using six draws, the three strengths lie in `[0, 0.1)`, `CloseRadius` in `[10, 40)`, `Radius` in `[30, 80)` and `MaxVel` in `[1, 5)`. |
| `Evol.SeedBoid` | evol.go:34-42 | A boid that `Fitness` creates carries the six genome fields, is uninitialised and lies within the screen. It uses two position draws from `math/rand` and two velocity draws from `math/rand/v2`. |
| `Evol.InitialFlock` | evol.go:33-42 | The first loop of `Fitness` creates n boids, using `2n` draws from each package's stream. |
| `Evol.InitialFlockFields` | evol.go:33-42 | Every boid of the initial flock is uninitialised, carries the genome and lies within the screen. |
| `Evol.TotalSpeed` | evol.go:53-56 | The sum of speeds is NaN exactly when some boid is NaN, and otherwise is `>= 0`. |
| `Evol.FitnessSpec` | evol.go:31-58 | The fitness is `>= 0` unless it is NaN, and it is NaN exactly when some boid of the final flock is NaN. |
| `Evol.FitnessDependsOnlyOnRadii` | evol.go:36-47 | Two genomes with the same `CloseRadius` and `Radius` have the same fitness, given the same random draws. |
| `Evol.InitialFlocksAgree` | evol.go:33-42 | Two genomes with the same radii give initial flocks that differ only in `MaxVel` and strengths, and use the same draws. |
| `Evol.SiftDown` | evol.go:74-76 | The inner loop of the insertion sort only permutes the population. |
| `Evol.SortSpec` | evol.go:74-76 | The sort keeps the length and the multiset of the population. |
| `Evol.SortKeepsWrongHalf` | evol.go:74-76 | With fitnesses 1, 3, 2, 0 the sort only swaps the first two genomes. The kept half then holds the genomes of fitness 3 and 1 and drops the one of fitness 2. |
| `Evol.Breed` | evol.go:80-93 | A child's fields are the midpoints of two parents from the kept half. Only `SeparationStr` may be scaled, by a factor in `[0.75, 1.25)`. It uses three draws, or four when the mutation draw is `< 0.1`. When that draw is `>= 0.1` the child is the exact midpoint. |
| `Evol.BreedFrom` | evol.go:79-98 | The breeding loop keeps the length and every slot before its start. Every later slot receives a child of two genomes of the kept half `[0, n/2)` as it was before the loop. |
| `Evol.OffspringPlausible` | evol.go:82-93 | A child of two `Plausible` genomes is `Plausible`: its fields stay within `RandomParams`'s ranges, except `SeparationStr`, which a mutation can push above 0.1 and which stays only `>= 0`. |
| `Evol.BreedKeepsPlausible` | evol.go:79-95 | Breeding keeps every genome within the `Plausible` ranges (those of `RandomParams`, except that `SeparationStr` is only `>= 0`). |
| `Evol.PermutationKeepsPlausible` | evol.go:74-76 | Reordering the population, as the sort does, keeps every genome within the `Plausible` ranges (those of `RandomParams`, except that `SeparationStr` is only `>= 0`). |
| `Evol.Populate` | evol.go:61-64 | The initial population has n genomes, each within the exact ranges of `RandomParams` (`Drawn`: the three strengths in `[0, 0.1)`, `CloseRadius` in `[10, 40)`, `Radius` in `[30, 80)`, `MaxVel` in `[1, 5)`), and uses `6n` draws. |
| `Evol.Evaluate` | evol.go:68-71 | The fitness loop produces one fitness per genome. |
| `Evol.Generation` | evol.go:66-102 | A generation succeeds exactly when the population has at least two genomes. With one genome it panics at `rand.Intn(0)`; with none it panics at `fitnesses[0]`. Otherwise it keeps the population size and keeps genomes within the `Plausible` ranges (those of `RandomParams`, except that `SeparationStr` is only `>= 0`). |
| `Evol.GenerationKeepsElites` | evol.go:73-98 | With at least two genomes, the sort only permutes the population. The generation keeps slots `[0, n/2)` exactly as the sort left them, and fills `[n/2, n)` with children of that kept half only. |
| `Evol.Generations` | evol.go:66-102 | The generation loop panics exactly when it runs at least once on a population of fewer than two genomes: at `fitnesses[0]` for none, at `rand.Intn(0)` for one. It keeps the size, and keeps genomes within the `Plausible` ranges (those of `RandomParams`, except that `SeparationStr` is only `>= 0`). |
| `Evol.EvolveSpec` | evol.go:60-106 | `Evolve` returns a genome exactly when `n >= 2`, or when `n == 1` and there are no generations. A negative size panics in `make`, a size of 0 panics at `fitnesses[0]` (evol.go:101) when there are generations and at `population[0]` (evol.go:105) otherwise, and a size of 1 with generations panics in `rand.Intn(0)`. With no generations it returns the initial `population[0]`. Any returned genome is within the `Plausible` ranges (those of `RandomParams`, except that `SeparationStr` is only `>= 0`). |
| `Evol.Fitness` | evol.go:31-58 | Building the flock, the 1000 steps and the averaging compute `FitnessSpec`. |
| `Evol.BuildFlock` | evol.go:33-42 | The first loop of `Fitness` creates 50 fresh, distinct boid objects in the states `InitialFlock` gives. |
| `Evol.NewSeeded` | evol.go:35-41 | One fresh boid object in the state `SeedBoid` gives. |
| `Evol.SumSpeeds` | evol.go:53-56 | The summing loop computes `TotalSpeed`. |
| `Evol.SortByFitness` | evol.go:74-76 | Sorting the array in place leaves it equal to `SortSpec` of its old contents. |
| `Evol.SiftDownInPlace` | evol.go:74-76 | The inner swap loop leaves the array equal to `SiftDown` of its old contents. |
| `Evol.BreedInPlace` | evol.go:79-98 | The breeding loop overwrites the array as `BreedFrom` says, so slots `[0, n/2)` are unchanged. |
| `Evol.BreedChild` | evol.go:80-93 | One child, as `Breed` gives it. |
| `Evol.Evolve` | evol.go:60-106 | The imperative `Evolve` returns what `EvolveSpec` gives, panics included. |
| `Evol.RunGenerations` | evol.go:66-102 | The generation loop over the array agrees with `Generations`, and stops at the first panic, which it reports. |
| `Evol.FillPopulation` | evol.go:61-64 | The first loop fills the array as `Populate` says. |
| `Evol.RunGeneration` | evol.go:67-102 | One pass over the array (evaluate, sort in place, breed in place, read `fitnesses[0]`) agrees with `Generation`, panics included. |
| `Evol.EvaluateAll` | evol.go:68-71 | The fitness loop fills a fresh array as `Evaluate` says. |
| `Evol.EvaluateOne` | evol.go:70 | Stores the fitness of genome i in slot i and leaves every other slot as it was. |

## Findings

| source | as written | input that shows it | evidently intended | confidence | as-written member | corrected member |
|---|---|---|---|---|---|---|
| main.go:92 | `cohMod` takes type `int` from the untyped constant 6, so `1.0 / cohMod` is integer division and sets `CohesionStr` to 0 | `cohMod == 6`, the initial value: as written 0, intended `1/6` (as `NewBoid` computes from the constant) | `CohesionStr == 1/cohMod` | high; not executed | `Boids.LazyCohesionAsWritten` (with `Boids.CohesionStrengthFinding`) | `Boids.LazyCohesion`, used by `Boids.LazyInit` and `Boids.Boid.Initialise`, so the simulation runs the intended strength |

## Left out

- Window, drawing and the event loop (`initRl`, `main`'s render loop, `DrawCircleV`, `lerpColor`). They are presentation only.
- Boids.LazyInit: sets the corrected cohesion strength `1/cohMod` (`Boids.LazyCohesion`), not the as-written 0 of main.go:92. Every model of a step, a run, `Fitness` and `Evolve` therefore has a cohesion force of `(mean - pos) / cohMod` where the program as written has none. The as-written strength is `Boids.LazyCohesionAsWritten`.
- Boids.Boid.Initialise: stores the same corrected cohesion strength as `Boids.LazyInit`, not the as-written 0.
- The keyboard tweaks of `sepMod`, `cohMod` and `alMod` (main.go:167-189). Their current values are the input `Boids.Tuning`. The `Boid` field `fov` (main.go:31), which `NewBoid` sets but nothing reads, and the vectors `Cohesion`, `Separation` and `Alignment` (main.go:17-19), which nothing reads or writes, are not modelled.
- `log.Printf` and `log.Println` output and the `main_` entry point (evol.go:97, evol.go:101, evol.go:108-113).
- float32 rounding. Arithmetic is over `real`. Overflow to infinity is not modelled.
- Boids.Env.Valid: requires `sepMod` and `alMod` to be non-zero, where Go would compute an infinite strength. It also requires `cohMod` to be non-zero, where Go would panic on integer division by zero. Neither case is modelled.
- `math.Sqrt`, `math.Cos` and `math.Sin` are modelled only through the facts in `Vec.MathLib.Valid`. `math.Pi` is a 64-digit decimal.
- The generators of `math/rand` and `math/rand/v2`. Draws are an arbitrary stream of values in `[0, 1)`.
- Rng.Stream.Intn: gives `floor(u * n)` for one draw `u`, which is not Go's exact algorithm (that algorithm may also use more than one draw). Only the range `[0, n)` is relied on.
- Evol.SortSpec: models `sort.Slice` as Go's insertion sort, which is what `pdqsort` runs for slices of at most 12 elements. For larger populations (`main_` uses 100), Go's pattern-defeating quicksort places the genomes in a different order. For those sizes the model's order is not Go's, and only the permutation property carries over.
- `sync.Once` is a boolean first-call flag (`initialized`). Its concurrency guarantees are not modelled, because the program calls it from one goroutine.
- The screen size is an `Env` input of natural numbers (`GetScreenWidth` and `GetScreenHeight`). It is fixed during a step.
