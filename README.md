# unary-toolkit in Dafny

A model of the core of `unary-toolkit`: finite-difference derivative estimators and the Newton
root-finders built on them. It covers three families:

- `Derivator` drives `NewtonSolver`. Its function may return a number or an object of numeric
  fields, and it differentiates field by field.
- `UnaryDerivator` drives `NewtonUnarySolver`. Its function is real-valued, and the solver keeps
  its own copy of it in sync with the derivator.
- `LinearDerivator` is a central-difference estimator. `NewtonLinearSolver` is self-contained
  and computes its own central gradient.

All arithmetic is over Dafny's exact `real`. The modules are:

- `JsValues` (`js_values.dfy`): JavaScript arguments as the setters inspect them, that is,
  `typeof`, truthiness and `||` defaults. It also holds the thrown errors, the validation shared
  by every numeric setter, and the default constants 1e-3, 1e-7 and 50.
- `DifferenceQuotients` (`difference_quotients.dfy`): the forward, backward and central schemes,
  and the `'right'`/`'left'`/`'both'` direction setter.
- `Derivators`, `UnaryDerivators`, `LinearDerivators`: one class per derivator. Each setter
  field is a class field. Each setter is a method that returns `Pass` or `Fail(error)` and
  leaves the state unchanged on failure. Each throwing JavaScript constructor is a static
  `Create` that runs the setters in the source's order and returns `Result<Class>`. `get(x)`
  is a function of the fields, so it cannot change them.
- `NewtonIteration` (`newton_iteration.dfy`): the solve loop as one function, `Iterate`. Its
  parameters are what each pass observes (a `Probe`) and what a zero derivative does (`Escape`
  shifts `x` by `dx` and consumes no iteration; `Stop` breaks). The module also holds the
  lemmas about the loop: counter bounds, the state on each exit path, fuel, and affine and flat
  functions.
- `NewtonSolvers`, `NewtonUnarySolvers`, `NewtonLinearSolvers`: the solver classes. Each
  `Solve` method runs the loop imperatively and is proved equal to `Iterate` on its class's
  probe. `NewtonSolver` stores `f` and `dx` only in its owned derivator. `NewtonUnarySolver`
  keeps `Valid()`, which says its function and its derivator's are the same.

Every division has a divisor the verifier proves nonzero. Each step is a validated `Positive`
field. Each Newton update happens only on a nonzero derivative.

The model takes no input from a clock, randomness, I/O or any other outside source. The
black-box function `f` is a parameter of type `real -> real`, or `real -> Value` for
`Derivator`.

In the source, the unbounded escape loop is an infinite loop whenever the derivative stays
zero. The model bounds the number of escapes by an explicit `fuel` argument and reports
`OutOfFuel` when the bound is hit. `NewtonIteration.FuelSuffices` shows that any run that
finishes within its budget finishes the same way with a larger one.
`NewtonUnarySolvers.UnaryConstantLoops` shows that a constant function always exhausts the
budget.

## Model

| member | source | states |
|---|---|---|
| JsValues.DefaultedPositive | src/Derivator.js:28 | a falsy constructor argument (absent, 0, null, false, "") yields the default rather than an error; only a truthy argument can fail, and then it fails the setter's own check |
| DifferenceQuotients.ParseDirection | src/Derivator.js:77-81 | the direction setter accepts exactly 'right', 'left' and 'both', stores that direction, and otherwise throws `InvalidDirection` |
| DifferenceQuotients.ParseName | src/Derivator.js:77-90 | the string the getter returns is accepted by the setter, and it stores the same direction |
| DifferenceQuotients.CentralIsMean | src/Derivator.js:109-123 | over exact reals, the central difference is the mean of the forward and backward differences |
| DifferenceQuotients.HalveTwice | src/UnaryDerivator.js:110-111 | dividing by 2 and then by dx, as the source writes it, is dividing by 2 dx |
| DifferenceQuotients.BackwardIsShiftedForward | src/Derivator.js:109-115 | the backward difference at x is the forward difference at x - dx |
| DifferenceQuotients.ExactOnAffine | src/UnaryDerivator.js:105-111 | on an affine function, every direction returns exactly the slope |
| DifferenceQuotients.CentralExactOnQuadratic | src/LinearDerivator.js:79-81 | on a quadratic `a p² + b p + c`, the central scheme returns the true derivative `2 a x + b` for every step |
| Derivators.Differentiate | src/Derivator.js:98-130 | a non-number x throws, and only then is the result `XNotANumber`; the first sample's type decides the shape: a number gives a scalar; `null` gives an empty field map; an object gives a field map with exactly its keys, unless it has keys and the second sample is `undefined` or `null`, when reading a field throws `NullishSample`; anything else throws `InvalidReturn`, and only then is that the result |
| Derivators.ScalarRate | src/Derivator.js:109-125 | on number samples, `get` is the forward, backward or central quotient of the direction; the doubled dx of 'both' is the 2 dx of the central scheme |
| Derivators.ScalarMismatch | src/Derivator.js:122-123 | a number first sample with a non-number second sample: a `null` second sample reads as 0, so the result is the direction's quotient with 0 in its place; any other second sample gives NaN |
| Derivators.FieldRate | src/Derivator.js:124-127 | on an object first sample with key k: an `undefined` or `null` second sample makes the field read throw `NullishSample`; otherwise field k of the result is the direction's quotient of field k alone, or NaN when the second sample lacks k |
| Derivators.BothIsMeanOfSides | src/Derivator.js:109-125 | on a number-valued f, the 'both' result is the mean of the 'right' and 'left' results at the same x and dx |
| Derivators.Derivator.Create | src/Derivator.js:20-30 | the setters run in the order f, dx (default 1e-3), direction (default 'right'); the first failing one decides the error, and success happens exactly when all three pass, with the validated values stored |
| Derivators.Derivator.SetF | src/Derivator.js:37-40 | a non-function throws and every field stays; a function replaces only `f` |
| Derivators.Derivator.SetDx | src/Derivator.js:56-61 | a non-number or a value <= 0 throws and `dx` stays, which keeps `dx > 0`; otherwise `dx` becomes exactly the value; nothing else changes |
| Derivators.Derivator.SetDirection | src/Derivator.js:77-81 | only 'right', 'left' and 'both' are stored, read back as the same string; anything else throws and nothing changes |
| UnaryDerivators.UnaryDerivator.Create | src/UnaryDerivator.js:20-30 | the setters run in the order primitiveFunction, dx (default 1e-3), direction (default 'right'), with the first failure reported |
| UnaryDerivators.UnaryDerivator.SetPrimitiveFunction | src/UnaryDerivator.js:37-40 | a non-function throws and nothing changes; otherwise only the function is replaced |
| UnaryDerivators.UnaryDerivator.SetDx | src/UnaryDerivator.js:56-61 | a non-number or a value <= 0 throws and nothing changes; otherwise `dx` becomes exactly the value |
| UnaryDerivators.UnaryDerivator.SetDirection | src/UnaryDerivator.js:77-81 | the direction is restricted to right, left and both; anything else throws and nothing changes |
| UnaryDerivators.UnaryDerivator.Get | src/UnaryDerivator.js:98-113 | a non-number x throws; otherwise the result is the direction's quotient, with 'both' computed as `/2/dx` and equal to the central difference |
| UnaryDerivators.AgreesWithDerivator | src/UnaryDerivator.js:98-113 | on a number-valued function, the unary derivator gives the same quotient as the general derivator |
| LinearDerivators.LinearDerivator.Create | src/LinearDerivator.js:19-27 | primitiveFunction is checked first, then dx (default 1e-3); success happens exactly when both pass |
| LinearDerivators.LinearDerivator.SetPrimitiveFunction | src/LinearDerivator.js:34-37 | a non-function throws and nothing changes |
| LinearDerivators.LinearDerivator.SetDx | src/LinearDerivator.js:53-58 | a non-number or a value <= 0 throws and nothing changes; otherwise `dx` becomes the value |
| LinearDerivators.LinearDerivator.Get | src/LinearDerivator.js:75-82 | a non-number x throws; otherwise the result is always the central quotient |
| LinearDerivators.SameAsUnaryBoth | src/LinearDerivator.js:75-82 | over the same function and step, a linear derivator and a unary derivator set to 'both' agree on every argument, errors included |
| NewtonIteration.Abs | src/NewtonSolver.js:179 | `Math.abs`: non-negative and equal to the argument or its negation |
| NewtonIteration.Ceil | src/NewtonSolver.js:167 | the number of passes of `for (i = 0; i < m; i++)` is the least integer not below m |
| NewtonIteration.Iterate | src/NewtonSolver.js:166-182 | the solve loop of all three solvers as one function of what each pass sees: passes run while the counter is below maxIteration; a throw or a non-real observation ends the run where it happened; a zero slope escapes by dx without counting (escape policy) or stops (stop policy); otherwise x takes the Newton update from the pre-update y, and the run ends converged when that y was below the tolerance, else it counts the pass |
| NewtonIteration.BelowCeil | src/NewtonSolver.js:167 | an integer counter is below maxIteration exactly when it is below that loop bound |
| NewtonIteration.StepBounds | src/NewtonSolver.js:167-182 | the final counter lies between the start and the loop bound; it is exhausted exactly when it equals the bound, and on every other exit it is below maxIteration |
| NewtonIteration.ExitPoint | src/NewtonSolver.js:168-179 | on convergence the result is one Newton step past a point with a nonzero slope and abs(y) below the tolerance; a stall is at a zero slope under the stop policy; a throw or an exit from the reals happens at the iterate where it occurred |
| NewtonIteration.RealExits | src/NewtonLinearSolver.js:183-192 | when every pass sees real numbers, the run never throws; it converges, exhausts, stalls only under the stop policy, or runs out of escapes only under the escape policy |
| NewtonIteration.StopIgnoresFuel | src/NewtonLinearSolver.js:183-192 | the stop policy never runs out of fuel, and its result does not depend on the budget |
| NewtonIteration.FuelSuffices | src/NewtonSolver.js:171-175 | a run that finished within its escape budget finishes the same way with any larger one, so on every run it completes the model agrees with the unbounded loop |
| NewtonIteration.EscapeRun | src/NewtonSolver.js:171-175 | k consecutive zero slopes move the iterate by k dx and use k escapes but leave the counter unchanged (the `i--` before `continue`) |
| NewtonIteration.StopAtFlat | src/NewtonLinearSolver.js:187 | under the stop policy a zero slope ends the run at once, with x unmoved and the counter equal to that pass's index |
| NewtonIteration.AffineRoot | src/NewtonSolver.js:177-179 | on an affine function with nonzero slope, the run ends on the root `-b/a` after at most one counted pass; it converges, unless maxIteration <= 1 stops it right after the update |
| NewtonIteration.LandOnRoot | src/NewtonSolver.js:177-179 | a Newton update from a nonzero slope that lands on a point where `y` is zero and the slope is nonzero ends the run on that point after at most one counted pass, converged unless maxIteration allows only that one pass |
| NewtonIteration.FlatEverywhere | src/NewtonSolver.js:171-175 | where every slope is zero, the escape loop never exits: every budget ends out of fuel |
| NewtonSolvers.SolverProbe | src/NewtonSolver.js:167-168 | a pass reads the derivator's `get(x)` first, so its throw is the pass's throw; a derivative that is not a real number is a non-real observation; `y` is `f(x)`, with `null` read as 0 |
| NewtonSolvers.ScalarProbe | src/NewtonSolver.js:144-155 | for a number-valued f, a pass sees the direction's quotient as the derivative and f(x) as y |
| NewtonSolvers.OtherProbe | src/Derivator.js:128 | a first sample that is `undefined`, or otherwise neither a number nor an object, makes the pass throw `InvalidReturn` |
| NewtonSolvers.Walk | src/NewtonSolver.js:167-181 | the loop, taking the derivator's `get` and f at the pre-update x and guarded by `derivative === 0`, computes exactly `Iterate` under the escape policy |
| NewtonSolvers.NewtonSolver.Create | src/NewtonSolver.js:23-41 | bias (default 1e-7) and maxIteration (default 50) are validated first and then the derivator is built from f and dx, with the first failure reported; on success f and dx are stored only in the fresh derivator |
| NewtonSolvers.NewtonSolver.SetF | src/NewtonSolver.js:48-59 | writing f writes the owned derivator, under its check; dx and direction stay |
| NewtonSolvers.NewtonSolver.SetDx | src/NewtonSolver.js:66-77 | writing dx writes the owned derivator, under its check; f and direction stay |
| NewtonSolvers.NewtonSolver.SetBias | src/NewtonSolver.js:84-89 | a non-number or a value <= 0 throws and bias stays; nothing else changes |
| NewtonSolvers.NewtonSolver.SetMaxIteration | src/NewtonSolver.js:105-110 | a non-number or a value <= 0 throws and maxIteration stays; nothing else changes |
| NewtonSolvers.NewtonSolver.Solve | src/NewtonSolver.js:164-185 | x is seeded with x0 and the solver itself is returned; a non-number x0 throws; otherwise the status, final x and stepNum are those of `Iterate`; stepNum is written only on a normal return, equals the loop bound when exhausted and is below maxIteration after a convergence |
| NewtonUnarySolvers.UnaryProbeOf | src/NewtonUnarySolver.js:192-193 | a pass reads the unary derivator's gradient of the solver's function at x, in its direction, and then `y = f(x)`; both are always real |
| NewtonUnarySolvers.UnaryRun | src/NewtonUnarySolver.js:191-206 | the unary solver's run converges, exhausts or runs out of escapes; it is exhausted exactly at the loop bound and otherwise stops below maxIteration |
| NewtonUnarySolvers.UnaryAffineRoot | src/NewtonUnarySolver.js:195-203 | in every direction, an affine function is solved exactly: the run ends on the root after at most one counted pass |
| NewtonUnarySolvers.UnaryConstantLoops | src/NewtonUnarySolver.js:195-199 | on a constant function every gradient is zero and the loop escapes forever: every budget ends out of fuel |
| NewtonUnarySolvers.NewtonUnarySolver.constructor | src/NewtonUnarySolver.js:41-44 | the solver takes the new derivator's function as its own, so the two start in sync |
| NewtonUnarySolvers.NewtonUnarySolver.Create | src/NewtonUnarySolver.js:24-45 | the setters run in the order primitiveFunction, originalX (default 0), terminationError (default 1e-7), maxIteration (default 50), then the derivator is built from the function and dx; the first failure is reported, and on success the solver and derivator share the function |
| NewtonUnarySolvers.NewtonUnarySolver.SetPrimitiveFunction | src/NewtonUnarySolver.js:52-59 | a non-function throws and nothing changes; otherwise the solver and its derivator both take the new function, which keeps them in sync |
| NewtonUnarySolvers.NewtonUnarySolver.SetOriginalX | src/NewtonUnarySolver.js:75-87 | a non-number throws; otherwise the current x is set, while the field the getter reads stays unset |
| NewtonUnarySolvers.NewtonUnarySolver.SetDx | src/NewtonUnarySolver.js:94-105 | dx is read and written through the owned derivator, under its check |
| NewtonUnarySolvers.NewtonUnarySolver.SetTerminationError | src/NewtonUnarySolver.js:112-117 | a non-number or a value <= 0 throws and nothing changes; otherwise terminationError becomes the value |
| NewtonUnarySolvers.NewtonUnarySolver.SetMaxIteration | src/NewtonUnarySolver.js:133-138 | a non-number or a value <= 0 throws and nothing changes; otherwise maxIteration becomes the value |
| NewtonUnarySolvers.NewtonUnarySolver.Gradient | src/NewtonUnarySolver.js:181-183 | the derivator's `get` at the current x is the quotient of the solver's own function, because the two functions are in sync |
| NewtonUnarySolvers.NewtonUnarySolver.Solve | src/NewtonUnarySolver.js:190-209 | the run starts from the current x, so a second call continues from the first call's result; the status, final x and stepNum are those of `Iterate` with escapes; it converges, exhausts or runs out of fuel; stepNum equals the loop bound when exhausted and is below maxIteration after a convergence |
| NewtonLinearSolvers.HalvedGradient | src/NewtonLinearSolver.js:173-175 | the gradient as written, halved and then divided by differentialX, is the central quotient |
| NewtonLinearSolvers.LinearProbeOf | src/NewtonLinearSolver.js:184-185 | a pass reads the central gradient of the solver's function at x with step differentialX, and then `y = f(x)`; both are always real |
| NewtonLinearSolvers.LinearRun | src/NewtonLinearSolver.js:182-195 | the run converges, exhausts or stalls and never needs an escape budget; it is exhausted exactly at the loop bound and otherwise stops below maxIteration |
| NewtonLinearSolvers.LinearAffineRoot | src/NewtonLinearSolver.js:187-191 | an affine function is solved exactly: the run ends on the root after at most one counted pass |
| NewtonLinearSolvers.LinearFlatStalls | src/NewtonLinearSolver.js:187 | when the samples at x ± differentialX are equal, the run stops at once with x unmoved and stepNum 0 |
| NewtonLinearSolvers.NewtonLinearSolver.Create | src/NewtonLinearSolver.js:22-38 | the setters run in the order primitiveFunction, originalX (default 0), differentialX (default 1e-3), terminationError (default 1e-7), maxIteration (default 50); the first failure is reported, and success happens exactly when all pass |
| NewtonLinearSolvers.NewtonLinearSolver.SetPrimitiveFunction | src/NewtonLinearSolver.js:45-48 | a non-function throws and nothing changes |
| NewtonLinearSolvers.NewtonLinearSolver.SetOriginalX | src/NewtonLinearSolver.js:64-76 | a non-number throws; otherwise the current x is set, not the field the getter reads |
| NewtonLinearSolvers.NewtonLinearSolver.SetDifferentialX | src/NewtonLinearSolver.js:83-88 | a non-number or a value <= 0 throws and nothing changes |
| NewtonLinearSolvers.NewtonLinearSolver.SetTerminationError | src/NewtonLinearSolver.js:104-109 | a non-number or a value <= 0 throws and nothing changes |
| NewtonLinearSolvers.NewtonLinearSolver.SetMaxIteration | src/NewtonLinearSolver.js:125-130 | a non-number or a value <= 0 throws and nothing changes |
| NewtonLinearSolvers.NewtonLinearSolver.Solve | src/NewtonLinearSolver.js:182-197 | the run starts from the current x and always terminates: it ends as `Iterate` with the stop policy and returns the solver itself; it converges, exhausts or stalls; stepNum is the final counter, equal to the loop bound when exhausted and below maxIteration otherwise |

## Left out

- Floating point: all arithmetic is exact `real`. Rounding, and the O(dx) and O(dx²) error of the schemes, are not modelled.
- NaN and the infinities as inputs: a JavaScript `Number` here always holds a real. So a NaN argument, which passes the source's `value <= 0` guards, is not representable.
- JavaScript coercion: in a `Derivator` result with a number first sample, a `null` second sample reads as 0, as JavaScript arithmetic does, and any other non-number second sample is modelled as `NaN` (the `Numeric` type). With an object first sample, a missing field gives `NaN`. A `null` second sample throws there when the object has keys, and a `null` first sample gives an empty field map. In `NewtonSolver`, a `null` `y` reads as 0. Booleans, numeric strings and non-numeric fields are not coerced.
- Derivators.Derivator.Get: no contract of its own, since it is `Differentiate` on the current fields, and the lemmas about `Differentiate` carry the properties.
- NewtonSolvers.NewtonSolver.Solve: a derivative that is NaN or a field map, or a `y` that is neither a number nor `null`, ends the model's run with `LeftReals` at the pre-update x, and stepNum keeps its old value. JavaScript does one of two things instead, and the model follows neither. It may make x NaN: if |y| is below bias at that pass, the loop then breaks at once with x = NaN and stepNum = i (src/NewtonSolver.js:177-182); otherwise it goes on with a NaN iterate, and what happens next depends on `f(NaN)`. Or it converts a boolean or numeric-string `y` to a number and takes an ordinary step with it. For example, `y = true` gives `x - 1/derivative`, and `Math.abs(true)` is 1.
- NewtonSolvers.NewtonSolver.Solve: the escape loop is bounded by `fuel`, and a run that hits the bound reports `OutOfFuel` where JavaScript keeps looping. FuelSuffices relates every completed run to the unbounded loop.
- NewtonUnarySolvers.NewtonUnarySolver.Solve: the same `fuel` bound on escapes applies, with the same relation to the unbounded loop.
- Per-pass writes of `x` in `solve`: the loops keep the iterate in a local and write `x` once at the end. No code observes `x` while the loop runs. After a throw, `x` is the iterate at which it happened, as in the source.
- The fluent `return this` of `solve` is the out-parameter `self`, stated equal to `this`.
- The public `this.Derivator` and `this.UnaryDerivator` properties can be reassigned from outside in JavaScript. Here they are `const` fields.
- Plain getters (`stepNum`, `x`, `f`, `dx`, `originalX`, `bias`, `terminationError`, `differentialX`, `y`, `derivative`, and `gradient` of `NewtonLinearSolver`) are fields or body-only functions with no contract of their own.
- index.js is module-export glue and is not part of this model.
- test/Derivator.test.js checks that the derivative of `Math.sin` at π with dx = 1e-7 lies within 1e-7 of -1. That is floating-point accuracy, which the model leaves out, and the test imports `Derivator` from index.js, which does not export it. It is not part of this model.
- test/NewtonLinearSolver.test.js solves for a solar altitude of zero through external astronomy packages and reports by console output. It is not part of this model.
