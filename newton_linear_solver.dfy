/** The self-contained Newton solver (src/NewtonLinearSolver.js): it computes its own central
    gradient with `differentialX`, starts from the current `x`, and stops at a zero gradient. */
module NewtonLinearSolvers {
  import opened JsValues
  import opened DifferenceQuotients
  import opened NewtonIteration

  /** The gradient as the source computes it: half the difference of the samples at
      `p ± dx`, divided by `dx`; over exact reals, the central quotient. */
  function HalvedGradient(f: real -> real, p: real, dx: Positive): (g: real)
    ensures g == Central(f, p, dx)
  {
    HalveTwice(f(p + dx) - f(p - dx), dx);
    (f(p + dx) - f(p - dx)) / 2.0 / dx
  }

  /** What one pass of `solve` sees at `x`: the central gradient, then `y = f(x)`. */
  function LinearProbeOf(f: real -> real, dx: Positive): real -> Probe {
    p => Slope(Central(f, p, dx), Some(f(p)))
  }

  /** Every pass sees real numbers and a zero gradient stops the loop, so a run converges,
      uses up its iterations or stalls; it never needs the escape budget, is exhausted
      exactly at the loop bound and stops below `maxIteration` otherwise. */
  lemma LinearRun(f: real -> real, dx: Positive, tolerance: real, maxIteration: Positive, x: real)
    ensures var r := Iterate(LinearProbeOf(f, dx), Stop, dx, tolerance, maxIteration, x, 0, 0);
            (r.status.Converged? || r.status.Exhausted? || r.status.Stalled?) &&
            (r.status.Exhausted? ==> r.steps == Ceil(maxIteration)) &&
            (!r.status.Exhausted? ==> 0 <= r.steps && (r.steps as real) < maxIteration)
  {
    var probe := LinearProbeOf(f, dx);
    assert AlwaysReal(probe);
    RealExits(probe, Stop, dx, tolerance, maxIteration, x, 0, 0);
    StepBounds(probe, Stop, dx, tolerance, maxIteration, x, 0, 0);
  }

  /** On an affine function the central gradient is the exact slope, so the solver lands on
      the root after at most one counted pass. */
  lemma LinearAffineRoot(f: real -> real, a: real, b: real, dx: Positive, tolerance: Positive,
                         maxIteration: Positive, x: real)
    requires forall p :: f(p) == a * p + b
    requires a != 0.0
    ensures var r := Iterate(LinearProbeOf(f, dx), Stop, dx, tolerance, maxIteration, x, 0, 0);
            r.x == -b / a && 0 <= r.steps <= 1 &&
            (r.status.Converged? || (r.status.Exhausted? && maxIteration <= 1.0))
  {
    var probe := LinearProbeOf(f, dx);
    forall p: real
      ensures probe(p) == Slope(a, Some(a * p + b))
    {
      ExactOnAffine(Both, f, a, b, p, dx);
    }
    assert AffineProbe(probe, a, b);
    AffineRoot(probe, Stop, dx, tolerance, maxIteration, x, 0, a, b);
  }

  /** On a function whose samples around `x` are equal the first gradient is zero: the run
      stops there at once, with `x` unmoved and `stepNum` 0. */
  lemma LinearFlatStalls(f: real -> real, dx: Positive, tolerance: real, maxIteration: Positive, x: real)
    requires f(x + dx) == f(x - dx)
    ensures Iterate(LinearProbeOf(f, dx), Stop, dx, tolerance, maxIteration, x, 0, 0) == Run(Stalled, x, 0)
  {
    assert Central(f, x, dx) == 0.0 / (2.0 * dx) == 0.0;
    StopAtFlat(LinearProbeOf(f, dx), dx, tolerance, maxIteration, x, 0, 0);
  }

  class NewtonLinearSolver {
    var primitiveFunction: real -> real
    /** The current iterate, set by the `originalX` setter and by `solve`. */
    var x: real
    /** What the `originalX` getter reads: a field no member ever writes. */
    const originalX: JsValue<real -> real>
    var differentialX: Positive
    var terminationError: Positive
    var maxIteration: Positive
    var stepNum: nat

    /** Builds a solver from values that already passed the setters' checks. */
    constructor (primitiveFunction: real -> real, x: real, differentialX: Positive,
                 terminationError: Positive, maxIteration: Positive)
      ensures this.primitiveFunction == primitiveFunction && this.x == x
      ensures this.differentialX == differentialX && this.terminationError == terminationError
      ensures this.maxIteration == maxIteration && stepNum == 0 && originalX.Undefined?
    {
      this.primitiveFunction := primitiveFunction;
      this.x := x;
      this.originalX := Undefined;
      this.differentialX := differentialX;
      this.terminationError := terminationError;
      this.maxIteration := maxIteration;
      this.stepNum := 0;
    }

    /** `new NewtonLinearSolver({...})`: the setters run in the order primitiveFunction,
        `originalX || 0`, `differentialX || 1e-3`, `terminationError || 1e-7`,
        `maxIteration || 50`; the first failing one throws. */
    static method Create(primitiveFunction: JsValue<real -> real>, originalX: JsValue<real -> real>,
                         differentialX: JsValue<real -> real>, terminationError: JsValue<real -> real>,
                         maxIteration: JsValue<real -> real>)
      returns (r: Result<NewtonLinearSolver>)
      ensures !primitiveFunction.Function? ==> r == Failure(NotAFunction)
      ensures (primitiveFunction.Function? && !Or(originalX, Number(0.0)).Number?) ==> r == Failure(NotANumber)
      ensures (primitiveFunction.Function? && Or(originalX, Number(0.0)).Number? &&
               CheckPositive(Or(differentialX, Number(DefaultStep))).Failure?) ==>
                r == Failure(CheckPositive(Or(differentialX, Number(DefaultStep))).error)
      ensures (primitiveFunction.Function? && Or(originalX, Number(0.0)).Number? &&
               CheckPositive(Or(differentialX, Number(DefaultStep))).Success? &&
               CheckPositive(Or(terminationError, Number(DefaultTolerance))).Failure?) ==>
                r == Failure(CheckPositive(Or(terminationError, Number(DefaultTolerance))).error)
      ensures (primitiveFunction.Function? && Or(originalX, Number(0.0)).Number? &&
               CheckPositive(Or(differentialX, Number(DefaultStep))).Success? &&
               CheckPositive(Or(terminationError, Number(DefaultTolerance))).Success? &&
               CheckPositive(Or(maxIteration, Number(DefaultMaxIteration))).Failure?) ==>
                r == Failure(CheckPositive(Or(maxIteration, Number(DefaultMaxIteration))).error)
      ensures r.Success? <==> primitiveFunction.Function? && Or(originalX, Number(0.0)).Number? &&
                              CheckPositive(Or(differentialX, Number(DefaultStep))).Success? &&
                              CheckPositive(Or(terminationError, Number(DefaultTolerance))).Success? &&
                              CheckPositive(Or(maxIteration, Number(DefaultMaxIteration))).Success?
      ensures r.Success? ==>
                fresh(r.value) && r.value.originalX.Undefined? &&
                r.value.primitiveFunction == primitiveFunction.fn &&
                r.value.x == Or(originalX, Number(0.0)).n &&
                r.value.differentialX == CheckPositive(Or(differentialX, Number(DefaultStep))).value &&
                r.value.terminationError == CheckPositive(Or(terminationError, Number(DefaultTolerance))).value &&
                r.value.maxIteration == CheckPositive(Or(maxIteration, Number(DefaultMaxIteration))).value &&
                r.value.stepNum == 0
    {
      var fn := CheckFunction(primitiveFunction);
      if fn.Failure? { return Failure(fn.error); }
      var x0 := CheckNumber(Or(originalX, Number(0.0)));
      if x0.Failure? { return Failure(x0.error); }
      var dx := CheckPositive(Or(differentialX, Number(DefaultStep)));
      if dx.Failure? { return Failure(dx.error); }
      var tol := CheckPositive(Or(terminationError, Number(DefaultTolerance)));
      if tol.Failure? { return Failure(tol.error); }
      var m := CheckPositive(Or(maxIteration, Number(DefaultMaxIteration)));
      if m.Failure? { return Failure(m.error); }
      var s := new NewtonLinearSolver(fn.value, x0.value, dx.value, tol.value, m.value);
      return Success(s);
    }

    /** The `primitiveFunction` setter: a non-function throws and nothing changes. */
    method SetPrimitiveFunction(value: JsValue<real -> real>) returns (o: Outcome)
      modifies this
      ensures o == if value.Function? then Pass else Fail(NotAFunction)
      ensures primitiveFunction == if value.Function? then value.fn else old(primitiveFunction)
      ensures x == old(x) && differentialX == old(differentialX) && terminationError == old(terminationError)
      ensures maxIteration == old(maxIteration) && stepNum == old(stepNum)
    {
      match CheckFunction(value)
      case Failure(e) => o := Fail(e);
      case Success(fn) => primitiveFunction := fn; o := Pass;
    }

    /** The `originalX` setter: a non-number throws; otherwise it sets the current `x`
        (not the field the getter reads). */
    method SetOriginalX(value: JsValue<real -> real>) returns (o: Outcome)
      modifies this
      ensures o == if value.Number? then Pass else Fail(NotANumber)
      ensures x == if value.Number? then value.n else old(x)
      ensures OriginalX() == old(OriginalX())
      ensures primitiveFunction == old(primitiveFunction) && differentialX == old(differentialX)
      ensures terminationError == old(terminationError) && maxIteration == old(maxIteration)
      ensures stepNum == old(stepNum)
    {
      match CheckNumber(value)
      case Failure(e) => o := Fail(e);
      case Success(v) => x := v; o := Pass;
    }

    /** The `originalX` getter. */
    function OriginalX(): JsValue<real -> real>
      reads this
    {
      originalX
    }

    /** The `differentialX` setter: a non-number or a value <= 0 throws and leaves it unchanged. */
    method SetDifferentialX(value: JsValue<real -> real>) returns (o: Outcome)
      modifies this
      ensures o == if CheckPositive(value).Success? then Pass else Fail(CheckPositive(value).error)
      ensures differentialX == if value.Number? && value.n > 0.0 then value.n else old(differentialX)
      ensures primitiveFunction == old(primitiveFunction) && x == old(x)
      ensures terminationError == old(terminationError) && maxIteration == old(maxIteration)
      ensures stepNum == old(stepNum)
    {
      match CheckPositive(value)
      case Failure(e) => o := Fail(e);
      case Success(v) => differentialX := v; o := Pass;
    }

    /** The `terminationError` setter: a non-number or a value <= 0 throws and leaves it unchanged. */
    method SetTerminationError(value: JsValue<real -> real>) returns (o: Outcome)
      modifies this
      ensures o == if CheckPositive(value).Success? then Pass else Fail(CheckPositive(value).error)
      ensures terminationError == if value.Number? && value.n > 0.0 then value.n else old(terminationError)
      ensures primitiveFunction == old(primitiveFunction) && x == old(x)
      ensures differentialX == old(differentialX) && maxIteration == old(maxIteration)
      ensures stepNum == old(stepNum)
    {
      match CheckPositive(value)
      case Failure(e) => o := Fail(e);
      case Success(v) => terminationError := v; o := Pass;
    }

    /** The `maxIteration` setter: a non-number or a value <= 0 throws and leaves it unchanged. */
    method SetMaxIteration(value: JsValue<real -> real>) returns (o: Outcome)
      modifies this
      ensures o == if CheckPositive(value).Success? then Pass else Fail(CheckPositive(value).error)
      ensures maxIteration == if value.Number? && value.n > 0.0 then value.n else old(maxIteration)
      ensures primitiveFunction == old(primitiveFunction) && x == old(x)
      ensures differentialX == old(differentialX) && terminationError == old(terminationError)
      ensures stepNum == old(stepNum)
    {
      match CheckPositive(value)
      case Failure(e) => o := Fail(e);
      case Success(v) => maxIteration := v; o := Pass;
    }

    /** The `y` getter: the function at the current `x`. */
    function Y(): real
      reads this
    {
      primitiveFunction(x)
    }

    /** The `gradient` getter, at the current `x` with `differentialX`. */
    function Gradient(): real
      reads this
    {
      HalvedGradient(primitiveFunction, x, differentialX)
    }

    /** `solve()`: runs the loop from the current `x` (no re-seeding, so a second call goes on
        from the first one's result), records the final counter in `stepNum` whichever way
        the loop ended, and returns the solver itself. */
    method Solve() returns (self: NewtonLinearSolver, status: Status)
      modifies this
      ensures self == this
      ensures primitiveFunction == old(primitiveFunction) && differentialX == old(differentialX)
      ensures terminationError == old(terminationError) && maxIteration == old(maxIteration)
      ensures var run := Iterate(LinearProbeOf(primitiveFunction, differentialX), Stop, differentialX,
                                 terminationError, maxIteration, old(x), 0, 0);
              status == run.status && x == run.x && stepNum == run.steps
      ensures status.Converged? || status.Exhausted? || status.Stalled?
      ensures status.Exhausted? ==> stepNum == Ceil(maxIteration)
      ensures !status.Exhausted? ==> (stepNum as real) < maxIteration
    {
      var f, dx, tolerance, bound := primitiveFunction, differentialX, terminationError, maxIteration;
      var probe := LinearProbeOf(f, dx);
      ghost var run := Iterate(probe, Stop, dx, tolerance, bound, x, 0, 0);
      LinearRun(f, dx, tolerance, bound, x);
      // the iterate is kept in a local and written back once: nothing reads `x` during the loop
      var cur, i := x, 0;
      status := Exhausted;
      while i as real < bound
        invariant 0 <= i
        invariant Iterate(probe, Stop, dx, tolerance, bound, cur, i, 0) == run
        decreases Ceil(bound) - i
      {
        var gradient := HalvedGradient(f, cur, dx);
        var y := f(cur);
        assert probe(cur) == Slope(gradient, Some(y));
        if gradient == 0.0 {
          status := Stalled;
          break;
        }
        cur := cur - y / gradient;
        if Abs(y) < tolerance {
          status := Converged;
          break;
        }
        i := i + 1;
      }
      assert run == Run(status, cur, i);
      x := cur;
      stepNum := i;
      return this, status;
    }
  }
}
