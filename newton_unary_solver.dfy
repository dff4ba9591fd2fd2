/** The Newton solver over the unary derivator (src/NewtonUnarySolver.js): it keeps its own
    copy of the function, synchronised into the owned derivator, starts from the current `x`,
    and escapes a zero gradient by `x += dx` without using up an iteration. */
module NewtonUnarySolvers {
  import opened JsValues
  import opened DifferenceQuotients
  import opened UnaryDerivators
  import opened NewtonIteration

  /** What one pass of `solve` sees at `x`: the derivator's gradient, then `y = f(x)`. */
  function UnaryProbeOf(f: real -> real, dx: Positive, d: Direction): real -> Probe {
    p => Slope(Quotient(d, f, p, dx), Some(f(p)))
  }

  /** Every pass of the unary solver sees real numbers, so its run converges, uses up its
      iterations or runs out of escapes; it is exhausted exactly at the loop bound and
      stops below `maxIteration` otherwise. */
  lemma UnaryRun(f: real -> real, dx: Positive, d: Direction, tolerance: real, maxIteration: Positive,
                 x: real, fuel: nat)
    ensures var r := Iterate(UnaryProbeOf(f, dx, d), Escape, dx, tolerance, maxIteration, x, 0, fuel);
            (r.status.Converged? || r.status.Exhausted? || r.status.OutOfFuel?) &&
            (r.status.Exhausted? ==> r.steps == Ceil(maxIteration)) &&
            (!r.status.Exhausted? ==> 0 <= r.steps && (r.steps as real) < maxIteration)
  {
    var probe := UnaryProbeOf(f, dx, d);
    assert AlwaysReal(probe);
    RealExits(probe, Escape, dx, tolerance, maxIteration, x, 0, fuel);
    StepBounds(probe, Escape, dx, tolerance, maxIteration, x, 0, fuel);
  }

  /** On an affine function every direction reads the exact slope, so the unary solver
      lands on the root after at most one counted pass. */
  lemma UnaryAffineRoot(f: real -> real, a: real, b: real, dx: Positive, d: Direction, tolerance: Positive,
                        maxIteration: Positive, x: real, fuel: nat)
    requires forall p :: f(p) == a * p + b
    requires a != 0.0
    ensures var r := Iterate(UnaryProbeOf(f, dx, d), Escape, dx, tolerance, maxIteration, x, 0, fuel);
            r.x == -b / a && 0 <= r.steps <= 1 &&
            (r.status.Converged? || (r.status.Exhausted? && maxIteration <= 1.0))
  {
    var probe := UnaryProbeOf(f, dx, d);
    forall p: real
      ensures probe(p) == Slope(a, Some(a * p + b))
    {
      ExactOnAffine(d, f, a, b, p, dx);
    }
    assert AffineProbe(probe, a, b);
    AffineRoot(probe, Escape, dx, tolerance, maxIteration, x, fuel, a, b);
  }

  /** On a constant function every gradient is zero and the source's loop escapes forever:
      however many escapes the model allows, the run ends out of fuel. */
  lemma UnaryConstantLoops(f: real -> real, c: real, dx: Positive, d: Direction, tolerance: Positive,
                           maxIteration: Positive, x: real, fuel: nat)
    requires forall p :: f(p) == c
    ensures Iterate(UnaryProbeOf(f, dx, d), Escape, dx, tolerance, maxIteration, x, 0, fuel).status == OutOfFuel
  {
    var probe := UnaryProbeOf(f, dx, d);
    forall p: real
      ensures FlatAt(probe, p)
    {
      ExactOnAffine(d, f, 0.0, c, p, dx);
    }
    FlatEverywhere(probe, dx, tolerance, maxIteration, x, 0, fuel);
  }

  class NewtonUnarySolver {
    var primitiveFunction: real -> real
    /** The current iterate, set by the `originalX` setter and by `solve`. */
    var x: real
    /** What the `originalX` getter reads: a field no member ever writes. */
    const originalX: JsValue<real -> real>
    var terminationError: Positive
    var maxIteration: Positive
    var stepNum: nat
    /** The owned derivator (the source's `this.UnaryDerivator`). */
    const derivator: UnaryDerivator

    /** The solver's function and the derivator's are the same, and `originalX` is unset. */
    ghost predicate Valid()
      reads this, derivator
    {
      derivator.primitiveFunction == primitiveFunction && originalX.Undefined?
    }

    /** Builds a solver around a derivator, taking the derivator's function as its own. */
    constructor (x: real, terminationError: Positive, maxIteration: Positive, derivator: UnaryDerivator)
      ensures Valid()
      ensures this.x == x && this.terminationError == terminationError && this.maxIteration == maxIteration
      ensures this.derivator == derivator && stepNum == 0
    {
      this.primitiveFunction := derivator.primitiveFunction;
      this.x := x;
      this.originalX := Undefined;
      this.terminationError := terminationError;
      this.maxIteration := maxIteration;
      this.stepNum := 0;
      this.derivator := derivator;
    }

    /** `new NewtonUnarySolver({...})`: the setters run in the order primitiveFunction,
        `originalX || 0`, `terminationError || 1e-7`, `maxIteration || 50`; then the
        derivator is built from the function and `dx` (whose sync is skipped while it does
        not exist yet), so a bad `dx` is reported last. */
    static method Create(primitiveFunction: JsValue<real -> real>, originalX: JsValue<real -> real>,
                         dx: JsValue<real -> real>, terminationError: JsValue<real -> real>,
                         maxIteration: JsValue<real -> real>)
      returns (r: Result<NewtonUnarySolver>)
      ensures !primitiveFunction.Function? ==> r == Failure(NotAFunction)
      ensures (primitiveFunction.Function? && !Or(originalX, Number(0.0)).Number?) ==> r == Failure(NotANumber)
      ensures (primitiveFunction.Function? && Or(originalX, Number(0.0)).Number? &&
               CheckPositive(Or(terminationError, Number(DefaultTolerance))).Failure?) ==>
                r == Failure(CheckPositive(Or(terminationError, Number(DefaultTolerance))).error)
      ensures (primitiveFunction.Function? && Or(originalX, Number(0.0)).Number? &&
               CheckPositive(Or(terminationError, Number(DefaultTolerance))).Success? &&
               CheckPositive(Or(maxIteration, Number(DefaultMaxIteration))).Failure?) ==>
                r == Failure(CheckPositive(Or(maxIteration, Number(DefaultMaxIteration))).error)
      ensures (primitiveFunction.Function? && Or(originalX, Number(0.0)).Number? &&
               CheckPositive(Or(terminationError, Number(DefaultTolerance))).Success? &&
               CheckPositive(Or(maxIteration, Number(DefaultMaxIteration))).Success? &&
               CheckPositive(Or(dx, Number(DefaultStep))).Failure?) ==>
                r == Failure(CheckPositive(Or(dx, Number(DefaultStep))).error)
      ensures r.Success? <==> primitiveFunction.Function? && Or(originalX, Number(0.0)).Number? &&
                              CheckPositive(Or(terminationError, Number(DefaultTolerance))).Success? &&
                              CheckPositive(Or(maxIteration, Number(DefaultMaxIteration))).Success? &&
                              CheckPositive(Or(dx, Number(DefaultStep))).Success?
      ensures r.Success? ==>
                fresh(r.value) && fresh(r.value.derivator) && r.value.Valid() &&
                r.value.primitiveFunction == primitiveFunction.fn &&
                r.value.x == Or(originalX, Number(0.0)).n &&
                r.value.terminationError == CheckPositive(Or(terminationError, Number(DefaultTolerance))).value &&
                r.value.maxIteration == CheckPositive(Or(maxIteration, Number(DefaultMaxIteration))).value &&
                r.value.Dx() == CheckPositive(Or(dx, Number(DefaultStep))).value &&
                r.value.derivator.direction == Right && r.value.stepNum == 0
    {
      var fn := CheckFunction(primitiveFunction);
      if fn.Failure? { return Failure(fn.error); }
      var x0 := CheckNumber(Or(originalX, Number(0.0)));
      if x0.Failure? { return Failure(x0.error); }
      var tol := CheckPositive(Or(terminationError, Number(DefaultTolerance)));
      if tol.Failure? { return Failure(tol.error); }
      var m := CheckPositive(Or(maxIteration, Number(DefaultMaxIteration)));
      if m.Failure? { return Failure(m.error); }
      var d := UnaryDerivator.Create(primitiveFunction, dx, Undefined);
      if d.Failure? { return Failure(d.error); }
      var s := new NewtonUnarySolver(x0.value, tol.value, m.value, d.value);
      return Success(s);
    }

    /** The `primitiveFunction` setter: a non-function throws and nothing changes; otherwise
        the solver and its derivator both take the new function. */
    method SetPrimitiveFunction(value: JsValue<real -> real>) returns (o: Outcome)
      requires Valid()
      modifies this, derivator
      ensures Valid()
      ensures o == if value.Function? then Pass else Fail(NotAFunction)
      ensures primitiveFunction == if value.Function? then value.fn else old(primitiveFunction)
      ensures x == old(x) && terminationError == old(terminationError) && maxIteration == old(maxIteration)
      ensures stepNum == old(stepNum) && Dx() == old(Dx()) && derivator.direction == old(derivator.direction)
    {
      match CheckFunction(value)
      case Failure(e) => o := Fail(e);
      case Success(fn) =>
        primitiveFunction := fn;
        o := derivator.SetPrimitiveFunction(value);
    }

    /** The `originalX` setter: a non-number throws; otherwise it sets the current `x`
        (not the field the getter reads). */
    method SetOriginalX(value: JsValue<real -> real>) returns (o: Outcome)
      requires Valid()
      modifies this
      ensures Valid()
      ensures o == if value.Number? then Pass else Fail(NotANumber)
      ensures x == if value.Number? then value.n else old(x)
      ensures OriginalX().Undefined?
      ensures primitiveFunction == old(primitiveFunction) && terminationError == old(terminationError)
      ensures maxIteration == old(maxIteration) && stepNum == old(stepNum)
    {
      match CheckNumber(value)
      case Failure(e) => o := Fail(e);
      case Success(v) => x := v; o := Pass;
    }

    /** The `originalX` getter. */
    function OriginalX(): JsValue<real -> real>
      reads this
    {
      originalX
    }

    /** The `dx` accessor: read from the owned derivator. */
    function Dx(): Positive
      reads this, derivator
    {
      derivator.dx
    }

    /** The `dx` setter writes the owned derivator, whose check applies. */
    method SetDx(value: JsValue<real -> real>) returns (o: Outcome)
      requires Valid()
      modifies derivator
      ensures Valid()
      ensures o == if CheckPositive(value).Success? then Pass else Fail(CheckPositive(value).error)
      ensures Dx() == if value.Number? && value.n > 0.0 then value.n else old(Dx())
      ensures derivator.direction == old(derivator.direction)
    {
      o := derivator.SetDx(value);
    }

    /** The `terminationError` setter: a non-number or a value <= 0 throws and leaves it unchanged. */
    method SetTerminationError(value: JsValue<real -> real>) returns (o: Outcome)
      requires Valid()
      modifies this
      ensures Valid()
      ensures o == if CheckPositive(value).Success? then Pass else Fail(CheckPositive(value).error)
      ensures terminationError == if value.Number? && value.n > 0.0 then value.n else old(terminationError)
      ensures primitiveFunction == old(primitiveFunction) && x == old(x)
      ensures maxIteration == old(maxIteration) && stepNum == old(stepNum)
    {
      match CheckPositive(value)
      case Failure(e) => o := Fail(e);
      case Success(v) => terminationError := v; o := Pass;
    }

    /** The `maxIteration` setter: a non-number or a value <= 0 throws and leaves it unchanged. */
    method SetMaxIteration(value: JsValue<real -> real>) returns (o: Outcome)
      requires Valid()
      modifies this
      ensures Valid()
      ensures o == if CheckPositive(value).Success? then Pass else Fail(CheckPositive(value).error)
      ensures maxIteration == if value.Number? && value.n > 0.0 then value.n else old(maxIteration)
      ensures primitiveFunction == old(primitiveFunction) && x == old(x)
      ensures terminationError == old(terminationError) && stepNum == old(stepNum)
    {
      match CheckPositive(value)
      case Failure(e) => o := Fail(e);
      case Success(v) => maxIteration := v; o := Pass;
    }

    /** The `y` getter: the solver's own function at the current `x`. */
    function Y(): real
      reads this
    {
      primitiveFunction(x)
    }

    /** The `gradient` getter: the owned derivator's `get` at the current `x`, which by the
        synchronisation is the quotient of the solver's own function. */
    function Gradient(): (g: real)
      requires Valid()
      reads this, derivator
      ensures g == Quotient(derivator.direction, primitiveFunction, x, Dx())
    {
      derivator.Get(Number(x)).value
    }

    /** `solve()`: runs the loop from the current `x` (no re-seeding, so a second call goes on
        from the first one's result), records `stepNum` and returns the solver itself.
        `fuel` bounds the number of zero-gradient escapes; with enough of it the run is the
        source's (see NewtonIteration.FuelSuffices). */
    method Solve(fuel: nat) returns (self: NewtonUnarySolver, status: Status)
      requires Valid()
      modifies this
      ensures Valid() && self == this
      ensures primitiveFunction == old(primitiveFunction) && terminationError == old(terminationError)
      ensures maxIteration == old(maxIteration)
      ensures var run := Iterate(UnaryProbeOf(primitiveFunction, Dx(), derivator.direction), Escape, Dx(),
                                 terminationError, maxIteration, old(x), 0, fuel);
              status == run.status && x == run.x &&
              stepNum == if status.OutOfFuel? then old(stepNum) else run.steps
      ensures status.Converged? || status.Exhausted? || status.OutOfFuel?
      ensures status.Exhausted? ==> stepNum == Ceil(maxIteration)
      ensures status.Converged? ==> (stepNum as real) < maxIteration
    {
      var f, dx, d, tolerance, bound := primitiveFunction, Dx(), derivator.direction, terminationError, maxIteration;
      var probe := UnaryProbeOf(f, dx, d);
      ghost var run := Iterate(probe, Escape, dx, tolerance, bound, x, 0, fuel);
      UnaryRun(f, dx, d, tolerance, bound, x, fuel);
      // the iterate is kept in a local and written back once: nothing reads `x` during the loop
      var cur, i, escapes := x, 0, fuel;
      status := Exhausted;
      while i as real < bound
        invariant 0 <= i
        invariant Iterate(probe, Escape, dx, tolerance, bound, cur, i, escapes) == run
        decreases escapes, Ceil(bound) - i
      {
        var gradient := derivator.Get(Number(cur)).value;
        var y := f(cur);
        assert probe(cur) == Slope(gradient, Some(y));
        if gradient == 0.0 {
          if escapes == 0 {
            status := OutOfFuel;
            break;
          }
          cur := cur + dx;
          escapes := escapes - 1;
          continue;  // skipping the increment below is the source's `i--` followed by `i++`
        }
        cur := cur - y / gradient;
        if Abs(y) < tolerance {
          status := Converged;
          break;
        }
        i := i + 1;
      }
      assert run == Run(status, cur, i);
      x := cur;
      if !status.OutOfFuel? {
        stepNum := i;
      }
      return this, status;
    }
  }
}
