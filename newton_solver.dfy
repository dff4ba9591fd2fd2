/** The Newton solver over the general derivator (src/NewtonSolver.js): `f` and `dx` live in
    the owned derivator, a zero derivative shifts `x` by `dx` without using up an iteration. */
module NewtonSolvers {
  import opened JsValues
  import opened DifferenceQuotients
  import opened Derivators
  import opened NewtonIteration

  /** The number a result of `f` stands for in `y / derivative` and `Math.abs(y)`: itself,
      or 0 for `null`; any other value has none. */
  function NumberOf(v: Value): Option<real> {
    match v
    case Num(n) => Some(n)
    case JsNull => Some(0.0)
    case _ => None
  }

  /** What one pass of `solve` sees at `x`: the derivator's `get(x)`, then `f(x)`. */
  function SolverProbe(f: real -> Value, dx: Positive, d: Direction, x: real): Probe {
    match Differentiate(f, dx, d, Number(x))
    case Failure(e) => Throws(e)
    case Success(rate) =>
      if rate.Scalar? && rate.r.Real? then Slope(rate.r.v, NumberOf(f(x)))
      else Unreal
  }

  function ProbeOf(f: real -> Value, dx: Positive, d: Direction): real -> Probe {
    p => SolverProbe(f, dx, d, p)
  }

  /** For a number-valued `f`, a pass sees the textbook quotient of the derivator's direction
      and `y = f(x)`. */
  lemma ScalarProbe(f: real -> Value, dx: Positive, d: Direction, x: real)
    requires f(x - dx).Num? && f(x).Num? && f(x + dx).Num?
    ensures SolverProbe(f, dx, d, x) == Slope(Quotient(d, NumberPart(f), x, dx), Some(f(x).n))
  {
    ScalarRate(f, dx, d, x);
  }

  /** A first sample whose typeof is neither 'number' nor 'object' makes a pass throw. */
  lemma OtherProbe(f: real -> Value, dx: Positive, d: Direction, x: real)
    requires LowerSample(f, dx, d, x).Other? || LowerSample(f, dx, d, x).JsUndefined?
    ensures SolverProbe(f, dx, d, x) == Throws(InvalidReturn)
  {
  }

  /** The loop of `solve` from the seed `x0`: each pass asks `derivator` for the derivative
      at the iterate and reads `f` there. The iterate is kept in a local, since nothing reads
      the solver's `x` while the loop runs. */
  method Walk(derivator: Derivator, bias: Positive, maxIteration: Positive, x0: real, fuel: nat)
    returns (run: Run)
    ensures run == Iterate(ProbeOf(derivator.f, derivator.dx, derivator.direction), Escape, derivator.dx,
                           bias, maxIteration, x0, 0, fuel)
  {
    var f, dx, d := derivator.f, derivator.dx, derivator.direction;
    var probe := ProbeOf(f, dx, d);
    ghost var goal := Iterate(probe, Escape, dx, bias, maxIteration, x0, 0, fuel);
    var cur, i, escapes := x0, 0, fuel;
    var status := Exhausted;
    while i as real < maxIteration
      invariant 0 <= i
      invariant Iterate(probe, Escape, dx, bias, maxIteration, cur, i, escapes) == goal
      decreases escapes, Ceil(maxIteration) - i
    {
      var derivative := derivator.Get(Number(cur));
      assert probe(cur) == SolverProbe(f, dx, d, cur);
      if derivative.Failure? {
        status := Threw(derivative.error);
        break;
      }
      var y := NumberOf(f(cur));
      if derivative.value == Scalar(Real(0.0)) {
        if escapes == 0 {
          status := OutOfFuel;
          break;
        }
        cur := cur + dx;
        escapes := escapes - 1;
        continue;  // skipping the increment below is the source's `i--` followed by `i++`
      }
      if !(derivative.value.Scalar? && derivative.value.r.Real? && y.Some?) {
        status := LeftReals;
        break;
      }
      cur := cur - y.value / derivative.value.r.v;
      if Abs(y.value) < bias {
        status := Converged;
        break;
      }
      i := i + 1;
    }
    return Run(status, cur, i);
  }

  class NewtonSolver {
    var bias: Positive
    var maxIteration: Positive
    var stepNum: nat
    /** The current iterate: undefined until `solve` seeds it. */
    var x: JsValue<real -> Value>
    /** The owned derivator (the source's `this.Derivator`); `f` and `dx` are stored only there. */
    const derivator: Derivator

    constructor (bias: Positive, maxIteration: Positive, derivator: Derivator)
      ensures this.bias == bias && this.maxIteration == maxIteration && this.derivator == derivator
      ensures stepNum == 0 && x.Undefined?
    {
      this.bias := bias;
      this.maxIteration := maxIteration;
      this.derivator := derivator;
      stepNum := 0;
      x := Undefined;
    }

    /** `new NewtonSolver({f, dx, bias, maxIteration})`: `bias || 1e-7` and
        `maxIteration || 50` are validated first, then the derivator is built from `f`
        and `dx` with the default direction. */
    static method Create(f: JsValue<real -> Value>, dx: JsValue<real -> Value>,
                         bias: JsValue<real -> Value>, maxIteration: JsValue<real -> Value>)
      returns (r: Result<NewtonSolver>)
      ensures CheckPositive(Or(bias, Number(DefaultTolerance))).Failure? ==>
                r == Failure(CheckPositive(Or(bias, Number(DefaultTolerance))).error)
      ensures (CheckPositive(Or(bias, Number(DefaultTolerance))).Success? &&
               CheckPositive(Or(maxIteration, Number(DefaultMaxIteration))).Failure?) ==>
                r == Failure(CheckPositive(Or(maxIteration, Number(DefaultMaxIteration))).error)
      ensures (CheckPositive(Or(bias, Number(DefaultTolerance))).Success? &&
               CheckPositive(Or(maxIteration, Number(DefaultMaxIteration))).Success? && !f.Function?) ==>
                r == Failure(NotAFunction)
      ensures (CheckPositive(Or(bias, Number(DefaultTolerance))).Success? &&
               CheckPositive(Or(maxIteration, Number(DefaultMaxIteration))).Success? && f.Function? &&
               CheckPositive(Or(dx, Number(DefaultStep))).Failure?) ==>
                r == Failure(CheckPositive(Or(dx, Number(DefaultStep))).error)
      ensures r.Success? <==> CheckPositive(Or(bias, Number(DefaultTolerance))).Success? &&
                              CheckPositive(Or(maxIteration, Number(DefaultMaxIteration))).Success? &&
                              f.Function? && CheckPositive(Or(dx, Number(DefaultStep))).Success?
      ensures r.Success? ==>
                fresh(r.value) && fresh(r.value.derivator) &&
                r.value.bias == CheckPositive(Or(bias, Number(DefaultTolerance))).value &&
                r.value.maxIteration == CheckPositive(Or(maxIteration, Number(DefaultMaxIteration))).value &&
                r.value.F() == f.fn && r.value.Dx() == CheckPositive(Or(dx, Number(DefaultStep))).value &&
                r.value.derivator.direction == Right &&
                r.value.stepNum == 0 && r.value.x.Undefined?
    {
      var b := CheckPositive(Or(bias, Number(DefaultTolerance)));
      if b.Failure? { return Failure(b.error); }
      var m := CheckPositive(Or(maxIteration, Number(DefaultMaxIteration)));
      if m.Failure? { return Failure(m.error); }
      var d := Derivator.Create(f, dx, Undefined);
      if d.Failure? { return Failure(d.error); }
      var s := new NewtonSolver(b.value, m.value, d.value);
      return Success(s);
    }

    /** The `f` accessor: read from the owned derivator. */
    function F(): real -> Value
      reads this, derivator
    {
      derivator.f
    }

    /** The `dx` accessor: read from the owned derivator. */
    function Dx(): Positive
      reads this, derivator
    {
      derivator.dx
    }

    /** The `f` setter writes the owned derivator, whose check applies. */
    method SetF(value: JsValue<real -> Value>) returns (o: Outcome)
      modifies derivator
      ensures o == if value.Function? then Pass else Fail(NotAFunction)
      ensures F() == if value.Function? then value.fn else old(F())
      ensures Dx() == old(Dx()) && derivator.direction == old(derivator.direction)
    {
      o := derivator.SetF(value);
    }

    /** The `dx` setter writes the owned derivator, whose check applies. */
    method SetDx(value: JsValue<real -> Value>) returns (o: Outcome)
      modifies derivator
      ensures o == if CheckPositive(value).Success? then Pass else Fail(CheckPositive(value).error)
      ensures Dx() == if value.Number? && value.n > 0.0 then value.n else old(Dx())
      ensures F() == old(F()) && derivator.direction == old(derivator.direction)
    {
      o := derivator.SetDx(value);
    }

    /** The `bias` setter: a non-number or a value <= 0 throws and leaves it unchanged. */
    method SetBias(value: JsValue<real -> Value>) returns (o: Outcome)
      modifies this
      ensures o == if CheckPositive(value).Success? then Pass else Fail(CheckPositive(value).error)
      ensures bias == if value.Number? && value.n > 0.0 then value.n else old(bias)
      ensures maxIteration == old(maxIteration) && stepNum == old(stepNum) && x == old(x)
    {
      match CheckPositive(value)
      case Failure(e) => o := Fail(e);
      case Success(v) => bias := v; o := Pass;
    }

    /** The `maxIteration` setter: a non-number or a value <= 0 throws and leaves it unchanged. */
    method SetMaxIteration(value: JsValue<real -> Value>) returns (o: Outcome)
      modifies this
      ensures o == if CheckPositive(value).Success? then Pass else Fail(CheckPositive(value).error)
      ensures maxIteration == if value.Number? && value.n > 0.0 then value.n else old(maxIteration)
      ensures bias == old(bias) && stepNum == old(stepNum) && x == old(x)
    {
      match CheckPositive(value)
      case Failure(e) => o := Fail(e);
      case Success(v) => maxIteration := v; o := Pass;
    }

    /** The `y` getter, `f(x)`: defined here once `x` is a number. */
    function Y(): Option<Value>
      reads this, derivator
    {
      if x.Number? then Some(derivator.f(x.n)) else None
    }

    /** The `derivative` getter: the owned derivator's `get` at the current `x`. */
    function Derivative(): Result<Rate>
      reads this, derivator
    {
      derivator.Get(x)
    }

    /** `solve(x0)`: seeds `x`, runs the loop, records `stepNum` and returns the solver itself.
        `fuel` bounds the number of zero-derivative escapes; with enough of it the run is
        the source's (see NewtonIteration.FuelSuffices). A throw leaves `stepNum` as it was. */
    method Solve(x0: JsValue<real -> Value>, fuel: nat) returns (self: NewtonSolver, status: Status)
      modifies this
      ensures self == this
      ensures bias == old(bias) && maxIteration == old(maxIteration)
      ensures !x0.Number? ==> status == Threw(XNotANumber) && x == x0 && stepNum == old(stepNum)
      ensures x0.Number? ==>
                var run := Iterate(ProbeOf(F(), Dx(), derivator.direction), Escape, Dx(),
                                   bias, maxIteration, x0.n, 0, fuel);
                status == run.status && x == Number(run.x) &&
                stepNum == if status.Converged? || status.Exhausted? then run.steps else old(stepNum)
      ensures status.Exhausted? ==> stepNum == Ceil(maxIteration)
      ensures status.Converged? ==> (stepNum as real) < maxIteration
    {
      x := x0;
      if !x0.Number? {
        // maxIteration > 0, so the first pass calls get on the non-number and throws
        return this, Threw(XNotANumber);
      }
      var run := Walk(derivator, bias, maxIteration, x0.n, fuel);
      StepBounds(ProbeOf(F(), Dx(), derivator.direction), Escape, Dx(), bias, maxIteration, x0.n, 0, fuel);
      x := Number(run.x);
      if run.status.Converged? || run.status.Exhausted? {
        stepNum := run.steps;
      }
      status := run.status;
      return this, status;
    }
  }
}
