/** The number-only derivator (src/UnaryDerivator.js): a real function, a step and a direction. */
module UnaryDerivators {
  import opened JsValues
  import opened DifferenceQuotients
  import Derivators

  class UnaryDerivator {
    var primitiveFunction: real -> real
    var dx: Positive
    var direction: Direction

    /** Builds a derivator from values that already passed the setters' checks. */
    constructor (primitiveFunction: real -> real, dx: Positive, direction: Direction)
      ensures this.primitiveFunction == primitiveFunction && this.dx == dx && this.direction == direction
    {
      this.primitiveFunction := primitiveFunction;
      this.dx := dx;
      this.direction := direction;
    }

    /** `new UnaryDerivator({primitiveFunction, dx, direction})`: the setters run in the order
        primitiveFunction, dx, direction, with `dx || 1e-3` and `direction || 'right'`. */
    static method Create(primitiveFunction: JsValue<real -> real>, dx: JsValue<real -> real>,
                         direction: JsValue<real -> real>)
      returns (r: Result<UnaryDerivator>)
      ensures !primitiveFunction.Function? ==> r == Failure(NotAFunction)
      ensures (primitiveFunction.Function? && CheckPositive(Or(dx, Number(DefaultStep))).Failure?) ==>
                r == Failure(CheckPositive(Or(dx, Number(DefaultStep))).error)
      ensures (primitiveFunction.Function? && CheckPositive(Or(dx, Number(DefaultStep))).Success? &&
               ParseDirection(Or(direction, Str("right"))).Failure?) ==> r == Failure(InvalidDirection)
      ensures r.Success? <==> primitiveFunction.Function? && CheckPositive(Or(dx, Number(DefaultStep))).Success? &&
                              ParseDirection(Or(direction, Str("right"))).Success?
      ensures r.Success? ==> fresh(r.value) && r.value.primitiveFunction == primitiveFunction.fn &&
                             r.value.dx == CheckPositive(Or(dx, Number(DefaultStep))).value &&
                             r.value.direction == ParseDirection(Or(direction, Str("right"))).value
    {
      var fn := CheckFunction(primitiveFunction);
      if fn.Failure? { return Failure(fn.error); }
      var step := CheckPositive(Or(dx, Number(DefaultStep)));
      if step.Failure? { return Failure(step.error); }
      var dir := ParseDirection(Or(direction, Str("right")));
      if dir.Failure? { return Failure(dir.error); }
      var d := new UnaryDerivator(fn.value, step.value, dir.value);
      return Success(d);
    }

    /** The `primitiveFunction` setter: a non-function throws and nothing changes. */
    method SetPrimitiveFunction(value: JsValue<real -> real>) returns (o: Outcome)
      modifies this
      ensures o == if value.Function? then Pass else Fail(NotAFunction)
      ensures primitiveFunction == if value.Function? then value.fn else old(primitiveFunction)
      ensures dx == old(dx) && direction == old(direction)
    {
      match CheckFunction(value)
      case Failure(e) => o := Fail(e);
      case Success(fn) => primitiveFunction := fn; o := Pass;
    }

    /** The `dx` setter: a non-number or a value <= 0 throws; otherwise `dx` is exactly the value. */
    method SetDx(value: JsValue<real -> real>) returns (o: Outcome)
      modifies this
      ensures o == if CheckPositive(value).Success? then Pass else Fail(CheckPositive(value).error)
      ensures dx == if value.Number? && value.n > 0.0 then value.n else old(dx)
      ensures primitiveFunction == old(primitiveFunction) && direction == old(direction)
    {
      match CheckPositive(value)
      case Failure(e) => o := Fail(e);
      case Success(v) => dx := v; o := Pass;
    }

    /** The `direction` setter: only 'right', 'left' and 'both' are accepted. */
    method SetDirection(value: JsValue<real -> real>) returns (o: Outcome)
      modifies this
      ensures o == if ParseDirection(value).Success? then Pass else Fail(InvalidDirection)
      ensures ParseDirection(value).Success? ==> value == Str(Name(direction))
      ensures ParseDirection(value).Failure? ==> direction == old(direction)
      ensures primitiveFunction == old(primitiveFunction) && dx == old(dx)
    {
      match ParseDirection(value)
      case Failure(e) => o := Fail(e);
      case Success(d) => direction := d; o := Pass;
    }

    /** `get(x)`: throws on a non-number; otherwise the scheme of the current direction, the
        central one computed as a halving followed by a division by `dx`. A function, so it
        changes no field. */
    function Get(x: JsValue<real -> real>): (r: Result<real>)
      reads this
      ensures !x.Number? ==> r == Failure(XNotANumber)
      ensures x.Number? ==> r == Success(Quotient(direction, primitiveFunction, x.n, dx))
    {
      if !x.Number? then Failure(XNotANumber)
      else
        var f := primitiveFunction;
        match direction
        case Right => Success((f(x.n + dx) - f(x.n)) / dx)
        case Left => Success((f(x.n) - f(x.n - dx)) / dx)
        case Both => HalveTwice(f(x.n + dx) - f(x.n - dx), dx); Success((f(x.n + dx) - f(x.n - dx)) / 2.0 / dx)
    }
  }

  /** The unary derivator is the general one restricted to number-valued functions: wrapping
      `g` as a number-valued function, the general `get` gives the same quotient. */
  lemma AgreesWithDerivator(g: real -> real, dx: Positive, d: Direction, x: real)
    ensures Derivators.Differentiate(p => Derivators.Num(g(p)), dx, d, Number(x)) ==
            Success(Derivators.Scalar(Derivators.Real(Quotient(d, g, x, dx))))
  {
    var f := (p: real) => Derivators.Num(g(p));
    Derivators.ScalarRate(f, dx, d, x);
    var h := Derivators.NumberPart(f);
    assert h(x) == g(x) && h(x + dx) == g(x + dx) && h(x - dx) == g(x - dx);
    assert Quotient(d, h, x, dx) == Quotient(d, g, x, dx);
  }
}
