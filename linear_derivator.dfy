/** The central-difference derivator (src/LinearDerivator.js): a real function and a step,
    with no direction to choose. */
module LinearDerivators {
  import opened JsValues
  import opened DifferenceQuotients
  import UnaryDerivators

  class LinearDerivator {
    var primitiveFunction: real -> real
    var dx: Positive

    /** Builds a derivator from values that already passed the setters' checks. */
    constructor (primitiveFunction: real -> real, dx: Positive)
      ensures this.primitiveFunction == primitiveFunction && this.dx == dx
    {
      this.primitiveFunction := primitiveFunction;
      this.dx := dx;
    }

    /** `new LinearDerivator({primitiveFunction, dx})`: the setters run in the order
        primitiveFunction, then `dx || 1e-3`; the first failing one throws. */
    static method Create(primitiveFunction: JsValue<real -> real>, dx: JsValue<real -> real>)
      returns (r: Result<LinearDerivator>)
      ensures !primitiveFunction.Function? ==> r == Failure(NotAFunction)
      ensures (primitiveFunction.Function? && CheckPositive(Or(dx, Number(DefaultStep))).Failure?) ==>
                r == Failure(CheckPositive(Or(dx, Number(DefaultStep))).error)
      ensures r.Success? <==> primitiveFunction.Function? && CheckPositive(Or(dx, Number(DefaultStep))).Success?
      ensures r.Success? ==> fresh(r.value) && r.value.primitiveFunction == primitiveFunction.fn &&
                             r.value.dx == CheckPositive(Or(dx, Number(DefaultStep))).value
    {
      var fn := CheckFunction(primitiveFunction);
      if fn.Failure? { return Failure(fn.error); }
      var step := CheckPositive(Or(dx, Number(DefaultStep)));
      if step.Failure? { return Failure(step.error); }
      var d := new LinearDerivator(fn.value, step.value);
      return Success(d);
    }

    /** The `primitiveFunction` setter: a non-function throws and nothing changes. */
    method SetPrimitiveFunction(value: JsValue<real -> real>) returns (o: Outcome)
      modifies this
      ensures o == if value.Function? then Pass else Fail(NotAFunction)
      ensures primitiveFunction == if value.Function? then value.fn else old(primitiveFunction)
      ensures dx == old(dx)
    {
      match CheckFunction(value)
      case Failure(e) => o := Fail(e);
      case Success(fn) => primitiveFunction := fn; o := Pass;
    }

    /** The `dx` setter: a non-number or a value <= 0 throws; otherwise `dx` is exactly the value. */
    method SetDx(value: JsValue<real -> real>) returns (o: Outcome)
      modifies this
      ensures o == if CheckPositive(value).Success? then Pass else Fail(CheckPositive(value).error)
      ensures dx == if value.Number? && value.n > 0.0 then value.n else old(dx)
      ensures primitiveFunction == old(primitiveFunction)
    {
      match CheckPositive(value)
      case Failure(e) => o := Fail(e);
      case Success(v) => dx := v; o := Pass;
    }

    /** `get(x)`: throws on a non-number; otherwise the central quotient, computed as a
        halving followed by a division by `dx`. */
    function Get(x: JsValue<real -> real>): (r: Result<real>)
      reads this
      ensures !x.Number? ==> r == Failure(XNotANumber)
      ensures x.Number? ==> r == Success(Central(primitiveFunction, x.n, dx))
    {
      if !x.Number? then Failure(XNotANumber)
      else
        var f := primitiveFunction;
        HalveTwice(f(x.n + dx) - f(x.n - dx), dx);
        Success((f(x.n + dx) - f(x.n - dx)) / 2.0 / dx)
    }
  }

  /** A linear derivator and a unary derivator with direction 'both' over the same function
      and step give the same result on every argument, errors included. */
  lemma SameAsUnaryBoth(l: LinearDerivator, u: UnaryDerivators.UnaryDerivator, x: JsValue<real -> real>)
    requires l.primitiveFunction == u.primitiveFunction && l.dx == u.dx && u.direction == Both
    ensures l.Get(x) == u.Get(x)
  {
    if x.Number? {
      assert l.Get(x) == Success(Central(l.primitiveFunction, x.n, l.dx));
      assert u.Get(x) == Success(Quotient(Both, u.primitiveFunction, x.n, u.dx));
    }
  }
}
