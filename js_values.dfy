/** JavaScript values as the setters of the toolkit inspect them, the errors they throw,
    and the validation shared by every configuration setter. */
module JsValues {

  /** A JavaScript value, seen through `typeof` and truthiness only.
      `Object` stands for every object other than a function (arrays included);
      `Function` carries the callable itself, of the type the owning class expects.
      A `Number` always holds an exact real: NaN and the infinities are not modelled. */
  datatype JsValue<F> =
    | Undefined
    | Null
    | Bool(b: bool)
    | Number(n: real)
    | Str(s: string)
    | Object
    | Function(fn: F)

  /** The errors the toolkit throws, one per distinct message. */
  datatype Error =
    | NotAFunction       // a function-valued setter was given something that is not callable
    | NotANumber         // a numeric setter was given something whose typeof is not 'number'
    | NotPositive        // a numeric setter was given a number <= 0
    | InvalidDirection   // the direction setter was given anything but 'right', 'left' or 'both'
    | XNotANumber        // get(x) was called with an x whose typeof is not 'number'
    | InvalidReturn      // f(x) returned something whose typeof is neither 'number' nor 'object'
    | NullishSample      // a field of an `undefined` or `null` sample was read (a TypeError)

  datatype Option<T> = None | Some(value: T)

  /** A value, or the error a JavaScript `throw` would raise instead. */
  datatype Result<T> = Success(value: T) | Failure(error: Error)

  /** The completion of a setter: normal, or by a throw. */
  datatype Outcome = Pass | Fail(error: Error)

  /** Strictly positive reals: the type every validated step, tolerance and iteration cap has. */
  type Positive = r: real | 0.0 < r witness 1.0

  /** Default finite-difference step (1e-3). */
  const DefaultStep: Positive := 0.001
  /** Default termination error / bias (1e-7). */
  const DefaultTolerance: Positive := 0.0000001
  /** Default iteration cap (50). */
  const DefaultMaxIteration: Positive := 50.0

  /** JavaScript truthiness of the values this model can represent. */
  predicate Truthy<F>(v: JsValue<F>) {
    match v
    case Undefined => false
    case Null => false
    case Bool(b) => b
    case Number(n) => n != 0.0
    case Str(s) => s != ""
    case Object => true
    case Function(_) => true
  }

  /** The JavaScript expression `v || default`. */
  function Or<F>(v: JsValue<F>, default: JsValue<F>): JsValue<F>
  {
    if Truthy(v) then v else default
  }

  /** The check of a function-valued setter: `typeof(value) !== 'function'` throws. */
  function CheckFunction<F>(v: JsValue<F>): Result<F>
  {
    match v
    case Function(fn) => Success(fn)
    case _ => Failure(NotAFunction)
  }

  /** The check of a number-valued setter with no range restriction. */
  function CheckNumber<F>(v: JsValue<F>): Result<real>
  {
    if v.Number? then Success(v.n) else Failure(NotANumber)
  }

  /** The check of a positive-number setter: a non-number throws first, then a value <= 0. */
  function CheckPositive<F>(v: JsValue<F>): Result<Positive>
  {
    match CheckNumber(v)
    case Failure(e) => Failure(e)
    case Success(n) => if n <= 0.0 then Failure(NotPositive) else Success(n)
  }

  /** A constructor argument `v` defaulted with `v || d` and then validated as positive:
      a falsy argument (absent, 0, "", false, null) yields the default instead of an error,
      and only a truthy argument can make the check throw. */
  lemma DefaultedPositive<F>(v: JsValue<F>, d: Positive)
    ensures !Truthy(v) ==> CheckPositive(Or(v, Number(d))) == Success(d)
    ensures CheckPositive(Or(v, Number(d))).Failure? ==> Truthy(v) && CheckPositive(v).Failure?
    ensures CheckPositive(Or(v, Number(d))).Success? <==> !Truthy(v) || (v.Number? && v.n > 0.0)
  {
  }
}
