/** The general derivator (src/Derivator.js): a function whose result is a number or an object
    of numeric fields, a step and a direction; `get(x)` differentiates field by field. */
module Derivators {
  import opened JsValues
  import opened DifferenceQuotients

  /** What `f(x)` returns: a number, an object of named numeric fields, `null` (`JsNull`, whose
      typeof is 'object' but which has no keys and no fields to read), `undefined`, or
      anything else whose typeof is neither 'number' nor 'object' (a string, a boolean). */
  datatype Value = Num(n: real) | Fields(fields: map<string, real>) | JsNull | JsUndefined | Other

  /** A JavaScript number in a result: an exact real, or NaN, which is what subtracting a
      missing field or a non-number sample gives. */
  datatype Numeric = Real(v: real) | NaN

  /** What `get(x)` returns: the type of the first sample decides its shape. */
  datatype Rate = Scalar(r: Numeric) | FieldRates(rates: map<string, Numeric>)

  /** The sample the result subtracts from (`f0`). */
  function LowerSample(f: real -> Value, dx: Positive, d: Direction, x: real): Value {
    match d
    case Right => f(x)
    case Left => f(x - dx)
    case Both => f(x - dx)
  }

  /** The sample the result subtracts `f0` from (`f1`). */
  function UpperSample(f: real -> Value, dx: Positive, d: Direction, x: real): Value {
    match d
    case Right => f(x + dx)
    case Left => f(x)
    case Both => f(x + dx)
  }

  /** The distance between the two samples: the step, doubled for 'both' (on a local only). */
  function Span(d: Direction, dx: Positive): Positive {
    if d == Both then 2.0 * dx else dx
  }

  /** The difference of two samples over a span, shaped by the first sample. In the number
      case `null` reads as 0 and every other non-number second sample gives NaN; in the
      object case, reading a field of a nullish second sample throws. */
  function Difference(f0: Value, f1: Value, span: Positive): Result<Rate> {
    match f0
    case Num(a) =>
      Success(Scalar(if f1.Num? then Real((f1.n - a) / span)
                     else if f1.JsNull? then Real((0.0 - a) / span)
                     else NaN))
    case Fields(m) =>
      if |m| > 0 && (f1.JsNull? || f1.JsUndefined?) then Failure(NullishSample)
      else Success(FieldRates(map k | k in m ::
        if f1.Fields? && k in f1.fields then Real((f1.fields[k] - m[k]) / span) else NaN))
    case JsNull => Success(FieldRates(map[]))
    case JsUndefined => Failure(InvalidReturn)
    case Other => Failure(InvalidReturn)
  }

  /** `get(x)` of a derivator holding `f`, `dx` and direction `d`. */
  function Differentiate(f: real -> Value, dx: Positive, d: Direction, x: JsValue<real -> Value>): (r: Result<Rate>)
    ensures r == Failure(XNotANumber) <==> !x.Number?
    ensures x.Number? ==>
              var f0, f1 := LowerSample(f, dx, d, x.n), UpperSample(f, dx, d, x.n);
              (r == Failure(InvalidReturn) <==> f0.JsUndefined? || f0.Other?) &&
              (f0.Num? ==> r.Success? && r.value.Scalar?) &&
              (f0.JsNull? ==> r == Success(FieldRates(map[]))) &&
              (f0.Fields? ==>
                 if |f0.fields| > 0 && (f1.JsNull? || f1.JsUndefined?) then r == Failure(NullishSample)
                 else r.Success? && r.value.FieldRates? && r.value.rates.Keys == f0.fields.Keys)
  {
    if !x.Number? then Failure(XNotANumber)
    else Difference(LowerSample(f, dx, d, x.n), UpperSample(f, dx, d, x.n), Span(d, dx))
  }

  /** The numeric part of `f`, as a real function (0 where `f` is not a number). */
  function NumberPart(f: real -> Value): real -> real {
    p => if f(p).Num? then f(p).n else 0.0
  }

  /** Field `k` of `f`, as a real function (0 where `f` has no such numeric field). */
  function Component(f: real -> Value, k: string): real -> real {
    p => if f(p).Fields? && k in f(p).fields then f(p).fields[k] else 0.0
  }

  /** On a number-valued `f`, `get` is the textbook scheme of its direction. */
  lemma ScalarRate(f: real -> Value, dx: Positive, d: Direction, x: real)
    requires LowerSample(f, dx, d, x).Num? && UpperSample(f, dx, d, x).Num?
    ensures Differentiate(f, dx, d, Number(x)) == Success(Scalar(Real(Quotient(d, NumberPart(f), x, dx))))
  {
    var g := NumberPart(f);
    match d
    case Right => assert g(x) == f(x).n && g(x + dx) == f(x + dx).n;
    case Left => assert g(x) == f(x).n && g(x - dx) == f(x - dx).n;
    case Both => assert g(x + dx) == f(x + dx).n && g(x - dx) == f(x - dx).n;
  }

  /** A number first sample with a non-number second sample: `null` reads as 0, so the
      result is the scheme applied with 0 in its place; anything else gives NaN. */
  lemma ScalarMismatch(f: real -> Value, dx: Positive, d: Direction, x: real)
    requires LowerSample(f, dx, d, x).Num? && !UpperSample(f, dx, d, x).Num?
    ensures Differentiate(f, dx, d, Number(x)) ==
              if UpperSample(f, dx, d, x).JsNull? then Success(Scalar(Real(Quotient(d, NumberPart(f), x, dx))))
              else Success(Scalar(NaN))
  {
    var g := NumberPart(f);
    if UpperSample(f, dx, d, x).JsNull? {
      match d {
        case Right => assert g(x) == f(x).n && g(x + dx) == 0.0;
        case Left => assert g(x - dx) == f(x - dx).n && g(x) == 0.0;
        case Both => assert g(x - dx) == f(x - dx).n && g(x + dx) == 0.0;
      }
    }
  }

  /** On an object-valued `f`, each field of the result is the scalar scheme applied to that
      field alone, or NaN when the second sample lacks the field; when the second sample is
      `undefined` or `null`, reading its field throws instead. */
  lemma FieldRate(f: real -> Value, dx: Positive, d: Direction, x: real, k: string)
    requires LowerSample(f, dx, d, x).Fields? && k in LowerSample(f, dx, d, x).fields
    ensures var f1, r := UpperSample(f, dx, d, x), Differentiate(f, dx, d, Number(x));
            if f1.JsNull? || f1.JsUndefined? then r == Failure(NullishSample)
            else r.Success? && r.value.FieldRates? && k in r.value.rates &&
                 r.value.rates[k] == if f1.Fields? && k in f1.fields then Real(Quotient(d, Component(f, k), x, dx)) else NaN
  {
    var g := Component(f, k);
    match d {
      case Right => assert g(x) == f(x).fields[k];
      case Left => assert g(x - dx) == f(x - dx).fields[k];
      case Both => assert g(x - dx) == f(x - dx).fields[k];
    }
    var f1 := UpperSample(f, dx, d, x);
    if f1.Fields? && k in f1.fields {
      match d {
        case Right => assert g(x + dx) == f1.fields[k];
        case Left => assert g(x) == f1.fields[k];
        case Both => assert g(x + dx) == f1.fields[k];
      }
    }
  }

  /** For a number-valued `f`, the 'both' result is the mean of the 'right' and 'left' results. */
  lemma BothIsMeanOfSides(f: real -> Value, dx: Positive, x: real)
    requires f(x - dx).Num? && f(x).Num? && f(x + dx).Num?
    ensures var right, left, both := Differentiate(f, dx, Right, Number(x)),
                                     Differentiate(f, dx, Left, Number(x)),
                                     Differentiate(f, dx, Both, Number(x));
            right.Success? && right.value.Scalar? && right.value.r.Real? &&
            left.Success? && left.value.Scalar? && left.value.r.Real? &&
            both == Success(Scalar(Real((right.value.r.v + left.value.r.v) / 2.0)))
  {
    ScalarRate(f, dx, Right, x);
    ScalarRate(f, dx, Left, x);
    ScalarRate(f, dx, Both, x);
    CentralIsMean(NumberPart(f), x, dx);
  }

  /** The derivator object: its setters validate and leave the state unchanged on a throw. */
  class Derivator {
    var f: real -> Value
    var dx: Positive
    var direction: Direction

    /** Builds a derivator from values that already passed the setters' checks. */
    constructor (f: real -> Value, dx: Positive, direction: Direction)
      ensures this.f == f && this.dx == dx && this.direction == direction
    {
      this.f := f;
      this.dx := dx;
      this.direction := direction;
    }

    /** `new Derivator({f, dx, direction})`: the setters run in the order f, dx, direction,
        with `dx || 1e-3` and `direction || 'right'`; the first failing one throws. */
    static method Create(f: JsValue<real -> Value>, dx: JsValue<real -> Value>, direction: JsValue<real -> Value>)
      returns (r: Result<Derivator>)
      ensures !f.Function? ==> r == Failure(NotAFunction)
      ensures f.Function? && CheckPositive(Or(dx, Number(DefaultStep))).Failure? ==>
                r == Failure(CheckPositive(Or(dx, Number(DefaultStep))).error)
      ensures (f.Function? && CheckPositive(Or(dx, Number(DefaultStep))).Success? &&
               ParseDirection(Or(direction, Str("right"))).Failure?) ==> r == Failure(InvalidDirection)
      ensures r.Success? <==> f.Function? && CheckPositive(Or(dx, Number(DefaultStep))).Success? &&
                              ParseDirection(Or(direction, Str("right"))).Success?
      ensures r.Success? ==> fresh(r.value) && r.value.f == f.fn &&
                             r.value.dx == CheckPositive(Or(dx, Number(DefaultStep))).value &&
                             r.value.direction == ParseDirection(Or(direction, Str("right"))).value
    {
      var fn := CheckFunction(f);
      if fn.Failure? { return Failure(fn.error); }
      var step := CheckPositive(Or(dx, Number(DefaultStep)));
      if step.Failure? { return Failure(step.error); }
      var dir := ParseDirection(Or(direction, Str("right")));
      if dir.Failure? { return Failure(dir.error); }
      var d := new Derivator(fn.value, step.value, dir.value);
      return Success(d);
    }

    /** The `f` setter: a non-function throws and `f` keeps its value. */
    method SetF(value: JsValue<real -> Value>) returns (o: Outcome)
      modifies this
      ensures o == if value.Function? then Pass else Fail(NotAFunction)
      ensures f == if value.Function? then value.fn else old(f)
      ensures dx == old(dx) && direction == old(direction)
    {
      match CheckFunction(value)
      case Failure(e) => o := Fail(e);
      case Success(fn) => f := fn; o := Pass;
    }

    /** The `dx` setter: a non-number or a value <= 0 throws; otherwise `dx` is exactly the value. */
    method SetDx(value: JsValue<real -> Value>) returns (o: Outcome)
      modifies this
      ensures o == if CheckPositive(value).Success? then Pass else Fail(CheckPositive(value).error)
      ensures dx == if value.Number? && value.n > 0.0 then value.n else old(dx)
      ensures f == old(f) && direction == old(direction)
    {
      match CheckPositive(value)
      case Failure(e) => o := Fail(e);
      case Success(v) => dx := v; o := Pass;
    }

    /** The `direction` setter: only 'right', 'left' and 'both' are accepted. */
    method SetDirection(value: JsValue<real -> Value>) returns (o: Outcome)
      modifies this
      ensures o == if ParseDirection(value).Success? then Pass else Fail(InvalidDirection)
      ensures ParseDirection(value).Success? ==> value == Str(Name(direction))
      ensures ParseDirection(value).Failure? ==> direction == old(direction)
      ensures f == old(f) && dx == old(dx)
    {
      match ParseDirection(value)
      case Failure(e) => o := Fail(e);
      case Success(d) => direction := d; o := Pass;
    }

    /** `get(x)`: a function of the current fields, so it changes none of them. */
    function Get(x: JsValue<real -> Value>): Result<Rate>
      reads this
    {
      Differentiate(f, dx, direction, x)
    }
  }
}
