/** The three finite-difference schemes over exact reals, and the differencing direction
    that selects one of them. */
module DifferenceQuotients {
  import opened JsValues

  /** The differencing direction: 'right' (forward), 'left' (backward), 'both' (central). */
  datatype Direction = Right | Left | Both

  /** The string the direction getter returns for a stored direction. */
  function Name(d: Direction): string {
    match d
    case Right => "right"
    case Left => "left"
    case Both => "both"
  }

  /** The direction setter: only the three strings are accepted, anything else throws. */
  function ParseDirection<F>(v: JsValue<F>): (r: Result<Direction>)
    ensures r.Success? <==> v.Str? && v.s in {"right", "left", "both"}
    ensures r.Failure? ==> r.error == InvalidDirection
    ensures r.Success? ==> v == Str(Name(r.value))
  {
    if v.Str? && v.s == "right" then Success(Right)
    else if v.Str? && v.s == "left" then Success(Left)
    else if v.Str? && v.s == "both" then Success(Both)
    else Failure(InvalidDirection)
  }

  /** Reading a direction back and assigning it again gives the same direction. */
  lemma ParseName<F>(d: Direction)
    ensures ParseDirection<F>(Str(Name(d))) == Success(d)
  {
  }

  /** Forward difference `(g(x+dx) - g(x)) / dx`. */
  function Forward(g: real -> real, x: real, dx: Positive): real {
    (g(x + dx) - g(x)) / dx
  }

  /** Backward difference `(g(x) - g(x-dx)) / dx`. */
  function Backward(g: real -> real, x: real, dx: Positive): real {
    (g(x) - g(x - dx)) / dx
  }

  /** Central difference `(g(x+dx) - g(x-dx)) / (2 dx)`. */
  function Central(g: real -> real, x: real, dx: Positive): real {
    (g(x + dx) - g(x - dx)) / (2.0 * dx)
  }

  /** The scheme a direction selects. */
  function Quotient(d: Direction, g: real -> real, x: real, dx: Positive): real {
    match d
    case Right => Forward(g, x, dx)
    case Left => Backward(g, x, dx)
    case Both => Central(g, x, dx)
  }

  /** Over exact reals the central difference is the mean of the forward and the backward one. */
  lemma CentralIsMean(g: real -> real, x: real, dx: Positive)
    ensures Central(g, x, dx) == (Forward(g, x, dx) + Backward(g, x, dx)) / 2.0
  {
    var a, b, c := g(x - dx), g(x), g(x + dx);
    calc {
      (Forward(g, x, dx) + Backward(g, x, dx)) / 2.0;
      ((c - b) / dx + (b - a) / dx) / 2.0;
      { assert (c - b) / dx + (b - a) / dx == (c - a) / dx; }
      ((c - a) / dx) / 2.0;
      { HalveTwice(c - a, dx); }
      Central(g, x, dx);
    }
  }

  /** Dividing by 2 and then by dx is dividing by 2 dx, as the unary and linear
      derivators compute the central difference. */
  lemma HalveTwice(a: real, dx: Positive)
    ensures a / 2.0 / dx == a / (2.0 * dx)
    ensures (a / dx) / 2.0 == a / (2.0 * dx)
  {
    assert a / 2.0 / dx * (2.0 * dx) == a;
    assert (a / dx) / 2.0 * (2.0 * dx) == a;
  }

  /** The backward difference at x is the forward difference at x - dx. */
  lemma BackwardIsShiftedForward(g: real -> real, x: real, dx: Positive)
    ensures Backward(g, x, dx) == Forward(g, x - dx, dx)
  {
    assert x - dx + dx == x;
  }

  /** Every scheme is exact on an affine function: where `g` agrees with `a p + b` at the
      three sample points, each returns the slope `a`. */
  lemma ExactOnAffine(d: Direction, g: real -> real, a: real, b: real, x: real, dx: Positive)
    requires g(x - dx) == a * (x - dx) + b && g(x) == a * x + b && g(x + dx) == a * (x + dx) + b
    ensures Quotient(d, g, x, dx) == a
  {
    assert a * dx / dx == a;
    assert a * (2.0 * dx) / (2.0 * dx) == a;
    assert g(x + dx) - g(x) == a * dx;
    assert g(x) - g(x - dx) == a * dx;
    assert g(x + dx) - g(x - dx) == a * (2.0 * dx);
  }

  /** The central scheme is exact one degree further: on a quadratic it returns the
      derivative `2 a x + b` itself, whatever the step. */
  lemma CentralExactOnQuadratic(a: real, b: real, c: real, x: real, dx: Positive)
    ensures Central(p => a * p * p + b * p + c, x, dx) == 2.0 * a * x + b
  {
    var g := (p: real) => a * p * p + b * p + c;
    var h := 2.0 * dx;
    assert (x + dx) * (x + dx) - (x - dx) * (x - dx) == 2.0 * x * h;
    assert g(x + dx) - g(x - dx) == a * (2.0 * x * h) + b * h;
    assert a * (2.0 * x * h) + b * h == (2.0 * a * x + b) * h;
    assert (2.0 * a * x + b) * h / h == 2.0 * a * x + b;
  }
}
