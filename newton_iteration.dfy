/** The loop every solver's `solve` runs, as a function of what each pass observes:
    `for (i = 0; i < maxIteration; i++)`, a zero-derivative policy, the Newton update from
    pre-update values, and a convergence test on the pre-update `y`. */
module NewtonIteration {
  import opened JsValues

  /** What one pass of the loop body sees at the current iterate. */
  datatype Probe =
    | Slope(slope: real, y: Option<real>)  // a real derivative estimate; `y` is f(x) when that is a real number
    | Throws(error: Error)                 // computing the derivative estimate threw
    | Unreal                               // the derivative estimate is not a real number (NaN, a field map)

  /** What a zero derivative estimate does: shift `x` by the step and retry the same
      iteration, or leave the loop at once. */
  datatype FlatPolicy = Escape | Stop

  /** How a run ended. `Converged`, `Exhausted` and `Stalled` are the source's normal returns
      (which JavaScript does not tell apart); `Threw` is a throw out of `solve`; `LeftReals`
      is where JavaScript would go on with a NaN iterate; `OutOfFuel` is where the escape
      budget of this model ran out. */
  datatype Status = Converged | Exhausted | Stalled | Threw(error: Error) | LeftReals | OutOfFuel

  /** The final iterate and the final loop counter. */
  datatype Run = Run(status: Status, x: real, steps: int)

  function Abs(r: real): (a: real)
    ensures a >= 0.0 && (a == r || a == -r)
  {
    if r < 0.0 then -r else r
  }

  /** The number of passes `for (i = 0; i < m; i++)` makes: the least integer not below `m`. */
  function Ceil(m: real): (c: int)
    ensures m <= c as real < m + 1.0
  {
    if m.Floor as real == m then m.Floor else m.Floor + 1
  }

  /** An integer counter is below `m` exactly when it is below the loop bound. */
  lemma BelowCeil(i: int, m: real)
    ensures (i as real < m) <==> i < Ceil(m)
  {
  }

  /** The loop from iterate `x` and counter `i`, with `fuel` zero-derivative escapes left.
      The escape leaves `i` as it is (the source's `i--` before `continue`); a Newton update
      that passes the convergence test leaves the loop with `i` unchanged (`break`). */
  function Iterate(probe: real -> Probe, policy: FlatPolicy, dx: real, tolerance: real,
                   maxIteration: real, x: real, i: int, fuel: nat): Run
    decreases fuel, Ceil(maxIteration) - i
  {
    if !(i as real < maxIteration) then Run(Exhausted, x, i)
    else
      match probe(x)
      case Throws(e) => Run(Threw(e), x, i)
      case Unreal => Run(LeftReals, x, i)
      case Slope(d, y) =>
        if d == 0.0 then
          if policy == Stop then Run(Stalled, x, i)
          else if fuel == 0 then Run(OutOfFuel, x, i)
          else Iterate(probe, policy, dx, tolerance, maxIteration, x + dx, i, fuel - 1)
        else if y.None? then Run(LeftReals, x, i)
        else if Abs(y.value) < tolerance then Run(Converged, x - y.value / d, i)
        else Iterate(probe, policy, dx, tolerance, maxIteration, x - y.value / d, i + 1, fuel)
  }

  /** The counter never decreases and never passes the loop bound; the run is exhausted
      exactly when it reaches the bound, and every other exit leaves it below `maxIteration`. */
  lemma {:induction false} StepBounds(probe: real -> Probe, policy: FlatPolicy, dx: real, tolerance: real,
                                      maxIteration: real, x: real, i: int, fuel: nat)
    requires i <= Ceil(maxIteration)
    ensures var r := Iterate(probe, policy, dx, tolerance, maxIteration, x, i, fuel);
            i <= r.steps <= Ceil(maxIteration) &&
            (r.status == Exhausted <==> r.steps == Ceil(maxIteration)) &&
            (r.status != Exhausted ==> (r.steps as real) < maxIteration)
    decreases fuel, Ceil(maxIteration) - i
  {
    BelowCeil(i, maxIteration);
    if i as real < maxIteration {
      match probe(x)
      case Throws(_) =>
      case Unreal =>
      case Slope(d, y) =>
        if d == 0.0 {
          if policy == Escape && fuel > 0 {
            StepBounds(probe, policy, dx, tolerance, maxIteration, x + dx, i, fuel - 1);
          }
        } else if y.Some? && !(Abs(y.value) < tolerance) {
          StepBounds(probe, policy, dx, tolerance, maxIteration, x - y.value / d, i + 1, fuel);
        }
    }
  }

  /** What the final state is on each exit path. */
  ghost predicate ExitedAs(probe: real -> Probe, policy: FlatPolicy, tolerance: real, r: Run) {
    match r.status
    case Converged =>
      exists a: real, d: real, y: real ::
        probe(a) == Slope(d, Some(y)) && d != 0.0 && Abs(y) < tolerance && r.x == a - y / d
    case Exhausted => true
    case Stalled => policy == Stop && probe(r.x).Slope? && probe(r.x).slope == 0.0
    case Threw(e) => probe(r.x) == Throws(e)
    case LeftReals => probe(r.x).Unreal? || (probe(r.x).Slope? && probe(r.x).y.None?)
    case OutOfFuel => policy == Escape && probe(r.x).Slope? && probe(r.x).slope == 0.0
  }

  /** On convergence the result is one Newton step past an accepted point whose |y| is below
      the tolerance; a stall is at a zero slope and only under the stop policy; a throw or an
      exit from the reals is at the iterate where it happened; running out of escapes only
      happens under the escape policy, at a zero slope. */
  lemma {:induction false} ExitPoint(probe: real -> Probe, policy: FlatPolicy, dx: real, tolerance: real,
                                     maxIteration: real, x: real, i: int, fuel: nat)
    ensures ExitedAs(probe, policy, tolerance, Iterate(probe, policy, dx, tolerance, maxIteration, x, i, fuel))
    decreases fuel, Ceil(maxIteration) - i
  {
    if i as real < maxIteration {
      match probe(x)
      case Throws(_) =>
      case Unreal =>
      case Slope(d, y) =>
        if d == 0.0 {
          if policy == Escape && fuel > 0 {
            ExitPoint(probe, policy, dx, tolerance, maxIteration, x + dx, i, fuel - 1);
          }
        } else if y.Some? {
          if Abs(y.value) < tolerance {
            assert probe(x) == Slope(d, Some(y.value));
          } else {
            ExitPoint(probe, policy, dx, tolerance, maxIteration, x - y.value / d, i + 1, fuel);
          }
        }
    }
  }

  /** A pass whose derivative estimate and value are always real numbers. */
  ghost predicate AlwaysReal(probe: real -> Probe) {
    forall p :: probe(p).Slope? && probe(p).y.Some?
  }

  /** When every pass sees real numbers the run neither throws nor leaves the reals; it stalls
      only under the stop policy and runs out of escapes only under the escape policy. */
  lemma RealExits(probe: real -> Probe, policy: FlatPolicy, dx: real, tolerance: real,
                  maxIteration: real, x: real, i: int, fuel: nat)
    requires AlwaysReal(probe)
    ensures var r := Iterate(probe, policy, dx, tolerance, maxIteration, x, i, fuel);
            r.status.Converged? || r.status.Exhausted? ||
            (policy == Stop && r.status.Stalled?) || (policy == Escape && r.status.OutOfFuel?)
  {
    var r := Iterate(probe, policy, dx, tolerance, maxIteration, x, i, fuel);
    ExitPoint(probe, policy, dx, tolerance, maxIteration, x, i, fuel);
    assert probe(r.x).Slope? && probe(r.x).y.Some?;
  }

  /** The stop policy never needs the escape budget: it never runs out of fuel, and the
      budget it is given makes no difference. */
  lemma {:induction false} StopIgnoresFuel(probe: real -> Probe, dx: real, tolerance: real,
                                           maxIteration: real, x: real, i: int, fuel: nat, fuel': nat)
    ensures Iterate(probe, Stop, dx, tolerance, maxIteration, x, i, fuel).status != OutOfFuel
    ensures Iterate(probe, Stop, dx, tolerance, maxIteration, x, i, fuel) ==
            Iterate(probe, Stop, dx, tolerance, maxIteration, x, i, fuel')
    decreases Ceil(maxIteration) - i
  {
    if i as real < maxIteration {
      match probe(x)
      case Throws(_) =>
      case Unreal =>
      case Slope(d, y) =>
        if d != 0.0 && y.Some? && !(Abs(y.value) < tolerance) {
          StopIgnoresFuel(probe, dx, tolerance, maxIteration, x - y.value / d, i + 1, fuel, fuel');
        }
    }
  }

  /** A run that finished within its escape budget finishes the same way with any larger one:
      the budget only cuts off runs the source would continue, and the model agrees with the
      unbounded source loop on every run it completes. */
  lemma {:induction false} FuelSuffices(probe: real -> Probe, policy: FlatPolicy, dx: real, tolerance: real,
                                        maxIteration: real, x: real, i: int, fuel: nat, more: nat)
    requires Iterate(probe, policy, dx, tolerance, maxIteration, x, i, fuel).status != OutOfFuel
    requires fuel <= more
    ensures Iterate(probe, policy, dx, tolerance, maxIteration, x, i, more) ==
            Iterate(probe, policy, dx, tolerance, maxIteration, x, i, fuel)
    decreases fuel, Ceil(maxIteration) - i
  {
    if i as real < maxIteration {
      match probe(x)
      case Throws(_) =>
      case Unreal =>
      case Slope(d, y) =>
        if d == 0.0 {
          if policy == Escape {
            FuelSuffices(probe, policy, dx, tolerance, maxIteration, x + dx, i, fuel - 1, more - 1);
          }
        } else if y.Some? && !(Abs(y.value) < tolerance) {
          FuelSuffices(probe, policy, dx, tolerance, maxIteration, x - y.value / d, i + 1, fuel, more);
        }
    }
  }

  /** The iterate has a zero derivative estimate. */
  predicate FlatAt(probe: real -> Probe, p: real) {
    probe(p).Slope? && probe(p).slope == 0.0
  }

  /** The iterate after `j` escapes from `x`. */
  function Nudged(x: real, dx: real, j: nat): real {
    x + j as real * dx
  }

  /** Under the escape policy, `k` flat points spaced `dx` apart shift the iterate by `k dx`
      and consume `k` escapes but no iteration: the counter is the same afterwards. */
  lemma {:induction false} EscapeRun(probe: real -> Probe, dx: real, tolerance: real,
                                     maxIteration: real, x: real, i: int, fuel: nat, k: nat)
    requires i as real < maxIteration
    requires k <= fuel
    requires forall j: nat :: j < k ==> FlatAt(probe, Nudged(x, dx, j))
    ensures Iterate(probe, Escape, dx, tolerance, maxIteration, x, i, fuel) ==
            Iterate(probe, Escape, dx, tolerance, maxIteration, Nudged(x, dx, k), i, fuel - k)
    decreases k
  {
    if k > 0 {
      assert FlatAt(probe, Nudged(x, dx, 0));
      assert Nudged(x, dx, 0) == x;
      var next := x + dx;
      forall j: nat | j < k - 1
        ensures FlatAt(probe, Nudged(next, dx, j))
      {
        assert Nudged(next, dx, j) == Nudged(x, dx, j + 1);
        assert FlatAt(probe, Nudged(x, dx, j + 1));
      }
      EscapeRun(probe, dx, tolerance, maxIteration, next, i, fuel - 1, k - 1);
      assert Nudged(next, dx, k - 1) == Nudged(x, dx, k);
    }
  }

  /** Under the stop policy a zero slope at the current iterate ends the run right there:
      `x` is not moved and the counter is the index of that pass. */
  lemma StopAtFlat(probe: real -> Probe, dx: real, tolerance: real,
                   maxIteration: real, x: real, i: int, fuel: nat)
    requires i as real < maxIteration
    requires probe(x).Slope? && probe(x).slope == 0.0
    ensures Iterate(probe, Stop, dx, tolerance, maxIteration, x, i, fuel) == Run(Stalled, x, i)
  {
  }

  /** Every pass sees the exact slope `a` and the value `a p + b` of an affine function. */
  ghost predicate AffineProbe(probe: real -> Probe, a: real, b: real) {
    forall p :: probe(p) == Slope(a, Some(a * p + b))
  }

  /** An affine probe seen at one point. */
  lemma AffineAt(probe: real -> Probe, a: real, b: real, p: real)
    requires AffineProbe(probe, a, b)
    ensures probe(p) == Slope(a, Some(a * p + b))
  {
  }

  /** One Newton update on `a p + b` from any `x` lands on the root `-b / a`. */
  lemma AffineUpdate(a: real, b: real, x: real, root: real)
    requires a != 0.0 && root == -b / a
    ensures x - (a * x + b) / a == root
    ensures a * root + b == 0.0
  {
    assert (a * x + b) / a == x + b / a;
    assert a * root == -b;
  }

  /** A pass with a nonzero slope that lands on a point where `y` is zero and the slope is
      nonzero too: the run ends on that point after at most one counted pass. */
  lemma LandOnRoot(probe: real -> Probe, policy: FlatPolicy, dx: real, tolerance: real,
                   maxIteration: real, x: real, fuel: nat, a: real, y: real, root: real)
    requires probe(x) == Slope(a, Some(y)) && a != 0.0 && root == x - y / a
    requires probe(root).Slope? && probe(root).slope != 0.0 && probe(root).y == Some(0.0)
    requires 0.0 < tolerance && 0.0 < maxIteration
    ensures var r := Iterate(probe, policy, dx, tolerance, maxIteration, x, 0, fuel);
            r.x == root && 0 <= r.steps <= 1 &&
            (r.status.Converged? || (r.status.Exhausted? && maxIteration <= 1.0))
  {
    if !(Abs(y) < tolerance) {
      assert Iterate(probe, policy, dx, tolerance, maxIteration, x, 0, fuel) ==
             Iterate(probe, policy, dx, tolerance, maxIteration, root, 1, fuel);
    }
  }

  /** On an affine function with a nonzero slope one Newton update lands on the root
      `-b / a`: the run converges there after at most one counted pass, or is cut off
      right after the update when `maxIteration` allows only one pass. */
  lemma AffineRoot(probe: real -> Probe, policy: FlatPolicy, dx: real, tolerance: real,
                   maxIteration: real, x: real, fuel: nat, a: real, b: real)
    requires AffineProbe(probe, a, b) && a != 0.0
    requires 0.0 < tolerance && 0.0 < maxIteration
    ensures var r := Iterate(probe, policy, dx, tolerance, maxIteration, x, 0, fuel);
            r.x == -b / a && 0 <= r.steps <= 1 &&
            (r.status.Converged? || (r.status.Exhausted? && maxIteration <= 1.0))
  {
    var root := -b / a;
    AffineUpdate(a, b, x, root);
    AffineAt(probe, a, b, x);
    AffineAt(probe, a, b, root);
    LandOnRoot(probe, policy, dx, tolerance, maxIteration, x, fuel, a, a * x + b, root);
  }

  /** Where every pass sees a zero slope the escape policy never leaves the loop: whatever
      the budget, it is spent and the run ends out of fuel, so the unbounded source loop
      does not terminate. */
  lemma {:induction false} FlatEverywhere(probe: real -> Probe, dx: real, tolerance: real,
                                          maxIteration: real, x: real, i: int, fuel: nat)
    requires forall p :: FlatAt(probe, p)
    requires i as real < maxIteration
    ensures Iterate(probe, Escape, dx, tolerance, maxIteration, x, i, fuel).status == OutOfFuel
    decreases fuel
  {
    assert FlatAt(probe, x);
    if fuel > 0 {
      FlatEverywhere(probe, dx, tolerance, maxIteration, x + dx, i, fuel - 1);
    }
  }
}
