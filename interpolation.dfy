/**
 * The two-point linear interpolation both charge-percentage sensors use,
 * `_scale(x, upper, lower)`, and the facts about breakpoint tables that make
 * every chord of a collinear table give the same value.
 */
module Interpolation {

  /** A breakpoint: a battery voltage and the charge percentage it stands for. */
  type Point = (real, real)

  /**
   * `_scale(x, upper, lower)`: the point at `x` of the straight line through
   * `lower` and `upper` (slope `m`, written as `x * m - (m * x1 - y1)`).
   * Equal abscissas would divide by zero.
   */
  function Scale(x: real, upper: Point, lower: Point): (y: real)
    requires upper.0 != lower.0
    ensures (y - lower.1) * (upper.0 - lower.0) == (upper.1 - lower.1) * (x - lower.0)
  {
    var m := (upper.1 - lower.1) / (upper.0 - lower.0);
    var n := m * lower.0 - lower.1;
    assert m * (upper.0 - lower.0) == upper.1 - lower.1;
    assert x * m - n - lower.1 == m * (x - lower.0);
    x * m - n
  }

  /** The interpolation passes through both of its points. */
  lemma ScaleEndpoints(upper: Point, lower: Point)
    requires upper.0 != lower.0
    ensures Scale(lower.0, upper, lower) == lower.1
    ensures Scale(upper.0, upper, lower) == upper.1
  {
    var d := upper.0 - lower.0;
    var yl, yu := Scale(lower.0, upper, lower), Scale(upper.0, upper, lower);
    assert (yl - lower.1) * d == 0.0;
    assert (yu - lower.1) * d == (upper.1 - lower.1) * d;
    assert (yu - upper.1) * d == 0.0;
  }

  /** Between its points, a rising interpolation stays between their values. */
  lemma ScaleBetween(x: real, upper: Point, lower: Point)
    requires lower.0 < upper.0 && lower.1 <= upper.1
    requires lower.0 <= x <= upper.0
    ensures lower.1 <= Scale(x, upper, lower) <= upper.1
  {
    var y := Scale(x, upper, lower);
    var d := upper.0 - lower.0;
    assert (y - lower.1) * d == (upper.1 - lower.1) * (x - lower.0);
    assert (upper.1 - lower.1) * (x - lower.0) <= (upper.1 - lower.1) * d;
    assert 0.0 <= (y - lower.1) * d;
    assert (y - lower.1) * d <= (upper.1 - lower.1) * d;
  }

  /** Two points on the line `a * x + b` interpolate to that line everywhere. */
  lemma ScaleOnLine(x: real, upper: Point, lower: Point, a: real, b: real)
    requires upper.0 != lower.0
    requires upper.1 == a * upper.0 + b && lower.1 == a * lower.0 + b
    ensures Scale(x, upper, lower) == a * x + b
  {
    var y := Scale(x, upper, lower);
    var d := upper.0 - lower.0;
    assert upper.1 - lower.1 == a * d;
    assert (y - lower.1) * d == (a * (x - lower.0)) * d;
    assert y - lower.1 == a * (x - lower.0);
  }

  /** The breakpoints' voltages strictly increase. */
  predicate Increasing(t: seq<Point>)
  {
    forall i, j | 0 <= i < j < |t| :: t[i].0 < t[j].0
  }

  /** Every breakpoint lies on the line `a * x + b`. */
  predicate OnLine(t: seq<Point>, a: real, b: real)
  {
    forall i | 0 <= i < |t| :: t[i].1 == a * t[i].0 + b
  }

  /** In a table on one line, any chord between two different breakpoints gives the line's value. */
  lemma ChordOnLine(t: seq<Point>, a: real, b: real, i: nat, j: nat, x: real)
    requires Increasing(t) && OnLine(t, a, b)
    requires i < |t| && j < |t| && i != j
    ensures Scale(x, t[i], t[j]) == a * x + b
  {
    assert t[i].0 != t[j].0 by {
      if i < j { assert t[i].0 < t[j].0; } else { assert t[j].0 < t[i].0; }
    }
    ScaleOnLine(x, t[i], t[j], a, b);
  }
}
