/**
 * The straight line y = m*x + c, with the two-point constructor, evaluation in
 * both directions and the anchored averaging used by the extrapolator.
 */
module Gradients {
  import opened Wrappers
  import opened DataPoints

  datatype Gradient = Gradient(m: real, c: real)

  /** y = m*x + c */
  function YFromX(g: Gradient, x: real): real
  {
    g.m * x + g.c
  }

  /** The point p lies on the line g. */
  predicate OnLine(g: Gradient, p: DataPoint)
  {
    YFromX(g, p.x) == p.y
  }

  /** Inverse evaluation x = (y - c) / m; undefined for a flat line. */
  function XFromY(g: Gradient, y: real): (x: real)
    requires g.m != 0.0
    ensures YFromX(g, x) == y
  {
    (y - g.c) / g.m
  }

  /** Value equality on slope and intercept. */
  function Equals(g: Gradient, other: Gradient): (same: bool)
    ensures same <==> g == other
  {
    g.c == other.c && g.m == other.m
  }

  /**
   * The line through two points: none when they share an x-coordinate,
   * otherwise the slope of the segment and the intercept that puts `first` on it.
   */
  function CreateFrom(first: DataPoint, second: DataPoint): (r: Option<Gradient>)
    ensures r.None? <==> first.x == second.x
    ensures r.Some? ==> r.value.m == (second.y - first.y) / (second.x - first.x)
    ensures r.Some? ==> OnLine(r.value, first) && OnLine(r.value, second)
  {
    var yDiff := second.y - first.y;
    var xDiff := second.x - first.x;
    if xDiff == 0.0 then None
    else
      var gradient := yDiff / xDiff;
      var c := -(gradient * first.x) + first.y;
      ProductOfQuotient(yDiff, xDiff);
      assert gradient * xDiff == yDiff;
      assert gradient * second.x - gradient * first.x == gradient * xDiff;
      Some(Gradient(gradient, c))
  }

  /** Multiplying by a non-zero divisor undoes dividing by it. */
  lemma ProductOfQuotient(a: real, b: real)
    requires b != 0.0
    ensures b * (a / b) == a
  {
  }

  /** Dividing by a non-zero factor undoes multiplying by it. */
  lemma QuotientOfProduct(q: real, b: real, a: real)
    requires b != 0.0 && q * b == a
    ensures q == a / b
  {
  }

  /** The rise between two points of a line is its slope times the run. */
  lemma RiseOverRun(g: Gradient, first: DataPoint, second: DataPoint)
    requires OnLine(g, first) && OnLine(g, second)
    ensures g.m * (second.x - first.x) == second.y - first.y
  {
    assert g.m * (second.x - first.x) == g.m * second.x - g.m * first.x;
  }

  /** A line is fixed by two points of distinct x: CreateFrom finds the only one. */
  lemma CreateFromUnique(first: DataPoint, second: DataPoint, g: Gradient)
    requires first.x != second.x
    requires OnLine(g, first) && OnLine(g, second)
    ensures CreateFrom(first, second) == Some(g)
  {
    RiseOverRun(g, first, second);
    QuotientOfProduct(g.m, second.x - first.x, second.y - first.y);
    var r := CreateFrom(first, second);
    assert r.value.m == g.m;
    assert r.value.c == first.y - r.value.m * first.x;
    assert g.c == first.y - g.m * first.x;
    assert r.value.c == g.c;
    assert r.value == g;
  }

  /**
   * The line whose slope is the mean of the slopes of `g` and `next`, with the
   * intercept chosen so that it passes through `mustPassThrough`.
   */
  function AverageWith(g: Gradient, next: Gradient, mustPassThrough: DataPoint): (r: Gradient)
    ensures r.m == (g.m + next.m) / 2.0
    ensures OnLine(r, mustPassThrough)
  {
    var newM := (g.m + next.m) / 2.0;
    var average := Gradient(newM, 0.0);
    var predictedY := YFromX(average, mustPassThrough.x);
    Gradient(newM, mustPassThrough.y - predictedY)
  }

  /** The slope and the anchor determine the averaged line completely. */
  lemma AverageWithUnique(g: Gradient, next: Gradient, mustPassThrough: DataPoint, h: Gradient)
    requires h.m == (g.m + next.m) / 2.0
    requires OnLine(h, mustPassThrough)
    ensures AverageWith(g, next, mustPassThrough) == h
  {
  }

  /** Averaging a line with itself, anchored at one of its points, gives it back. */
  lemma AverageWithSelf(g: Gradient, p: DataPoint)
    requires OnLine(g, p)
    ensures AverageWith(g, g, p) == g
  {
    AverageWithUnique(g, g, p, g);
  }

  /** x-from-y undoes y-from-x on a line that is not flat. */
  lemma XFromYOfYFromX(g: Gradient, x: real)
    requires g.m != 0.0
    ensures XFromY(g, YFromX(g, x)) == x
  {
    var y := YFromX(g, x);
    assert g.m * XFromY(g, y) == g.m * x;
  }

  /** The point of the line at a given x. */
  function DataPointFromX(g: Gradient, x: real): (p: DataPoint)
    ensures p.x == x && OnLine(g, p)
  {
    DataPoint(x, YFromX(g, x))
  }

  /** The point of the line at a given y; the line must not be flat. */
  function DataPointFromY(g: Gradient, y: real): (p: DataPoint)
    requires g.m != 0.0
    ensures p.y == y && OnLine(g, p)
  {
    DataPoint(XFromY(g, y), y)
  }
}
