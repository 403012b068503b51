/**
 * Fitting one line to an ordered series of points, and the convergence of two
 * fitted lines or of one fitted line with a target coordinate.
 */
module Extrapolator {
  import opened Wrappers
  import opened DataPoints
  import opened Gradients

  /** Some consecutive pair of points shares an x-coordinate (a vertical segment). */
  predicate HasVerticalSegment(data: seq<DataPoint>)
  {
    exists i :: 0 <= i < |data| - 1 && data[i].x == data[i + 1].x
  }

  /**
   * The running gradient after the segments ending at data[1], ..., data[k]:
   * the first segment's line, then each further segment averaged in and the
   * result re-anchored at the segment's right-hand point. None as soon as a
   * segment is vertical.
   */
  function FitThrough(data: seq<DataPoint>, k: nat): Option<Gradient>
    requires 1 <= k < |data|
    decreases k
  {
    var segment := CreateFrom(data[k - 1], data[k]);
    if k == 1 then segment
    else
      match FitThrough(data, k - 1)
      case None => None
      case Some(current) =>
        match segment
        case None => None
        case Some(next) => Some(AverageWith(current, next, data[k]))
  }

  /** The gradient fitted to a whole series; none for fewer than two points. */
  function FittedGradient(data: seq<DataPoint>): Option<Gradient>
  {
    if |data| < 2 then None else FitThrough(data, |data| - 1)
  }

  /** The fold fails exactly when one of the segments it has taken in is vertical. */
  lemma {:induction false} FitThroughNoneIff(data: seq<DataPoint>, k: nat)
    requires 1 <= k < |data|
    ensures FitThrough(data, k).None? <==> exists i :: 0 <= i < k && data[i].x == data[i + 1].x
  {
    if k > 1 {
      FitThroughNoneIff(data, k - 1);
      if data[k - 1].x == data[k].x {
        assert 0 <= k - 1 < k && data[k - 1].x == data[k - 1 + 1].x;
      }
    }
  }

  /** Fitting fails exactly for fewer than two points or a vertical segment. */
  lemma FittedGradientNoneIff(data: seq<DataPoint>)
    ensures FittedGradient(data).None? <==> |data| < 2 || HasVerticalSegment(data)
  {
    if |data| >= 2 {
      FitThroughNoneIff(data, |data| - 1);
    }
  }

  /** With exactly two points the fit is the line through them. */
  lemma FittedGradientOfTwo(data: seq<DataPoint>)
    requires |data| == 2
    ensures FittedGradient(data) == CreateFrom(data[0], data[1])
  {
  }

  /** Two points of distinct x are fitted by the one line through both. */
  lemma FittedGradientOfPair(first: DataPoint, second: DataPoint, g: Gradient)
    requires first.x != second.x
    requires OnLine(g, first) && OnLine(g, second)
    ensures FittedGradient([first, second]) == Some(g)
  {
    CreateFromUnique(first, second, g);
  }

  /**
   * With three points or more, a successful fit has the mean of the fitted slope
   * of the shorter series and the slope of the last segment, and passes
   * through the last point.
   */
  lemma FittedGradientStep(data: seq<DataPoint>)
    requires |data| >= 3
    requires FittedGradient(data).Some?
    ensures FittedGradient(data[..|data| - 1]).Some?
    ensures CreateFrom(data[|data| - 2], data[|data| - 1]).Some?
    ensures FittedGradient(data).value.m
      == (FittedGradient(data[..|data| - 1]).value.m
          + CreateFrom(data[|data| - 2], data[|data| - 1]).value.m) / 2.0
    ensures OnLine(FittedGradient(data).value, data[|data| - 1])
  {
    var n := |data|;
    FitThroughPrefix(data, n - 1, n - 2);
  }

  /** The fold over a series only looks at the points it has reached. */
  lemma {:induction false} FitThroughPrefix(data: seq<DataPoint>, n: nat, k: nat)
    requires 1 <= k < n <= |data|
    ensures FitThrough(data[..n], k) == FitThrough(data, k)
  {
    if k > 1 {
      FitThroughPrefix(data, n, k - 1);
    }
  }

  /** A successful fit passes through the last point of the series. */
  lemma FittedGradientThroughLast(data: seq<DataPoint>)
    requires FittedGradient(data).Some?
    ensures |data| >= 2 && OnLine(FittedGradient(data).value, data[|data| - 1])
  {
  }

  /** Points that all lie on one line, with no vertical segment, are fitted by that line. */
  lemma {:induction false} FitThroughCollinear(data: seq<DataPoint>, g: Gradient, k: nat)
    requires 1 <= k < |data|
    requires forall i :: 0 <= i <= k ==> OnLine(g, data[i])
    requires forall i :: 0 <= i < k ==> data[i].x != data[i + 1].x
    ensures FitThrough(data, k) == Some(g)
  {
    CreateFromUnique(data[k - 1], data[k], g);
    if k > 1 {
      FitThroughCollinear(data, g, k - 1);
      AverageWithSelf(g, data[k]);
    }
  }

  /** The fitted line of collinear data is that line. */
  lemma FittedGradientCollinear(data: seq<DataPoint>, g: Gradient)
    requires |data| >= 2 && !HasVerticalSegment(data)
    requires forall i :: 0 <= i < |data| ==> OnLine(g, data[i])
    ensures FittedGradient(data) == Some(g)
  {
    FitThroughCollinear(data, g, |data| - 1);
  }

  /** Every successful fit has a slope between the least and the greatest segment slope. */
  lemma {:induction false} FitThroughSlopeBounds(data: seq<DataPoint>, k: nat, lo: real, hi: real)
    requires 1 <= k < |data|
    requires FitThrough(data, k).Some?
    requires forall i :: 0 <= i < k && CreateFrom(data[i], data[i + 1]).Some? ==>
      lo <= CreateFrom(data[i], data[i + 1]).value.m <= hi
    ensures lo <= FitThrough(data, k).value.m <= hi
  {
    if k > 1 {
      FitThroughSlopeBounds(data, k - 1, lo, hi);
      assert 0 <= k - 1 < k && CreateFrom(data[k - 1], data[k - 1 + 1]).Some?;
    }
  }

  /**
   * The loop of `getGradient`: the first segment's gradient, then for every later
   * segment its gradient averaged in and anchored at the segment's right-hand
   * point, giving up at the first vertical segment.
   */
  method GetGradient(data: seq<DataPoint>) returns (r: Option<Gradient>)
    ensures r == FittedGradient(data)
  {
    if |data| < 2 {
      return None;
    }
    var currentGradient := CreateFrom(data[0], data[1]);
    for i := 1 to |data| - 1
      invariant currentGradient == FitThrough(data, i)
    {
      var nextGradient := CreateFrom(data[i], data[i + 1]);
      if currentGradient.None? || nextGradient.None? {
        FitThroughNoneIff(data, i + 1);
        FitThroughNoneIff(data, |data| - 1);
        if currentGradient.None? {
          FitThroughNoneIff(data, i);
        } else {
          assert 0 <= i < i + 1 && data[i].x == data[i + 1].x;
        }
        return None;
      }
      currentGradient := Some(AverageWith(currentGradient.value, nextGradient.value, data[i + 1]));
    }
    return currentGradient;
  }

  /**
   * Where two lines cross: none when their slopes are equal, otherwise the x
   * that solves m1*x + c1 == m2*x + c2, evaluated on the first line.
   */
  function IntersectionOf(gradient1: Gradient, gradient2: Gradient): (r: Option<DataPoint>)
    ensures r.None? <==> gradient1.m == gradient2.m
    ensures r.Some? ==> OnLine(gradient1, r.value) && OnLine(gradient2, r.value)
  {
    var slopeDifference := gradient1.m - gradient2.m;
    if slopeDifference == 0.0 then None
    else
      var x := (gradient2.c - gradient1.c) / slopeDifference;
      var y := YFromX(gradient1, x);
      ProductOfQuotient(gradient2.c - gradient1.c, slopeDifference);
      assert gradient1.m * x - gradient2.m * x == slopeDifference * x;
      Some(DataPoint(x, y))
  }

  /** Two lines of different slope share no point other than their intersection. */
  lemma IntersectionUnique(gradient1: Gradient, gradient2: Gradient, p: DataPoint)
    requires OnLine(gradient1, p) && OnLine(gradient2, p)
    ensures gradient1.m == gradient2.m ==> gradient1 == gradient2
    ensures gradient1.m != gradient2.m ==> IntersectionOf(gradient1, gradient2) == Some(p)
  {
    var slopeDifference := gradient1.m - gradient2.m;
    assert slopeDifference * p.x == gradient1.m * p.x - gradient2.m * p.x;
    if slopeDifference != 0.0 {
      QuotientOfProduct(p.x, slopeDifference, gradient2.c - gradient1.c);
    }
  }

  /** The meeting point lies before the last known point. */
  predicate AreDivergent(lastPoint: DataPoint, intersection: DataPoint)
  {
    intersection.x < lastPoint.x
  }

  /**
   * Where the lines fitted to two series meet, at or beyond the last x of the
   * first series: that series' last point when the fitted lines are identical,
   * none when a fit fails, the lines are parallel or they met in the past.
   */
  function ConvergenceOf(list1: seq<DataPoint>, list2: seq<DataPoint>): (r: Option<DataPoint>)
    ensures |list1| < 2 || |list2| < 2 ==> r.None?
    ensures FittedGradient(list1).None? || FittedGradient(list2).None? ==> r.None?
    ensures FittedGradient(list1).Some? && FittedGradient(list1) == FittedGradient(list2)
      ==> r == Some(list1[|list1| - 1])
    ensures FittedGradient(list1).Some? && FittedGradient(list2).Some?
      && FittedGradient(list1) != FittedGradient(list2)
      && FittedGradient(list1).value.m == FittedGradient(list2).value.m
      ==> r.None?
    ensures r.Some? ==>
      && OnLine(FittedGradient(list1).value, r.value)
      && OnLine(FittedGradient(list2).value, r.value)
      && list1[|list1| - 1].x <= r.value.x
  {
    if |list1| < 2 || |list2| < 2 then None
    else
      var gradient1 := FittedGradient(list1);
      var gradient2 := FittedGradient(list2);
      if gradient1.None? || gradient2.None? then None
      else
        var lastPointList1 := list1[|list1| - 1];
        if Equals(gradient1.value, gradient2.value) then
          FittedGradientThroughLast(list1);
          Some(lastPointList1)
        else
          var intersection := IntersectionOf(gradient1.value, gradient2.value);
          if intersection.None? || AreDivergent(lastPointList1, intersection.value) then None
          else intersection
  }

  /**
   * Conversely, whenever both fits succeed and the fitted lines share a point at
   * or beyond the last x of the first series, a convergence is reported, and it
   * is that point unless the lines are identical.
   */
  lemma ConvergenceOfComplete(list1: seq<DataPoint>, list2: seq<DataPoint>, p: DataPoint)
    requires FittedGradient(list1).Some? && FittedGradient(list2).Some?
    requires OnLine(FittedGradient(list1).value, p) && OnLine(FittedGradient(list2).value, p)
    requires |list1| >= 2 && list1[|list1| - 1].x <= p.x
    ensures ConvergenceOf(list1, list2).Some?
    ensures FittedGradient(list1) != FittedGradient(list2) ==> ConvergenceOf(list1, list2) == Some(p)
  {
    IntersectionUnique(FittedGradient(list1).value, FittedGradient(list2).value, p);
  }

  /**
   * When both fits succeed with different lines that share a point before the
   * last x of the first series, no convergence is reported.
   */
  lemma ConvergenceOfInThePast(list1: seq<DataPoint>, list2: seq<DataPoint>, p: DataPoint)
    requires FittedGradient(list1).Some? && FittedGradient(list2).Some?
    requires FittedGradient(list1) != FittedGradient(list2)
    requires OnLine(FittedGradient(list1).value, p) && OnLine(FittedGradient(list2).value, p)
    requires |list1| >= 2 && p.x < list1[|list1| - 1].x
    ensures ConvergenceOf(list1, list2) == None
  {
    IntersectionUnique(FittedGradient(list1).value, FittedGradient(list2).value, p);
  }

  /** The point of the fitted line at a target x; none exactly when the fit fails. */
  function ConvergenceWithX(data: seq<DataPoint>, x: real): (r: Option<DataPoint>)
    ensures r.Some? <==> FittedGradient(data).Some?
    ensures r.Some? ==> r.value.x == x && OnLine(FittedGradient(data).value, r.value)
  {
    var gradient := FittedGradient(data);
    if gradient.None? then None
    else Some(DataPointFromX(gradient.value, x))
  }

  /**
   * The point of the fitted line at a target y; none exactly when the fit fails.
   * A flat fitted line has no such point.
   */
  function ConvergenceWithY(data: seq<DataPoint>, y: real): (r: Option<DataPoint>)
    requires FittedGradient(data).Some? ==> FittedGradient(data).value.m != 0.0
    ensures r.Some? <==> FittedGradient(data).Some?
    ensures r.Some? ==> r.value.y == y && OnLine(FittedGradient(data).value, r.value)
  {
    var gradient := FittedGradient(data);
    if gradient.None? then None
    else Some(DataPointFromY(gradient.value, y))
  }
}
