# Cartesian extrapolation, modelled in Dafny

The library fits one straight line to an ordered series of 2-D data points and
decides where two such fitted lines will meet if they are extended to the right
of the data. It can also project one fitted line to a target x or a target y.

- `Gradients` (`gradient.dfy`) models `Gradient`, the line y = m*x + c. It covers
  the two-point constructor `CreateFrom`, evaluation in both directions
  (`YFromX`, `XFromY`), the anchored average `AverageWith`, the two point
  projections and value equality.
- `Extrapolator` (`extrapolator.dfy`) models `Extrapolator`.
  - `GetGradient` is the loop of the source. It is proved equal to the recursive
    left fold `FitThrough` / `FittedGradient`.
  - `ConvergenceOf`, `IntersectionOf`, `AreDivergent`, `ConvergenceWithX` and
    `ConvergenceWithY` are straight-line functions stated over `FittedGradient`.
- `DataPoints` (`datapoint.dfy`) holds `DataPoint`, a value pair (x, y).
- `Wrappers` (`wrappers.dfy`) holds `Option`, which stands for a Java `null` return.
- `Scenarios` (`scenarios.dfy`) restates the concrete cases of the repository's
  unit tests as lemmas about the model.

Coordinates are Dafny `real`s, so all arithmetic is exact.

`YFromX` (`getYFromX`, `src/main/java/uk/org/webcompere/cartesian/Gradient.java:33-35`),
`AreDivergent` (`areDivergent`, `src/main/java/uk/org/webcompere/cartesian/Extrapolator.java:49-52`),
`OnLine`, `HasVerticalSegment`, `FitThrough` and `FittedGradient` (the fold of
`getGradient`, `src/main/java/uk/org/webcompere/cartesian/Extrapolator.java:85-100`)
are definitions without contracts of their own. The rows below state what is
proved about them.

The comment at `src/main/java/uk/org/webcompere/cartesian/Extrapolator.java:62`
writes the denominator as `m1 + m2`. The code at line 64 computes `m1 - m2`, which
is the correct intersection, and the model follows the code. The test
`cannotExtrapolateWhenBothLinesAreFlat` returns no result because each of its
lists holds two identical points, which is a vertical segment. The lines are not
flat. `Scenarios.NoConvergenceOfRepeatedPoints` states that case.

## Model

| member | source | states |
|---|---|---|
| Gradients.XFromY | src/main/java/uk/org/webcompere/cartesian/Gradient.java:37-39 | on a line that is not flat, the x returned for y evaluates back to y |
| Gradients.XFromYOfYFromX | src/main/java/uk/org/webcompere/cartesian/Gradient.java:33-39 | on a line that is not flat, x-from-y undoes y-from-x |
| Gradients.Equals | src/main/java/uk/org/webcompere/cartesian/Gradient.java:53-67 | two gradients are equal exactly when slope and intercept are both equal |
| Gradients.CreateFrom | src/main/java/uk/org/webcompere/cartesian/Gradient.java:75-87 | no line exactly when the two x values are equal; otherwise the slope is rise over run and both points lie on the line |
| Gradients.CreateFromUnique | src/main/java/uk/org/webcompere/cartesian/Gradient.java:75-87 | every line through two points of distinct x is the line that CreateFrom returns |
| Gradients.AverageWith | src/main/java/uk/org/webcompere/cartesian/Gradient.java:102-109 | the slope is the mean of the two slopes and the line passes exactly through the anchor point |
| Gradients.AverageWithUnique | src/main/java/uk/org/webcompere/cartesian/Gradient.java:102-109 | the mean slope and the anchor fix the averaged line completely |
| Gradients.AverageWithSelf | src/main/java/uk/org/webcompere/cartesian/Gradient.java:102-109 | averaging a line with itself, anchored at one of its own points, returns the same line |
| Gradients.DataPointFromX | src/main/java/uk/org/webcompere/cartesian/Gradient.java:125-127 | the point has the given x and lies on the line |
| Gradients.DataPointFromY | src/main/java/uk/org/webcompere/cartesian/Gradient.java:116-118 | on a line that is not flat, the point has the given y and lies on the line |
| Extrapolator.FitThroughNoneIff | src/main/java/uk/org/webcompere/cartesian/Extrapolator.java:89-99 | the fold over the first k segments fails exactly when one of those segments is vertical |
| Extrapolator.FittedGradientNoneIff | src/main/java/uk/org/webcompere/cartesian/Extrapolator.java:85-100 | the fit fails exactly when there are fewer than two points or some consecutive pair shares an x |
| Extrapolator.FittedGradientOfTwo | src/main/java/uk/org/webcompere/cartesian/Extrapolator.java:89-99 | with two points the fit is CreateFrom of those two points |
| Extrapolator.FittedGradientOfPair | src/main/java/uk/org/webcompere/cartesian/Extrapolator.java:89-99 | two points of distinct x are fitted by the unique line through both |
| Extrapolator.FittedGradientStep | src/main/java/uk/org/webcompere/cartesian/Extrapolator.java:90-97 | with three or more points, a successful fit has the mean of the shorter series' fitted slope and the last segment's slope, and passes through the last point |
| Extrapolator.FittedGradientThroughLast | src/main/java/uk/org/webcompere/cartesian/Extrapolator.java:89-99 | a successful fit has at least two points and passes through the last one |
| Extrapolator.FitThroughCollinear | src/main/java/uk/org/webcompere/cartesian/Extrapolator.java:89-99 | if the points reached so far lie on one line with no vertical segment, the running gradient is that line |
| Extrapolator.FittedGradientCollinear | src/main/java/uk/org/webcompere/cartesian/Extrapolator.java:89-99 | collinear data with no vertical segment is fitted by its own line |
| Extrapolator.FitThroughSlopeBounds | src/main/java/uk/org/webcompere/cartesian/Extrapolator.java:89-99 | the fitted slope lies between any bounds on the segment slopes |
| Extrapolator.GetGradient | src/main/java/uk/org/webcompere/cartesian/Extrapolator.java:85-100 | the loop, with its early return at a vertical segment, computes exactly the left-fold fit |
| Extrapolator.IntersectionOf | src/main/java/uk/org/webcompere/cartesian/Extrapolator.java:54-78 | no point exactly when the slopes are equal; otherwise the point lies on both lines |
| Extrapolator.IntersectionUnique | src/main/java/uk/org/webcompere/cartesian/Extrapolator.java:54-78 | lines of equal slope that share a point are identical; lines of different slope share only the intersection |
| Extrapolator.ConvergenceOf | src/main/java/uk/org/webcompere/cartesian/Extrapolator.java:20-52 | no result for a short list or a failed fit; list1's last point for identical fitted lines; no result for parallel distinct lines; any result lies on both fitted lines at or beyond list1's last x |
| Extrapolator.ConvergenceOfComplete | src/main/java/uk/org/webcompere/cartesian/Extrapolator.java:20-47 | if the fitted lines share a point at or beyond list1's last x, a result is reported, and it is that point unless the lines are identical |
| Extrapolator.ConvergenceOfInThePast | src/main/java/uk/org/webcompere/cartesian/Extrapolator.java:38-52 | distinct fitted lines that meet before list1's last x give no result |
| Extrapolator.ConvergenceWithX | src/main/java/uk/org/webcompere/cartesian/Extrapolator.java:110-116 | a result exactly when the fit succeeds; it has the target x and lies on the fitted line |
| Extrapolator.ConvergenceWithY | src/main/java/uk/org/webcompere/cartesian/Extrapolator.java:102-108 | on a fit that is not flat, a result exactly when the fit succeeds; it has the target y and lies on the fitted line |
| Scenarios.CreateFromVertical | src/test/java/uk/org/webcompere/cartesian/GradientTest.java:13-16 | (0,0),(0,1) give no line |
| Scenarios.CreateFromCorrect | src/test/java/uk/org/webcompere/cartesian/GradientTest.java:18-23 | (0,2),(1,3) give m = 1, c = 2 |
| Scenarios.AverageWithCase | src/test/java/uk/org/webcompere/cartesian/GradientTest.java:25-34 | the average of (10,5) and (7.5,2) anchored at (10,7) gives 7 at x = 10 |
| Scenarios.ConsistentGradientTwo | src/test/java/uk/org/webcompere/cartesian/ExtrapolatorTest.java:56-60 | (0,0),(1,1) give m = 1, c = 0 |
| Scenarios.ConsistentGradientFive | src/test/java/uk/org/webcompere/cartesian/ExtrapolatorTest.java:56-60 | five points on y = x give m = 1, c = 0 |
| Scenarios.AverageOfTwoGradients | src/test/java/uk/org/webcompere/cartesian/ExtrapolatorTest.java:62-68 | (0,0),(1,1),(2,3) give m = 1.5, c = 0 |
| Scenarios.NoConvergenceWithoutData | src/test/java/uk/org/webcompere/cartesian/ExtrapolatorTest.java:14-29 | empty and one-point lists give no convergence |
| Scenarios.NoConvergenceOfRepeatedPoints | src/test/java/uk/org/webcompere/cartesian/ExtrapolatorTest.java:31-34 | lists of two identical points give no convergence |
| Scenarios.ConvergenceOfSameLines | src/test/java/uk/org/webcompere/cartesian/ExtrapolatorTest.java:36-39 | identical lists converge at list1's last point (2,2) |
| Scenarios.ConvergenceOfDivergentLines | src/test/java/uk/org/webcompere/cartesian/ExtrapolatorTest.java:41-44 | lines that met at (1,1), before x = 2, give no convergence |
| Scenarios.ConvergenceOfFlatAndRising | src/test/java/uk/org/webcompere/cartesian/ExtrapolatorTest.java:46-49 | a rising line meets a flat one at (3,3) |
| Scenarios.ConvergenceFromDifferentOrigins | src/test/java/uk/org/webcompere/cartesian/ExtrapolatorTest.java:51-54 | lines from different origins meet at (2,4) |
| Scenarios.ConvergenceWithYRising | src/test/java/uk/org/webcompere/cartesian/ExtrapolatorTest.java:70-73 | (0,0),(6,10) reach y = 20 at (12,20) |
| Scenarios.ConvergenceWithYVertical | src/test/java/uk/org/webcompere/cartesian/ExtrapolatorTest.java:75-78 | two identical points give no projection |
| Scenarios.ConvergenceWithYFalling | src/test/java/uk/org/webcompere/cartesian/ExtrapolatorTest.java:80-83 | (1,1),(2,0) reach y = 20 backwards, at (-18,20) |
| Scenarios.ConvergenceWithXFlat | src/test/java/uk/org/webcompere/cartesian/ExtrapolatorTest.java:85-88 | a flat line projects to (12,0) at x = 12 |
| Scenarios.ConvergenceWithXFalling | src/test/java/uk/org/webcompere/cartesian/ExtrapolatorTest.java:90-93 | (1,1),(2,0) project to (12,-10) at x = 12 |

## Left out

- Floating point. Coordinates are exact reals, so there is no rounding. The rounding correction that the comment at `Gradient.java:96-97` gives as the reason for anchoring is not modelled.
- Bit-level equality. `Equals` compares reals, not `Double.doubleToLongBits` patterns, so the model has no NaN and no signed zero.
- `Equals` does not model the `this == obj`, `null` and class checks of the Java `equals` (`Gradient.java:55-60`). A Dafny datatype has no identity, no null and no subclasses.
- XFromY: requires a slope that is not zero. The Java code returns Infinity or NaN there, and a real cannot represent either value.
- DataPointFromY: requires a slope that is not zero, for the same reason.
- ConvergenceWithY: requires a fitted slope that is not zero when the fit succeeds, for the same reason. The source does not guard this case.
- `hashCode` and `toString` hash and format values; the model has no behaviour to verify there.
- The setters `setM`/`setC` are left out. `AverageWith` builds its result as a value: it fixes the slope first, then derives the intercept from the anchor, in the same order as the source. Gradients are immutable values in the model, so averaging cannot change either operand.
- `DataPoint.java` is not part of this model. The value-equality asserts of its tests hold for the datatype. The distinct-instance check of the copy-constructor test (`DataPointTest.java:22`) and the setters (`DataPointTest.java:31-32`) have no counterpart in a value model.
- A `null` list argument is not modelled; the Java code would throw there. A Java `List` is a Dafny `seq`.
- The JUnit harness and its `fromData` helper are left out. Their concrete cases are the `Scenarios` lemmas.
