/** The concrete cases that the repository's unit tests check, stated on the model. */
module Scenarios {
  import opened Wrappers
  import opened DataPoints
  import opened Gradients
  import opened Extrapolator

  lemma CreateFromVertical()
    ensures CreateFrom(DataPoint(0.0, 0.0), DataPoint(0.0, 1.0)) == None
  {
  }

  lemma CreateFromCorrect()
    ensures CreateFrom(DataPoint(0.0, 2.0), DataPoint(1.0, 3.0)) == Some(Gradient(1.0, 2.0))
  {
  }

  lemma AverageWithCase()
    ensures YFromX(AverageWith(Gradient(10.0, 5.0), Gradient(7.5, 2.0), DataPoint(10.0, 7.0)), 10.0) == 7.0
  {
  }

  lemma ConsistentGradientTwo()
    ensures FittedGradient([DataPoint(0.0, 0.0), DataPoint(1.0, 1.0)]) == Some(Gradient(1.0, 0.0))
  {
    var data := [DataPoint(0.0, 0.0), DataPoint(1.0, 1.0)];
    FittedGradientOfPair(data[0], data[1], Gradient(1.0, 0.0));
  }

  lemma ConsistentGradientFive()
    ensures FittedGradient([DataPoint(0.0, 0.0), DataPoint(1.0, 1.0), DataPoint(2.0, 2.0),
                            DataPoint(3.0, 3.0), DataPoint(4.0, 4.0)]) == Some(Gradient(1.0, 0.0))
  {
    var data := [DataPoint(0.0, 0.0), DataPoint(1.0, 1.0), DataPoint(2.0, 2.0),
                 DataPoint(3.0, 3.0), DataPoint(4.0, 4.0)];
    FittedGradientCollinear(data, Gradient(1.0, 0.0));
  }

  lemma AverageOfTwoGradients()
    ensures FittedGradient([DataPoint(0.0, 0.0), DataPoint(1.0, 1.0), DataPoint(2.0, 3.0)])
      == Some(Gradient(1.5, 0.0))
  {
    var data := [DataPoint(0.0, 0.0), DataPoint(1.0, 1.0), DataPoint(2.0, 3.0)];
    CreateFromUnique(data[0], data[1], Gradient(1.0, 0.0));
    CreateFromUnique(data[1], data[2], Gradient(2.0, -1.0));
    assert FitThrough(data, 1) == Some(Gradient(1.0, 0.0));
    AverageWithUnique(Gradient(1.0, 0.0), Gradient(2.0, -1.0), data[2], Gradient(1.5, 0.0));
  }

  lemma NoConvergenceWithoutData()
    ensures ConvergenceOf([], []) == None
    ensures ConvergenceOf([DataPoint(0.0, 0.0)], [DataPoint(0.0, 0.0)]) == None
    ensures ConvergenceOf([], [DataPoint(0.0, 0.0)]) == None
    ensures ConvergenceOf([DataPoint(0.0, 0.0)], []) == None
    ensures ConvergenceOf([DataPoint(0.0, 0.0)], [DataPoint(0.0, 0.0), DataPoint(1.0, 1.0)]) == None
  {
  }

  /** Each list holds two identical points, so each fit fails on a vertical segment. */
  lemma NoConvergenceOfRepeatedPoints()
    ensures ConvergenceOf([DataPoint(1.0, 1.0), DataPoint(1.0, 1.0)],
                          [DataPoint(2.0, 2.0), DataPoint(2.0, 2.0)]) == None
  {
    FittedGradientOfTwo([DataPoint(1.0, 1.0), DataPoint(1.0, 1.0)]);
  }

  lemma ConvergenceOfSameLines()
    ensures ConvergenceOf([DataPoint(1.0, 1.0), DataPoint(2.0, 2.0)],
                          [DataPoint(1.0, 1.0), DataPoint(2.0, 2.0)]) == Some(DataPoint(2.0, 2.0))
  {
    var data := [DataPoint(1.0, 1.0), DataPoint(2.0, 2.0)];
    FittedGradientOfTwo(data);
  }

  /** The lists are parameters fixed by the requires only to keep the solver's work small; this is one concrete case. */
  lemma ConvergenceOfDivergentLines(list1: seq<DataPoint>, list2: seq<DataPoint>)
    requires list1 == [DataPoint(1.0, 1.0), DataPoint(2.0, 2.0)]
    requires list2 == [DataPoint(1.0, 1.0), DataPoint(3.0, 2.0)]
    ensures ConvergenceOf(list1, list2) == None
  {
    FittedGradientOfPair(list1[0], list1[1], Gradient(1.0, 0.0));
    FittedGradientOfPair(list2[0], list2[1], Gradient(0.5, 0.5));
    ConvergenceOfInThePast(list1, list2, DataPoint(1.0, 1.0));
  }

  /** The lists are parameters fixed by the requires only to keep the solver's work small; this is one concrete case. */
  lemma ConvergenceOfFlatAndRising(list1: seq<DataPoint>, list2: seq<DataPoint>)
    requires list1 == [DataPoint(1.0, 1.0), DataPoint(2.0, 2.0)]
    requires list2 == [DataPoint(2.0, 3.0), DataPoint(3.0, 3.0)]
    ensures ConvergenceOf(list1, list2) == Some(DataPoint(3.0, 3.0))
  {
    FittedGradientOfPair(list1[0], list1[1], Gradient(1.0, 0.0));
    FittedGradientOfPair(list2[0], list2[1], Gradient(0.0, 3.0));
    ConvergenceOfComplete(list1, list2, DataPoint(3.0, 3.0));
  }

  /** The lists are parameters fixed by the requires only to keep the solver's work small; this is one concrete case. */
  lemma ConvergenceFromDifferentOrigins(list1: seq<DataPoint>, list2: seq<DataPoint>)
    requires list1 == [DataPoint(0.0, 2.0), DataPoint(1.0, 3.0)]
    requires list2 == [DataPoint(0.0, 0.0), DataPoint(1.0, 2.0)]
    ensures ConvergenceOf(list1, list2) == Some(DataPoint(2.0, 4.0))
  {
    FittedGradientOfPair(list1[0], list1[1], Gradient(1.0, 2.0));
    FittedGradientOfPair(list2[0], list2[1], Gradient(2.0, 0.0));
    ConvergenceOfComplete(list1, list2, DataPoint(2.0, 4.0));
  }

  lemma ConvergenceWithYRising()
    ensures ConvergenceWithY([DataPoint(0.0, 0.0), DataPoint(6.0, 10.0)], 20.0) == Some(DataPoint(12.0, 20.0))
  {
    var data := [DataPoint(0.0, 0.0), DataPoint(6.0, 10.0)];
    FittedGradientOfPair(data[0], data[1], Gradient(10.0 / 6.0, 0.0));
  }

  lemma ConvergenceWithYVertical()
    ensures ConvergenceWithY([DataPoint(0.0, 0.0), DataPoint(0.0, 0.0)], 20.0) == None
  {
    FittedGradientOfTwo([DataPoint(0.0, 0.0), DataPoint(0.0, 0.0)]);
  }

  lemma ConvergenceWithYFalling()
    ensures ConvergenceWithY([DataPoint(1.0, 1.0), DataPoint(2.0, 0.0)], 20.0) == Some(DataPoint(-18.0, 20.0))
  {
    var data := [DataPoint(1.0, 1.0), DataPoint(2.0, 0.0)];
    FittedGradientOfPair(data[0], data[1], Gradient(-1.0, 2.0));
  }

  lemma ConvergenceWithXFlat()
    ensures ConvergenceWithX([DataPoint(0.0, 0.0), DataPoint(1.0, 0.0)], 12.0) == Some(DataPoint(12.0, 0.0))
  {
    var data := [DataPoint(0.0, 0.0), DataPoint(1.0, 0.0)];
    FittedGradientOfPair(data[0], data[1], Gradient(0.0, 0.0));
  }

  lemma ConvergenceWithXFalling()
    ensures ConvergenceWithX([DataPoint(1.0, 1.0), DataPoint(2.0, 0.0)], 12.0) == Some(DataPoint(12.0, -10.0))
  {
    var data := [DataPoint(1.0, 1.0), DataPoint(2.0, 0.0)];
    FittedGradientOfPair(data[0], data[1], Gradient(-1.0, 2.0));
  }
}
