/** A point of a data series: an immutable pair of coordinates compared by value. */
module DataPoints {

  datatype DataPoint = DataPoint(x: real, y: real)
}
