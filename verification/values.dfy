/** Values shared by the application shell and the weather panel. */
module Values {

  /** A latitude/longitude pair. JavaScript numbers are modelled as reals:
      the application only compares them for equality and against zero. */
  datatype Coord = Coord(lat: real, lon: real)

  /** The unit system picked in the unit selector, which offers exactly
      the two values `metric` and `imperial`. */
  datatype Unit = Metric | Imperial

  /** A value that may be absent (`null` in the application). */
  datatype Option<+T> = None | Some(value: T)

  /** JavaScript truthiness of a number that is not NaN: only zero is falsy. */
  predicate Truthy(x: real)
  {
    x != 0.0
  }
}
