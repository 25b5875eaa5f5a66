/** Facts about real numbers shared by the rounding of grades and of progress percentages. */
module RealArith {

  /** The greatest integer not above `x`. */
  function FloorOf(x: real): (n: int)
    ensures n as real <= x < n as real + 1.0
  {
    x.Floor
  }

  /** Dividing by a positive number keeps the order. */
  lemma DivMonotone(a: real, b: real, n: real)
    requires n > 0.0 && a <= b
    ensures a / n <= b / n
  {
  }
}
