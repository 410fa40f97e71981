/** The pluggable distance function and its Euclidean reference implementation. */
module Distance {
  import opened Outcomes

  /** A point: its coordinates in order. */
  type Vector = seq<real>

  /** A distance function: a dissimilarity of two points, or a failure. */
  type DistanceFn = (Vector, Vector) -> Result<real>

  /** One coordinate's contribution: the squared difference. */
  function Square(d: real): real { d * d }

  /** The square of a non-zero difference is positive. */
  lemma SquarePositive(d: real)
    requires d != 0.0
    ensures Square(d) > 0.0
  {
    // The solver's nonlinear arithmetic proves d * d > 0 from the sign of d,
    // not from d != 0, so the two signs are separate cases.
    if d > 0.0 {
      calc { Square(d); == d * d; > 0.0; }
    } else {
      calc { Square(d); == d * d; > 0.0; }
    }
  }

  /** A squared difference is non-negative, and zero exactly when the difference is. */
  lemma SquareSign(d: real)
    ensures Square(d) >= 0.0
    ensures Square(d) == 0.0 <==> d == 0.0
  {
    if d != 0.0 { SquarePositive(d); }
  }

  /** Sum of the squared coordinate-wise differences of two points of equal dimension. */
  function SumSquares(a: Vector, b: Vector): (r: real)
    requires |a| == |b|
    ensures r >= 0.0
    decreases |a|
  {
    if |a| == 0 then 0.0
    else
      var d := a[|a| - 1] - b[|b| - 1];
      SquareSign(d);
      SumSquares(a[..|a| - 1], b[..|b| - 1]) + Square(d)
  }

  /**
   * The Euclidean distance without its final square root (the square root is
   * monotone, so it orders neighbours the same way): a dimension mismatch is
   * the one failure.
   */
  function SquaredEuclidean(a: Vector, b: Vector): (r: Result<real>)
    ensures r.Err? <==> |a| != |b|
    ensures r.Err? ==> r.error == DimensionMismatch
    ensures r.Ok? ==> r.value >= 0.0
  {
    if |a| != |b| then Err(DimensionMismatch) else Ok(SumSquares(a, b))
  }

  /** The loop that accumulates the sum of squares, coordinate by coordinate. */
  method Euclidean(a: Vector, b: Vector) returns (r: Result<real>)
    ensures r == SquaredEuclidean(a, b)
  {
    if |a| != |b| {
      return Err(DimensionMismatch);
    }
    var sum := 0.0;
    for i := 0 to |a|
      invariant sum == SumSquares(a[..i], b[..i])
    {
      var tmp := a[i] - b[i];
      assert a[..i + 1][..i] == a[..i] && b[..i + 1][..i] == b[..i];
      sum := sum + tmp * tmp;
    }
    assert a[..|a|] == a && b[..|b|] == b;
    r := Ok(sum);
  }

  /** The distance from a to b equals the distance from b to a. */
  lemma {:induction false} SumSquaresSymmetric(a: Vector, b: Vector)
    requires |a| == |b|
    ensures SumSquares(a, b) == SumSquares(b, a)
  {
    if |a| > 0 {
      var n := |a| - 1;
      SumSquaresSymmetric(a[..n], b[..n]);
      calc {
        Square(a[n] - b[n]);
      ==
        (a[n] - b[n]) * (a[n] - b[n]);
      ==
        (b[n] - a[n]) * (b[n] - a[n]);
      ==
        Square(b[n] - a[n]);
      }
    }
  }

  /** The distance is zero exactly when the two points coincide. */
  lemma {:induction false} SumSquaresZeroIff(a: Vector, b: Vector)
    requires |a| == |b|
    ensures SumSquares(a, b) == 0.0 <==> a == b
  {
    if |a| > 0 {
      var n := |a| - 1;
      SumSquaresZeroIff(a[..n], b[..n]);
      SquareSign(a[n] - b[n]);
      assert a == a[..n] + [a[n]] && b == b[..n] + [b[n]];
    }
  }

  /** Symmetry, and zero exactly on coinciding points, for the Euclidean distance. */
  lemma SquaredEuclideanSymmetricAndSeparating(a: Vector, b: Vector)
    requires |a| == |b|
    ensures SquaredEuclidean(a, b).Ok? && SquaredEuclidean(b, a).Ok?
    ensures SquaredEuclidean(a, b).value == SquaredEuclidean(b, a).value
    ensures SquaredEuclidean(a, b).value == 0.0 <==> a == b
  {
    SumSquaresSymmetric(a, b);
    SumSquaresZeroIff(a, b);
  }
}
