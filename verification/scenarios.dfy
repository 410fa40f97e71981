/** Clients of the classifier: what its contracts let a caller conclude. */
module Scenarios {
  import opened Outcomes
  import opened Distance
  import opened Vote
  import opened Knn

  /** Training with fewer samples than k is refused and keeps the old set. */
  method TooSmallTrainingSet()
  {
    var c := new Classifier.New(3, SquaredEuclidean);
    var first := [Sample("A", [0.0]), Sample("B", [1.0]), Sample("C", [2.0])];
    var err := c.Train(first);
    assert err.None? && c.ts == first;
    err := c.Train([Sample("A", [0.0]), Sample("B", [1.0])]);
    assert err == Some(TrainingSetTooSmall) && c.ts == first;
  }

  /** A query of another dimension than the training points fails. */
  method DimensionMismatchQuery()
  {
    var c := new Classifier.New(1, SquaredEuclidean);
    var err := c.Train([Sample("A", [0.0, 0.0])]);
    var labels, err' := c.Classify([0.0, 0.0, 0.0]);
    assert FirstFailure(c.dist, [0.0, 0.0, 0.0], c.ts, 0);
    assert err' == Some(DimensionMismatch) && labels == [];
  }

  /** Two samples at the same place with different labels: both labels win. */
  method TiedNeighbours()
  {
    var origin := [0.0, 0.0];
    var c := new Classifier.New(2, SquaredEuclidean);
    var err := c.Train([Sample("A", origin), Sample("B", origin)]);
    var labels, err' := c.Classify(origin);
    SumSquaresZeroIff(origin, origin);
    assert SquaredEuclidean(origin, origin) == Ok(0.0);
    assert err'.None?;
    ghost var all := LabelDists(c.dist, origin, c.ts);
    ghost var near :| IsNearest(near, all, 2) && Winners(labels, near);
    assert all == [LabelDist(0.0, "A"), LabelDist(0.0, "B")];
    NearestOfAllIsAll(near, all);
    WinnersIgnoreOrder(labels, near, all);
    BothTiedLabelsWin(labels);
  }

  /** The vote over one "A" and one "B" returns both. */
  lemma BothTiedLabelsWin(labels: seq<string>)
    requires Winners(labels, [LabelDist(0.0, "A"), LabelDist(0.0, "B")])
    ensures "A" in labels && "B" in labels
    ensures forall lab :: lab in labels ==> lab == "A" || lab == "B"
  {
    var all := [LabelDist(0.0, "A"), LabelDist(0.0, "B")];
    assert all[..1] == [LabelDist(0.0, "A")] && all[..1][..0] == [];
    assert Count(all, "A") == 1 && Count(all, "B") == 1;
    assert forall lab :: Count(all, lab) <= 1;
    assert IsMode(all, "A") && IsMode(all, "B");
    forall lab | lab in labels
      ensures lab == "A" || lab == "B"
    {
      CountPositiveIffPresent(all, lab);
    }
  }

  /** The Euclidean distances of the strict-plurality scenario, squared. */
  lemma PluralityDistances()
    ensures SquaredEuclidean([0.0, 1.0], [0.0, 0.0]) == Ok(1.0)
    ensures SquaredEuclidean([0.0, 1.0], [10.0, 10.0]) == Ok(181.0)
    ensures SquaredEuclidean([0.0, 1.0], [1.0, 1.0]) == Ok(1.0)
  {
    var q := [0.0, 1.0];
    assert q[..1] == [0.0] && q[..1][..0] == [];
    var p0, p1, p2 := [0.0, 0.0], [10.0, 10.0], [1.0, 1.0];
    assert p0[..1] == [0.0] && p1[..1] == [10.0] && p2[..1] == [1.0];
    assert SumSquares([0.0], [0.0]) == 0.0;
    assert SumSquares([0.0], [10.0]) == 100.0;
    assert SumSquares([0.0], [1.0]) == 1.0;
  }

  /** Out of two samples "A" at distance 1 and one "B" at 181, the two nearest are both "A". */
  lemma NearestTwoAreA(near: seq<LabelDist>)
    requires IsNearest(near, [LabelDist(1.0, "A"), LabelDist(181.0, "B"), LabelDist(1.0, "A")], 2)
    ensures multiset(near) == multiset{LabelDist(1.0, "A"), LabelDist(1.0, "A")}
  {
    var a, b := LabelDist(1.0, "A"), LabelDist(181.0, "B");
    var all := [a, b, a];
    assert multiset(all) == multiset{a, a, b};
    assert near == [near[0], near[1]];
    assert near[0] in multiset(all) && near[1] in multiset(all);
    assert near[0] == a;
    assert near[1] == a;
  }

  /** With k = 2, the query [0, 1] has two "A" neighbours: "A" alone wins. */
  method StrictPlurality()
  {
    var c := new Classifier.New(2, SquaredEuclidean);
    var ts := [Sample("A", [0.0, 0.0]), Sample("B", [10.0, 10.0]), Sample("A", [1.0, 1.0])];
    var err := c.Train(ts);
    var labels, err' := c.Classify([0.0, 1.0]);
    PluralityDistances();
    assert err'.None?;
    ghost var all := LabelDists(c.dist, [0.0, 1.0], c.ts);
    assert all == [LabelDist(1.0, "A"), LabelDist(181.0, "B"), LabelDist(1.0, "A")];
    ghost var near :| IsNearest(near, all, 2) && Winners(labels, near);
    NearestTwoAreA(near);
    ghost var twoA := [LabelDist(1.0, "A"), LabelDist(1.0, "A")];
    assert multiset(near) == multiset(twoA);
    WinnersIgnoreOrder(labels, near, twoA);
    SoleWinnerA(labels);
  }

  /** The vote over two "A" returns "A" alone. */
  lemma SoleWinnerA(labels: seq<string>)
    requires Winners(labels, [LabelDist(1.0, "A"), LabelDist(1.0, "A")])
    ensures labels == ["A"]
  {
    var twoA := [LabelDist(1.0, "A"), LabelDist(1.0, "A")];
    assert twoA[..1] == [LabelDist(1.0, "A")] && twoA[..1][..0] == [];
    assert Count(twoA, "A") == 2;
    forall other | other != "A"
      ensures Count(twoA, other) < Count(twoA, "A")
    {
      CountPositiveIffPresent(twoA, other);
    }
    StrictPluralityWinner(twoA, labels, "A");
  }

  /**
   * Which pairs tied at the k-th distance are kept decides the vote: out of
   * "A" and "B" both at distance 0, with k = 1, either pair is a valid choice
   * of nearest neighbour, and the two choices elect different labels.
   */
  lemma BoundaryTieDecidesVote()
    ensures IsNearest([LabelDist(0.0, "A")], [LabelDist(0.0, "A"), LabelDist(0.0, "B")], 1)
    ensures IsNearest([LabelDist(0.0, "B")], [LabelDist(0.0, "A"), LabelDist(0.0, "B")], 1)
    ensures Winners(["A"], [LabelDist(0.0, "A")]) && Winners(["B"], [LabelDist(0.0, "B")])
  {
  }
}
