/**
 * The k-nearest-neighbours classifier: an exhaustive scan that measures the
 * query point against every training sample, keeps the k closest and lets
 * them vote.
 */
module Knn {
  import opened Outcomes
  import opened Distance
  import opened Sorting
  import opened Vote

  /**
   * A training example: its label and its position (a Knner). The label field
   * is `name` because `label` is a Dafny keyword.
   */
  datatype Sample = Sample(name: string, pos: Vector)

  /** byDist's Less: a smaller distance sorts first. */
  function ByDistLess(x: LabelDist, y: LabelDist): bool
  {
    x.dist < y.dist
  }

  /**
   * byDist's Less is a strict weak order, as sort.Sort requires, and two pairs
   * are tied (neither Less than the other) exactly when their distances are equal.
   */
  lemma ByDistLessIsStrictWeak()
    ensures StrictWeakOrder(ByDistLess)
    ensures forall x, y :: !ByDistLess(x, y) && !ByDistLess(y, x) <==> x.dist == y.dist
  {
  }

  /** The distance from `place` to every training sample is defined. */
  ghost predicate AllMeasured(dist: DistanceFn, place: Vector, ts: seq<Sample>)
  {
    forall i :: 0 <= i < |ts| ==> dist(place, ts[i].pos).Ok?
  }

  /** Sample `i` is the first one whose distance from `place` fails. */
  ghost predicate FirstFailure(dist: DistanceFn, place: Vector, ts: seq<Sample>, i: int)
  {
    && 0 <= i < |ts|
    && dist(place, ts[i].pos).Err?
    && forall j :: 0 <= j < i ==> dist(place, ts[j].pos).Ok?
  }

  /** The (distance, label) pair of every training sample, in training order. */
  ghost function LabelDists(dist: DistanceFn, place: Vector, ts: seq<Sample>): seq<LabelDist>
    requires AllMeasured(dist, place, ts)
  {
    seq(|ts|, i requires 0 <= i < |ts| => LabelDist(dist(place, ts[i].pos).value, ts[i].name))
  }

  /**
   * `near` is a choice of k nearest pairs out of `all`: k of them (as a
   * sub-multiset), none farther than any pair left out.
   */
  ghost predicate IsNearest(near: seq<LabelDist>, all: seq<LabelDist>, k: nat)
  {
    && |near| == k
    && multiset(near) <= multiset(all)
    && forall x, y :: x in multiset(near) && y in multiset(all) - multiset(near) ==> x.dist <= y.dist
  }

  /** The first k entries of a by-distance ordering of `all` are k nearest ones. */
  lemma SortedPrefixIsNearest(sorted: seq<LabelDist>, all: seq<LabelDist>, k: nat)
    requires multiset(sorted) == multiset(all)
    requires SortedBy(sorted, ByDistLess)
    requires k <= |sorted|
    ensures IsNearest(sorted[..k], all, k)
  {
    var front, back := sorted[..k], sorted[k..];
    assert sorted == front + back;
    assert multiset(sorted) == multiset(front) + multiset(back);
    assert multiset(all) - multiset(front) == multiset(back);
    forall x: LabelDist, y: LabelDist | x in multiset(front) && y in multiset(back)
      ensures x.dist <= y.dist
    {
      PrefixNoFarther(sorted, k, x, y);
    }
  }

  /** In a by-distance ordering, an entry before position k is no farther than one from k on. */
  lemma PrefixNoFarther(sorted: seq<LabelDist>, k: nat, x: LabelDist, y: LabelDist)
    requires SortedBy(sorted, ByDistLess)
    requires k <= |sorted|
    requires x in sorted[..k] && y in sorted[k..]
    ensures x.dist <= y.dist
  {
  }

  /** With k as large as the training set, every sample is among the nearest. */
  lemma NearestOfAllIsAll(near: seq<LabelDist>, all: seq<LabelDist>)
    requires IsNearest(near, all, |all|)
    ensures multiset(near) == multiset(all)
  {
    var left := multiset(all) - multiset(near);
    assert multiset(all) == multiset(near) + left;
    assert |left| == 0;
  }

  /** The classifier: the training set, the distance function and k. */
  class Classifier {
    var ts: seq<Sample>
    var dist: DistanceFn
    var k: int

    /** New: an untrained classifier. */
    constructor New(k: int, d: DistanceFn)
      ensures this.k == k && dist == d && ts == []
    {
      this.k := k;
      dist := d;
      ts := [];
    }

    /**
     * Replaces the training set, unless it holds fewer samples than k, in
     * which case nothing changes.
     */
    method Train(samples: seq<Sample>) returns (err: Option<Error>)
      modifies this`ts
      ensures err.Some? <==> |samples| < k
      ensures err.Some? ==> err.value == TrainingSetTooSmall && ts == old(ts)
      ensures err.None? ==> ts == samples
    {
      if |samples| < k {
        return Some(TrainingSetTooSmall);
      }
      ts := samples;
      err := None;
    }

    /**
     * The labels tied for most frequent among the k training samples nearest
     * to `place`, or the first failure of the distance function.
     */
    method Classify(place: Vector) returns (labels: seq<string>, err: Option<Error>)
      requires 0 < k <= |ts|
      ensures err.Some? ==>
                && labels == []
                && exists i :: FirstFailure(dist, place, ts, i) && err.value == dist(place, ts[i].pos).error
      ensures err.None? ==>
                && AllMeasured(dist, place, ts)
                && exists near :: IsNearest(near, LabelDists(dist, place, ts), k) && Winners(labels, near)
    {
      var lds := new LabelDist[|ts|];
      for i := 0 to |ts|
        invariant forall j :: 0 <= j < i ==>
                    dist(place, ts[j].pos).Ok? && lds[j] == LabelDist(dist(place, ts[j].pos).value, ts[j].name)
      {
        var r := dist(place, ts[i].pos);
        if r.Err? {
          assert FirstFailure(dist, place, ts, i);
          return [], Some(r.error);
        }
        lds[i] := LabelDist(r.value, ts[i].name);
      }
      ghost var all := lds[..];
      assert all == LabelDists(dist, place, ts);

      ByDistLessIsStrictWeak();
      SortBy(lds, ByDistLess);
      SortedPrefixIsNearest(lds[..], all, k);
      labels := MostFrequent(lds[..k]);
      err := None;
    }
  }
}
