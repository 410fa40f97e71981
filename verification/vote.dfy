/** Vote resolution: the labels tied for the highest count among the chosen neighbours. */
module Vote {
  import opened Sorting

  /** A training sample's label (`name`, as `label` is a Dafny keyword) with its distance to the query point. */
  datatype LabelDist = LabelDist(dist: real, name: string)

  /** A distinct label with the number of neighbours that carry it. */
  datatype LabelFreq = LabelFreq(name: string, freq: int)

  /** byFreq's Less: a higher count sorts first. */
  function ByFreqLess(x: LabelFreq, y: LabelFreq): bool
  {
    x.freq > y.freq
  }

  /**
   * byFreq's Less is a strict weak order, as sort.Sort requires, and two pairs
   * are tied (neither Less than the other) exactly when their counts are equal.
   */
  lemma ByFreqLessIsStrictWeak()
    ensures StrictWeakOrder(ByFreqLess)
    ensures forall x, y :: !ByFreqLess(x, y) && !ByFreqLess(y, x) <==> x.freq == y.freq
  {
  }

  /** No element occurs twice. */
  predicate Distinct<T(==)>(s: seq<T>)
  {
    forall p, q :: 0 <= p < q < |s| ==> s[p] != s[q]
  }

  /** How many entries of `data` carry `lab`. */
  function Count(data: seq<LabelDist>, lab: string): (n: nat)
    ensures n <= |data|
  {
    if data == [] then 0
    else Count(data[..|data| - 1], lab) + (if data[|data| - 1].name == lab then 1 else 0)
  }

  /** `lab` occurs in `data`, and no label occurs more often. */
  ghost predicate IsMode(data: seq<LabelDist>, lab: string)
  {
    && Count(data, lab) > 0
    && forall other :: Count(data, other) <= Count(data, lab)
  }

  /**
   * `ret` is a correct outcome of the vote over `data`: at least one label,
   * none twice, and exactly the labels tied for the highest count.
   */
  ghost predicate Winners(ret: seq<string>, data: seq<LabelDist>)
  {
    && |ret| > 0
    && Distinct(ret)
    && forall lab :: lab in ret <==> IsMode(data, lab)
  }

  /** A label is counted exactly when some entry carries it. */
  lemma {:induction false} CountPositiveIffPresent(data: seq<LabelDist>, lab: string)
    ensures Count(data, lab) > 0 <==> exists i :: 0 <= i < |data| && data[i].name == lab
  {
    if data != [] {
      var n := |data| - 1;
      CountPositiveIffPresent(data[..n], lab);
      if Count(data[..n], lab) > 0 {
        var i :| 0 <= i < n && data[..n][i].name == lab;
        assert data[i].name == lab;
      }
      if exists i :: 0 <= i < |data| && data[i].name == lab {
        var i :| 0 <= i < |data| && data[i].name == lab;
        if i < n {
          assert data[..n][i].name == lab;
        }
      }
    }
  }

  /** The first two elements of a list without repeats differ. */
  lemma DistinctFirstTwo<T>(s: seq<T>)
    requires Distinct(s)
    ensures |s| <= 1 || s[0] != s[1]
  {
  }

  /** An element found at two positions occurs at least twice. */
  lemma RepeatMultiplicity<T>(s: seq<T>, p: nat, q: nat)
    requires p < q < |s| && s[p] == s[q]
    ensures multiset(s)[s[p]] >= 2
  {
    assert s == s[..q] + s[q..];
    assert multiset(s) == multiset(s[..q]) + multiset(s[q..]);
    assert s[p] in multiset(s[..q]) && s[q] in multiset(s[q..]);
  }

  /** Counting over a concatenation adds the counts of the two parts. */
  lemma {:induction false} CountAppend(a: seq<LabelDist>, b: seq<LabelDist>, lab: string)
    ensures Count(a + b, lab) == Count(a, lab) + Count(b, lab)
    decreases |b|
  {
    if b == [] {
      assert a + b == a;
    } else {
      var n := |b| - 1;
      assert (a + b)[..|a + b| - 1] == a + b[..n];
      CountAppend(a, b[..n], lab);
    }
  }

  /**
   * The tally ignores the order of the neighbours: any rearrangement of the
   * same entries gives every label the same count.
   */
  lemma {:induction false} CountPermutation(a: seq<LabelDist>, b: seq<LabelDist>, lab: string)
    requires multiset(a) == multiset(b)
    ensures Count(a, lab) == Count(b, lab)
    decreases |a|
  {
    if a == [] {
      assert |b| == |multiset(b)| == 0;
    } else {
      var n := |a| - 1;
      var x := a[n];
      assert a == a[..n] + [x];
      assert x in multiset(b);
      var j :| 0 <= j < |b| && b[j] == x;
      var rest := b[..j] + b[j + 1..];
      assert b == b[..j] + [x] + b[j + 1..];
      assert multiset(rest) == multiset(b) - multiset{x};
      assert multiset(a[..n]) == multiset(a) - multiset{x};
      CountPermutation(a[..n], rest, lab);
      CountAppend(b[..j] + [x], b[j + 1..], lab);
      CountAppend(b[..j], [x], lab);
      CountAppend(b[..j], b[j + 1..], lab);
      assert Count([x], lab) == Count(a, lab) - Count(a[..n], lab);
    }
  }

  /** The vote's outcome depends only on the multiset of neighbours. */
  lemma WinnersIgnoreOrder(ret: seq<string>, a: seq<LabelDist>, b: seq<LabelDist>)
    requires multiset(a) == multiset(b)
    requires Winners(ret, a)
    ensures Winners(ret, b)
  {
    forall lab {
      CountPermutation(a, b, lab);
    }
  }

  /** A sequence in which every element has multiplicity at most one is Distinct. */
  lemma DistinctFromMultiset<T>(s: seq<T>)
    requires forall x :: multiset(s)[x] <= 1
    ensures Distinct(s)
  {
    if !Distinct(s) {
      var p, q :| 0 <= p < q < |s| && s[p] == s[q];
      RepeatMultiplicity(s, p, q);
      assert false;
    }
  }

  /** The first loop of mostFrequent: count the entries per label. */
  method Tally(data: seq<LabelDist>) returns (fc: map<string, nat>)
    ensures forall lab :: lab in fc <==> Count(data, lab) > 0
    ensures forall lab :: lab in fc ==> fc[lab] == Count(data, lab)
  {
    fc := map[];
    for i := 0 to |data|
      invariant forall lab :: lab in fc <==> Count(data[..i], lab) > 0
      invariant forall lab :: lab in fc ==> fc[lab] == Count(data[..i], lab)
    {
      assert data[..i + 1][..i] == data[..i];
      var e := data[i];
      fc := fc[e.name := (if e.name in fc then fc[e.name] else 0) + 1];
    }
    assert data[..|data|] == data;
  }

  /**
   * The second loop of mostFrequent: one (label, count) pair per key of the
   * tally, in the map's unspecified iteration order.
   */
  method PairsOf(fc: map<string, nat>) returns (labelsByFreq: array<LabelFreq>)
    ensures fresh(labelsByFreq)
    ensures labelsByFreq.Length == |fc.Keys|
    ensures forall x :: x in labelsByFreq[..] ==> x.name in fc && x.freq == fc[x.name]
    ensures forall lab :: lab in fc ==> LabelFreq(lab, fc[lab]) in labelsByFreq[..]
    ensures forall x :: multiset(labelsByFreq[..])[x] <= 1
  {
    labelsByFreq := new LabelFreq[|fc.Keys|];
    var n := 0;
    var rest := fc.Keys;
    while rest != {}
      invariant rest <= fc.Keys
      invariant n + |rest| == |fc.Keys|
      invariant forall lab :: lab in fc && lab !in rest ==> LabelFreq(lab, fc[lab]) in labelsByFreq[..n]
      invariant forall x :: x in labelsByFreq[..n] ==> x.name in fc && x.name !in rest && x.freq == fc[x.name]
      invariant forall x :: multiset(labelsByFreq[..n])[x] <= 1
      decreases rest
    {
      var lab :| lab in rest;
      assert |rest - {lab}| == |rest| - 1;
      assert LabelFreq(lab, fc[lab]) !in labelsByFreq[..n];
      labelsByFreq[n] := LabelFreq(lab, fc[lab]);
      assert labelsByFreq[..n + 1] == labelsByFreq[..n] + [LabelFreq(lab, fc[lab])];
      n := n + 1;
      rest := rest - {lab};
    }
    assert labelsByFreq[..] == labelsByFreq[..n];
  }

  /**
   * The last loop of mostFrequent: the labels of the leading entries whose
   * count equals the first entry's, stopping at the first smaller count.
   */
  method LeadingTies(labelsByFreq: array<LabelFreq>) returns (ret: seq<string>)
    requires labelsByFreq.Length > 0
    requires SortedBy(labelsByFreq[..], ByFreqLess)
    ensures 0 < |ret| <= labelsByFreq.Length
    ensures forall p :: 0 <= p < |ret| ==>
              ret[p] == labelsByFreq[p].name && labelsByFreq[p].freq == labelsByFreq[0].freq
    ensures |ret| < labelsByFreq.Length ==> labelsByFreq[|ret|].freq < labelsByFreq[0].freq
  {
    var firstFreq := labelsByFreq[0].freq;
    ret := [labelsByFreq[0].name];
    var i := 1;
    while i < labelsByFreq.Length
      invariant 1 <= i <= labelsByFreq.Length
      invariant |ret| == i
      invariant forall p :: 0 <= p < i ==> ret[p] == labelsByFreq[p].name && labelsByFreq[p].freq == firstFreq
    {
      if firstFreq > labelsByFreq[i].freq {
        break;
      }
      assert !ByFreqLess(labelsByFreq[i], labelsByFreq[0]);
      ret := ret + [labelsByFreq[i].name];
      i := i + 1;
    }
  }

  /**
   * mostFrequent: tally the labels, order the distinct labels by descending
   * count, and return every label whose count equals the first one's.
   */
  method MostFrequent(data: seq<LabelDist>) returns (ret: seq<string>)
    requires |data| > 0
    ensures Winners(ret, data)
  {
    var fc := Tally(data);
    var labelsByFreq := PairsOf(fc);
    ghost var unsorted := labelsByFreq[..];
    CountPositiveIffPresent(data, data[0].name);
    assert data[0].name in fc;

    ByFreqLessIsStrictWeak();
    SortBy(labelsByFreq, ByFreqLess);
    assert multiset(labelsByFreq[..]) == multiset(unsorted);
    forall x ensures x in labelsByFreq[..] <==> x in unsorted {
      assert x in labelsByFreq[..] <==> x in multiset(labelsByFreq[..]);
      assert x in unsorted <==> x in multiset(unsorted);
    }
    DistinctFromMultiset(labelsByFreq[..]);

    ret := LeadingTies(labelsByFreq);
    MostFrequentResult(data, fc, labelsByFreq[..], ret);
  }

  /**
   * Why the labels gathered by MostFrequent are exactly the modes, each once:
   * the pairs list every counted label once, sorted by descending count, and
   * `ret` holds the leading entries tied with the first.
   */
  lemma MostFrequentResult(data: seq<LabelDist>, fc: map<string, nat>, byFreq: seq<LabelFreq>,
                           ret: seq<string>)
    requires forall l :: l in fc <==> Count(data, l) > 0
    requires forall l :: l in fc ==> fc[l] == Count(data, l)
    requires forall x :: x in byFreq ==> x.name in fc && x.freq == fc[x.name]
    requires forall l :: l in fc ==> LabelFreq(l, fc[l]) in byFreq
    requires Distinct(byFreq)
    requires SortedBy(byFreq, ByFreqLess)
    requires 0 < |ret| <= |byFreq|
    requires forall p :: 0 <= p < |ret| ==> ret[p] == byFreq[p].name && byFreq[p].freq == byFreq[0].freq
    requires |ret| < |byFreq| ==> byFreq[|ret|].freq < byFreq[0].freq
    ensures Distinct(ret)
    ensures forall lab :: lab in ret <==> IsMode(data, lab)
  {
    // Dafny needs no hints: every entry's count is at most the first's, and
    // the entry after the leading ties has a smaller count.
  }

  /** With a strict plurality winner, the vote returns that label alone. */
  lemma StrictPluralityWinner(data: seq<LabelDist>, ret: seq<string>, winner: string)
    requires Count(data, winner) > 0
    requires forall other :: other != winner ==> Count(data, other) < Count(data, winner)
    requires Winners(ret, data)
    ensures ret == [winner]
  {
    assert IsMode(data, winner);
    assert winner in ret;
    forall p | 0 <= p < |ret|
      ensures ret[p] == winner
    {
      assert ret[p] in ret;
    }
    DistinctFirstTwo(ret);
  }
}
