# k-nearest-neighbours classifier, modelled in Dafny

A model of `knn.go`, an exhaustive-scan k-nearest-neighbours classifier. A
classifier is built with `k` and a distance function. It is trained with a set
of labelled points. It classifies a query point by measuring the query against
every training point. It then sorts the (distance, label) pairs by distance,
keeps the first `k` and returns every label tied for the highest count among
them.

Modules, one per part of the Go file:

- `Outcomes` (outcomes.dfy): the error values (`DimensionMismatch`,
  `TrainingSetTooSmall`), `Option` for a Go `error` and `Result` for a Go
  `(value, error)` pair.
- `Distance` (distance.dfy): the distance-function type
  `(seq<real>, seq<real>) -> Result<real>` and `Euclidean`. `Euclidean` is a
  loop proved against the function `SquaredEuclidean`.
- `Sorting` (sorting.dfy): Go's `sort.Sort` as one in-place sort, `SortBy`. It
  takes a `Less` and is specified only by its result: a permutation in which no
  element is `Less` than one before it.
- `Vote` (vote.dfy): `mostFrequent`. It tallies labels into a map, lists the
  (label, count) pairs in the map's unspecified order, sorts them by `byFreq`
  and takes the leading ties. The result is specified by `Winners`: a
  non-empty, duplicate-free list holding exactly the labels whose count no
  other label exceeds.
- `Knn` (knn.dfy): the `Knn` struct as the class `Classifier`, with fields `ts`,
  `dist` and `k`. It provides `New`, `Train` and `Classify`, and `byDist` as
  `ByDistLess`.
- `Scenarios` (scenarios.dfy): client methods that drive the class through
  four concrete situations. These are: a too-small training set, a query of the
  wrong dimension, two labels tied at the same place, and a strict plurality.
  Each ends by asserting what the contracts let it conclude.

Where the intended behaviour and the code differ, the model follows the code:

- Labels tied for the highest count come back in the order of the Go map
  iteration, which is unspecified. No deterministic (for example
  lexicographic) order is imposed. `PairsOf` picks keys with `:|`.
- `k` is not validated by `New`.
- Calling `Classify` with `k <= 0` or with fewer training points than `k`
  (for example before a successful `Train`) makes the Go code panic. It is a
  precondition here, not a defined result.

## Model

| member | source | states |
|---|---|---|
| `Distance.SquaredEuclidean` | knn.go:14-16 | fails, with `DimensionMismatch`, exactly when the two points differ in dimension; otherwise yields a non-negative value |
| `Distance.Euclidean` | knn.go:13-26 | the coordinate-by-coordinate accumulation returns exactly `SquaredEuclidean(a, b)`: the dimension error, or the sum of squared differences |
| `Distance.SumSquares` | knn.go:18-23 | the accumulated sum of squared differences is never negative |
| `Distance.SumSquaresSymmetric` | knn.go:18-23 | the sum of squared differences from a to b equals that from b to a |
| `Distance.SumSquaresZeroIff` | knn.go:18-23 | the sum of squared differences is zero exactly when the two points are equal |
| `Distance.SquaredEuclideanSymmetricAndSeparating` | knn.go:13-26 | on points of equal dimension the distance succeeds both ways, is symmetric, and is zero exactly on equal points |
| `Sorting.Swap` | knn.go:62 | `byDist`'s Swap, and `byFreq`'s at knn.go:115: entries i and j are exchanged, every other entry is unchanged, and the multiset of contents is preserved |
| `Sorting.SortBy` | knn.go:76 | stands for both `sort.Sort` calls, on `byDist` (this line) and on `byFreq` (knn.go:92): after sorting, the array is a permutation of its old contents and no element is `Less` than an earlier one; it needs only that `Less` is a strict weak order |
| `Knn.ByDistLessIsStrictWeak` | knn.go:63 | `byDist`'s `Less` is a strict weak order, as `sort.Sort` requires, and two pairs are tied exactly when their distances are equal |
| `Vote.ByFreqLessIsStrictWeak` | knn.go:116 | `byFreq`'s `Less` (higher count first) is a strict weak order, as `sort.Sort` requires, and two pairs are tied exactly when their counts are equal |
| `Knn.PrefixNoFarther` | knn.go:76-78 | in a by-distance ordering, every entry before position k is no farther than every entry from position k on |
| `Knn.SortedPrefixIsNearest` | knn.go:76-78 | the first k pairs of a by-distance ordering of all pairs are k of those pairs, and none is farther than any pair left out |
| `Knn.NearestOfAllIsAll` | knn.go:76-78 | when k equals the number of training points, the k nearest are all of them |
| `Knn.Classifier.New` | knn.go:39-44 | a new classifier holds the given k and distance function and no training points |
| `Knn.Classifier.Train` | knn.go:46-52 | fails with `TrainingSetTooSmall` exactly when the set has fewer than k points, leaving the stored set unchanged; otherwise the stored set becomes the argument, replacing any earlier one; k and the distance function never change |
| `Knn.Classifier.Classify` | knn.go:65-79 | if some training point's distance fails, returns the error of the first such point with no labels; otherwise every distance is defined and the labels are the vote winners of some choice of k nearest (distance, label) pairs; it has no `modifies` clause, so `ts`, `dist` and `k` are unchanged |
| `Vote.Count` | knn.go:83-85 | a label's count never exceeds the number of entries |
| `Vote.CountPositiveIffPresent` | knn.go:83-85 | a label has a positive count exactly when some entry carries it |
| `Vote.CountAppend` | knn.go:83-85 | counting over two concatenated runs of entries adds their counts |
| `Vote.CountPermutation` | knn.go:83-85 | the tally does not depend on the order of the entries |
| `Vote.WinnersIgnoreOrder` | knn.go:81-105 | the vote depends only on the multiset of the chosen neighbours, not on their order; which pairs tied at the k-th distance are chosen can change it (see `Scenarios.BoundaryTieDecidesVote` and the `Knn.Classifier.Classify` lines under Left out) |
| `Vote.Tally` | knn.go:82-85 | the map built by the loop has exactly the labels that occur, each mapped to its count |
| `Vote.PairsOf` | knn.go:87-90 | one (label, count) pair per map key, each key exactly once, in an unspecified order |
| `Vote.LeadingTies` | knn.go:94-102 | on a list sorted by descending count, returns the labels of the leading entries whose count equals the first's, stopping at the first smaller count |
| `Vote.MostFrequentResult` | knn.go:94-102 | the leading ties of the sorted pair list are exactly the labels tied for the highest count, each once |
| `Vote.MostFrequent` | knn.go:81-105 | on non-empty data, returns a non-empty list of distinct labels containing every label whose count equals the highest count and no other label |
| `Vote.StrictPluralityWinner` | knn.go:94-102 | when one label occurs strictly more often than every other, the vote returns that label alone |
| `Scenarios.BothTiedLabelsWin` | knn.go:94-102 | with one "A" and one "B" among the neighbours, both are returned and nothing else |
| `Scenarios.PluralityDistances` | knn.go:13-26 | the squared Euclidean distances of [0, 1] to [0, 0], [10, 10] and [1, 1] are 1, 181 and 1 |
| `Scenarios.NearestTwoAreA` | knn.go:76-78 | out of "A" at 1, "B" at 181 and "A" at 1, the two nearest are the two "A" pairs |
| `Scenarios.BoundaryTieDecidesVote` | knn.go:76-78 | with "A" and "B" both at distance 0 and k = 1, each pair alone is a valid choice of nearest neighbour, and the two choices elect ["A"] and ["B"] respectively |
| `Scenarios.SoleWinnerA` | knn.go:94-102 | the vote over two "A" neighbours is exactly ["A"] |

## Left out

- Floating point: `float64` becomes `real`, and the final `math.Sqrt` of `Euclidean` is dropped. The square root is monotone, so neighbours are ordered the same way. `Euclidean` therefore returns the squared distance.
- The internals of `sort.Sort`: `SortBy` is an insertion sort. Its contract promises only what `sort.Sort` promises, so the order of pairs at equal distance is left open.
- `Knn.Classifier.Classify`: the contract does not say which of several pairs at the same distance on the k-th boundary are kept. It states the result for some valid choice of k nearest pairs, because the Go sort is not stable. For the same reason it does not promise that two calls on the same query pick the same neighbours. The Go sort is deterministic for a given input, so in the source they do. The choice can change the vote, as `Scenarios.BoundaryTieDecidesVote` shows.
- `Knn.Classifier.Classify`: the source does not measure the training points after the first failing one. The distance function is a pure function here, so calls are not observable. The contract states instead that the error returned is the first failing point's.
- `Knn.Classifier.Classify`: when the distance fails before `lds[:k]` is reached, Go returns the error even if `k` is out of range. The model requires `0 < k <= |ts|` on every call.
- `Knn.Classifier.Train`: Go stores the caller's slice itself (`k.ts = ts`), so later writes by the caller to that slice change the training set. The model stores the sequence as a value, so this aliasing is not captured.
- The texts of the `fmt.Errorf` messages: each is one `Error` constructor.
- The `Knner` interface and its dynamic dispatch: a training point is the datatype `Sample(name, pos)`.
- The error result of `mostFrequent`, which is always `nil`: `Vote.MostFrequent` returns only the labels.
- `Scenarios.BothTiedLabelsWin`: it states which labels are returned, not their order, since that order comes from Go map iteration.
- Concurrency: the source has none.
