/**
 * Ratio validation, cut-point arithmetic and three-way slicing of split_dataset.
 *
 * Ratios are exact reals standing for the floats the caller passes. Python's int()
 * truncates toward zero and Python's slicing counts a negative bound from the end of
 * the list and then clamps both bounds into [0, N]; both are written out here for all
 * inputs, because the ratio check lets negative ratios through.
 */
module Partition {
  import opened Seqs

  /** Largest distance between the ratio sum and 1.0 that split_dataset accepts. */
  const Tolerance: real := 0.000001

  function Abs(x: real): (r: real)
    ensures 0.0 <= r && (r == x || r == -x)
  {
    if x < 0.0 then -x else x
  }

  /**
   * The ratio check as split_dataset writes it: the triple is refused (ValueError)
   * exactly when its sum is more than Tolerance away from 1.0. Nothing else is checked.
   */
  predicate SumWithinTolerance(trainRatio: real, valRatio: real, testRatio: real)
    ensures SumWithinTolerance(trainRatio, valRatio, testRatio) <==>
      1.0 - Tolerance <= trainRatio + valRatio + testRatio <= 1.0 + Tolerance
  {
    !(Abs(trainRatio + valRatio + testRatio - 1.0) > Tolerance)
  }

  /**
   * The ratio check the rest of the model uses: the sum check above together with the
   * non-negativity that the three proportions are meant to have. See
   * NegativeRatioOverlaps for what goes wrong without it.
   */
  predicate RatiosValid(trainRatio: real, valRatio: real, testRatio: real)
    ensures RatiosValid(trainRatio, valRatio, testRatio) ==>
      && SumWithinTolerance(trainRatio, valRatio, testRatio)
      && trainRatio <= 1.0 + Tolerance && valRatio <= 1.0 + Tolerance && testRatio <= 1.0 + Tolerance
  {
    SumWithinTolerance(trainRatio, valRatio, testRatio)
    && 0.0 <= trainRatio && 0.0 <= valRatio && 0.0 <= testRatio
  }

  /** Python's int() on a number: the integer part, rounding toward zero. */
  function Trunc(x: real): (r: int)
    ensures 0.0 <= x ==> 0 <= r && r as real <= x < r as real + 1.0
    ensures x < 0.0 ==> r <= 0 && x <= r as real < x + 1.0
  {
    if 0.0 <= x then x.Floor else -((-x).Floor)
  }

  function Min(a: int, b: int): (r: int)
    ensures r <= a && r <= b && (r == a || r == b)
  {
    if a <= b then a else b
  }

  /**
   * Where a slice bound i falls in a list of length n: a negative bound counts from
   * the end, and the result is clamped into [0, n].
   */
  function SliceBound(i: int, n: nat): (b: nat)
    ensures b <= n
    ensures 0 <= i ==> b == Min(i, n)
    ensures i < 0 ==> b < n || n == 0
  {
    if i < 0 then (if n + i < 0 then 0 else n + i) else Min(i, n)
  }

  /** Python's s[lo:hi]: a contiguous run of s, empty when the bounds cross. */
  function Slice<T>(s: seq<T>, lo: int, hi: int): (r: seq<T>)
    ensures |r| <= |s| - SliceBound(lo, |s|)
    ensures forall k :: 0 <= k < |r| ==> r[k] == s[SliceBound(lo, |s|) + k]
    ensures SliceBound(lo, |s|) < SliceBound(hi, |s|) ==> |r| == SliceBound(hi, |s|) - SliceBound(lo, |s|)
    ensures SliceBound(hi, |s|) <= SliceBound(lo, |s|) ==> r == []
  {
    var a, b := SliceBound(lo, |s|), SliceBound(hi, |s|);
    if a < b then s[a..b] else []
  }

  /** The two cut points train_end and val_end. */
  datatype Cuts = Cuts(trainEnd: int, valEnd: int)

  /** train_end = int(N * train_ratio) and val_end = train_end + int(N * val_ratio). */
  function CutPoints(n: nat, trainRatio: real, valRatio: real): (c: Cuts)
    ensures 0.0 <= trainRatio ==> c.trainEnd == (n as real * trainRatio).Floor
    ensures 0.0 <= valRatio ==> c.valEnd - c.trainEnd == (n as real * valRatio).Floor
    ensures 0.0 <= trainRatio && 0.0 <= valRatio ==> 0 <= c.trainEnd <= c.valEnd
  {
    var trainEnd := Trunc(n as real * trainRatio);
    Cuts(trainEnd, trainEnd + Trunc(n as real * valRatio))
  }

  /** The three slices handed to the move loops. */
  datatype Partition<T> = Partition(train: seq<T>, val: seq<T>, test: seq<T>)

  /**
   * images[:train_end], images[train_end:val_end] and images[val_end:]. Whatever the
   * ratios, train is a prefix of the list, test a suffix, and none is longer than it.
   */
  function Split<T>(images: seq<T>, trainRatio: real, valRatio: real): (p: Partition<T>)
    ensures |p.train| <= |images| && p.train == images[..|p.train|]
    ensures |p.test| <= |images| && p.test == images[|images| - |p.test|..]
    ensures |p.val| <= |images|
  {
    var c := CutPoints(|images|, trainRatio, valRatio);
    Partition(Slice(images, 0, c.trainEnd),
              Slice(images, c.trainEnd, c.valEnd),
              Slice(images, c.valEnd, |images|))
  }

  /**
   * For non-negative ratios the slices are the runs [0, a), [a, b) and [b, N) with
   * a = min(train_end, N) and b = min(val_end, N): they put the shuffled list back
   * together, so their sizes add up to N and test takes the rounding remainder.
   */
  lemma SplitReassembles<T>(images: seq<T>, trainRatio: real, valRatio: real)
    requires 0.0 <= trainRatio && 0.0 <= valRatio
    ensures var c, p := CutPoints(|images|, trainRatio, valRatio), Split(images, trainRatio, valRatio);
      var a, b := Min(c.trainEnd, |images|), Min(c.valEnd, |images|);
      && a <= b
      && p.train == images[..a]
      && p.val == images[a..b]
      && p.test == images[b..]
      && p.train + p.val + p.test == images
      && |p.train| + |p.val| + |p.test| == |images|
  {
    var n := |images|;
    var c, p := CutPoints(n, trainRatio, valRatio), Split(images, trainRatio, valRatio);
    var a, b := Min(c.trainEnd, n), Min(c.valEnd, n);
    assert p.train == images[..a];
    assert p.val == images[a..b];
    assert p.test == images[b..];
    assert images[..a] + images[a..b] + images[b..] == images;
  }

  /** train_count + val_count + test_count == N, for non-negative ratios. */
  lemma SplitCountsAddUp<T>(images: seq<T>, trainRatio: real, valRatio: real)
    requires 0.0 <= trainRatio && 0.0 <= valRatio
    ensures var p := Split(images, trainRatio, valRatio);
      |p.train| + |p.val| + |p.test| == |images|
  {
    SplitReassembles(images, trainRatio, valRatio);
  }

  /**
   * The slice sizes: train gets min(floor(N * train_ratio), N) items, val gets what
   * lies between the clamped cut points, and once val_end reaches N test is empty.
   */
  lemma SplitSizes<T>(images: seq<T>, trainRatio: real, valRatio: real)
    requires 0.0 <= trainRatio && 0.0 <= valRatio
    ensures var n, p := |images|, Split(images, trainRatio, valRatio);
      var trainEnd := (n as real * trainRatio).Floor;
      var valEnd := trainEnd + (n as real * valRatio).Floor;
      && |p.train| == Min(trainEnd, n)
      && |p.val| == Min(valEnd, n) - Min(trainEnd, n)
      && |p.test| == n - Min(valEnd, n)
      && (n <= valEnd ==> p.test == [])
  {
    SplitReassembles(images, trainRatio, valRatio);
  }

  /** Slices of a duplicate-free list are duplicate-free and pairwise disjoint. */
  lemma SplitDisjoint<T>(images: seq<T>, trainRatio: real, valRatio: real)
    requires 0.0 <= trainRatio && 0.0 <= valRatio
    requires Distinct(images)
    ensures var p := Split(images, trainRatio, valRatio);
      && Distinct(p.train) && Distinct(p.val) && Distinct(p.test)
      && Disjoint(p.train, p.val) && Disjoint(p.train, p.test) && Disjoint(p.val, p.test)
  {
    SplitReassembles(images, trainRatio, valRatio);
    var n, c := |images|, CutPoints(|images|, trainRatio, valRatio);
    var a, b := Min(c.trainEnd, n), Min(c.valEnd, n);
    assert images[..a] == images[0..a];
    DisjointRanges(images, 0, a, a, b);
    DisjointRanges(images, 0, a, b, n);
    DisjointRanges(images, a, b, b, n);
  }

  /**
   * Every ratio triple the corrected check accepts cuts any list into three runs
   * that put it back together; for a duplicate-free list no element lands in two of
   * them.
   */
  lemma ValidRatiosPartition<T>(images: seq<T>, trainRatio: real, valRatio: real, testRatio: real)
    requires RatiosValid(trainRatio, valRatio, testRatio)
    ensures var p := Split(images, trainRatio, valRatio);
      && p.train + p.val + p.test == images
      && (Distinct(images) ==>
            Disjoint(p.train, p.val) && Disjoint(p.train, p.test) && Disjoint(p.val, p.test))
  {
    SplitReassembles(images, trainRatio, valRatio);
    if Distinct(images) {
      SplitDisjoint(images, trainRatio, valRatio);
    }
  }

  /** Ratios 1.0 / 0.0 / 0.0 put every image in train and none in val or test. */
  lemma AllToTrain<T>(images: seq<T>)
    ensures RatiosValid(1.0, 0.0, 0.0)
    ensures Split(images, 1.0, 0.0) == Partition(images, [], [])
  {
    var n := |images|;
    assert n as real * 1.0 == n as real;
    assert n as real * 0.0 == 0.0;
    assert CutPoints(n, 1.0, 0.0) == Cuts(n, n);
    assert images[0..n] == images;
  }

  /** Five images with ratios 0.6 / 0.2 / 0.2 give three for train and one each for val and test. */
  lemma FiveImages<T>(images: seq<T>)
    requires |images| == 5
    ensures RatiosValid(0.6, 0.2, 0.2)
    ensures var p := Split(images, 0.6, 0.2);
      |p.train| == 3 && |p.val| == 1 && |p.test| == 1
  {
    assert 5.0 * 0.6 == 3.0 && 5.0 * 0.2 == 1.0;
    assert CutPoints(5, 0.6, 0.2) == Cuts(3, 4);
  }

  /**
   * The tolerance is 1e-6, not 1e-5: a sum of 0.99999 is refused, as is 0.9, while a
   * sum exactly 1e-6 above 1.0 is still accepted.
   */
  lemma ToleranceBoundaries()
    ensures SumWithinTolerance(0.6, 0.2, 0.2)
    ensures !SumWithinTolerance(0.5, 0.3, 0.19999)
    ensures !SumWithinTolerance(0.6, 0.2, 0.1)
    ensures SumWithinTolerance(1.000001, 0.0, 0.0)
  {
  }

  /**
   * Because the tolerance lets the train ratio exceed 1.0, train_end can lie beyond N:
   * with ratio 1.000001 and N = 1000001 it is N + 1, and the slice clamps it to N.
   */
  lemma TrainEndMayPassN()
    ensures RatiosValid(1.000001, 0.0, 0.0)
    ensures CutPoints(1000001, 1.000001, 0.0).trainEnd == 1000002
  {
    assert 1000001.0 * 1.000001 == 1000002.000001;
  }

  /**
   * Not every negative ratio breaks the split: the check as written accepts
   * 0.6 / 0.5 / -0.1, and for ten images the slices are the first six, the last four
   * and nothing, which put the list back together.
   */
  lemma NegativeRatioSplitsCleanly<T>(images: seq<T>)
    requires |images| == 10
    ensures SumWithinTolerance(0.6, 0.5, -0.1)
    ensures !RatiosValid(0.6, 0.5, -0.1)
    ensures var p := Split(images, 0.6, 0.5);
      && p == Partition(images[..6], images[6..], [])
      && p.train + p.val + p.test == images
  {
    assert 10.0 * 0.6 == 6.0 && 10.0 * 0.5 == 5.0;
    assert CutPoints(10, 0.6, 0.5) == Cuts(6, 11);
    assert images[..6] + images[6..] == images;
  }

  /**
   * As written, the ratio check accepts -0.25 / 0.25 / 1.0. For four images
   * train_end = int(-1.0) = -1 and val_end = 0, so train is images[:-1], the first
   * three, and test is images[0:], all four: the first three images are in two slices.
   */
  lemma NegativeRatioOverlaps()
    ensures SumWithinTolerance(-0.25, 0.25, 1.0)
    ensures !RatiosValid(-0.25, 0.25, 1.0)
    ensures var p := Split(["a.jpg", "b.jpg", "c.jpg", "d.jpg"], -0.25, 0.25);
      && p.train == ["a.jpg", "b.jpg", "c.jpg"]
      && p.val == []
      && p.test == ["a.jpg", "b.jpg", "c.jpg", "d.jpg"]
      && !Disjoint(p.train, p.test)
  {
    var images := ["a.jpg", "b.jpg", "c.jpg", "d.jpg"];
    assert 4.0 * -0.25 == -1.0 && 4.0 * 0.25 == 1.0;
    assert Trunc(-1.0) == -1 && Trunc(1.0) == 1;
    assert CutPoints(4, -0.25, 0.25) == Cuts(-1, 0);
    assert SliceBound(-1, 4) == 3;
    var p := Split(images, -0.25, 0.25);
    assert p.train == images[0..3];
    assert p.test == images[0..4];
    assert p.train[0] == "a.jpg" && p.test[0] == "a.jpg";
    assert "a.jpg" in p.train && "a.jpg" in p.test;
  }
}
