/**
 * Row selection on data dictionaries (`split_data_widx`) and the three-way
 * cut of a permutation that `FullAdapt.split_data` uses.
 */
module Folds {
  import opened Wrappers
  import opened NdArrays
  import opened Estimators

  predicate Distinct(s: seq<nat>)
  {
    forall i, j :: 0 <= i < j < |s| ==> s[i] != s[j]
  }

  /** `RandomState(seed).permutation(n)`: each of 0 .. n-1 exactly once. */
  predicate IsPermutation(p: seq<nat>, n: nat)
  {
    |p| == n && Distinct(p) && forall i :: 0 <= i < |p| ==> p[i] < n
  }

  function Min(a: nat, b: nat): nat
  {
    if a <= b then a else b
  }

  /** `int(0.33 * n)`. */
  function FirstCut(n: nat): nat
  {
    33 * n / 100
  }

  /** `int(0.67 * n)`. */
  function SecondCut(n: nat): nat
  {
    67 * n / 100
  }

  lemma CutPointsOrdered(n: nat)
    ensures FirstCut(n) <= SecondCut(n) <= n
  {
    assert 33 * n <= 67 * n <= 100 * n;
  }

  /**
   * `np.split(index, [int(0.33 * n), int(0.67 * n)])`: three consecutive
   * slices; cut points past the end of `index` are clamped to its length.
   */
  function Cut(index: seq<nat>, n: nat): (parts: seq<seq<nat>>)
    ensures |parts| == 3
    ensures parts[0] + parts[1] + parts[2] == index
    ensures |parts[0]| == Min(FirstCut(n), |index|)
    ensures |parts[0]| + |parts[1]| == Min(SecondCut(n), |index|)
  {
    CutPointsOrdered(n);
    var a, b := Min(FirstCut(n), |index|), Min(SecondCut(n), |index|);
    assert index[..a] + index[a..b] + index[b..] == index;
    [index[..a], index[a..b], index[b..]]
  }

  /** Cutting a permutation of its own length gives parts of the sizes the cut points promise. */
  lemma CutSizes(index: seq<nat>, n: nat)
    requires |index| == n
    ensures |Cut(index, n)[0]| == FirstCut(n)
    ensures |Cut(index, n)[1]| == SecondCut(n) - FirstCut(n)
    ensures |Cut(index, n)[2]| == n - SecondCut(n)
  {
    CutPointsOrdered(n);
  }

  /**
   * The target cut uses the source row count n: when the target has fewer
   * rows than a cut point, the parts after it are empty.
   */
  lemma CutClamps(index: seq<nat>, n: nat)
    ensures |index| <= SecondCut(n) ==> Cut(index, n)[2] == []
    ensures |index| <= FirstCut(n) ==> Cut(index, n)[1] == [] && Cut(index, n)[2] == []
    ensures |index| <= FirstCut(n) ==> Cut(index, n)[0] == index
  {
    CutPointsOrdered(n);
  }

  lemma SlicesDisjoint(s: seq<nat>, lo1: nat, hi1: nat, lo2: nat, hi2: nat)
    requires Distinct(s)
    requires lo1 <= hi1 <= lo2 <= hi2 <= |s|
    ensures forall x :: x in s[lo1..hi1] ==> x !in s[lo2..hi2]
  {
    forall x | x in s[lo1..hi1]
      ensures x !in s[lo2..hi2]
    {
      var p :| lo1 <= p < hi1 && s[p] == x;
      forall q | lo2 <= q < hi2
        ensures s[q] != x
      {
        assert p < q;
      }
    }
  }

  /** The three parts of a permutation share no index, and every index is below n. */
  lemma CutDisjoint(index: seq<nat>, n: nat)
    requires IsPermutation(index, n)
    ensures var parts := Cut(index, n);
      && (forall x :: x in parts[0] ==> x !in parts[1] && x !in parts[2])
      && (forall x :: x in parts[1] ==> x !in parts[2])
      && (forall i, x :: 0 <= i < 3 && x in parts[i] ==> x < n)
  {
    CutPointsOrdered(n);
    var a, b := FirstCut(n), SecondCut(n);
    var parts := Cut(index, n);
    assert parts[0] == index[0..a] && parts[1] == index[a..b] && parts[2] == index[b..n];
    SlicesDisjoint(index, 0, a, a, b);
    SlicesDisjoint(index, 0, a, b, n);
    SlicesDisjoint(index, a, b, b, n);
    forall i, x | 0 <= i < 3 && x in parts[i]
      ensures x < n
    {
      assert x in index;
    }
  }

  // ---------------------------------------------------------------- split_data_widx

  /** The value of `split_data_widx(data, idx)`: every block with the rows named by idx. */
  function SplitWidx(data: Dataset, idx: seq<nat>): (r: Result<Dataset>)
    requires ValidDataset(data)
    ensures r.Failure? ==> r.error == IndexError
  {
    if forall k :: k in data ==> TakeRows(data[k], idx).Success? then
      Success(map k | k in data :: TakeRows(data[k], idx).value)
    else Failure(IndexError)
  }

  /**
   * The sub-dictionary has exactly the input's keys; each block has one row
   * per index, row i being input row idx[i]; a 0-d block or an index past
   * the last row raises IndexError.
   */
  lemma SplitWidxRows(data: Dataset, idx: seq<nat>)
    requires ValidDataset(data)
    ensures SplitWidx(data, idx).Success? <==>
              forall k :: k in data ==> Rank(data[k]) >= 1 && forall j :: 0 <= j < |idx| ==> idx[j] < data[k].shape[0]
    ensures SplitWidx(data, idx).Success? ==>
              var sub := SplitWidx(data, idx).value;
              && sub.Keys == data.Keys
              && forall k :: k in data ==>
                   && Rank(sub[k]) == Rank(data[k]) && sub[k].shape[0] == |idx|
                   && sub[k].shape[1..] == data[k].shape[1..]
                   && forall i :: 0 <= i < |idx| ==> Row(sub[k], i) == Row(data[k], idx[i])
  {
    if SplitWidx(data, idx).Success? {
      var sub := SplitWidx(data, idx).value;
      forall k | k in data
        ensures Rank(data[k]) >= 1 && forall j :: 0 <= j < |idx| ==> idx[j] < data[k].shape[0]
        ensures && Rank(sub[k]) == Rank(data[k]) && sub[k].shape[0] == |idx|
                && sub[k].shape[1..] == data[k].shape[1..]
                && forall i :: 0 <= i < |idx| ==> Row(sub[k], i) == Row(data[k], idx[i])
      {
        TakeRowsSpec(data[k], idx);
      }
    } else {
      forall k | k in data {
        TakeRowsSpec(data[k], idx);
      }
    }
  }

  /** `split_data_widx`: fills the sub-dictionary one key at a time. */
  method SplitDataWidx(data: Dataset, idx: seq<nat>) returns (r: Result<Dataset>)
    requires ValidDataset(data)
    ensures r == SplitWidx(data, idx)
  {
    var sub: Dataset := map[];
    var keys := data.Keys;
    while keys != {}
      invariant keys <= data.Keys
      invariant sub.Keys == data.Keys - keys
      invariant forall k :: k in sub ==> TakeRows(data[k], idx) == Success(sub[k])
      decreases keys
    {
      var k :| k in keys;
      var block := TakeRows(data[k], idx);
      if block.Failure? {
        return Failure(block.error);
      }
      sub := sub[k := block.value];
      keys := keys - {k};
    }
    assert sub == map k | k in data :: TakeRows(data[k], idx).value;
    r := Success(sub);
  }

  // ---------------------------------------------------------------- the partitions of one domain

  /** `split_data_widx(data, idx)` for each idx in cuts. */
  function Splits(data: Dataset, cuts: seq<seq<nat>>): (rs: seq<Result<Dataset>>)
    requires ValidDataset(data)
    ensures |rs| == |cuts| && forall i :: 0 <= i < |cuts| ==> rs[i] == SplitWidx(data, cuts[i])
  {
    seq(|cuts|, i requires 0 <= i < |cuts| => SplitWidx(data, cuts[i]))
  }

  /**
   * `[split_data_widx(data, idx) for idx in cuts]`: succeeds exactly when
   * every cut does, the i-th dataset coming from cut i.
   */
  function SplitEach(data: Dataset, cuts: seq<seq<nat>>): (r: Result<seq<Dataset>>)
    requires ValidDataset(data)
    ensures r.Success? <==> forall i :: 0 <= i < |cuts| ==> SplitWidx(data, cuts[i]).Success?
    ensures r.Success? ==> |r.value| == |cuts|
    ensures r.Success? ==> forall i :: 0 <= i < |cuts| ==> SplitWidx(data, cuts[i]) == Success(r.value[i])
    ensures r.Failure? ==> r.error == IndexError
  {
    Collect(Splits(data, cuts))
  }

  /** The `for idx in split_id: train_list.append(...)` loop. */
  method SplitAll(data: Dataset, cuts: seq<seq<nat>>) returns (r: Result<seq<Dataset>>)
    requires ValidDataset(data)
    ensures r == SplitEach(data, cuts)
  {
    ghost var rs := Splits(data, cuts);
    var trainList: seq<Dataset> := [];
    var i := 0;
    while i < |cuts|
      invariant 0 <= i <= |cuts|
      invariant Collect(rs[..i]) == Success(trainList)
    {
      var sub := SplitDataWidx(data, cuts[i]);
      assert rs[..i + 1][..i] == rs[..i];
      if sub.Failure? {
        assert Collect(rs[..i + 1]) == Failure(sub.error);
        CollectStops(rs, i + 1);
        return Failure(sub.error);
      }
      trainList := trainList + [sub.value];
      i := i + 1;
    }
    assert rs[..i] == rs;
    r := Success(trainList);
  }

  /** `train["X"].shape[0]`: a list has no "X", a 0-d block has no axis 0. */
  function RowCount(t: TrainData): (r: Result<nat>)
    ensures r.Success? <==> t.Whole? && "X" in t.data && Rank(t.data["X"]) >= 1
    ensures r.Success? ==> r.value == t.data["X"].shape[0]
  {
    match t
    case Parts(_) => Failure(TypeError)
    case Whole(d) =>
      var x :- Get(d, "X");
      if Rank(x) == 0 then Failure(IndexError) else Success(x.shape[0])
  }

  /** The three datasets of one domain: the rows of `index`, cut at the cut points of n. */
  function Partition(data: Dataset, index: seq<nat>, n: nat): (r: Result<seq<Dataset>>)
    requires ValidDataset(data)
    ensures r.Success? ==> |r.value| == 3
  {
    SplitEach(data, Cut(index, n))
  }

  /** Every block of d is at least 1-d and has n rows. */
  predicate RowsOf(d: Dataset, n: nat)
  {
    forall k :: k in d ==> Rank(d[k]) >= 1 && d[k].shape[0] == n
  }

  /** Selecting in-range rows from blocks that all have n rows succeeds, with one row per index in every block. */
  lemma SplitInRange(data: Dataset, idx: seq<nat>, n: nat)
    requires ValidDataset(data) && RowsOf(data, n)
    requires forall j :: 0 <= j < |idx| ==> idx[j] < n
    ensures SplitWidx(data, idx).Success?
    ensures SplitWidx(data, idx).value.Keys == data.Keys && RowsOf(SplitWidx(data, idx).value, |idx|)
  {
    SplitWidxRows(data, idx);
  }

  /**
   * Partitioning along a permutation of the row count: the three datasets
   * keep every key and hold FirstCut(n), SecondCut(n) - FirstCut(n) and
   * n - SecondCut(n) rows.
   */
  lemma PartitionShape(data: Dataset, index: seq<nat>, n: nat)
    requires ValidDataset(data) && IsPermutation(index, n) && RowsOf(data, n)
    ensures Partition(data, index, n).Success?
    ensures var ps := Partition(data, index, n).value;
      && (forall i :: 0 <= i < 3 ==> ps[i].Keys == data.Keys)
      && RowsOf(ps[0], FirstCut(n)) && RowsOf(ps[1], SecondCut(n) - FirstCut(n)) && RowsOf(ps[2], n - SecondCut(n))
  {
    CutSizes(index, n);
    PartShape(data, index, n, 0);
    PartShape(data, index, n, 1);
    PartShape(data, index, n, 2);
    AllPartsSplit(data, Cut(index, n));
  }

  lemma AllPartsSplit(data: Dataset, cuts: seq<seq<nat>>)
    requires ValidDataset(data) && |cuts| == 3
    requires SplitWidx(data, cuts[0]).Success? && SplitWidx(data, cuts[1]).Success? && SplitWidx(data, cuts[2]).Success?
    ensures SplitEach(data, cuts).Success?
    ensures forall i :: 0 <= i < 3 ==> SplitEach(data, cuts).value[i] == SplitWidx(data, cuts[i]).value
  {
    forall i | 0 <= i < |cuts|
      ensures SplitWidx(data, cuts[i]).Success?
    {
      if i == 0 {
      } else if i == 1 {
      } else {
        assert i == 2;
      }
    }
  }

  lemma PartShape(data: Dataset, index: seq<nat>, n: nat, i: nat)
    requires ValidDataset(data) && IsPermutation(index, n) && i < 3 && RowsOf(data, n)
    ensures SplitWidx(data, Cut(index, n)[i]).Success?
    ensures SplitWidx(data, Cut(index, n)[i]).value.Keys == data.Keys
    ensures RowsOf(SplitWidx(data, Cut(index, n)[i]).value, |Cut(index, n)[i]|)
  {
    CutInRange(index, n, i);
    SplitInRange(data, Cut(index, n)[i], n);
  }

  lemma CutInRange(index: seq<nat>, n: nat, i: nat)
    requires IsPermutation(index, n) && i < 3
    ensures forall j :: 0 <= j < |Cut(index, n)[i]| ==> Cut(index, n)[i][j] < n
  {
    var parts := Cut(index, n);
    forall j | 0 <= j < |parts[i]|
      ensures parts[i][j] < n
    {
      var whole: seq<nat> := parts[0] + parts[1] + parts[2];
      assert parts[i][j] in whole;
    }
  }
}
