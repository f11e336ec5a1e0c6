/**
 * The integer part of the dataset summary of src/data/data_loader.py: how
 * many samples and features a feature array has, how many distinct class
 * labels a label vector holds and how often each occurs; and the
 * normalisation flag that the preparation pipeline echoes.
 */
module DataSummary {

  /**
   * A feature array: one-dimensional (a vector of values) or
   * two-dimensional (rows of a fixed width).
   */
  datatype Features =
    | Vector(values: seq<real>)
    | Matrix(width: nat, rows: seq<seq<real>>)

  /** Every row of a two-dimensional array has the array's width. */
  predicate Rectangular(x: Features) {
    x.Matrix? ==> forall i :: 0 <= i < |x.rows| ==> |x.rows[i]| == x.width
  }

  /** The length of the first axis. */
  function SampleCount(x: Features): nat {
    match x
    case Vector(vs) => |vs|
    case Matrix(_, rs) => |rs|
  }

  /** The length of the second axis, or 1 for a one-dimensional array. */
  function FeatureCount(x: Features): nat {
    match x
    case Vector(_) => 1
    case Matrix(w, _) => w
  }

  /** How many times label l occurs in y. */
  function Occurrences(y: seq<int>, l: int): nat {
    if y == [] then 0
    else Occurrences(y[..|y| - 1], l) + (if y[|y| - 1] == l then 1 else 0)
  }

  /** The distinct labels of y. */
  function Distinct(y: seq<int>): set<int> {
    set l | l in y
  }

  // ---------------------------------------------------------------------
  // Class distribution: (label, count) pairs in ascending label order
  // ---------------------------------------------------------------------

  type Tally = seq<(int, nat)>

  /** The labels a tally has entries for. */
  function Labels(t: Tally): set<int> {
    if t == [] then {} else {t[0].0} + Labels(t[1..])
  }

  /**
   * Labels strictly increase along the tally: each entry's label is below
   * every later one, so no label appears twice.
   */
  predicate Ascending(t: Tally) {
    t != [] ==> (forall l :: l in Labels(t[1..]) ==> t[0].0 < l) && Ascending(t[1..])
  }

  /** The count the tally records for l, 0 when l is not a key. */
  function CountOf(t: Tally, l: int): nat {
    if t == [] then 0
    else if t[0].0 == l then t[0].1
    else CountOf(t[1..], l)
  }

  /** The sum of all counts. */
  function Total(t: Tally): nat {
    if t == [] then 0 else t[0].1 + Total(t[1..])
  }

  /** Record one more occurrence of x, keeping labels in ascending order. */
  function Insert(t: Tally, x: int): Tally {
    if t == [] then [(x, 1)]
    else if x < t[0].0 then [(x, 1)] + t
    else if x == t[0].0 then [(x, t[0].1 + 1)] + t[1..]
    else [t[0]] + Insert(t[1..], x)
  }

  /** The labels of y with their counts, smallest label first. */
  function ClassDistribution(y: seq<int>): Tally {
    if y == [] then [] else Insert(ClassDistribution(y[..|y| - 1]), y[|y| - 1])
  }

  lemma {:induction false} LabelsAt(t: Tally, i: nat)
    requires i < |t|
    ensures t[i].0 in Labels(t)
  {
    if i > 0 {
      LabelsAt(t[1..], i - 1);
    }
  }

  /** Inserting keeps the tally ascending and adds x to its labels. */
  lemma {:induction false} InsertAscending(t: Tally, x: int)
    requires Ascending(t)
    ensures Ascending(Insert(t, x))
    ensures Labels(Insert(t, x)) == Labels(t) + {x}
  {
    var r := Insert(t, x);
    if t == [] {
      assert r[1..] == [];
    } else if x > t[0].0 {
      InsertAscending(t[1..], x);
      assert r[1..] == Insert(t[1..], x);
    } else if x == t[0].0 {
      assert r[1..] == t[1..];
    } else {
      assert r[1..] == t;
    }
  }

  lemma {:induction false} CountOutside(t: Tally, l: int)
    requires l !in Labels(t)
    ensures CountOf(t, l) == 0
  {
    if t != [] {
      CountOutside(t[1..], l);
    }
  }

  lemma {:induction false} InsertCounts(t: Tally, x: int, l: int)
    requires Ascending(t)
    ensures CountOf(Insert(t, x), l) == CountOf(t, l) + (if l == x then 1 else 0)
  {
    var r := Insert(t, x);
    if t == [] {
      assert r[1..] == [];
    } else if x > t[0].0 {
      InsertCounts(t[1..], x, l);
      assert r[1..] == Insert(t[1..], x);
    } else if x == t[0].0 {
      assert r[1..] == t[1..];
    } else {
      assert r[0].0 == x && r[1..] == t;
      if l == x {
        CountOutside(t, x);
      }
    }
  }

  lemma {:induction false} InsertTotal(t: Tally, x: int)
    ensures Total(Insert(t, x)) == Total(t) + 1
  {
    var r := Insert(t, x);
    if t == [] {
      assert r[1..] == [];
    } else if x > t[0].0 {
      InsertTotal(t[1..], x);
      assert r[1..] == Insert(t[1..], x);
    } else if x == t[0].0 {
      assert r[1..] == t[1..];
    } else {
      assert r[1..] == t;
    }
  }

  lemma {:induction false} InsertPositive(t: Tally, x: int)
    requires forall i :: 0 <= i < |t| ==> t[i].1 >= 1
    ensures forall i :: 0 <= i < |Insert(t, x)| ==> Insert(t, x)[i].1 >= 1
  {
    var r := Insert(t, x);
    if t != [] && x > t[0].0 {
      InsertPositive(t[1..], x);
      assert r[1..] == Insert(t[1..], x);
      forall i | 0 <= i < |r| ensures r[i].1 >= 1 {
        if i > 0 { assert r[i] == r[1..][i - 1]; }
      }
    }
  }

  /** An ascending tally has as many entries as distinct labels. */
  lemma {:induction false} AscendingSize(t: Tally)
    requires Ascending(t)
    ensures |Labels(t)| == |t|
  {
    if t != [] {
      AscendingSize(t[1..]);
      assert t[0].0 !in Labels(t[1..]);
    }
  }

  /** The distribution is ascending and its labels are the distinct labels of y. */
  lemma {:induction false} ClassDistributionLabels(y: seq<int>)
    ensures Ascending(ClassDistribution(y))
    ensures Labels(ClassDistribution(y)) == Distinct(y)
  {
    if y != [] {
      var init, x := y[..|y| - 1], y[|y| - 1];
      ClassDistributionLabels(init);
      InsertAscending(ClassDistribution(init), x);
      assert y == init + [x];
      assert Distinct(y) == Distinct(init) + {x};
    }
  }

  /** The distribution records, for every label, how often it occurs in y. */
  lemma {:induction false} ClassDistributionCounts(y: seq<int>, l: int)
    ensures CountOf(ClassDistribution(y), l) == Occurrences(y, l)
  {
    if y != [] {
      var init := y[..|y| - 1];
      ClassDistributionCounts(init, l);
      ClassDistributionLabels(init);
      InsertCounts(ClassDistribution(init), y[|y| - 1], l);
    }
  }

  /** Every count is at least 1 and the counts add up to |y|. */
  lemma {:induction false} ClassDistributionTotal(y: seq<int>)
    ensures forall i :: 0 <= i < |ClassDistribution(y)| ==> ClassDistribution(y)[i].1 >= 1
    ensures Total(ClassDistribution(y)) == |y|
  {
    if y != [] {
      var init := y[..|y| - 1];
      ClassDistributionTotal(init);
      InsertTotal(ClassDistribution(init), y[|y| - 1]);
      InsertPositive(ClassDistribution(init), y[|y| - 1]);
    }
  }

  /** The count recorded at each entry is the occurrence count of its label. */
  lemma {:induction false} CountAtEntry(t: Tally, i: nat)
    requires Ascending(t) && i < |t|
    ensures CountOf(t, t[i].0) == t[i].1
  {
    if i > 0 {
      CountAtEntry(t[1..], i - 1);
      LabelsAt(t[1..], i - 1);
    }
  }

  // ---------------------------------------------------------------------
  // The summary
  // ---------------------------------------------------------------------

  datatype Summary = Summary(
    nSamples: nat,
    nFeatures: nat,
    nClasses: nat,
    classDistribution: Tally)

  /** The integer fields of the summary of features x and labels y. */
  function GetDataSummary(x: Features, y: seq<int>): (s: Summary)
    ensures s.nSamples == SampleCount(x)
    ensures x.Vector? ==> s.nFeatures == 1
    ensures x.Matrix? ==> s.nFeatures == x.width
    ensures Rectangular(x) && x.Matrix? && x.rows != [] ==> s.nFeatures == |x.rows[0]|
    ensures s.nClasses == |Distinct(y)| == |s.classDistribution|
    ensures Labels(s.classDistribution) == Distinct(y)
    ensures forall i :: 0 <= i < |s.classDistribution| ==>
      s.classDistribution[i].1 == Occurrences(y, s.classDistribution[i].0) >= 1
    ensures Total(s.classDistribution) == |y|
    ensures |y| == SampleCount(x) ==> Total(s.classDistribution) == s.nSamples
  {
    var dist := ClassDistribution(y);
    ClassDistributionLabels(y);
    ClassDistributionTotal(y);
    AscendingSize(dist);
    assert forall i :: 0 <= i < |dist| ==> dist[i].1 == Occurrences(y, dist[i].0) by {
      forall i | 0 <= i < |dist| ensures dist[i].1 == Occurrences(y, dist[i].0) {
        CountAtEntry(dist, i);
        ClassDistributionCounts(y, dist[i].0);
      }
    }
    Summary(SampleCount(x), FeatureCount(x), |Distinct(y)|, dist)
  }

  /** The example of the unit tests: three rows of width 2, labels 0, 1, 0. */
  lemma SummaryExample()
    ensures var s := GetDataSummary(Matrix(2, [[1.0, 2.0], [3.0, 4.0], [5.0, 6.0]]), [0, 1, 0]);
      s.nSamples == 3 && s.nFeatures == 2 && s.nClasses == 2
      && s.classDistribution == [(0, 2), (1, 1)]
  {
    var y := [0, 1, 0];
    assert [0][..0] == [];
    assert ClassDistribution([0]) == [(0, 1)];
    assert [0, 1][..1] == [0];
    assert [(0, 1)][1..] == [];
    assert ClassDistribution([0, 1]) == Insert([(0, 1)], 1) == [(0, 1), (1, 1)];
    assert y[..2] == [0, 1];
    assert ClassDistribution(y) == [(0, 2), (1, 1)];
  }

  // ---------------------------------------------------------------------
  // The preparation pipeline
  // ---------------------------------------------------------------------

  /** The train/test split as returned by the splitting library. */
  datatype Split = Split(
    xTrain: Features, xTest: Features, yTrain: seq<int>, yTest: seq<int>)

  datatype PipelineResult = PipelineResult(
    split: Split,
    trainSummary: Summary,
    testSummary: Summary,
    normalized: bool)

  /**
   * The pipeline after loading and splitting (both foreign, so the split
   * is a parameter): a summary of each half, and the normalisation flag
   * echoed back.
   */
  function PrepareDataPipeline(split: Split, normalize: bool := false): (r: PipelineResult)
    ensures r.normalized == normalize
    ensures r.split == split
    ensures r.trainSummary == GetDataSummary(split.xTrain, split.yTrain)
    ensures r.testSummary == GetDataSummary(split.xTest, split.yTest)
    ensures r.trainSummary.nSamples == SampleCount(split.xTrain)
    ensures r.testSummary.nSamples == SampleCount(split.xTest)
    ensures r.trainSummary.nClasses == |Distinct(split.yTrain)|
    ensures r.testSummary.nClasses == |Distinct(split.yTest)|
  {
    PipelineResult(
      split,
      GetDataSummary(split.xTrain, split.yTrain),
      GetDataSummary(split.xTest, split.yTest),
      normalize)
  }

  /** Called without a flag, the pipeline reports unnormalised data. */
  lemma PipelineDefaultNotNormalized(split: Split)
    ensures !PrepareDataPipeline(split).normalized
    ensures PrepareDataPipeline(split, true).normalized
  {
  }
}
