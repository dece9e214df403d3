/** A material entry (type, rate in Rs/Ton, production percentage) and the weighted
    average rate of a list of them: sum of rate * percentage over sum of percentage. */
module Materials {
  import opened Results

  datatype Material = Material(materialType: string, rate: real, percentage: real)

  /** The errors the weighted-average calculators raise. */
  datatype AverageError = NoMaterials | ZeroTotalPercentage

  /** Sum of rate * percentage, accumulated left to right. */
  function WeightedSum(ms: seq<Material>): real
    decreases |ms|
  {
    if |ms| == 0 then 0.0
    else WeightedSum(ms[..|ms| - 1]) + ms[|ms| - 1].rate * ms[|ms| - 1].percentage
  }

  /** Sum of the production percentages, accumulated left to right. */
  function TotalPercentage(ms: seq<Material>): real
    decreases |ms|
  {
    if |ms| == 0 then 0.0 else TotalPercentage(ms[..|ms| - 1]) + ms[|ms| - 1].percentage
  }

  /** The unrounded weighted average that both calculator classes compute: an error for an
      empty list, an error for a zero total percentage, otherwise the average. */
  function WeightedAverage(ms: seq<Material>): (r: Result<real, AverageError>)
    ensures ms == [] ==> r == Failure(NoMaterials)
    ensures ms != [] && TotalPercentage(ms) == 0.0 ==> r == Failure(ZeroTotalPercentage)
    ensures r.Success? <==> ms != [] && TotalPercentage(ms) != 0.0
    ensures r.Success? ==> r.value * TotalPercentage(ms) == WeightedSum(ms)
  {
    if ms == [] then Failure(NoMaterials)
    else if TotalPercentage(ms) == 0.0 then Failure(ZeroTotalPercentage)
    else Success(WeightedSum(ms) / TotalPercentage(ms))
  }

  /** The smallest rate in a non-empty list. */
  function MinRate(ms: seq<Material>): (r: real)
    requires ms != []
    ensures exists i :: 0 <= i < |ms| && ms[i].rate == r
    ensures forall i :: 0 <= i < |ms| ==> r <= ms[i].rate
    decreases |ms|
  {
    if |ms| == 1 then ms[0].rate
    else
      var rest := MinRate(ms[1..]);
      assert forall i :: 1 <= i < |ms| ==> ms[i] == ms[1..][i - 1];
      if ms[0].rate <= rest then ms[0].rate else rest
  }

  /** The largest rate in a non-empty list. */
  function MaxRate(ms: seq<Material>): (r: real)
    requires ms != []
    ensures exists i :: 0 <= i < |ms| && ms[i].rate == r
    ensures forall i :: 0 <= i < |ms| ==> ms[i].rate <= r
    decreases |ms|
  {
    if |ms| == 1 then ms[0].rate
    else
      var rest := MaxRate(ms[1..]);
      assert forall i :: 1 <= i < |ms| ==> ms[i] == ms[1..][i - 1];
      if ms[0].rate >= rest then ms[0].rate else rest
  }

  /** No percentage is negative. */
  predicate NonNegativePercentages(ms: seq<Material>) {
    forall i :: 0 <= i < |ms| ==> ms[i].percentage >= 0.0
  }

  /** Every percentage is positive, as the add-material guards ensure. */
  predicate PositivePercentages(ms: seq<Material>) {
    forall i :: 0 <= i < |ms| ==> ms[i].percentage > 0.0
  }

  lemma {:induction false} TotalPercentageNonNegative(ms: seq<Material>)
    requires NonNegativePercentages(ms)
    ensures TotalPercentage(ms) >= 0.0
    decreases |ms|
  {
    if |ms| > 0 {
      var n := |ms| - 1;
      assert NonNegativePercentages(ms[..n]) by {
        assert forall i :: 0 <= i < n ==> ms[..n][i] == ms[i];
      }
      TotalPercentageNonNegative(ms[..n]);
    }
  }

  /** A non-empty list of positive percentages has a positive total. */
  lemma {:induction false} TotalPercentagePositive(ms: seq<Material>)
    requires ms != [] && PositivePercentages(ms)
    ensures TotalPercentage(ms) > 0.0
    decreases |ms|
  {
    var n := |ms| - 1;
    if n > 0 {
      assert PositivePercentages(ms[..n]) by {
        assert forall i :: 0 <= i < n ==> ms[..n][i] == ms[i];
      }
      TotalPercentagePositive(ms[..n]);
    }
  }

  lemma MulLeft(a: real, b: real, c: real)
    requires a <= b && c >= 0.0
    ensures a * c <= b * c
  {
  }

  /** With non-negative weights, rates in [lo, hi] give a weighted sum between lo and hi
      times the total weight. */
  lemma {:induction false} WeightedSumBounds(ms: seq<Material>, lo: real, hi: real)
    requires NonNegativePercentages(ms)
    requires forall i :: 0 <= i < |ms| ==> lo <= ms[i].rate <= hi
    ensures lo * TotalPercentage(ms) <= WeightedSum(ms) <= hi * TotalPercentage(ms)
    decreases |ms|
  {
    if |ms| > 0 {
      var n := |ms| - 1;
      var prefix := ms[..n];
      assert forall i :: 0 <= i < n ==> prefix[i] == ms[i];
      WeightedSumBounds(prefix, lo, hi);
      var rate, pct := ms[n].rate, ms[n].percentage;
      assert WeightedSum(ms) == WeightedSum(prefix) + rate * pct;
      assert TotalPercentage(ms) == TotalPercentage(prefix) + pct;
      BoundsStep(WeightedSum(prefix), TotalPercentage(prefix), rate, pct, lo, hi);
    }
  }

  /** One more material keeps the bounds, on plain reals. */
  lemma BoundsStep(ws: real, tp: real, rate: real, pct: real, lo: real, hi: real)
    requires lo * tp <= ws <= hi * tp
    requires lo <= rate <= hi && pct >= 0.0
    ensures lo * (tp + pct) <= ws + rate * pct <= hi * (tp + pct)
  {
    MulLeft(lo, rate, pct);
    MulLeft(rate, hi, pct);
  }

  /** With non-negative weights and a positive total, the weighted average lies between
      any lower and upper bound of the rates. */
  lemma AverageBounded(ms: seq<Material>, lo: real, hi: real)
    requires NonNegativePercentages(ms) && TotalPercentage(ms) > 0.0
    requires forall i :: 0 <= i < |ms| ==> lo <= ms[i].rate <= hi
    ensures lo <= WeightedSum(ms) / TotalPercentage(ms) <= hi
  {
    WeightedSumBounds(ms, lo, hi);
    QuotientBounds(WeightedSum(ms), TotalPercentage(ms), lo, hi);
  }

  lemma QuotientBounds(w: real, t: real, lo: real, hi: real)
    requires t > 0.0 && lo * t <= w <= hi * t
    ensures lo <= w / t <= hi
  {
    var a := w / t;
    assert a * t == w;
    assert (a - lo) * t == w - lo * t;
    assert (hi - a) * t == hi * t - w;
  }

  /** With non-negative weights, a successful weighted average lies between the smallest
      and the largest rate. */
  lemma AverageBetweenMinAndMax(ms: seq<Material>)
    requires NonNegativePercentages(ms)
    requires WeightedAverage(ms).Success?
    ensures MinRate(ms) <= WeightedAverage(ms).value <= MaxRate(ms)
  {
    TotalPercentageNonNegative(ms);
    AverageBounded(ms, MinRate(ms), MaxRate(ms));
  }

  /** Positive percentages never give an error on a non-empty list, and the average is
      between the smallest and the largest rate. */
  lemma PositivePercentagesSucceed(ms: seq<Material>)
    requires ms != [] && PositivePercentages(ms)
    ensures WeightedAverage(ms).Success?
    ensures MinRate(ms) <= WeightedAverage(ms).value <= MaxRate(ms)
  {
    TotalPercentagePositive(ms);
    AverageBetweenMinAndMax(ms);
  }

  /** A single material with a non-zero percentage averages to its own rate. */
  lemma SingleMaterial(m: Material)
    requires m.percentage != 0.0
    ensures WeightedAverage([m]) == Success(m.rate)
  {
    assert [m][..0] == [];
    assert WeightedSum([m]) == m.rate * m.percentage;
    assert TotalPercentage([m]) == m.percentage;
    assert (m.rate * m.percentage) / m.percentage == m.rate;
  }

  /** Two materials at 50% each average to the midpoint of their rates. */
  lemma EqualSplitExample()
    ensures WeightedAverage([Material("A", 100.0, 50.0), Material("B", 200.0, 50.0)]) == Success(150.0)
  {
    var ms := [Material("A", 100.0, 50.0), Material("B", 200.0, 50.0)];
    assert ms[..1] == [ms[0]] && ms[..1][..0] == [];
    assert WeightedSum(ms[..1]) == 100.0 * 50.0;
    assert WeightedSum(ms) == 15000.0;
    assert TotalPercentage(ms[..1]) == 50.0;
    assert TotalPercentage(ms) == 100.0;
  }

  /** 60% at 500 and 40% at 700 average to 580. */
  lemma BlendExample()
    ensures WeightedAverage([Material("A", 500.0, 60.0), Material("B", 700.0, 40.0)]) == Success(580.0)
  {
    var ms := [Material("A", 500.0, 60.0), Material("B", 700.0, 40.0)];
    assert ms[..1] == [ms[0]] && ms[..1][..0] == [];
    assert WeightedSum(ms[..1]) == 500.0 * 60.0;
    assert WeightedSum(ms) == 58000.0;
    assert TotalPercentage(ms[..1]) == 60.0;
    assert TotalPercentage(ms) == 100.0;
  }

  /** All-zero percentages are a zero total. */
  lemma ZeroWeightExample()
    ensures WeightedAverage([Material("A", 10.0, 0.0), Material("B", 20.0, 0.0)]) == Failure(ZeroTotalPercentage)
  {
    var ms := [Material("A", 10.0, 0.0), Material("B", 20.0, 0.0)];
    assert ms[..1] == [ms[0]] && ms[..1][..0] == [];
    assert WeightedSum(ms[..1]) == 10.0 * 0.0;
    assert WeightedSum(ms) == 0.0;
    assert TotalPercentage(ms[..1]) == 0.0;
    assert TotalPercentage(ms) == 0.0;
  }
}
