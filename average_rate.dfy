/** The rate page of the multi-page app: the session's `materials` list, an add guard that
    also demands a positive rate and stores rate and percentage rounded to hundredths, and the
    final rate computed from the whole list. */
module AverageRate {
  import opened Results
  import opened Rounding
  import opened Materials
  import opened Session

  /** The error the page reports when no rate can be computed. */
  datatype RateError = TotalPercentageNotPositive

  /** Creates the empty list only when the session does not hold one yet. */
  method InitMaterials(s: SessionState)
    requires s.Valid()
    modifies s
    ensures s.Valid()
    ensures s.materials == if old(s.materials).None? then Some([]) else old(s.materials)
    ensures s.calculatorData == old(s.calculatorData) && s.totalQuantity == old(s.totalQuantity)
  {
    if s.materials.None? {
      s.materials := Some([]);
    }
  }

  /** What the rate and percentage inputs allow: a rate of at least 0 and a percentage in
      [0, 100]. */
  predicate InRange(ms: seq<Material>) {
    forall i :: 0 <= i < |ms| ==> ms[i].rate >= 0.0 && 0.0 <= ms[i].percentage <= 100.0
  }

  /** The add-material button: an entry is appended only when the type is non-empty and both
      rate and percentage are positive, with both values rounded to hundredths; otherwise
      nothing changes. */
  method AddMaterial(s: SessionState, materialType: string, rate: real, productionPercentage: real)
    returns (added: bool)
    requires s.Valid() && s.materials.Some?
    requires rate >= 0.0 && 0.0 <= productionPercentage <= 100.0
    modifies s
    ensures s.Valid()
    ensures added <==> materialType != [] && rate > 0.0 && productionPercentage > 0.0
    ensures s.materials
         == if added then Some(old(s.materials.value) + [Stored(materialType, rate, productionPercentage)])
            else old(s.materials)
    ensures InRange(old(s.materials.value)) ==> InRange(s.materials.value)
    ensures s.calculatorData == old(s.calculatorData) && s.totalQuantity == old(s.totalQuantity)
  {
    added := materialType != [] && rate > 0.0 && productionPercentage > 0.0;
    if added {
      StoredInRange(materialType, rate, productionPercentage);
      s.materials := Some(s.materials.value + [Stored(materialType, rate, productionPercentage)]);
    }
  }

  /** The entry the page stores: the type as entered, the two numbers rounded to whole
      hundredths, each within half a hundredth of its input. */
  function Stored(materialType: string, rate: real, productionPercentage: real): (m: Material)
    ensures m.materialType == materialType
    ensures IsCents(m.rate) && -0.005 <= m.rate - rate <= 0.005
    ensures IsCents(m.percentage) && -0.005 <= m.percentage - productionPercentage <= 0.005
  {
    Material(materialType, Round2(rate), Round2(productionPercentage))
  }

  /** A stored entry keeps the input bounds and holds whole hundredths. */
  lemma StoredInRange(materialType: string, rate: real, productionPercentage: real)
    requires rate >= 0.0 && 0.0 <= productionPercentage <= 100.0
    ensures var m := Stored(materialType, rate, productionPercentage);
      m.rate >= 0.0 && 0.0 <= m.percentage <= 100.0 && IsCents(m.rate) && IsCents(m.percentage)
  {
    Round2OfCents(0.0);
    Round2Monotone(0.0, rate);
    Round2Within(productionPercentage, 0.0, 100.0);
  }

  /** The guard tests the value before rounding, so a percentage below half a hundredth passes
      it and is stored as 0. */
  lemma TinyPercentageStoredAsZero()
    ensures Stored("Dust", 500.0, 0.004).percentage == 0.0
  {
    var y := 0.004 * 100.0;
    assert y.Floor == 0;
  }

  /** The final rate: the weighted average when the total percentage is positive, and an
      error otherwise, an empty list included. */
  function FinalRate(ms: seq<Material>): (r: Result<real, RateError>)
    ensures r.Success? <==> TotalPercentage(ms) > 0.0
    ensures r.Success? ==> r.value * TotalPercentage(ms) == WeightedSum(ms)
    ensures ms == [] ==> r.Failure?
  {
    var totalWeightedRate := WeightedSum(ms);
    var totalPercentage := TotalPercentage(ms);
    if totalPercentage > 0.0 then Success(totalWeightedRate / totalPercentage)
    else Failure(TotalPercentageNotPositive)
  }

  /** On the lists this page builds, the final rate agrees with the calculator classes' exact
      weighted average, and it lies between the smallest and the largest rate. */
  lemma FinalRateAgrees(ms: seq<Material>)
    requires InRange(ms) && FinalRate(ms).Success?
    ensures WeightedAverage(ms) == Success(FinalRate(ms).value)
    ensures MinRate(ms) <= FinalRate(ms).value <= MaxRate(ms)
  {
    assert NonNegativePercentages(ms);
    AverageBetweenMinAndMax(ms);
  }

  /** On a list within the input bounds a failure means every percentage is 0. */
  lemma {:induction false} FinalRateFailsOnlyWithoutWeight(ms: seq<Material>)
    requires InRange(ms) && FinalRate(ms).Failure?
    ensures forall i :: 0 <= i < |ms| ==> ms[i].percentage == 0.0
    decreases |ms|
  {
    if |ms| > 0 {
      var n := |ms| - 1;
      var prefix := ms[..n];
      assert forall i :: 0 <= i < n ==> prefix[i] == ms[i];
      assert InRange(prefix);
      assert NonNegativePercentages(prefix);
      TotalPercentageNonNegative(prefix);
      assert TotalPercentage(prefix) == 0.0 && ms[n].percentage == 0.0;
      FinalRateFailsOnlyWithoutWeight(prefix);
    }
  }
}
