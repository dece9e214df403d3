/** The crusher-plant weighted-average page: the same material list as the cost management
    page, but the average is returned unrounded, and the add guard has no upper bound on the
    percentage. */
module WeightedAverageRate {
  import opened Results
  import opened Materials

  class WeightedAverageCalculator {
    /** `materials`: the entries in the order they were added. */
    var materials: seq<Material>

    constructor ()
      ensures materials == []
    {
      materials := [];
    }

    /** Appends one entry at the end; earlier entries keep their place. */
    method AddMaterial(materialType: string, rate: real, productionPercentage: real)
      modifies this
      ensures materials == old(materials) + [Material(materialType, rate, productionPercentage)]
    {
      materials := materials + [Material(materialType, rate, productionPercentage)];
    }

    /** The exact weighted average rate, or the error for an empty list or a zero total
        percentage; the list is only read. */
    method CalculateWeightedAverage() returns (r: Result<real, AverageError>)
      ensures r == WeightedAverage(materials)
    {
      if |materials| == 0 {
        return Failure(NoMaterials);
      }
      var totalWeightedRate := 0.0;
      var totalPercentage := 0.0;
      for i := 0 to |materials|
        invariant totalWeightedRate == WeightedSum(materials[..i])
        invariant totalPercentage == TotalPercentage(materials[..i])
      {
        assert materials[..i + 1][..i] == materials[..i];
        totalWeightedRate := totalWeightedRate + materials[i].rate * materials[i].percentage;
        totalPercentage := totalPercentage + materials[i].percentage;
      }
      assert materials[..|materials|] == materials;
      if totalPercentage == 0.0 {
        return Failure(ZeroTotalPercentage);
      }
      return Success(totalWeightedRate / totalPercentage);
    }
  }

  /** The add-material button: an entry is appended only when the type is non-empty and the
      percentage is positive; nothing changes otherwise. */
  method SubmitMaterial(calculator: WeightedAverageCalculator, materialType: string, rate: real,
                        productionPercentage: real) returns (added: bool)
    requires rate >= 0.0 && productionPercentage >= 0.0
    modifies calculator
    ensures added <==> materialType != [] && productionPercentage > 0.0
    ensures calculator.materials
         == if added then old(calculator.materials) + [Material(materialType, rate, productionPercentage)]
            else old(calculator.materials)
    ensures PositivePercentages(old(calculator.materials)) ==> PositivePercentages(calculator.materials)
  {
    added := materialType != [] && productionPercentage > 0.0;
    if added {
      calculator.AddMaterial(materialType, rate, productionPercentage);
    }
  }
}
