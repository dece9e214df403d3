/** The insights page: cost per ton, selling rate and production read from the session state,
    combined into expenditure, expected sale, profit or loss and margin. */
module ProjectInsights {
  import opened Results
  import opened CostTable
  import opened Materials
  import AverageRate
  import ProjectCosting

  datatype Insights = Insights(
    costPerTon: real,
    sellingRate: real,
    totalProduction: real,
    totalExpenditure: real,
    totalExpectedSale: real,
    profitLoss: real,
    marginPerTon: real,
    marginPercentage: real)

  /** The final rate of the rate page, or 0 where that page reports an error. */
  function RateOrZero(r: Result<real, AverageRate.RateError>): real {
    if r.Success? then r.value else 0.0
  }

  /** Expenditure, expected sale, profit or loss and margin from the cost per ton, the
      selling rate and the production; the margin percentage is 0 when the selling rate is
      not positive. */
  function Compose(costPerTon: real, sellingRate: real, totalProduction: real): (r: Insights)
    ensures r.costPerTon == costPerTon && r.sellingRate == sellingRate && r.totalProduction == totalProduction
    ensures r.totalExpenditure == costPerTon * totalProduction
    ensures r.totalExpectedSale == sellingRate * totalProduction
    ensures r.profitLoss == r.marginPerTon * totalProduction
    ensures r.marginPerTon + costPerTon == sellingRate
    ensures sellingRate > 0.0 ==> r.marginPercentage * sellingRate == 100.0 * r.marginPerTon
    ensures sellingRate <= 0.0 ==> r.marginPercentage == 0.0
  {
    var totalExpenditure := costPerTon * totalProduction;
    var totalExpectedSale := sellingRate * totalProduction;
    var profitLoss := totalExpectedSale - totalExpenditure;
    var marginPerTon := sellingRate - costPerTon;
    var marginPercentage := if sellingRate > 0.0 then marginPerTon / sellingRate * 100.0 else 0.0;
    MarginAlgebra(costPerTon, sellingRate, totalProduction);
    Insights(costPerTon, sellingRate, totalProduction, totalExpenditure, totalExpectedSale,
             profitLoss, marginPerTon, marginPercentage)
  }

  lemma MarginAlgebra(cost: real, rate: real, production: real)
    ensures rate * production - cost * production == (rate - cost) * production
    ensures rate > 0.0 ==> (rate - cost) / rate * 100.0 * rate == 100.0 * (rate - cost)
  {
    if rate > 0.0 {
      var q := (rate - cost) / rate;
      assert q * rate == rate - cost;
      assert q * 100.0 * rate == 100.0 * (q * rate);
    }
  }

  /** The selling rate the page derives from the materials list: the weighted average when the
      list is non-empty with a positive total percentage, 0 otherwise. */
  function SellingRate(materials: Option<seq<Material>>): (r: real)
    ensures r == if materials.Some? then RateOrZero(AverageRate.FinalRate(materials.value)) else 0.0
  {
    if materials.Some? && |materials.value| > 0 then
      var totalWeightedRate := WeightedSum(materials.value);
      var totalPercentage := TotalPercentage(materials.value);
      if totalPercentage > 0.0 then totalWeightedRate / totalPercentage else 0.0
    else 0.0
  }

  /** The summary computed from the three session keys, each of which may be absent. */
  function ComputeInsights(calculatorData: Option<Table>, materials: Option<seq<Material>>,
                           totalQuantity: Option<real>): (r: Insights)
    requires calculatorData.Some? ==> calculatorData.value.Valid()
    ensures calculatorData.None? ==> r.costPerTon == 0.0
    ensures calculatorData.Some? ==>
      var totals := ProjectCosting.Totals(calculatorData.value, r.totalProduction);
      r.costPerTon == totals.perTon && r.totalExpenditure == totals.total
    ensures r.sellingRate == if materials.Some? then RateOrZero(AverageRate.FinalRate(materials.value)) else 0.0
    ensures r.totalProduction == if totalQuantity.Some? then totalQuantity.value else 0.0
    ensures r == Compose(r.costPerTon, r.sellingRate, r.totalProduction)
  {
    var costPerTon := if calculatorData.Some? then calculatorData.value.Sum() else 0.0;
    var totalProduction := if totalQuantity.Some? then totalQuantity.value else 0.0;
    Compose(costPerTon, SellingRate(materials), totalProduction)
  }

  /** With a positive production, the page shows a profit exactly when the margin per ton is
      positive, and a loss exactly when it is negative. */
  lemma ProfitMatchesMargin(calculatorData: Option<Table>, materials: Option<seq<Material>>, totalQuantity: Option<real>)
    requires calculatorData.Some? ==> calculatorData.value.Valid()
    requires totalQuantity.Some? && totalQuantity.value > 0.0
    ensures var r := ComputeInsights(calculatorData, materials, totalQuantity);
      && (r.profitLoss > 0.0 <==> r.marginPerTon > 0.0)
      && (r.profitLoss < 0.0 <==> r.marginPerTon < 0.0)
  {
    var r := ComputeInsights(calculatorData, materials, totalQuantity);
    SignOfProduct(r.marginPerTon, r.totalProduction);
  }

  lemma SignOfProduct(m: real, p: real)
    requires p > 0.0
    ensures m * p > 0.0 <==> m > 0.0
    ensures m * p < 0.0 <==> m < 0.0
  {
    if m > 0.0 { assert m * p > 0.0; }
    if m < 0.0 { assert (-m) * p > 0.0; }
  }

  /** With non-negative costs and a positive selling rate the margin is at most 100%, and it is
      positive exactly when the selling rate exceeds the cost per ton. */
  lemma MarginPercentageBounded(calculatorData: Option<Table>, materials: Option<seq<Material>>, totalQuantity: Option<real>)
    requires calculatorData.Some? ==> calculatorData.value.Valid()
    requires calculatorData.Some? ==> forall k :: k in calculatorData.value.values ==> calculatorData.value.values[k] >= 0.0
    requires ComputeInsights(calculatorData, materials, totalQuantity).sellingRate > 0.0
    ensures var r := ComputeInsights(calculatorData, materials, totalQuantity);
      && r.marginPercentage <= 100.0
      && (r.marginPercentage > 0.0 <==> r.sellingRate > r.costPerTon)
  {
    var r := ComputeInsights(calculatorData, materials, totalQuantity);
    if calculatorData.Some? {
      SumOverNonNegative(calculatorData.value.keys, calculatorData.value.values);
    }
    PercentageBounds(r.marginPercentage, r.marginPerTon, r.sellingRate, r.costPerTon);
  }

  lemma PercentageBounds(pct: real, margin: real, rate: real, cost: real)
    requires rate > 0.0 && cost >= 0.0 && margin + cost == rate
    requires pct * rate == 100.0 * margin
    ensures pct <= 100.0
    ensures pct > 0.0 <==> rate > cost
  {
    assert (100.0 - pct) * rate == 100.0 * cost;
    SignOfProduct(100.0 - pct, rate);
    SignOfProduct(pct, rate);
  }

  /** A selling rate of 0 (no materials, or no weight) gives a margin of 0%, whatever the cost. */
  lemma NoRateNoMargin(calculatorData: Option<Table>, totalQuantity: Option<real>)
    requires calculatorData.Some? ==> calculatorData.value.Valid()
    ensures ComputeInsights(calculatorData, None, totalQuantity).marginPercentage == 0.0
    ensures ComputeInsights(calculatorData, Some([]), totalQuantity).marginPercentage == 0.0
  {
  }

  /** Cost 65 Rs/Ton, selling rate 580 Rs/Ton, 1000 tons. */
  lemma SummaryExample()
    ensures var r := ComputeInsights(
                       Some(Table(["Mining"], map["Mining" := 65.0])),
                       Some([Material("A", 500.0, 60.0), Material("B", 700.0, 40.0)]),
                       Some(1000.0));
      && r.costPerTon == 65.0 && r.sellingRate == 580.0
      && r.totalExpenditure == 65000.0 && r.totalExpectedSale == 580000.0
      && r.profitLoss == 515000.0 && r.marginPerTon == 515.0
      && 88.79 <= r.marginPercentage <= 88.80
  {
    var ms := [Material("A", 500.0, 60.0), Material("B", 700.0, 40.0)];
    assert ms[..1] == [ms[0]] && ms[..1][..0] == [];
    assert WeightedSum(ms[..1]) == 500.0 * 60.0;
    assert WeightedSum(ms) == 58000.0;
    assert TotalPercentage(ms[..1]) == 60.0;
    assert TotalPercentage(ms) == 100.0;
    assert SellingRate(Some(ms)) == 580.0;
    var t := Table(["Mining"], map["Mining" := 65.0]);
    assert t.keys[..0] == [];
    assert t.Sum() == 65.0;
    var r := ComputeInsights(Some(t), Some(ms), Some(1000.0));
    assert r == Compose(65.0, 580.0, 1000.0);
    assert r.marginPercentage * 580.0 == 51500.0;
  }
}
