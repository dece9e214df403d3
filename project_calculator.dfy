/** The stand-alone cost management page: a project cost calculator over a dict of named
    costs, a weighted-average calculator whose result is rounded, and the page's input guards. */
module ProjectCalculator {
  import opened Results
  import opened Rounding
  import opened CostTable
  import opened Materials

  /** The error `calculate_total_cost` raises. */
  datatype CostError = NonPositiveQuantity

  /** What `calculate_total_cost` returns: the project total, the per-component costs and
      the cost per ton. */
  datatype CostReport = CostReport(totalProjectCost: real, breakdown: Table, totalCostPerTon: real)

  class ProjectCostCalculator {
    /** `cost_components`: cost name to Rs/Ton, in insertion order. */
    var components: Table

    predicate Valid()
      reads this
    {
      components.Valid()
    }

    constructor ()
      ensures Valid() && components == Empty
    {
      components := Empty;
    }

    /** Stores `costPerTon` under `costName`, overwriting an earlier value in place. */
    method AddCost(costName: string, costPerTon: real)
      requires Valid()
      modifies this
      ensures Valid()
      ensures components == old(components).Put(costName, costPerTon)
      ensures components.values == old(components.values)[costName := costPerTon]
      ensures components.keys
           == if costName in old(components.values) then old(components.keys) else old(components.keys) + [costName]
    {
      components := components.Put(costName, costPerTon);
    }

    /** Rejects a quantity that is not positive; otherwise each component's cost for the whole
        quantity, the cost per ton and the project total, each rounded to hundredths. */
    function CalculateTotalCost(totalQuantity: real): (r: Result<CostReport, CostError>)
      reads this
      requires Valid()
      ensures r.Failure? <==> totalQuantity <= 0.0
      ensures r.Failure? ==> r.error == NonPositiveQuantity
      ensures r.Success? ==> r.value.breakdown == Breakdown(components, totalQuantity)
      ensures r.Success? ==> r.value.totalCostPerTon == Round2(components.Sum())
      ensures r.Success? ==> r.value.totalProjectCost == RoundedCost(r.value.totalCostPerTon, totalQuantity)
    {
      if totalQuantity <= 0.0 then Failure(NonPositiveQuantity)
      else
        var perTon := Round2(components.Sum());
        Success(CostReport(RoundedCost(perTon, totalQuantity), Breakdown(components, totalQuantity), perTon))
    }
  }

  /** `{name: round(value * q, 2) for name, value in d.items()}`: the same keys in the same
      order, each value scaled by `q` and rounded. */
  function Breakdown(t: Table, q: real): (b: Table)
    requires t.Valid()
    ensures b.Valid()
    ensures b.keys == t.keys
    ensures forall k :: k in t.values ==> k in b.values && b.values[k] == RoundedCost(t.values[k], q)
  {
    Table(t.keys, map k | k in t.values :: RoundedCost(t.values[k], q))
  }

  /** `round(value * quantity, 2)`: the cost of `quantity` tons at `value` Rs/Ton, a whole
      number of hundredths. */
  function RoundedCost(value: real, quantity: real): (r: real)
    ensures IsCents(r)
  {
    Round2(value * quantity)
  }

  /** The rounded cost is within half a hundredth of the exact cost. */
  lemma RoundedCostClose(value: real, quantity: real)
    ensures -0.005 <= RoundedCost(value, quantity) - value * quantity <= 0.005
  {
    var x := value * quantity;
    assert -0.005 <= Round2(x) - x <= 0.005;
  }

  lemma ScaledError(e: real, q: real)
    requires -0.005 <= e <= 0.005 && q > 0.0
    ensures -0.005 * q <= e * q <= 0.005 * q
  {
  }

  /** Rounding the cost per ton before multiplying costs at most half a hundredth on every
      ton, plus half a hundredth for the final rounding. */
  lemma {:induction false} ProjectTotalApproximates(sum: real, q: real)
    requires q > 0.0
    ensures -0.005 * (q + 1.0) <= RoundedCost(Round2(sum), q) - sum * q <= 0.005 * (q + 1.0)
  {
    var p := Round2(sum);
    RoundedCostClose(p, q);
    ErrorsAdd(RoundedCost(p, q), p, sum, q);
  }

  /** The arithmetic behind the bound above, on plain reals. */
  lemma ErrorsAdd(total: real, perTon: real, sum: real, q: real)
    requires q > 0.0
    requires -0.005 <= total - perTon * q <= 0.005
    requires -0.005 <= perTon - sum <= 0.005
    ensures -0.005 * (q + 1.0) <= total - sum * q <= 0.005 * (q + 1.0)
  {
    var e := perTon - sum;
    ScaledError(e, q);
    var eq := e * q;
    assert perTon * q - sum * q == eq;
    assert -0.005 * q <= eq <= 0.005 * q;
    assert total - sum * q == (total - perTon * q) + eq;
    assert -0.005 * (q + 1.0) == -0.005 * q - 0.005;
  }

  /** Each breakdown entry is within half a hundredth of the component's exact cost. */
  lemma BreakdownApproximates(t: Table, q: real, k: string)
    requires t.Valid() && k in t.values
    ensures -0.005 <= Breakdown(t, q).values[k] - t.values[k] * q <= 0.005
  {
    RoundedCostClose(t.values[k], q);
  }

  /** Adding up values that are each within half a hundredth of exact ones gives a sum within
      half a hundredth per key of the exact sum. */
  lemma {:induction false} SumOverClose(ks: seq<string>, approx: map<string, real>, exact: map<string, real>)
    requires forall j :: j in ks ==> j in approx && j in exact && -0.005 <= approx[j] - exact[j] <= 0.005
    ensures -0.005 * |ks| as real <= SumOver(ks, approx) - SumOver(ks, exact) <= 0.005 * |ks| as real
    decreases |ks|
  {
    if |ks| > 0 {
      var n := |ks| - 1;
      SumOverClose(ks[..n], approx, exact);
      assert |ks| as real == n as real + 1.0;
    }
  }

  /** `x` is within `e` of `y`. */
  predicate Within(x: real, y: real, e: real) {
    -e <= x - y <= e
  }

  /** The exact cost of `quantity` tons at `value` Rs/Ton. */
  function ExactCost(value: real, quantity: real): real {
    value * quantity
  }

  /** The breakdown entries added up differ from the reported project total by at most half
      a hundredth per component from rounding each entry, plus the error of the total. */
  lemma BreakdownSumApproximates(t: Table, q: real)
    requires t.Valid() && q > 0.0
    ensures Within(Breakdown(t, q).Sum(), RoundedCost(Round2(t.Sum()), q), 0.005 * |t.keys| as real + 0.005 * (q + 1.0))
  {
    BreakdownSumClose(t, q);
    TotalClose(t.Sum(), q);
    GapAdd(Breakdown(t, q).Sum(), RoundedCost(Round2(t.Sum()), q), Round2(t.Sum()), t.Sum(), |t.keys| as real, q);
  }

  /** The two roundings of the project total, each within half a hundredth. */
  lemma TotalClose(sum: real, q: real)
    ensures Within(RoundedCost(Round2(sum), q), ExactCost(Round2(sum), q), 0.005)
    ensures Within(Round2(sum), sum, 0.005)
  {
    RoundedCostClose(Round2(sum), q);
  }

  /** The three error bounds add up, on plain reals. */
  lemma GapAdd(entries: real, total: real, perTon: real, sum: real, n: real, q: real)
    requires q > 0.0
    requires Within(entries, ExactCost(sum, q), 0.005 * n)
    requires Within(total, ExactCost(perTon, q), 0.005)
    requires Within(perTon, sum, 0.005)
    ensures Within(entries, total, 0.005 * n + 0.005 * (q + 1.0))
  {
    ErrorsAdd(total, perTon, sum, q);
  }

  /** The exact cost of each component for `q` tons. */
  function ExactCosts(t: Table, q: real): (m: map<string, real>)
    ensures forall k :: k in t.values ==> k in m && m[k] == t.values[k] * q
  {
    map k | k in t.values :: t.values[k] * q
  }

  /** The exact costs add up to the cost per ton times the quantity. */
  lemma ExactCostsSum(t: Table, q: real)
    requires t.Valid()
    ensures SumOver(t.keys, ExactCosts(t, q)) == ExactCost(t.Sum(), q)
  {
    var e := ExactCosts(t, q);
    assert forall j :: j in t.keys ==> j in t.values && j in e && e[j] == t.values[j] * q;
    SumOverScaled(t.keys, t.values, e, q);
    assert t.Sum() == SumOver(t.keys, t.values);
  }

  /** The breakdown entries add up to within half a hundredth per component of the exact
      cost of the whole quantity. */
  lemma BreakdownSumClose(t: Table, q: real)
    requires t.Valid()
    ensures Within(Breakdown(t, q).Sum(), ExactCost(t.Sum(), q), 0.005 * |t.keys| as real)
  {
    var b := Breakdown(t, q);
    var e := ExactCosts(t, q);
    forall k | k in t.keys
      ensures k in b.values && k in e && -0.005 <= b.values[k] - e[k] <= 0.005
    {
      RoundedCostClose(t.values[k], q);
    }
    SumOverClose(t.keys, b.values, e);
    ExactCostsSum(t, q);
    assert b.Sum() == SumOver(t.keys, b.values);
    Shift(b.Sum(), SumOver(t.keys, e), ExactCost(t.Sum(), q), |t.keys| as real);
  }

  lemma Shift(a: real, e: real, z: real, n: real)
    requires -0.005 * n <= a - e <= 0.005 * n && e == z
    ensures Within(a, z, 0.005 * n)
  {
  }

  /** The Total row of the displayed breakdown table: the breakdown entries added up and
      rounded, a value computed apart from the project total. */
  function BreakdownTableTotal(t: Table, q: real): (r: real)
    requires t.Valid()
    ensures IsCents(r)
    ensures -0.005 <= r - Breakdown(t, q).Sum() <= 0.005
  {
    Round2(Breakdown(t, q).Sum())
  }

  /** The table's Total row is within half a hundredth per component, plus the error of the
      project total and the rounding of the row itself, of the project total. */
  lemma BreakdownTableTotalApproximates(t: Table, q: real)
    requires t.Valid() && q > 0.0
    ensures Within(BreakdownTableTotal(t, q), RoundedCost(Round2(t.Sum()), q), 0.005 * |t.keys| as real + 0.005 * (q + 2.0))
  {
    BreakdownSumApproximates(t, q);
    var x := BreakdownTableTotal(t, q);
    assert Within(x, Breakdown(t, q).Sum(), 0.005);
    RowGapAdd(x, Breakdown(t, q).Sum(), RoundedCost(Round2(t.Sum()), q), |t.keys| as real, q);
  }

  lemma RowGapAdd(x: real, s: real, y: real, n: real, q: real)
    requires Within(x, s, 0.005)
    requires Within(s, y, 0.005 * n + 0.005 * (q + 1.0))
    ensures Within(x, y, 0.005 * n + 0.005 * (q + 2.0))
  {
  }

  /** Three components of 0.01 Rs/Ton over 0.4 tons: every entry rounds to 0, so the table's
      Total row shows 0 while the reported project total is 0.01. */
  lemma BreakdownTotalDiffersExample(c: ProjectCostCalculator)
    requires c.Valid()
    requires c.components == Table(["A", "B", "C"], map["A" := 0.01, "B" := 0.01, "C" := 0.01])
    ensures c.CalculateTotalCost(0.4).Success?
    ensures Breakdown(c.components, 0.4).Sum() == 0.0 && BreakdownTableTotal(c.components, 0.4) == 0.0
    ensures c.CalculateTotalCost(0.4).value.totalProjectCost == 0.01
  {
    var t := c.components;
    var ks := t.keys;
    assert ks[..2] == ["A", "B"] && ks[..2][..1] == ["A"] && ks[..2][..1][..0] == [];
    assert SumOver(ks[..2][..1], t.values) == 0.01;
    assert SumOver(ks[..2], t.values) == 0.02;
    assert t.Sum() == 0.03;
    assert Round2(0.03) == 0.03 by { assert (0.03 * 100.0).Floor == 3; }
    assert RoundedCost(0.03, 0.4) == 0.01 by { assert (0.012 * 100.0).Floor == 1; }
    assert RoundedCost(0.01, 0.4) == 0.0 by { assert (0.004 * 100.0).Floor == 0; }
    var b := Breakdown(t, 0.4);
    assert b.values == map["A" := 0.0, "B" := 0.0, "C" := 0.0];
    assert SumOver(ks[..2][..1], b.values) == 0.0;
    assert SumOver(ks[..2], b.values) == 0.0;
    assert b.Sum() == 0.0;
    Round2OfCents(0.0);
  }

  /** A calculator with no components reports zero everywhere, with an empty breakdown. */
  lemma EmptyCalculatorCostsNothing(c: ProjectCostCalculator, q: real)
    requires c.Valid() && c.components == Empty && q > 0.0
    ensures c.CalculateTotalCost(q).Success?
    ensures var rep := c.CalculateTotalCost(q).value;
      rep.totalCostPerTon == 0.0 && rep.totalProjectCost == 0.0 && rep.breakdown.keys == []
  {
    EmptySum();
    Round2OfCents(0.0);
    assert RoundedCost(0.0, q) == Round2(0.0);
  }

  /** The example of three costs (40, 10, 15 Rs/Ton) over 1000 tons. */
  lemma ThreeCostExample(c: ProjectCostCalculator)
    requires c.Valid()
    requires c.components == Table(["Mining", "Royalty", "Transport"],
                                   map["Mining" := 40.0, "Royalty" := 10.0, "Transport" := 15.0])
    ensures c.CalculateTotalCost(1000.0)
         == Success(CostReport(65000.0,
                               Table(["Mining", "Royalty", "Transport"],
                                     map["Mining" := 40000.0, "Royalty" := 10000.0, "Transport" := 15000.0]),
                               65.0))
  {
    var ks := c.components.keys;
    assert ks[..2] == ["Mining", "Royalty"] && ks[..2][..1] == ["Mining"] && ks[..2][..1][..0] == [];
    var m := c.components.values;
    assert SumOver(ks[..2][..1], m) == 40.0;
    assert SumOver(ks[..2], m) == 50.0;
    assert c.components.Sum() == 65.0;
    Round2OfCents(65.0);
    Round2OfCents(65000.0);
    Round2OfCents(40000.0);
    Round2OfCents(10000.0);
    Round2OfCents(15000.0);
    var rep := c.CalculateTotalCost(1000.0).value;
    assert rep.breakdown.values == map["Mining" := 40000.0, "Royalty" := 10000.0, "Transport" := 15000.0];
  }

  /** The page's input loop: each fixed cost whose input is positive is stored; an input
      of zero leaves whatever the calculator already holds for that name. */
  method EnterFixedCosts(calculator: ProjectCostCalculator, inputs: seq<real>)
    requires calculator.Valid()
    requires |inputs| == |CostInputs|
    requires forall i :: 0 <= i < |inputs| ==> inputs[i] >= 0.0
    modifies calculator
    ensures calculator.Valid()
    ensures calculator.components == PutInputs(old(calculator.components), CostInputs, inputs, true)
  {
    ghost var t0 := calculator.components;
    var names := CostInputs;
    for i := 0 to |names|
      invariant calculator.Valid()
      invariant calculator.components == PutInputs(t0, names[..i], inputs[..i], true)
    {
      PutInputsStep(t0, names, inputs, true, i);
      if inputs[i] > 0.0 {
        calculator.AddCost(names[i], inputs[i]);
      }
    }
    assert names[..|names|] == names && inputs[..|inputs|] == inputs;
  }

  /** After the input loop, a fixed cost holds its input when that is positive and its earlier
      value otherwise; every other name is untouched. */
  lemma EnterFixedCostsEffect(t: Table, inputs: seq<real>, k: string)
    requires t.Valid() && |inputs| == |CostInputs|
    ensures forall i :: 0 <= i < |CostInputs| && CostInputs[i] == k ==>
      PutInputs(t, CostInputs, inputs, true).Get(k) == if inputs[i] > 0.0 then Some(inputs[i]) else t.Get(k)
    ensures k !in CostInputs ==> PutInputs(t, CostInputs, inputs, true).Get(k) == t.Get(k)
    ensures t.keys <= PutInputs(t, CostInputs, inputs, true).keys
  {
    CostInputsDistinct();
    forall i | 0 <= i < |CostInputs| && CostInputs[i] == k
      ensures PutInputs(t, CostInputs, inputs, true).Get(k) == if inputs[i] > 0.0 then Some(inputs[i]) else t.Get(k)
    {
      PutInputsGet(t, CostInputs, inputs, true, i);
    }
    if k !in CostInputs {
      PutInputsOther(t, CostInputs, inputs, true, k);
    }
  }

  /** The custom-cost button: a non-empty name is stored (or overwritten), an empty one is
      refused and nothing changes. */
  method SubmitCustomCost(calculator: ProjectCostCalculator, name: string, value: real) returns (added: bool)
    requires calculator.Valid() && value >= 0.0
    modifies calculator
    ensures calculator.Valid()
    ensures added <==> name != []
    ensures calculator.components == if added then old(calculator.components).Put(name, value) else old(calculator.components)
  {
    added := name != [];
    if added {
      calculator.AddCost(name, value);
    }
  }

  class WeightedAverageCalculator {
    /** `materials`: the entries in the order they were added. */
    var materials: seq<Material>

    constructor ()
      ensures materials == []
    {
      materials := [];
    }

    /** Appends one entry at the end. */
    method AddMaterial(materialType: string, rate: real, productionPercentage: real)
      modifies this
      ensures materials == old(materials) + [Material(materialType, rate, productionPercentage)]
    {
      materials := materials + [Material(materialType, rate, productionPercentage)];
    }

    /** The weighted average rate rounded to hundredths, or the error for an empty list or a
        zero total percentage; the list is only read. */
    method CalculateWeightedAverage() returns (r: Result<real, AverageError>)
      ensures WeightedAverage(materials).Failure? ==> r == WeightedAverage(materials)
      ensures WeightedAverage(materials).Success? ==> r == Success(Round2(WeightedAverage(materials).value))
    {
      if |materials| == 0 {
        return Failure(NoMaterials);
      }
      var totalWeightedRate := 0.0;
      var totalPercentage := 0.0;
      for i := 0 to |materials|
        invariant totalWeightedRate == WeightedSum(materials[..i])
        invariant totalPercentage == TotalPercentage(materials[..i])
      {
        assert materials[..i + 1][..i] == materials[..i];
        totalWeightedRate := totalWeightedRate + materials[i].rate * materials[i].percentage;
        totalPercentage := totalPercentage + materials[i].percentage;
      }
      assert materials[..|materials|] == materials;
      if totalPercentage == 0.0 {
        return Failure(ZeroTotalPercentage);
      }
      return Success(Round2(totalWeightedRate / totalPercentage));
    }
  }

  /** The add-material button: an entry is appended only when the type is non-empty and the
      percentage is positive; nothing changes otherwise. */
  method SubmitMaterial(calculator: WeightedAverageCalculator, materialType: string, rate: real, productionPercentage: real)
    returns (added: bool)
    requires rate >= 0.0 && 0.0 <= productionPercentage <= 100.0
    modifies calculator
    ensures added <==> materialType != [] && productionPercentage > 0.0
    ensures calculator.materials
         == if added then old(calculator.materials) + [Material(materialType, rate, productionPercentage)]
            else old(calculator.materials)
  {
    added := materialType != [] && productionPercentage > 0.0;
    if added {
      calculator.AddMaterial(materialType, rate, productionPercentage);
    }
  }

  /** A list built only through the add-material button keeps every percentage positive and
      within 100, and every rate non-negative. */
  predicate Accepted(ms: seq<Material>) {
    forall i :: 0 <= i < |ms| ==> 0.0 < ms[i].percentage <= 100.0 && ms[i].rate >= 0.0
  }

  /** On such a list the rounded average exists as soon as one material was added, and it lies
      between the smallest and the largest rate (rounding keeps it there, as rates entered with
      two decimals are whole hundredths). */
  lemma AcceptedListAverage(ms: seq<Material>)
    requires ms != [] && Accepted(ms)
    requires forall i :: 0 <= i < |ms| ==> IsCents(ms[i].rate)
    ensures WeightedAverage(ms).Success?
    ensures MinRate(ms) <= Round2(WeightedAverage(ms).value) <= MaxRate(ms)
  {
    assert PositivePercentages(ms);
    PositivePercentagesSucceed(ms);
    var lo, hi := MinRate(ms), MaxRate(ms);
    var i :| 0 <= i < |ms| && ms[i].rate == lo;
    var j :| 0 <= j < |ms| && ms[j].rate == hi;
    Round2Within(WeightedAverage(ms).value, lo, hi);
  }
}
