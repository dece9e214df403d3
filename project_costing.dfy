/** The project cost page of the multi-page app: the session's `calculator_data` dict is
    seeded with the nine fixed components, rewritten from the inputs on every run, extended
    by custom costs, and summed into a cost per ton and a total cost. */
module ProjectCosting {
  import opened Results
  import opened CostTable
  import opened Session

  /** `{cost: 0.0 for cost in cost_inputs}`. */
  function InitialData(): (t: Table)
    ensures t.Valid()
    ensures t.keys == CostInputs
    ensures forall k :: k in t.values ==> t.values[k] == 0.0
  {
    CostInputsDistinct();
    Table(CostInputs, map k | k in CostInputs :: 0.0)
  }

  /** The seeded dict costs nothing per ton. */
  lemma InitialDataSum()
    ensures InitialData().Sum() == 0.0
  {
    SumOverZero(InitialData().keys, InitialData().values);
  }

  /** Seeds `calculator_data` only when the session does not hold it yet; an existing dict,
      custom costs included, is kept as it is. */
  method InitCalculatorData(s: SessionState)
    requires s.Valid()
    modifies s
    ensures s.Valid()
    ensures s.calculatorData == if old(s.calculatorData).None? then Some(InitialData()) else old(s.calculatorData)
    ensures s.totalQuantity == old(s.totalQuantity) && s.materials == old(s.materials)
  {
    if s.calculatorData.None? {
      s.calculatorData := Some(InitialData());
    }
  }

  /** The input loop: every fixed component is set to its input, in list order. */
  method EnterCosts(s: SessionState, inputs: seq<real>)
    requires s.Valid() && s.calculatorData.Some?
    requires |inputs| == |CostInputs|
    requires forall i :: 0 <= i < |inputs| ==> inputs[i] >= 0.0
    modifies s
    ensures s.Valid()
    ensures s.calculatorData == Some(PutInputs(old(s.calculatorData.value), CostInputs, inputs, false))
    ensures s.calculatorData.value.keys == old(s.calculatorData.value.keys)
    ensures s.totalQuantity == old(s.totalQuantity) && s.materials == old(s.materials)
  {
    var data := s.calculatorData.value;
    ghost var t0 := data;
    var names := CostInputs;
    for i := 0 to |names|
      invariant data == PutInputs(t0, names[..i], inputs[..i], false)
      invariant s.calculatorData == Some(data)
      invariant s.totalQuantity == old(s.totalQuantity) && s.materials == old(s.materials)
    {
      PutInputsStep(t0, names, inputs, false, i);
      data := data.Put(names[i], inputs[i]);
      s.calculatorData := Some(data);
    }
    assert names[..|names|] == names && inputs[..|inputs|] == inputs;
    EnterCostsKeepsFixed(t0, inputs);
  }

  /** The input loop only overwrites keys a seeded dict already holds. */
  lemma EnterCostsKeepsFixed(t: Table, inputs: seq<real>)
    requires t.Valid() && |inputs| == |CostInputs|
    requires forall k :: k in CostInputs ==> k in t.values
    ensures PutInputs(t, CostInputs, inputs, false).keys == t.keys
    ensures forall k :: k in CostInputs ==> k in PutInputs(t, CostInputs, inputs, false).values
  {
    PutInputsKeepsKeys(t, CostInputs, inputs, false);
  }

  /** After the input loop each fixed component holds its input, every custom component keeps
      its value, and, once the dict was seeded, the key order is unchanged. */
  lemma EnterCostsEffect(t: Table, inputs: seq<real>, k: string)
    requires t.Valid() && |inputs| == |CostInputs|
    ensures forall i :: 0 <= i < |CostInputs| && CostInputs[i] == k ==>
      PutInputs(t, CostInputs, inputs, false).Get(k) == Some(inputs[i])
    ensures k !in CostInputs ==> PutInputs(t, CostInputs, inputs, false).Get(k) == t.Get(k)
    ensures (forall j :: j in CostInputs ==> j in t.values) ==> PutInputs(t, CostInputs, inputs, false).keys == t.keys
  {
    CostInputsDistinct();
    forall i | 0 <= i < |CostInputs| && CostInputs[i] == k
      ensures PutInputs(t, CostInputs, inputs, false).Get(k) == Some(inputs[i])
    {
      PutInputsGet(t, CostInputs, inputs, false, i);
    }
    if k !in CostInputs {
      PutInputsOther(t, CostInputs, inputs, false, k);
    }
    if forall j :: j in CostInputs ==> j in t.values {
      PutInputsKeepsKeys(t, CostInputs, inputs, false);
    }
  }

  /** The custom-cost button: a non-empty name sets or overwrites that one key; an empty name
      is refused and the dict is unchanged. */
  method AddCustomCost(s: SessionState, name: string, value: real) returns (added: bool)
    requires s.Valid() && s.calculatorData.Some? && value >= 0.0
    modifies s
    ensures s.Valid()
    ensures added <==> name != []
    ensures s.calculatorData == if added then Some(old(s.calculatorData.value).Put(name, value)) else old(s.calculatorData)
    ensures s.totalQuantity == old(s.totalQuantity) && s.materials == old(s.materials)
  {
    added := name != [];
    if added {
      s.calculatorData := Some(s.calculatorData.value.Put(name, value));
    }
  }

  /** The quantity input is stored in the session on every run, for the insights page. */
  method SaveTotalQuantity(s: SessionState, totalQuantity: real)
    requires s.Valid() && totalQuantity >= 0.0
    modifies s
    ensures s.Valid()
    ensures s.totalQuantity == Some(totalQuantity)
    ensures s.calculatorData == old(s.calculatorData) && s.materials == old(s.materials)
  {
    s.totalQuantity := Some(totalQuantity);
  }

  datatype CostTotals = CostTotals(perTon: real, total: real)

  /** The cost per ton (every value, fixed and custom) and the total cost for the quantity;
      a quantity of zero is accepted. The total is what the components cost for the whole
      quantity, added up. */
  function Totals(t: Table, totalQuantity: real): (r: CostTotals)
    requires t.Valid()
    ensures r.perTon == SumOver(t.keys, t.values)
    ensures r.total == SumOver(t.keys, map k | k in t.values :: t.values[k] * totalQuantity)
    ensures totalQuantity == 0.0 ==> r.total == 0.0
  {
    var perTon := t.Sum();
    SumOverScaled(t.keys, t.values, map k | k in t.values :: t.values[k] * totalQuantity, totalQuantity);
    CostTotals(perTon, perTon * totalQuantity)
  }

  /** Sum of the second components of the rows. */
  function RowSum(rows: seq<(string, real)>): real
    decreases |rows|
  {
    if |rows| == 0 then 0.0 else RowSum(rows[..|rows| - 1]) + rows[|rows| - 1].1
  }

  /** The rows of the breakdown table: one per key in insertion order, then "Total". */
  function BreakdownRows(t: Table): (rows: seq<(string, real)>)
    requires t.Valid()
    ensures |rows| == |t.keys| + 1
    ensures forall i :: 0 <= i < |t.keys| ==> rows[i] == (t.keys[i], t.values[t.keys[i]])
    ensures rows[|t.keys|] == ("Total", t.Sum())
  {
    seq(|t.keys|, i requires 0 <= i < |t.keys| => (t.keys[i], t.values[t.keys[i]])) + [("Total", t.Sum())]
  }

  lemma {:induction false} RowSumMatches(ks: seq<string>, m: map<string, real>, rows: seq<(string, real)>)
    requires forall k :: k in ks ==> k in m
    requires |rows| == |ks|
    requires forall i :: 0 <= i < |ks| ==> rows[i].1 == m[ks[i]]
    ensures RowSum(rows) == SumOver(ks, m)
    decreases |ks|
  {
    if |ks| > 0 {
      var n := |ks| - 1;
      RowSumMatches(ks[..n], m, rows[..n]);
    }
  }

  /** The component rows of the breakdown table add up to its Total row. */
  lemma BreakdownRowsConsistent(t: Table)
    requires t.Valid()
    ensures var rows := BreakdownRows(t); RowSum(rows[..|t.keys|]) == rows[|t.keys|].1
  {
    var rows := BreakdownRows(t);
    RowSumMatches(t.keys, t.values, rows[..|t.keys|]);
  }
}
