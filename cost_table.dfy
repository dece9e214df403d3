/** A Python dict from cost name to Rs/Ton: unique keys kept in insertion order, each with
    its value. Overwriting a key keeps its place; a new key goes at the end. */
module CostTable {
  import opened Results

  /** The nine fixed cost components offered by both cost pages. */
  const CostInputs: seq<string> := [
    "Mining Cost",
    "Royalty",
    "Transport Cost",
    "Crushing Cost",
    "Loading Cost",
    "Office Cost",
    "Departmental Expense",
    "Land Rent",
    "Miscellaneous Expense"
  ]

  predicate Distinct(ks: seq<string>) {
    forall i, j :: 0 <= i < j < |ks| ==> ks[i] != ks[j]
  }

  lemma CostInputsDistinct()
    ensures Distinct(CostInputs)
  {
  }

  /** Sum of the values of `ks`, added left to right as Python's `sum` does. */
  function SumOver(ks: seq<string>, m: map<string, real>): real
    requires forall k :: k in ks ==> k in m
    decreases |ks|
  {
    if |ks| == 0 then 0.0 else SumOver(ks[..|ks| - 1], m) + m[ks[|ks| - 1]]
  }

  datatype Table = Table(keys: seq<string>, values: map<string, real>) {

    /** The keys are unique and are exactly the keys that carry a value. */
    predicate Valid() {
      && Distinct(keys)
      && (forall k :: k in values ==> k in keys)
      && (forall k :: k in keys ==> k in values)
    }

    function Get(k: string): Option<real> {
      if k in values then Some(values[k]) else None
    }

    /** `d[k] = v`. */
    function Put(k: string, v: real): (r: Table)
      requires Valid()
      ensures r.Valid()
      ensures r.Get(k) == Some(v)
      ensures forall j :: j != k ==> r.Get(j) == Get(j)
      ensures keys <= r.keys
      ensures |r.keys| == |keys| + (if k in values then 0 else 1)
      ensures k !in values ==> r.keys[|keys|] == k
    {
      if k in values then Table(keys, values[k := v]) else Table(keys + [k], values[k := v])
    }

    /** `sum(d.values())`. */
    function Sum(): real
      requires Valid()
    {
      SumOver(keys, values)
    }
  }

  const Empty: Table := Table([], map[])

  /** The empty dict sums to zero. */
  lemma EmptySum()
    ensures Empty.Valid() && Empty.Sum() == 0.0
  {
  }

  lemma {:induction false} SumOverUnaffected(ks: seq<string>, m: map<string, real>, k: string, v: real)
    requires forall j :: j in ks ==> j in m
    requires k !in ks
    ensures SumOver(ks, m[k := v]) == SumOver(ks, m)
    decreases |ks|
  {
    if |ks| > 0 {
      var n := |ks| - 1;
      assert k !in ks[..n];
      SumOverUnaffected(ks[..n], m, k, v);
    }
  }

  lemma {:induction false} SumOverUpdate(ks: seq<string>, m: map<string, real>, k: string, v: real)
    requires forall j :: j in ks ==> j in m
    requires Distinct(ks) && k in ks
    ensures SumOver(ks, m[k := v]) == SumOver(ks, m) - m[k] + v
    decreases |ks|
  {
    var n := |ks| - 1;
    if ks[n] == k {
      assert k !in ks[..n];
      SumOverUnaffected(ks[..n], m, k, v);
    } else {
      assert k in ks[..n];
      SumOverUpdate(ks[..n], m, k, v);
    }
  }

  /** Storing `v` under `k` changes the total by the difference to the value it replaces. */
  lemma SumPut(t: Table, k: string, v: real)
    requires t.Valid()
    ensures t.Put(k, v).Sum() == t.Sum() - (if k in t.values then t.values[k] else 0.0) + v
  {
    if k in t.values {
      SumOverUpdate(t.keys, t.values, k, v);
    } else {
      var r := t.Put(k, v);
      assert r.keys[..|r.keys| - 1] == t.keys;
      SumOverUnaffected(t.keys, t.values, k, v);
    }
  }

  /** Multiplying every value by `q` multiplies the sum by `q`. */
  lemma {:induction false} SumOverScaled(ks: seq<string>, m: map<string, real>, m2: map<string, real>, q: real)
    requires forall j :: j in ks ==> j in m && j in m2 && m2[j] == m[j] * q
    ensures SumOver(ks, m2) == SumOver(ks, m) * q
    decreases |ks|
  {
    if |ks| > 0 {
      var n := |ks| - 1;
      SumOverScaled(ks[..n], m, m2, q);
      var a, x := SumOver(ks[..n], m), m[ks[n]];
      assert (a + x) * q == a * q + x * q;
    }
  }

  /** The sum of non-negative values is non-negative. */
  lemma {:induction false} SumOverNonNegative(ks: seq<string>, m: map<string, real>)
    requires forall j :: j in ks ==> j in m && m[j] >= 0.0
    ensures SumOver(ks, m) >= 0.0
    decreases |ks|
  {
    if |ks| > 0 {
      SumOverNonNegative(ks[..|ks| - 1], m);
    }
  }

  /** The sum of values that are all zero is zero. */
  lemma {:induction false} SumOverZero(ks: seq<string>, m: map<string, real>)
    requires forall j :: j in ks ==> j in m && m[j] == 0.0
    ensures SumOver(ks, m) == 0.0
    decreases |ks|
  {
    if |ks| > 0 {
      SumOverZero(ks[..|ks| - 1], m);
    }
  }

  /** Stores `vals[i]` under `names[i]` for each `i` in turn; with `skipNonPositive`, an
      input that is not positive is skipped and leaves its key as it was. */
  function PutInputs(t: Table, names: seq<string>, vals: seq<real>, skipNonPositive: bool): (r: Table)
    requires t.Valid() && |names| == |vals|
    ensures r.Valid()
    ensures t.keys <= r.keys
    decreases |names|
  {
    if |names| == 0 then t
    else
      var n := |names| - 1;
      var r0 := PutInputs(t, names[..n], vals[..n], skipNonPositive);
      if skipNonPositive && vals[n] <= 0.0 then r0 else r0.Put(names[n], vals[n])
  }

  /** One more input extends the inputs stored so far by one step. */
  lemma PutInputsStep(t: Table, names: seq<string>, vals: seq<real>, skipNonPositive: bool, i: nat)
    requires t.Valid() && |names| == |vals| && i < |names|
    ensures PutInputs(t, names[..i + 1], vals[..i + 1], skipNonPositive)
         == var r0 := PutInputs(t, names[..i], vals[..i], skipNonPositive);
            if skipNonPositive && vals[i] <= 0.0 then r0 else r0.Put(names[i], vals[i])
  {
    assert names[..i + 1][..i] == names[..i] && vals[..i + 1][..i] == vals[..i];
  }

  /** A key that is not among the inputs keeps its value (or its absence). */
  lemma {:induction false} PutInputsOther(t: Table, names: seq<string>, vals: seq<real>, skipNonPositive: bool, k: string)
    requires t.Valid() && |names| == |vals|
    requires k !in names
    ensures PutInputs(t, names, vals, skipNonPositive).Get(k) == t.Get(k)
    decreases |names|
  {
    if |names| > 0 {
      var n := |names| - 1;
      assert k !in names[..n];
      PutInputsOther(t, names[..n], vals[..n], skipNonPositive, k);
    }
  }

  /** Each input name ends up with its input, unless the input was skipped. */
  lemma {:induction false} PutInputsGet(t: Table, names: seq<string>, vals: seq<real>, skipNonPositive: bool, i: nat)
    requires t.Valid() && |names| == |vals|
    requires Distinct(names) && i < |names|
    ensures PutInputs(t, names, vals, skipNonPositive).Get(names[i])
         == if skipNonPositive && vals[i] <= 0.0 then t.Get(names[i]) else Some(vals[i])
    decreases |names|
  {
    var n := |names| - 1;
    var prefix, prefixVals := names[..n], vals[..n];
    var r0 := PutInputs(t, prefix, prefixVals, skipNonPositive);
    assert PutInputs(t, names, vals, skipNonPositive)
        == if skipNonPositive && vals[n] <= 0.0 then r0 else r0.Put(names[n], vals[n]);
    if i == n {
      assert names[n] !in prefix;
      PutInputsOther(t, prefix, prefixVals, skipNonPositive, names[n]);
    } else {
      assert prefix[i] == names[i] && prefixVals[i] == vals[i];
      assert names[i] != names[n];
      assert Distinct(prefix);
      PutInputsGet(t, prefix, prefixVals, skipNonPositive, i);
    }
  }

  /** When every input name is already a key, the key order does not change. */
  lemma {:induction false} PutInputsKeepsKeys(t: Table, names: seq<string>, vals: seq<real>, skipNonPositive: bool)
    requires t.Valid() && |names| == |vals|
    requires forall k :: k in names ==> k in t.values
    ensures PutInputs(t, names, vals, skipNonPositive).keys == t.keys
    decreases |names|
  {
    if |names| > 0 {
      var n := |names| - 1;
      PutInputsKeepsKeys(t, names[..n], vals[..n], skipNonPositive);
      var r0 := PutInputs(t, names[..n], vals[..n], skipNonPositive);
      assert names[n] in r0.values;
    }
  }
}
