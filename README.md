# Crusher plant calculators, modelled in Dafny

The repository is a set of Streamlit pages for a stone-crusher business. Under the forms there is a small amount of real logic, and that logic is what this project models:

- **A named-cost store.** It is a Python dict from cost name to Rs/Ton. Keys stay in insertion order, and overwriting a key keeps its place. The store is summed into a cost per ton, and multiplying by a quantity in tons gives a project cost. It appears twice:
  - as `ProjectCostCalculator` in `Project_Calculator.py`, which rounds to hundredths and refuses a quantity that is not positive;
  - inline as `st.session_state.calculator_data` in `Project_Costing.py`. There it is seeded with nine fixed components.
- **An append-only list of materials** (type, rate, production percentage) and its weighted average rate, Σ rate·pct / Σ pct. It appears three times:
  - `WeightedAverageCalculator` in `Project_Calculator.py`, where the result is rounded;
  - `WeightedAverageCalculator` in `WeightedAverageRate.py`, where it is not rounded;
  - inline in `Average_Rate.py`. This version rounds what it stores, and its add guard also demands a positive rate.
- **The insights page** (`Project_Insights.py`). It combines cost per ton, selling rate and production into expenditure, expected sale, profit or loss, and margin per ton and in percent.

Numbers are Dafny `real`s. Python's `round(x, 2)` is `Rounding.Round2`: the nearest hundredth, with an exact tie going to the even hundredth. The dict is `CostTable.Table`, a sequence of unique keys plus a map. `Table.Put` overwrites in place or appends a new key at the end. `st.session_state` is the object `Session.SessionState`, with one `Option` field per session key. A key that is absent is `None`. Widget bounds (`min_value`, `max_value` of `number_input`) are preconditions of the methods that stand for the button handlers. The values typed into the widgets are parameters.

Layout: one module per source file, plus `Results` (Option, Result), `Rounding`, `CostTable` (the ordered dict and its sum), `Materials` (the entry type, both sums, the unrounded weighted average and its bounds) and `Session`.

Facts about the code that shape the model:
- `add_cost` and `add_material` check nothing. Only the page guards check input before calling them, and the model puts those checks in the guard members (`SubmitCustomCost`, `SubmitMaterial`, `AddMaterial`, `AddCustomCost`).
- `calculate_weighted_average` in `Project_Calculator.py` returns a rounded value, and the model keeps it.
- `calculate_total_cost` rounds each breakdown entry, the cost per ton, and the total built from the rounded cost per ton. The model keeps this double rounding and proves how far it can drift (`ProjectTotalApproximates`). The breakdown entries, each rounded on its own, can add up to something else than that total; `BreakdownSumApproximates` bounds the gap and `BreakdownTotalDiffersExample` shows it is real. The same holds for the Total row that `Project_Calculator.py:113` computes from the breakdown (`BreakdownTableTotal`).
- `Project_Costing.py:28` reads `calculator_data[cost]` for each of the nine fixed names without a fallback. This is safe because only `Project_Costing.py:22` creates the dict, with all nine, and nothing deletes a key. `Session.SessionState.Valid` states this, and every session method keeps it.

The sums are definitions without contracts of their own; their properties are the lemmas below. `CostTable.SumOver` and `CostTable.Table.Sum` are `sum(d.values())` (`Project_Calculator.py:19`, `Project_Costing.py:50`, `Project_Insights.py:8`). `Materials.WeightedSum` and `Materials.TotalPercentage` are the two accumulations Σ rate·pct and Σ pct (`WeightedAverageRate.py:23-25`, `Project_Calculator.py:43-45`, `Average_Rate.py:37-40`, `Project_Insights.py:12-15`). Rows marked "proof helper" are arithmetic steps used by the proofs; they cite the line whose reasoning they serve.

## Model

| member | source | states |
|---|---|---|
| Rounding.Round2 | Project_Calculator.py:17-20 | `round(x, 2)` gives a whole number of hundredths within 0.005 of `x` |
| Rounding.Round2OfCents | Average_Rate.py:21-22 | a value that already has two decimals is not changed by rounding |
| Rounding.Round2Idempotent | Project_Calculator.py:19-20 | rounding an already rounded value changes nothing |
| Rounding.Round2Monotone | Average_Rate.py:21-22 | rounding never reverses the order of two values |
| Rounding.Round2Within | Average_Rate.py:14-15 | a value between two whole-hundredth bounds stays between them after rounding |
| CostTable.CostInputsDistinct | Project_Costing.py:8-18 | the nine fixed component names are pairwise different |
| CostTable.Table.Put | Project_Calculator.py:7-9 | `d[k] = v` maps `k` to `v` and leaves every other key's value alone; old keys keep their order; a new key is appended at the end |
| CostTable.EmptySum | Project_Calculator.py:19 | an empty store sums to 0 |
| CostTable.SumPut | Project_Costing.py:38 | after storing `v` under `k`, the sum changes by `v` minus the value it replaced (0 for a new key) |
| CostTable.SumOverUnaffected | Project_Costing.py:50 | changing a key that is not summed leaves the sum unchanged |
| CostTable.SumOverUpdate | Project_Costing.py:50 | changing one summed key changes the sum by the difference |
| CostTable.SumOverScaled | Project_Costing.py:51 | multiplying every value by `q` multiplies the sum by `q` |
| CostTable.SumOverNonNegative | Project_Insights.py:8 | non-negative costs have a non-negative sum |
| CostTable.SumOverZero | Project_Costing.py:22 | costs that are all 0 sum to 0 |
| CostTable.PutInputs | Project_Costing.py:26-29 | storing a sequence of named inputs keeps the store well formed and its old keys first, in order |
| CostTable.PutInputsStep | Project_Costing.py:26-29 | one more loop step stores (or skips) exactly the next input |
| CostTable.PutInputsOther | Project_Calculator.py:82-85 | a name that is not an input keeps its value or its absence |
| CostTable.PutInputsGet | Project_Calculator.py:82-85 | each input name ends up with its input, unless the input was skipped, in which case it keeps its earlier value |
| CostTable.PutInputsKeepsKeys | Project_Costing.py:26-29 | when every input name is already a key, the key order is unchanged |
| Materials.WeightedAverage | WeightedAverageRate.py:15-30 | error for an empty list, error for a zero total percentage, otherwise a value that times the total percentage is Σ rate·pct |
| Materials.MinRate | WeightedAverageRate.py:23-25 | the smallest rate: it occurs in the list and bounds every rate from below |
| Materials.MaxRate | WeightedAverageRate.py:23-25 | the largest rate: it occurs in the list and bounds every rate from above |
| Materials.TotalPercentageNonNegative | WeightedAverageRate.py:25 | non-negative percentages have a non-negative total |
| Materials.TotalPercentagePositive | WeightedAverageRate.py:47 | a non-empty list of positive percentages has a positive total, so the zero-total error cannot occur |
| Materials.MulLeft | WeightedAverageRate.py:24 | (proof helper) multiplying by a non-negative weight keeps order |
| Materials.WeightedSumBounds | WeightedAverageRate.py:23-25 | with non-negative weights, rates in [lo, hi] give lo·Σpct ≤ Σ rate·pct ≤ hi·Σpct |
| Materials.QuotientBounds | WeightedAverageRate.py:30 | (proof helper) dividing by a positive total keeps those bounds |
| Materials.AverageBounded | WeightedAverageRate.py:24-30 | with non-negative weights and a positive total, the average lies in any [lo, hi] that holds every rate |
| Materials.AverageBetweenMinAndMax | WeightedAverageRate.py:24-30 | with non-negative weights, a successful average lies between the smallest and the largest rate |
| Materials.PositivePercentagesSucceed | WeightedAverageRate.py:47 | a non-empty list that passed the positive-percentage guard always yields an average, and it lies between the smallest and largest rate |
| Materials.SingleMaterial | WeightedAverageRate.py:24-30 | one material with a non-zero percentage averages to its own rate |
| Materials.EqualSplitExample | WeightedAverageRate.py:20-30 | 100 and 200 at 50% each average to 150 |
| Materials.BlendExample | WeightedAverageRate.py:20-30 | 500 at 60% and 700 at 40% average to 580 |
| Materials.ZeroWeightExample | WeightedAverageRate.py:27-28 | two materials at 0% give the zero-total error |
| ProjectCalculator.ProjectCostCalculator.constructor | Project_Calculator.py:4-5 | a new calculator holds no components |
| ProjectCalculator.ProjectCostCalculator.AddCost | Project_Calculator.py:7-9 | the new store is the old one with `cost_name` set to the value; the key order is unchanged, or the name is appended if it is new |
| ProjectCalculator.ProjectCostCalculator.CalculateTotalCost | Project_Calculator.py:11-21 | fails exactly when the quantity is ≤ 0; otherwise gives the rounded breakdown, the rounded sum as cost per ton, and the rounded product of that with the quantity; the store is only read |
| ProjectCalculator.Breakdown | Project_Calculator.py:16-18 | the breakdown has the same keys, in order, as the store, and each value is the component's cost for the quantity, rounded |
| ProjectCalculator.RoundedCostClose | Project_Calculator.py:17 | a rounded cost is within 0.005 of the exact product |
| ProjectCalculator.RoundedCost | Project_Calculator.py:17-20 | `round(value * q, 2)` is a whole number of hundredths |
| ProjectCalculator.ScaledError | Project_Calculator.py:20 | (proof helper) an error of at most 0.005 per ton grows to at most 0.005·q over q tons |
| ProjectCalculator.ProjectTotalApproximates | Project_Calculator.py:19-20 | the project total, rounded twice, is within 0.005·(q+1) of the exact sum times q |
| ProjectCalculator.ErrorsAdd | Project_Calculator.py:19-20 | (proof helper) the two rounding errors add up to at most 0.005·(q+1) |
| ProjectCalculator.BreakdownApproximates | Project_Calculator.py:16-18 | each breakdown entry is within 0.005 of value × quantity |
| ProjectCalculator.SumOverClose | Project_Calculator.py:16-19 | values that are each within 0.005 of another set of values sum to within 0.005 per key of that set's sum |
| ProjectCalculator.ExactCosts | Project_Calculator.py:17 | the unrounded breakdown: each component's value times the quantity |
| ProjectCalculator.ExactCostsSum | Project_Calculator.py:17-19 | the unrounded breakdown sums to the cost per ton times the quantity |
| ProjectCalculator.BreakdownSumClose | Project_Calculator.py:16-19 | the rounded breakdown entries add up to within 0.005 per component of the exact sum times the quantity |
| ProjectCalculator.TotalClose | Project_Calculator.py:19-20 | (proof helper) the rounded cost per ton and the rounded total are each within 0.005 of their exact values |
| ProjectCalculator.GapAdd | Project_Calculator.py:16-20 | (proof helper) the breakdown's error and the total's error add up |
| ProjectCalculator.Shift | Project_Calculator.py:16-19 | (proof helper) a bound against a value carries over to an equal value |
| ProjectCalculator.BreakdownSumApproximates | Project_Calculator.py:16-20 | the breakdown entries add up to within 0.005·(number of components) + 0.005·(q+1) of the total project cost |
| ProjectCalculator.BreakdownTableTotal | Project_Calculator.py:113 | the Total row of the breakdown table, the breakdown's sum rounded: whole hundredths within 0.005 of that sum |
| ProjectCalculator.RowGapAdd | Project_Calculator.py:113 | (proof helper) one more rounding adds 0.005 to the bound |
| ProjectCalculator.BreakdownTableTotalApproximates | Project_Calculator.py:105-113 | the Total row lies within 0.005·(number of components) + 0.005·(q+2) of the total project cost shown above it |
| ProjectCalculator.BreakdownTotalDiffersExample | Project_Calculator.py:105-113 | costs 0.01, 0.01, 0.01 over 0.4 t give a total project cost of 0.01 but a breakdown whose entries add up to 0, and a Total row of 0 |
| ProjectCalculator.EmptyCalculatorCostsNothing | Project_Calculator.py:19-21 | an empty store gives cost per ton 0, total 0 and an empty breakdown |
| ProjectCalculator.ThreeCostExample | Project_Calculator.py:11-21 | costs 40, 10, 15 over 1000 tons give 65 per ton, 65000 in total, and a 40000/10000/15000 breakdown |
| ProjectCalculator.EnterFixedCosts | Project_Calculator.py:82-85 | the input loop stores each fixed cost whose input is > 0, in list order, and skips the others |
| ProjectCalculator.EnterFixedCostsEffect | Project_Calculator.py:82-85 | after the loop a fixed cost holds its input if that is > 0, and otherwise its earlier value (entering 0 leaves a stored cost in place); every other name is untouched and old keys keep their order |
| ProjectCalculator.SubmitCustomCost | Project_Calculator.py:91-96 | a custom cost is stored exactly when its name is non-empty; otherwise nothing changes |
| ProjectCalculator.WeightedAverageCalculator.constructor | Project_Calculator.py:24-25 | a new calculator holds no materials |
| ProjectCalculator.WeightedAverageCalculator.AddMaterial | Project_Calculator.py:27-33 | appends exactly one entry at the end; earlier entries are unchanged and in order |
| ProjectCalculator.WeightedAverageCalculator.CalculateWeightedAverage | Project_Calculator.py:35-50 | the accumulation loop gives the no-materials error, the zero-total error, or the weighted average rounded to hundredths; the list is only read |
| ProjectCalculator.SubmitMaterial | Project_Calculator.py:137-142 | a material is appended exactly when the type is non-empty and the percentage > 0; otherwise nothing changes |
| ProjectCalculator.AcceptedListAverage | Project_Calculator.py:43-50 | on a list built through the guard, with two-decimal rates, the rounded average exists and lies between the smallest and the largest rate |
| WeightedAverageRate.WeightedAverageCalculator.constructor | WeightedAverageRate.py:4-5 | a new calculator holds no materials |
| WeightedAverageRate.WeightedAverageCalculator.AddMaterial | WeightedAverageRate.py:7-13 | appends exactly one entry at the end; earlier entries are unchanged and in order |
| WeightedAverageRate.WeightedAverageCalculator.CalculateWeightedAverage | WeightedAverageRate.py:15-30 | the accumulation loop yields exactly the unrounded weighted average or its two errors; the list is only read |
| WeightedAverageRate.SubmitMaterial | WeightedAverageRate.py:46-51 | a material is appended exactly when the type is non-empty and the percentage > 0; otherwise nothing changes; lists built this way keep only positive percentages |
| ProjectCosting.InitialData | Project_Costing.py:21-22 | the seed holds exactly the nine fixed names, in list order, all 0.0 |
| ProjectCosting.InitialDataSum | Project_Costing.py:22 | the seeded dict costs 0 per ton |
| ProjectCosting.InitCalculatorData | Project_Costing.py:21-22 | the dict is seeded only when it is absent; an existing dict, custom entries included, is kept |
| ProjectCosting.EnterCosts | Project_Costing.py:26-29 | the input loop sets every fixed component to its input, in list order; the key order is unchanged and the session stays well formed |
| ProjectCosting.EnterCostsKeepsFixed | Project_Costing.py:26-29 | on a seeded dict the loop only overwrites: the key order is unchanged and all nine fixed names stay present |
| ProjectCosting.EnterCostsEffect | Project_Costing.py:26-29 | after the loop each fixed component holds its input; custom components keep their values; once seeded, the key order is unchanged |
| ProjectCosting.AddCustomCost | Project_Costing.py:36-41 | a non-empty name sets or overwrites only that key; an empty name leaves the dict unchanged |
| ProjectCosting.SaveTotalQuantity | Project_Costing.py:44-45 | the quantity is stored in the session; nothing else changes, and the session stays well formed |
| ProjectCosting.Totals | Project_Costing.py:50-51 | the cost per ton is the sum of all values, fixed and custom; the total is the sum of each component's cost for the whole quantity; a quantity of 0 is accepted and gives 0 |
| ProjectCosting.BreakdownRows | Project_Costing.py:56-57 | one row per key in insertion order, each with its value, then a final "Total" row with the cost per ton |
| ProjectCosting.RowSumMatches | Project_Costing.py:57 | rows that carry the store's values add up to the store's sum |
| ProjectCosting.BreakdownRowsConsistent | Project_Costing.py:56-57 | the component rows of the breakdown table add up to its Total row |
| Session.SessionState.constructor | Project_Insights.py:8-21 | a fresh session holds none of `calculator_data`, `total_quantity` and `materials`, and is well formed |
| AverageRate.InitMaterials | Average_Rate.py:8-9 | the empty list is created only when `materials` is absent; nothing else changes |
| AverageRate.AddMaterial | Average_Rate.py:17-26 | appends exactly when the type is non-empty, rate > 0 and percentage > 0, storing both rounded to hundredths; otherwise nothing changes; entries keep the input bounds |
| AverageRate.Stored | Average_Rate.py:19-23 | the appended entry keeps the type and holds rate and percentage rounded to hundredths, each within 0.005 of the input |
| AverageRate.StoredInRange | Average_Rate.py:14-15 | a stored entry keeps rate ≥ 0 and percentage in [0, 100], with two decimals |
| AverageRate.TinyPercentageStoredAsZero | Average_Rate.py:18-22 | the guard tests the unrounded percentage, so 0.004 passes and is stored as 0 |
| AverageRate.FinalRate | Average_Rate.py:36-46 | gives a rate exactly when the total percentage is > 0 (so never for an empty list); that rate times the total percentage is Σ rate·pct; the list is only read |
| AverageRate.FinalRateAgrees | Average_Rate.py:37-43 | on lists within the input bounds the final rate equals the calculator classes' weighted average and lies between the smallest and largest rate |
| AverageRate.FinalRateFailsOnlyWithoutWeight | Average_Rate.py:42-46 | on lists within the input bounds the error occurs only when every percentage is 0 |
| ProjectInsights.Compose | Project_Insights.py:23-32 | expenditure = cost per ton × production; expected sale = rate × production; profit = margin per ton × production; margin per ton = rate − cost; margin % × rate = 100 × margin when rate > 0, and margin % is 0 otherwise |
| ProjectInsights.MarginAlgebra | Project_Insights.py:28-32 | (proof helper) the identities behind profit = margin × production and margin % × rate = 100 × margin |
| ProjectInsights.SellingRate | Project_Insights.py:11-18 | the selling rate is the rate page's final rate, or 0 when `materials` is absent or that page would report an error |
| ProjectInsights.ComputeInsights | Project_Insights.py:8-32 | cost per ton is the cost page's sum (0 when `calculator_data` is absent); expenditure is the cost page's total at the stored quantity; production is the stored quantity or 0; the rest as `Compose` |
| ProjectInsights.ProfitMatchesMargin | Project_Insights.py:28-31 | with positive production, profit > 0 exactly when margin per ton > 0, and loss exactly when it is < 0 |
| ProjectInsights.SignOfProduct | Project_Insights.py:28 | (proof helper) a positive factor keeps the sign |
| ProjectInsights.MarginPercentageBounded | Project_Insights.py:31-32 | with non-negative costs and a positive selling rate, margin % ≤ 100, and it is > 0 exactly when the rate exceeds the cost |
| ProjectInsights.PercentageBounds | Project_Insights.py:32 | (proof helper) the arithmetic behind that bound |
| ProjectInsights.NoRateNoMargin | Project_Insights.py:16-18 | with no materials, or an empty list, the margin % is 0 whatever the costs |
| ProjectInsights.SummaryExample | Project_Insights.py:8-32 | cost 65, rate 580 and 1000 tons give expenditure 65000, sale 580000, profit 515000, margin 515 per ton and 88.79–88.80 % |

## Left out

- Widgets, buttons, `st.success`/`st.error` messages, page routing (`main_app.py`), chart rendering (`Project_Insights.py:47-56`) and table styling (`Project_Costing.py:55-59`, `Average_Rate.py:29-32`). These are presentation. The model keeps only the rows and values behind the breakdown table (`ProjectCosting.BreakdownRows`).
- The display tables of `Project_Calculator.py:105-126`, apart from the Total row computed at line 113 (`BreakdownTableTotal`), and the material listings (`Project_Calculator.py:152-156`, `WeightedAverageRate.py:61-65`). These only format state the model already holds.
- `f"{...:.2f}"` formatting and currency symbols. These are display only.
- IEEE-754 floats. Every number is an exact `real`. `Round2` is round-half-to-even on the exact value, whereas Python rounds the nearest binary float, so ties that are not exactly representable may go the other way.
- How Streamlit itself limits a typed value to the widget's two-decimal format. The model uses the value as given. This is why `TinyPercentageStoredAsZero` exhibits a stored 0 % entry: whether the widget can actually deliver 0.004 is not modelled.
- The `try`/`except` blocks around the calculations. Nothing in the modelled code raises there except the errors already modelled as `Result` values.
- Hosting the calculator objects in `st.session_state` (`Project_Calculator.py:52-57`, `WeightedAverageRate.py:33-35`). The constructors model creation. Keeping one object per session is the caller's concern.
- Session persistence across reruns of the script. Each modelled method is one step of a rerun, applied to the explicit session object.
