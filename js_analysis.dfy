/**
 * `/api/drug_profit_analysis` of the Node service (`USFormulary-Mridul/server.js`):
 * the same report as the Python handler, computed over the distinct tier
 * levels, with the first plan of a key kept. Amounts arrive from the default
 * `pg` pool as strings, so only NULL is falsy in `amount || Infinity`.
 */
module JsAnalysis {
  import opened Wrappers
  import opened Seqs
  import opened Text
  import opened Http
  import opened Coverage
  import PyAnalysis

  // ---------------------------------------------------------------- one tier

  /**
   * JavaScript truthiness of an amount as the default `pg` pool delivers it: a
   * `DECIMAL` arrives as its text (`"0.00"` included), which is truthy, and
   * NULL as `null`, which is falsy.
   */
  predicate TruthyAmount(v: Option<int>)
  {
    v.Some?
  }

  /** The truthy amounts, in order: what survives `amount || Infinity` followed by dropping `Infinity`. */
  function TruthyAmounts(values: seq<Option<int>>): (r: seq<int>)
    ensures forall x :: x in r <==> Some(x) in values
    decreases |values|
  {
    if values == [] then []
    else
      assert forall k :: 1 <= k < |values| ==> values[k] == values[1..][k - 1];
      (if TruthyAmount(values[0]) then [values[0].value] else []) + TruthyAmounts(values[1..])
  }

  /** `Math.min` of a row's four minimum amounts with falsy read as `Infinity`; `None` stands for `Infinity`. */
  function RowMin(c: CostRow): Option<int>
  {
    MinOf(TruthyAmounts(MinFields(c)))
  }

  /** `Math.max` of a row's four maximum amounts with falsy read as 0. */
  function RowMax(c: CostRow): int
  {
    MaxOf(PyAnalysis.OrZeroEach(MaxFields(c))).value
  }

  /** The row minimums, `None` for a row whose minimum is `Infinity`. */
  function RowMins(costs: seq<CostRow>): (r: seq<Option<int>>)
    ensures |r| == |costs|
    ensures forall k :: 0 <= k < |costs| ==> r[k] == RowMin(costs[k])
  {
    seq(|costs|, k requires 0 <= k < |costs| => RowMin(costs[k]))
  }

  /** `minCosts`: the finite row minimums, in row order. */
  function MinCosts(costs: seq<CostRow>): seq<int>
  {
    PyAnalysis.NonNull(RowMins(costs))
  }

  /** `maxCosts`: one row maximum per row. */
  function MaxCosts(costs: seq<CostRow>): (r: seq<int>)
    ensures |r| == |costs|
    ensures forall k :: 0 <= k < |costs| ==> r[k] == RowMax(costs[k])
  {
    seq(|costs|, k requires 0 <= k < |costs| => RowMax(costs[k]))
  }

  /** The entry of one tier (the callback of `tierLevels.map`). */
  function TierOf(tier: Option<int>, costs: seq<CostRow>, reqs: seq<FormularyRow>): TierAnalysis
  {
    var tierCosts := AtTier(costs, tier);
    var flags := Flags(FirstAtTier(reqs, tier));
    TierAnalysis(tier, MinOf(MinCosts(tierCosts)), MaxOf(MaxCosts(tierCosts)), flags.0, flags.1, flags.2)
  }

  /** A row's minimum is its least non-NULL minimum amount, `Infinity` when all four are NULL. */
  lemma RowMinIsLeast(c: CostRow)
    ensures RowMin(c).None? <==> forall x :: Some(x) !in MinFields(c)
    ensures RowMin(c).Some? ==> Some(RowMin(c).value) in MinFields(c)
    ensures forall x :: Some(x) in MinFields(c) ==> RowMin(c).Some? && RowMin(c).value <= x
  {
    var xs := TruthyAmounts(MinFields(c));
    if RowMin(c).None? {
      assert xs == [];
    }
  }

  /** Some cost row has `x` as its row minimum. */
  predicate HasRowMin(costs: seq<CostRow>, x: int)
  {
    exists k :: 0 <= k < |costs| && RowMin(costs[k]) == Some(x)
  }

  /** `minCosts` holds exactly the finite row minimums. */
  lemma MinCostsMembers(costs: seq<CostRow>)
    ensures forall x :: x in MinCosts(costs) <==> HasRowMin(costs, x)
  {
    var mins := RowMins(costs);
    forall x | Some(x) in mins ensures HasRowMin(costs, x) {
      var k :| 0 <= k < |mins| && mins[k] == Some(x);
    }
  }

  lemma MinAmountHasRowMin(costs: seq<CostRow>, x: int)
    requires PyAnalysis.HasMinAmount(costs, x)
    ensures exists y :: y in MinCosts(costs) && y <= x
  {
    var k :| 0 <= k < |costs| && Some(x) in MinFields(costs[k]);
    RowMinIsLeast(costs[k]);
    MinCostsMembers(costs);
    assert HasRowMin(costs, RowMin(costs[k]).value);
  }

  lemma RowMinIsMinAmount(costs: seq<CostRow>, m: int)
    requires m in MinCosts(costs)
    ensures PyAnalysis.HasMinAmount(costs, m)
  {
    MinCostsMembers(costs);
    var k :| 0 <= k < |costs| && RowMin(costs[k]) == Some(m);
    RowMinIsLeast(costs[k]);
  }

  /** The least row minimum is the least non-NULL minimum amount of all rows. */
  lemma LeastRowMin(costs: seq<CostRow>)
    ensures var m := MinOf(MinCosts(costs));
            (m.None? <==> forall x :: !PyAnalysis.HasMinAmount(costs, x))
            && (m.Some? ==> PyAnalysis.HasMinAmount(costs, m.value)
                            && forall x :: PyAnalysis.HasMinAmount(costs, x) ==> m.value <= x)
  {
    var xs := MinCosts(costs);
    var m := MinOf(xs);
    forall x | PyAnalysis.HasMinAmount(costs, x) ensures m.Some? && m.value <= x {
      MinAmountHasRowMin(costs, x);
    }
    if m.Some? {
      RowMinIsMinAmount(costs, m.value);
    }
  }

  /**
   * `minPatientCost` is the least non-NULL minimum amount at the tier, zero
   * included, and `None` when there is none.
   */
  lemma MinPatientCost(tier: Option<int>, costs: seq<CostRow>, reqs: seq<FormularyRow>)
    ensures var m := TierOf(tier, costs, reqs).minPatientCost;
            var tierCosts := AtTier(costs, tier);
            (m.None? <==> forall x :: !PyAnalysis.HasMinAmount(tierCosts, x))
            && (m.Some? ==> PyAnalysis.HasMinAmount(tierCosts, m.value)
                            && forall x :: PyAnalysis.HasMinAmount(tierCosts, x) ==> m.value <= x)
  {
    LeastRowMin(AtTier(costs, tier));
  }

  /** The least of the row minimums is the least of all minimum amounts, which Python takes in one list. */
  lemma MinAgreesOnRows(costs: seq<CostRow>)
    ensures MinOf(MinCosts(costs)) == MinOf(PyAnalysis.MinCandidates(costs))
  {
    var js := MinOf(MinCosts(costs));
    var all := PyAnalysis.MinCandidates(costs);
    LeastRowMin(costs);
    PyAnalysis.MinCandidatesMembers(costs);
    if js.Some? {
      LeastUnique(js.value, MinOf(all).value, all);
    }
  }

  /** Both services report the same minimum for every tier. */
  lemma MinAgrees(tier: Option<int>, costs: seq<CostRow>, reqs: seq<FormularyRow>)
    ensures TierOf(tier, costs, reqs).minPatientCost == PyAnalysis.TierOf(tier, costs, reqs).minPatientCost
  {
    MinAgreesOnRows(AtTier(costs, tier));
  }

  /** A single cost row whose only minimum amount is 0: both services report 0, as `"0.00"` is truthy. */
  lemma ZeroMinimumKept(c: CostRow, reqs: seq<FormularyRow>)
    requires MinFields(c) == [Some(0), None, None, None]
    ensures TierOf(c.tier, [c], reqs).minPatientCost == Some(0)
    ensures PyAnalysis.TierOf(c.tier, [c], reqs).minPatientCost == Some(0)
  {
    assert AtTier([c], c.tier) == [c] by {
      assert [c][1..] == [];
    }
    RowMinIsLeast(c);
    assert RowMins([c]) == [Some(0)];
    assert PyAnalysis.NonNull([Some(0)]) == [0];
    PyAnalysis.ZeroMinimumCounts(c, reqs);
  }

  /** The row maximum is the greatest of the row's four amounts, falsy read as 0. */
  lemma RowMaxIsGreatest(c: CostRow)
    ensures forall f :: 0 <= f < 4 ==> PyAnalysis.OrZero(MaxFields(c)[f]) <= RowMax(c)
    ensures exists f :: 0 <= f < 4 && PyAnalysis.OrZero(MaxFields(c)[f]) == RowMax(c)
  {
    var ys := PyAnalysis.OrZeroEach(MaxFields(c));
    forall f | 0 <= f < 4 ensures ys[f] <= RowMax(c) {
      assert ys[f] in ys;
    }
    var f :| 0 <= f < 4 && ys[f] == RowMax(c);
  }

  /** The greatest row maximum is the greatest of all the rows' maximum amounts. */
  lemma GreatestRowMax(costs: seq<CostRow>)
    ensures MaxOf(MaxCosts(costs)) == MaxOf(PyAnalysis.MaxCandidates(costs))
  {
    var js := MaxOf(MaxCosts(costs));
    var all := PyAnalysis.MaxCandidates(costs);
    PyAnalysis.MaxCandidatesMembers(costs);
    if js.Some? {
      var j :| 0 <= j < |costs| && MaxCosts(costs)[j] == js.value;
      RowMaxIsGreatest(costs[j]);
      var f :| 0 <= f < 4 && PyAnalysis.OrZero(MaxFields(costs[j])[f]) == js.value;
      assert PyAnalysis.HasMaxAmount(costs, js.value);
      forall y | y in all ensures y <= js.value {
        var k, g :| 0 <= k < |costs| && 0 <= g < 4 && PyAnalysis.OrZero(MaxFields(costs[k])[g]) == y;
        RowMaxIsGreatest(costs[k]);
        assert MaxCosts(costs)[k] in MaxCosts(costs);
      }
      GreatestUnique(js.value, MaxOf(all).value, all);
    }
  }

  /** `maxPatientCost` is the same in both services, whatever the amounts. */
  lemma MaxAgrees(tier: Option<int>, costs: seq<CostRow>, reqs: seq<FormularyRow>)
    ensures TierOf(tier, costs, reqs).maxPatientCost == PyAnalysis.TierOf(tier, costs, reqs).maxPatientCost
  {
    GreatestRowMax(AtTier(costs, tier));
  }

  /** A tier entry is the one the Python handler computes for the same tier. */
  lemma TierAgrees(tier: Option<int>, costs: seq<CostRow>, reqs: seq<FormularyRow>)
    ensures TierOf(tier, costs, reqs) == PyAnalysis.TierOf(tier, costs, reqs)
  {
    MinAgrees(tier, costs, reqs);
    MaxAgrees(tier, costs, reqs);
  }

  // ---------------------------------------------------------------- one plan

  /** `[...new Set(rows.map(r => r.tier_level_value))]`. */
  function TierLevels(rows: seq<FormularyRow>): (r: seq<Option<int>>)
    ensures Distinct(r)
    ensures forall t :: t in r <==> exists k :: 0 <= k < |rows| && rows[k].tier == t
  {
    var all := PyAnalysis.TierLevels(rows);
    assert forall t :: t in all <==> exists k :: 0 <= k < |rows| && rows[k].tier == t by {
      forall t | t in all ensures exists k :: 0 <= k < |rows| && rows[k].tier == t {
        var k :| 0 <= k < |all| && all[k] == t;
      }
    }
    Dedup(all)
  }

  function PlanOf(plan: PlanRow, levels: seq<Option<int>>, formulary: seq<FormularyRow>, rxcui: Option<int>,
                  costTable: seq<CostRow>): PlanAnalysis
  {
    var costs := CostsOf(costTable, plan, levels);
    var reqs := RequirementsOf(formulary, rxcui, levels);
    PlanAnalysis(plan.planName, plan.contractName,
                 seq(|levels|, k requires 0 <= k < |levels| => TierOf(levels[k], costs, reqs)))
  }

  // ---------------------------------------------------------------- all plans

  /** The Map's values: one per distinct key, in first-appearance order, from the first plan with that key. */
  function AnalysisResults(plans: seq<PlanRow>, levels: seq<Option<int>>, formulary: seq<FormularyRow>, rxcui: Option<int>,
                           costTable: seq<CostRow>): (r: seq<PlanAnalysis>)
    ensures |r| == |Dedup(KeysOf(plans))|
  {
    var keys := KeysOf(plans);
    var distinct := Dedup(keys);
    seq(|distinct|, j requires 0 <= j < |distinct| =>
      PlanOf(plans[FirstIndex(keys, distinct[j])], levels, formulary, rxcui, costTable))
  }

  /** A Map filled from `entries` under the keys `seen`, skipping keys it already has. */
  ghost predicate FirstWins<V>(analysisMap: map<string, V>, keys: seq<string>, seen: seq<string>, entries: seq<V>)
  {
    |seen| <= |entries|
    && keys == Dedup(seen)
    && (forall k :: k in analysisMap <==> k in keys)
    && forall k :: k in analysisMap ==> k in seen && analysisMap[k] == entries[FirstIndex(seen, k)]
  }

  lemma FirstWinsSkip<V>(analysisMap: map<string, V>, keys: seq<string>, seen: seq<string>, entries: seq<V>, key: string)
    requires FirstWins(analysisMap, keys, seen, entries) && |seen| < |entries| && key in analysisMap
    ensures FirstWins(analysisMap, keys, seen + [key], entries)
  {
    DedupSnoc(seen, key);
    forall k | k in analysisMap ensures FirstIndex(seen + [key], k) == FirstIndex(seen, k) {
      FirstIndexPrefix(seen, key, k);
    }
  }

  lemma FirstWinsAdd<V>(analysisMap: map<string, V>, keys: seq<string>, seen: seq<string>, entries: seq<V>, key: string)
    requires FirstWins(analysisMap, keys, seen, entries) && |seen| < |entries| && key !in analysisMap
    ensures FirstWins(analysisMap[key := entries[|seen|]], keys + [key], seen + [key], entries)
  {
    var added := analysisMap[key := entries[|seen|]];
    var seen' := seen + [key];
    assert keys + [key] == Dedup(seen') by {
      DedupSnoc(seen, key);
    }
    forall k | k in added ensures k in seen' && added[k] == entries[FirstIndex(seen', k)] {
      if k == key {
        FirstIndexAppended(seen, key);
      } else {
        FirstIndexPrefix(seen, key, k);
      }
    }
  }

  /** A key not seen before is first seen where it is appended. */
  lemma FirstIndexAppended(seen: seq<string>, key: string)
    requires key !in seen
    ensures key in seen + [key] && FirstIndex(seen + [key], key) == |seen|
  {
    assert (seen + [key])[|seen|] == key;
    forall j | 0 <= j < |seen| ensures (seen + [key])[j] != key {
      assert (seen + [key])[j] == seen[j];
    }
  }

  /** The Node analysis of one plan over the distinct levels, as `Coverage.Entries` takes it. */
  function Analyzer(levels: seq<Option<int>>, formulary: seq<FormularyRow>, rxcui: Option<int>,
                    costTable: seq<CostRow>): PlanRow -> PlanAnalysis
  {
    (plan: PlanRow) => PlanOf(plan, levels, formulary, rxcui, costTable)
  }

  /** The loop over plans: a plan whose key is already in the Map is skipped. */
  method BuildAnalysisMap(plans: seq<PlanRow>, levels: seq<Option<int>>, formulary: seq<FormularyRow>, rxcui: Option<int>,
                          costTable: seq<CostRow>) returns (keys: seq<string>, analysisMap: map<string, PlanAnalysis>)
    ensures FirstWins(analysisMap, keys, KeysOf(plans), Entries(plans, Analyzer(levels, formulary, rxcui, costTable)))
  {
    ghost var allKeys := KeysOf(plans);
    ghost var entries := Entries(plans, Analyzer(levels, formulary, rxcui, costTable));
    keys := [];
    analysisMap := map[];
    for i := 0 to |plans|
      invariant FirstWins(analysisMap, keys, allKeys[..i], entries)
    {
      var plan := plans[i];
      var key := PlanKey(plan);
      assert key == allKeys[i];
      TakeSnoc(allKeys, i);
      if key in analysisMap {
        FirstWinsSkip(analysisMap, keys, allKeys[..i], entries, key);
        continue;
      }
      var costs := CostsOf(costTable, plan, levels);
      var reqs := RequirementsOf(formulary, rxcui, levels);
      var tiersAnalysis := seq(|levels|, k requires 0 <= k < |levels| => TierOf(levels[k], costs, reqs));
      var entry := PlanAnalysis(plan.planName, plan.contractName, tiersAnalysis);
      assert entry == entries[i];
      FirstWinsAdd(analysisMap, keys, allKeys[..i], entries, key);
      analysisMap := analysisMap[key := entry];
      keys := keys + [key];
    }
    assert allKeys[..|plans|] == allKeys;
  }

  lemma ValuesAreResults(plans: seq<PlanRow>, levels: seq<Option<int>>, formulary: seq<FormularyRow>, rxcui: Option<int>,
                         costTable: seq<CostRow>, keys: seq<string>, analysisMap: map<string, PlanAnalysis>)
    requires FirstWins(analysisMap, keys, KeysOf(plans), Entries(plans, Analyzer(levels, formulary, rxcui, costTable)))
    ensures forall k :: k in keys ==> k in analysisMap
    ensures PyAnalysis.Values(keys, analysisMap) == AnalysisResults(plans, levels, formulary, rxcui, costTable)
  {
  }

  /** With no key repeated, every plan is reported, in order. */
  lemma DistinctKeysKeepEveryPlan(plans: seq<PlanRow>, levels: seq<Option<int>>, formulary: seq<FormularyRow>,
                                  rxcui: Option<int>, costTable: seq<CostRow>)
    requires Distinct(KeysOf(plans))
    ensures var r := AnalysisResults(plans, levels, formulary, rxcui, costTable);
            |r| == |plans| && forall j :: 0 <= j < |plans| ==> r[j] == PlanOf(plans[j], levels, formulary, rxcui, costTable)
  {
    var keys := KeysOf(plans);
    DedupOfDistinct(keys);
    forall j | 0 <= j < |plans| ensures FirstIndex(keys, keys[j]) == j {
      var l := FirstIndex(keys, keys[j]);
      assert keys[l] == keys[j];
    }
  }

  /** Two plans with the same key: the first one is reported, the second skipped. */
  lemma EarlierPlanWins(a: PlanRow, b: PlanRow, levels: seq<Option<int>>, formulary: seq<FormularyRow>,
                        rxcui: Option<int>, costTable: seq<CostRow>)
    requires PlanKey(a) == PlanKey(b)
    ensures AnalysisResults([a, b], levels, formulary, rxcui, costTable) == [PlanOf(a, levels, formulary, rxcui, costTable)]
  {
    var keys := KeysOf([a, b]);
    assert keys == [PlanKey(a), PlanKey(a)];
    DedupPair(PlanKey(a));
  }

  // ---------------------------------------------------------------- the handler

  /**
   * `rxcui` when truthy, read with `Number`; `None` when the database refuses it
   * as a parameter of the `INT` column: not an integer, or outside int4.
   */
  function DrugCode(rxcui: Option<string>): Option<int>
    requires Truthy(rxcui)
  {
    match JsIntegerValue(rxcui.value)
    case Some(n) => if IsInt4(n) then Some(n) else None
    case None => None
  }

  predicate Truthy(s: Option<string>)
  {
    s.Some? && s.value != ""
  }

  /** The formulary query: by `rxcui` when it is truthy, else by `ndc`; no tier, no paging. */
  function FormularyRows(formulary: seq<FormularyRow>, rxcui: Option<int>, ndc: Option<string>): seq<FormularyRow>
  {
    Filter(PyAnalysis.DrugMatcher(rxcui, ndc, None), formulary)
  }

  /** The drug code the queries bind for `rxcui`: `Number(rxcui)` when it is truthy, else `null`. */
  function Code(rxcui: Option<string>): Option<int>
  {
    if Truthy(rxcui) then DrugCode(rxcui) else None
  }

  /** The handler over the tables it reads; `plans` is what the plan query returned. */
  function DrugProfitAnalysis(ndc: Option<string>, rxcui: Option<string>,
                              formulary: seq<FormularyRow>, costTable: seq<CostRow>, plans: seq<PlanRow>)
    : Result<Report, Rejection>
  {
    if !Truthy(ndc) && !Truthy(rxcui) then Err(BadRequest("Please provide either 'ndc' or 'rxcui' parameter"))
    else if Truthy(rxcui) && Code(rxcui).None? then Err(Rejection(500, "Error fetching profit analysis data"))
    else Answer(FormularyRows(formulary, Code(rxcui), ndc), formulary, Code(rxcui), costTable, plans)
  }

  function Answer(rows: seq<FormularyRow>, formulary: seq<FormularyRow>, code: Option<int>,
                  costTable: seq<CostRow>, plans: seq<PlanRow>): Result<Report, Rejection>
  {
    if rows == [] then Err(Rejection(404, "No formulary data found for the provided drug code"))
    else
      var results := AnalysisResults(plans, TierLevels(rows), formulary, code, costTable);
      Ok(Report(rows, results, ImprovementSuggestions(results)))
  }

  method DrugProfitAnalysisHandler(ndc: Option<string>, rxcui: Option<string>,
                                   formulary: seq<FormularyRow>, costTable: seq<CostRow>, plans: seq<PlanRow>)
    returns (r: Result<Report, Rejection>)
    ensures r == DrugProfitAnalysis(ndc, rxcui, formulary, costTable, plans)
  {
    if !Truthy(ndc) && !Truthy(rxcui) {
      return Err(BadRequest("Please provide either 'ndc' or 'rxcui' parameter"));
    }
    var code := Code(rxcui);
    if Truthy(rxcui) && code.None? {
      return Err(Rejection(500, "Error fetching profit analysis data"));
    }
    var formularyRes := FormularyRows(formulary, code, ndc);
    assert DrugProfitAnalysis(ndc, rxcui, formulary, costTable, plans) == Answer(formularyRes, formulary, code, costTable, plans);
    r := Respond(formularyRes, formulary, code, costTable, plans);
  }

  /** The part of the handler after the formulary query. */
  method Respond(formularyRes: seq<FormularyRow>, formulary: seq<FormularyRow>, code: Option<int>,
                 costTable: seq<CostRow>, plans: seq<PlanRow>) returns (r: Result<Report, Rejection>)
    ensures r == Answer(formularyRes, formulary, code, costTable, plans)
  {
    if |formularyRes| == 0 {
      return Err(Rejection(404, "No formulary data found for the provided drug code"));
    }
    var report := AnalyzePlans(plans, formularyRes, formulary, code, costTable);
    r := Ok(report);
  }

  method AnalyzePlans(plans: seq<PlanRow>, rows: seq<FormularyRow>, formulary: seq<FormularyRow>, code: Option<int>,
                      costTable: seq<CostRow>) returns (report: Report)
    ensures report == Report(rows, AnalysisResults(plans, TierLevels(rows), formulary, code, costTable),
                             ImprovementSuggestions(AnalysisResults(plans, TierLevels(rows), formulary, code, costTable)))
  {
    var tierLevels := TierLevels(rows);
    var keys, analysisMap := BuildAnalysisMap(plans, tierLevels, formulary, code, costTable);
    ValuesAreResults(plans, tierLevels, formulary, code, costTable, keys, analysisMap);
    var analysisResults := PyAnalysis.Values(keys, analysisMap);
    var improvementSuggestions := ImprovementSuggestions(analysisResults);
    report := Report(rows, analysisResults, improvementSuggestions);
  }

  /** 400 exactly when neither `ndc` nor `rxcui` is truthy. */
  lemma MissingCodeRefused(ndc: Option<string>, rxcui: Option<string>,
                           formulary: seq<FormularyRow>, costTable: seq<CostRow>, plans: seq<PlanRow>)
    ensures DrugProfitAnalysis(ndc, rxcui, formulary, costTable, plans).Err?
            && DrugProfitAnalysis(ndc, rxcui, formulary, costTable, plans).error.status == 400
            <==> !Truthy(ndc) && !Truthy(rxcui)
  {
  }

  /** 500 exactly when `rxcui` is truthy but not an integer, or an integer outside int4. */
  lemma BadRxcuiRefused(ndc: Option<string>, rxcui: Option<string>,
                        formulary: seq<FormularyRow>, costTable: seq<CostRow>, plans: seq<PlanRow>)
    ensures DrugProfitAnalysis(ndc, rxcui, formulary, costTable, plans) == Err(Rejection(500, "Error fetching profit analysis data"))
            <==> Truthy(rxcui) && (JsIntegerValue(rxcui.value).None? || !IsInt4(JsIntegerValue(rxcui.value).value))
  {
  }

  /** An integer `rxcui` outside int4, such as `3000000000`, is refused with 500 rather than looked up. */
  lemma OutOfRangeRxcuiRefused(n: int, ndc: Option<string>,
                               formulary: seq<FormularyRow>, costTable: seq<CostRow>, plans: seq<PlanRow>)
    requires !IsInt4(n)
    ensures DrugProfitAnalysis(ndc, Some(IntToString(n)), formulary, costTable, plans)
            == Err(Rejection(500, "Error fetching profit analysis data"))
  {
    JsIntegerOfInteger(n);
    IntRoundTrip(n);
  }

  /**
   * 404 exactly when some code is given, a truthy `rxcui` is an int4 integer,
   * and no formulary row has the drug code.
   */
  lemma UnknownDrugRefused(ndc: Option<string>, rxcui: Option<string>,
                           formulary: seq<FormularyRow>, costTable: seq<CostRow>, plans: seq<PlanRow>)
    ensures DrugProfitAnalysis(ndc, rxcui, formulary, costTable, plans).Err?
            && DrugProfitAnalysis(ndc, rxcui, formulary, costTable, plans).error.status == 404
            <==> (Truthy(ndc) || Truthy(rxcui))
                 && (Truthy(rxcui) ==> JsIntegerValue(rxcui.value).Some? && IsInt4(JsIntegerValue(rxcui.value).value))
                 && FormularyRows(formulary, Code(rxcui), ndc) == []
  {
  }

  /** A report lists the formulary rows of the drug: by `rxcui` when it is truthy, else by `ndc`. */
  lemma ReportedRows(ndc: Option<string>, rxcui: Option<string>,
                     formulary: seq<FormularyRow>, costTable: seq<CostRow>, plans: seq<PlanRow>)
    ensures var r := DrugProfitAnalysis(ndc, rxcui, formulary, costTable, plans);
            r.Ok? ==> r.value.drugInfo == Filter(PyAnalysis.DrugMatcher(Code(rxcui), ndc, None), formulary)
                      && r.value.drugInfo != []
                      && forall k :: 0 <= k < |r.value.drugInfo| ==>
                           r.value.drugInfo[k] in formulary
                           && PyAnalysis.DrugRow(Code(rxcui), ndc, None, r.value.drugInfo[k])
  {
    FilterMembers(PyAnalysis.DrugMatcher(Code(rxcui), ndc, None), formulary);
  }

  /** Every plan has exactly one tier entry per distinct tier level, in first-occurrence order. */
  lemma TiersFollowLevels(plans: seq<PlanRow>, rows: seq<FormularyRow>, formulary: seq<FormularyRow>, code: Option<int>,
                          costTable: seq<CostRow>)
    ensures var levels := TierLevels(rows);
            var results := AnalysisResults(plans, levels, formulary, code, costTable);
            forall j :: 0 <= j < |results| ==>
              |results[j].tiers| == |levels| && forall k :: 0 <= k < |levels| ==> results[j].tiers[k].tier == levels[k]
  {
  }
}
