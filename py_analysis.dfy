/**
 * `drug_profit_analysis` of the Python service (`Backend/Features/main.py`):
 * for the drug's formulary rows and the plans the plan query returned, the cost
 * range and requirement flags of every tier, per plan, keyed by
 * `contract_plan_segment`.
 */
module PyAnalysis {
  import opened Wrappers
  import opened Seqs
  import Sql
  import opened Http
  import opened Coverage
  import Py = PyEndpoints

  // ---------------------------------------------------------------- one tier

  /** `[v for v in values if v is not None]`. */
  function NonNull(values: seq<Option<int>>): (r: seq<int>)
    ensures forall x :: x in r <==> Some(x) in values
    decreases |values|
  {
    if values == [] then []
    else
      assert forall k :: 1 <= k < |values| ==> values[k] == values[1..][k - 1];
      (if values[0].Some? then [values[0].value] else []) + NonNull(values[1..])
  }

  /** Python's `amount or 0`. */
  function OrZero(v: Option<int>): int
  {
    if v.Some? then v.value else 0
  }

  function OrZeroEach(values: seq<Option<int>>): (r: seq<int>)
    ensures |r| == |values|
    ensures forall k :: 0 <= k < |values| ==> r[k] == OrZero(values[k])
  {
    seq(|values|, k requires 0 <= k < |values| => OrZero(values[k]))
  }

  /** `min_costs` after the loop over a tier's cost rows. */
  function MinCandidates(costs: seq<CostRow>): seq<int>
    decreases |costs|
  {
    if costs == [] then [] else MinCandidates(costs[..|costs| - 1]) + NonNull(MinFields(costs[|costs| - 1]))
  }

  /** `max_costs` after the loop over a tier's cost rows. */
  function MaxCandidates(costs: seq<CostRow>): seq<int>
    decreases |costs|
  {
    if costs == [] then [] else MaxCandidates(costs[..|costs| - 1]) + OrZeroEach(MaxFields(costs[|costs| - 1]))
  }

  /** Some cost row has `x` as one of its four minimum amounts. */
  predicate HasMinAmount(costs: seq<CostRow>, x: int)
  {
    exists k :: 0 <= k < |costs| && Some(x) in MinFields(costs[k])
  }

  /** `min_costs` holds exactly the non-NULL minimum amounts of the rows. */
  lemma {:induction false} MinCandidatesMembers(costs: seq<CostRow>)
    ensures forall x :: x in MinCandidates(costs) <==> HasMinAmount(costs, x)
    decreases |costs|
  {
    if costs != [] {
      var init := costs[..|costs| - 1];
      var last := costs[|costs| - 1];
      MinCandidatesMembers(init);
      var before := MinCandidates(init);
      var added := NonNull(MinFields(last));
      assert MinCandidates(costs) == before + added;
      forall x ensures x in before + added <==> HasMinAmount(costs, x) {
        if HasMinAmount(init, x) {
          var k :| 0 <= k < |init| && Some(x) in MinFields(init[k]);
          assert costs[k] == init[k];
        }
        if x in added {
          assert Some(x) in MinFields(costs[|costs| - 1]);
        }
        if HasMinAmount(costs, x) {
          var k :| 0 <= k < |costs| && Some(x) in MinFields(costs[k]);
          if k < |init| {
            assert init[k] == costs[k];
            assert HasMinAmount(init, x);
          }
        }
      }
    }
  }

  /** Some cost row has `y` as one of its four maximum amounts, NULL read as 0. */
  predicate HasMaxAmount(costs: seq<CostRow>, y: int)
  {
    exists k, f :: 0 <= k < |costs| && 0 <= f < 4 && OrZero(MaxFields(costs[k])[f]) == y
  }

  /** `max_costs` holds four amounts per row, NULL read as 0, and nothing else. */
  lemma {:induction false} MaxCandidatesMembers(costs: seq<CostRow>)
    ensures |MaxCandidates(costs)| == 4 * |costs|
    ensures forall y :: y in MaxCandidates(costs) <==> HasMaxAmount(costs, y)
    decreases |costs|
  {
    if costs != [] {
      var init := costs[..|costs| - 1];
      var last := costs[|costs| - 1];
      MaxCandidatesMembers(init);
      var before := MaxCandidates(init);
      var added := OrZeroEach(MaxFields(last));
      assert MaxCandidates(costs) == before + added;
      forall y ensures y in before + added <==> HasMaxAmount(costs, y) {
        if HasMaxAmount(init, y) {
          var k, f :| 0 <= k < |init| && 0 <= f < 4 && OrZero(MaxFields(init[k])[f]) == y;
          assert costs[k] == init[k];
        }
        if y in added {
          var f :| 0 <= f < 4 && added[f] == y;
          assert OrZero(MaxFields(costs[|costs| - 1])[f]) == y;
        }
        if HasMaxAmount(costs, y) {
          var k, f :| 0 <= k < |costs| && 0 <= f < 4 && OrZero(MaxFields(costs[k])[f]) == y;
          if k < |init| {
            assert init[k] == costs[k];
            assert HasMaxAmount(init, y);
          } else {
            assert added[f] == y;
          }
        }
      }
    }
  }

  /** The inner loop: gathers `min_costs` and `max_costs` over the cost rows of one tier. */
  method CollectCosts(tierCosts: seq<CostRow>) returns (minCosts: seq<int>, maxCosts: seq<int>)
    ensures minCosts == MinCandidates(tierCosts)
    ensures maxCosts == MaxCandidates(tierCosts)
  {
    minCosts := [];
    maxCosts := [];
    for i := 0 to |tierCosts|
      invariant minCosts == MinCandidates(tierCosts[..i])
      invariant maxCosts == MaxCandidates(tierCosts[..i])
    {
      var c := tierCosts[i];
      assert tierCosts[..i + 1][..i] == tierCosts[..i];
      var filteredCosts := NonNull(MinFields(c));
      minCosts := minCosts + filteredCosts;
      maxCosts := maxCosts + OrZeroEach(MaxFields(c));
    }
    assert tierCosts[..|tierCosts|] == tierCosts;
  }

  /** The entry of one tier for one plan, given the plan's cost rows and the drug's requirement rows. */
  function TierOf(tier: Option<int>, costs: seq<CostRow>, reqs: seq<FormularyRow>): TierAnalysis
  {
    var tierCosts := AtTier(costs, tier);
    var flags := Flags(FirstAtTier(reqs, tier));
    TierAnalysis(tier, MinOf(MinCandidates(tierCosts)), MaxOf(MaxCandidates(tierCosts)), flags.0, flags.1, flags.2)
  }

  /**
   * `minPatientCost` is the least non-NULL minimum amount of the cost rows at
   * the tier, a zero amount included, and `None` when there is none.
   */
  lemma MinPatientCost(tier: Option<int>, costs: seq<CostRow>, reqs: seq<FormularyRow>)
    ensures var m := TierOf(tier, costs, reqs).minPatientCost;
            var tierCosts := AtTier(costs, tier);
            (m.None? <==> forall x :: !HasMinAmount(tierCosts, x))
            && (m.Some? ==> HasMinAmount(tierCosts, m.value) && forall x :: HasMinAmount(tierCosts, x) ==> m.value <= x)
  {
    var tierCosts := AtTier(costs, tier);
    MinCandidatesMembers(tierCosts);
    var xs := MinCandidates(tierCosts);
    if xs != [] {
      assert xs[0] in xs;
      assert HasMinAmount(tierCosts, xs[0]);
    }
  }

  /** A cost row whose preferred-pharmacy minimum is 0: the Python analysis reports a minimum of 0. */
  lemma ZeroMinimumCounts(c: CostRow, reqs: seq<FormularyRow>)
    requires c.minPref == Some(0)
    requires forall f :: 0 <= f < 4 && MinFields(c)[f].Some? ==> MinFields(c)[f].value >= 0
    ensures TierOf(c.tier, [c], reqs).minPatientCost == Some(0)
  {
    assert AtTier([c], c.tier) == [c] by {
      assert [c][1..] == [];
    }
    MinPatientCost(c.tier, [c], reqs);
    assert HasMinAmount([c], 0) by {
      assert Some(0) in MinFields([c][0]);
    }
    var m := TierOf(c.tier, [c], reqs).minPatientCost.value;
    assert HasMinAmount([c], m);
    assert m >= 0;
  }

  /**
   * `maxPatientCost` is `None` exactly when the tier has no cost row; otherwise
   * it is the greatest maximum amount of those rows, NULL read as 0, and so it
   * is not negative when the amounts are not.
   */
  lemma MaxPatientCost(tier: Option<int>, costs: seq<CostRow>, reqs: seq<FormularyRow>)
    ensures var m := TierOf(tier, costs, reqs).maxPatientCost;
            var tierCosts := AtTier(costs, tier);
            (m.None? <==> tierCosts == [])
            && (m.Some? ==> HasMaxAmount(tierCosts, m.value) && forall y :: HasMaxAmount(tierCosts, y) ==> y <= m.value)
            && (m.Some? && (forall y :: HasMaxAmount(tierCosts, y) ==> y >= 0) ==> m.value >= 0)
  {
    var tierCosts := AtTier(costs, tier);
    MaxCandidatesMembers(tierCosts);
  }

  /** Each flag is set exactly when the first requirement row at the tier says `Y`; none is set without such a row. */
  lemma TierFlags(tier: Option<int>, costs: seq<CostRow>, reqs: seq<FormularyRow>)
    ensures var t := TierOf(tier, costs, reqs);
            var req := FirstAtTier(reqs, tier);
            t.tier == tier
            && (req.None? ==> !t.priorAuthorizationRequired && !t.stepTherapyRequired && !t.quantityLimit)
            && (req.Some? ==> (t.priorAuthorizationRequired <==> req.value.pa == Some("Y"))
                              && (t.stepTherapyRequired <==> req.value.st == Some("Y"))
                              && (t.quantityLimit <==> req.value.ql == Some("Y")))
  {
  }

  /** The loop over the tier levels: one entry per level, in order. */
  method AnalyzeTiers(tierLevels: seq<Option<int>>, costs: seq<CostRow>, reqs: seq<FormularyRow>)
    returns (tiersAnalysis: seq<TierAnalysis>)
    ensures |tiersAnalysis| == |tierLevels|
    ensures forall k :: 0 <= k < |tierLevels| ==> tiersAnalysis[k] == TierOf(tierLevels[k], costs, reqs)
  {
    tiersAnalysis := [];
    for i := 0 to |tierLevels|
      invariant |tiersAnalysis| == i
      invariant forall k :: 0 <= k < i ==> tiersAnalysis[k] == TierOf(tierLevels[k], costs, reqs)
    {
      var entry := AnalyzeTier(tierLevels[i], costs, reqs);
      tiersAnalysis := tiersAnalysis + [entry];
    }
  }

  /** The body of the loop over tier levels. */
  method AnalyzeTier(tier: Option<int>, costs: seq<CostRow>, reqs: seq<FormularyRow>) returns (entry: TierAnalysis)
    ensures entry == TierOf(tier, costs, reqs)
  {
    var tierCosts := AtTier(costs, tier);
    var req := FirstAtTier(reqs, tier);
    var minCosts, maxCosts := CollectCosts(tierCosts);
    var minPatientCost := MinOf(minCosts);
    var maxPatientCost := MaxOf(maxCosts);
    var pa := if req.Some? then Flag(req.value.pa) else false;
    var st := if req.Some? then Flag(req.value.st) else false;
    var ql := if req.Some? then Flag(req.value.ql) else false;
    entry := TierAnalysis(tier, minPatientCost, maxPatientCost, pa, st, ql);
  }

  // ---------------------------------------------------------------- one plan

  /** `[r["tier_level_value"] for r in formulary_res]`: one level per formulary row, duplicates kept. */
  function TierLevels(rows: seq<FormularyRow>): (r: seq<Option<int>>)
    ensures |r| == |rows|
    ensures forall k :: 0 <= k < |rows| ==> r[k] == rows[k].tier
  {
    seq(|rows|, k requires 0 <= k < |rows| => rows[k].tier)
  }

  /** The analysis of one plan: its names and one entry per formulary row. */
  function PlanOf(plan: PlanRow, rows: seq<FormularyRow>, formulary: seq<FormularyRow>, rxcui: Option<int>,
                  costTable: seq<CostRow>): PlanAnalysis
  {
    var levels := TierLevels(rows);
    var costs := CostsOf(costTable, plan, levels);
    var reqs := RequirementsOf(formulary, rxcui, levels);
    PlanAnalysis(plan.planName, plan.contractName,
                 seq(|levels|, k requires 0 <= k < |levels| => TierOf(levels[k], costs, reqs)))
  }

  /** The body of the loop over plans, up to the assignment into `analysis_map`. */
  method AnalyzePlan(plan: PlanRow, rows: seq<FormularyRow>, formulary: seq<FormularyRow>, rxcui: Option<int>,
                     costTable: seq<CostRow>) returns (entry: PlanAnalysis)
    ensures entry == PlanOf(plan, rows, formulary, rxcui, costTable)
  {
    var tierLevels := TierLevels(rows);
    var costs := CostsOf(costTable, plan, tierLevels);
    var reqs := RequirementsOf(formulary, rxcui, tierLevels);
    var tiersAnalysis := AnalyzeTiers(tierLevels, costs, reqs);
    entry := PlanAnalysis(plan.planName, plan.contractName, tiersAnalysis);
  }

  // ---------------------------------------------------------------- all plans

  /**
   * `list(analysis_map.values())`: one entry per distinct key, in the order the
   * keys first appear, holding the analysis of the last plan with that key.
   */
  function AnalysisResults(plans: seq<PlanRow>, rows: seq<FormularyRow>, formulary: seq<FormularyRow>, rxcui: Option<int>,
                           costTable: seq<CostRow>): (r: seq<PlanAnalysis>)
    ensures |r| == |Dedup(KeysOf(plans))|
  {
    var keys := KeysOf(plans);
    var distinct := Dedup(keys);
    seq(|distinct|, j requires 0 <= j < |distinct| =>
      PlanOf(plans[LastIndex(keys, distinct[j])], rows, formulary, rxcui, costTable))
  }

  /**
   * A dict filled from `entries` under the keys `seen`, one assignment each:
   * its keys in first-insertion order, each holding the last value assigned.
   */
  ghost predicate LastWins<V>(analysisMap: map<string, V>, keys: seq<string>, seen: seq<string>, entries: seq<V>)
  {
    |seen| <= |entries|
    && keys == Dedup(seen)
    && (forall k :: k in analysisMap <==> k in keys)
    && forall k :: k in analysisMap ==> k in seen && analysisMap[k] == entries[LastIndex(seen, k)]
  }

  lemma LastWinsStep<V>(analysisMap: map<string, V>, keys: seq<string>, seen: seq<string>, entries: seq<V>, key: string)
    requires LastWins(analysisMap, keys, seen, entries) && |seen| < |entries|
    ensures LastWins(analysisMap[key := entries[|seen|]], if key in analysisMap then keys else keys + [key],
                     seen + [key], entries)
  {
    DedupSnoc(seen, key);
    forall k | k in analysisMap[key := entries[|seen|]] ensures k in seen + [key] {
      LastIndexSnoc(seen, key, k);
    }
    forall k | k in analysisMap[key := entries[|seen|]]
      ensures analysisMap[key := entries[|seen|]][k] == entries[LastIndex(seen + [key], k)]
    {
      LastIndexSnoc(seen, key, k);
    }
  }

  /** The Python analysis of one plan, as `Coverage.Entries` takes it. */
  function Analyzer(rows: seq<FormularyRow>, formulary: seq<FormularyRow>, rxcui: Option<int>,
                    costTable: seq<CostRow>): PlanRow -> PlanAnalysis
  {
    (plan: PlanRow) => PlanOf(plan, rows, formulary, rxcui, costTable)
  }

  /** The loop over plans: `analysis_map` with its keys in insertion order. */
  method BuildAnalysisMap(plans: seq<PlanRow>, rows: seq<FormularyRow>, formulary: seq<FormularyRow>, rxcui: Option<int>,
                          costTable: seq<CostRow>) returns (keys: seq<string>, analysisMap: map<string, PlanAnalysis>)
    ensures LastWins(analysisMap, keys, KeysOf(plans), Entries(plans, Analyzer(rows, formulary, rxcui, costTable)))
  {
    ghost var allKeys := KeysOf(plans);
    ghost var entries := Entries(plans, Analyzer(rows, formulary, rxcui, costTable));
    keys := [];
    analysisMap := map[];
    for i := 0 to |plans|
      invariant LastWins(analysisMap, keys, allKeys[..i], entries)
    {
      var plan := plans[i];
      var key := PlanKey(plan);
      var entry := AnalyzePlan(plan, rows, formulary, rxcui, costTable);
      assert entry == entries[i];
      assert key == allKeys[i];
      LastWinsStep(analysisMap, keys, allKeys[..i], entries, key);
      TakeSnoc(allKeys, i);
      if key !in analysisMap {
        keys := keys + [key];
      }
      analysisMap := analysisMap[key := entry];
    }
    assert allKeys[..|plans|] == allKeys;
  }

  /** The map's values in key order. */
  function Values(keys: seq<string>, analysisMap: map<string, PlanAnalysis>): seq<PlanAnalysis>
    requires forall k :: k in keys ==> k in analysisMap
  {
    seq(|keys|, j requires 0 <= j < |keys| => analysisMap[keys[j]])
  }

  /** The values of the filled dict, in key order, are the analysis results. */
  lemma ValuesAreResults(plans: seq<PlanRow>, rows: seq<FormularyRow>, formulary: seq<FormularyRow>, rxcui: Option<int>,
                         costTable: seq<CostRow>, keys: seq<string>, analysisMap: map<string, PlanAnalysis>)
    requires LastWins(analysisMap, keys, KeysOf(plans), Entries(plans, Analyzer(rows, formulary, rxcui, costTable)))
    ensures forall k :: k in keys ==> k in analysisMap
    ensures Values(keys, analysisMap) == AnalysisResults(plans, rows, formulary, rxcui, costTable)
  {
  }

  /** With no key repeated, every plan is reported, in order. */
  lemma DistinctKeysKeepEveryPlan(plans: seq<PlanRow>, rows: seq<FormularyRow>, formulary: seq<FormularyRow>,
                                  rxcui: Option<int>, costTable: seq<CostRow>)
    requires Distinct(KeysOf(plans))
    ensures var r := AnalysisResults(plans, rows, formulary, rxcui, costTable);
            |r| == |plans| && forall j :: 0 <= j < |plans| ==> r[j] == PlanOf(plans[j], rows, formulary, rxcui, costTable)
  {
    var keys := KeysOf(plans);
    DedupOfDistinct(keys);
    forall j | 0 <= j < |plans| ensures LastIndex(keys, keys[j]) == j {
      var l := LastIndex(keys, keys[j]);
      assert keys[l] == keys[j];
    }
  }

  /** Two plans with the same key: only the later one's names are reported, at the earlier one's place. */
  lemma LaterPlanWins(a: PlanRow, b: PlanRow, rows: seq<FormularyRow>, formulary: seq<FormularyRow>,
                      rxcui: Option<int>, costTable: seq<CostRow>)
    requires PlanKey(a) == PlanKey(b)
    ensures AnalysisResults([a, b], rows, formulary, rxcui, costTable) == [PlanOf(b, rows, formulary, rxcui, costTable)]
  {
    var keys := KeysOf([a, b]);
    assert keys == [PlanKey(a), PlanKey(a)];
    DedupPair(PlanKey(a));
    assert LastIndex(keys, PlanKey(a)) == 1;
  }

  // ---------------------------------------------------------------- the handler

  /** The formulary rows of the drug: the query's predicate over the table, then its window. */
  function FormularyRows(formulary: seq<FormularyRow>, rxcui: Option<int>, ndc: Option<string>, tier: Option<int>,
                         limitb: nat, offset: nat): seq<FormularyRow>
  {
    var fs := Py.AnalysisFormularyFilters(rxcui, ndc, tier);
    Sql.ConjunctionBinds(fs);
    Evaluate(formulary, Sql.Conjunction(fs).(page := Sql.InlinePage(limitb, offset)))
  }

  /** The rows the formulary query stands for, said directly. */
  predicate DrugRow(rxcui: Option<int>, ndc: Option<string>, tier: Option<int>, row: FormularyRow)
  {
    (if rxcui.Some? then row.rxcui == rxcui else ndc.Some? && row.ndc == ndc)
    && (tier.Some? ==> row.tier == tier)
  }

  function DrugMatcher(rxcui: Option<int>, ndc: Option<string>, tier: Option<int>): FormularyRow -> bool
  {
    (row: FormularyRow) => DrugRow(rxcui, ndc, tier, row)
  }

  /**
   * The formulary query selects the rows of the drug (by `rxcui` when given,
   * else by `ndc`), at the tier when one is given, and pages them.
   */
  lemma FormularySelection(formulary: seq<FormularyRow>, rxcui: Option<int>, ndc: Option<string>, tier: Option<int>,
                           limitb: nat, offset: nat)
    requires rxcui.Some? || ndc.Some?
    ensures FormularyRows(formulary, rxcui, ndc, tier, limitb, offset)
            == Window(Filter(DrugMatcher(rxcui, ndc, tier), formulary), limitb, offset)
  {
    var fs := Py.AnalysisFormularyFilters(rxcui, ndc, tier);
    Sql.ConjunctionBinds(fs);
    var q := Sql.Conjunction(fs).(page := Sql.InlinePage(limitb, offset));
    var bs := Sql.Bindings(q);
    var drug := if rxcui.Some? then (Sql.Eq("rxcui"), Sql.IntVal(rxcui.value)) else (Sql.Eq("ndc"), Sql.StrVal(ndc.value));
    assert bs == Sql.Present(fs);
    assert fs == [fs[0]] + [fs[1]];
    assert fs[..1] == [fs[0]];
    assert Sql.Present(fs[..1]) == [drug] by {
      assert fs[..1][..0] == [];
    }
    if tier.Some? {
      assert bs == [drug, (Sql.Eq("tier_level_value"), Sql.IntVal(tier.value))];
    } else {
      assert bs == [drug];
    }
    forall row | row in formulary ensures Matcher(bs)(row) == DrugMatcher(rxcui, ndc, tier)(row) {
      assert "rxcui" != "ndc" && "rxcui" != "tier_level_value" && "ndc" != "tier_level_value" by {
        assert "rxcui"[0] != "ndc"[0] && "rxcui"[0] != "tier_level_value"[0] && "ndc"[0] != "tier_level_value"[0];
      }
      assert Satisfies(row, drug) <==> (if rxcui.Some? then row.rxcui == rxcui else row.ndc == ndc);
      if tier.Some? {
        assert SatisfiesAll(bs, row) <==> Satisfies(row, bs[0]) && Satisfies(row, bs[1]);
      } else {
        assert SatisfiesAll(bs, row) <==> Satisfies(row, bs[0]);
      }
    }
    FilterCongruence(Matcher(bs), DrugMatcher(rxcui, ndc, tier), formulary);
  }

  /** `drug_profit_analysis` over the tables it reads; `plans` is what the plan query returned. */
  function DrugProfitAnalysis(rxcui: Option<int>, ndc: Option<string>, tier: Option<int>, limitb: nat, offset: nat,
                              formulary: seq<FormularyRow>, costTable: seq<CostRow>, plans: seq<PlanRow>)
    : Result<Report, Rejection>
  {
    if rxcui.None? && ndc.None? then Err(BadRequest("Please provide either 'rxcui' or 'ndc' parameter"))
    else Answer(FormularyRows(formulary, rxcui, ndc, tier, limitb, offset), formulary, rxcui, costTable, plans)
  }

  /** The answer once the drug's formulary rows are known. */
  function Answer(rows: seq<FormularyRow>, formulary: seq<FormularyRow>, rxcui: Option<int>,
                  costTable: seq<CostRow>, plans: seq<PlanRow>): Result<Report, Rejection>
  {
    if rows == [] then Err(BadRequest("No formulary data found for the provided drug code"))
    else
      var results := AnalysisResults(plans, rows, formulary, rxcui, costTable);
      Ok(Report(rows, results, ImprovementSuggestions(results)))
  }

  method DrugProfitAnalysisHandler(rxcui: Option<int>, ndc: Option<string>, tier: Option<int>, limitb: nat, offset: nat,
                                   formulary: seq<FormularyRow>, costTable: seq<CostRow>, plans: seq<PlanRow>)
    returns (r: Result<Report, Rejection>)
    ensures r == DrugProfitAnalysis(rxcui, ndc, tier, limitb, offset, formulary, costTable, plans)
  {
    if rxcui.None? && ndc.None? {
      return Err(BadRequest("Please provide either 'rxcui' or 'ndc' parameter"));
    }
    var formularyRes := SelectFormulary(formulary, rxcui, ndc, tier, limitb, offset);
    if |formularyRes| == 0 {
      return Err(BadRequest("No formulary data found for the provided drug code"));
    }
    var report := AnalyzePlans(plans, formularyRes, formulary, rxcui, costTable);
    r := Ok(report);
  }

  /** The formulary query built and run against the table. */
  method SelectFormulary(formulary: seq<FormularyRow>, rxcui: Option<int>, ndc: Option<string>, tier: Option<int>,
                         limitb: nat, offset: nat) returns (rows: seq<FormularyRow>)
    requires rxcui.Some? || ndc.Some?
    ensures rows == FormularyRows(formulary, rxcui, ndc, tier, limitb, offset)
  {
    var q := Py.AnalysisFormularyQuery(rxcui, ndc, tier, limitb, offset);
    Sql.ConjunctionBinds(Py.AnalysisFormularyFilters(rxcui, ndc, tier));
    rows := Evaluate(formulary, q);
  }

  /** From the loop over plans to the answer's body. */
  method AnalyzePlans(plans: seq<PlanRow>, rows: seq<FormularyRow>, formulary: seq<FormularyRow>, rxcui: Option<int>,
                      costTable: seq<CostRow>) returns (report: Report)
    ensures report == Report(rows, AnalysisResults(plans, rows, formulary, rxcui, costTable),
                             ImprovementSuggestions(AnalysisResults(plans, rows, formulary, rxcui, costTable)))
  {
    var keys, analysisMap := BuildAnalysisMap(plans, rows, formulary, rxcui, costTable);
    ValuesAreResults(plans, rows, formulary, rxcui, costTable, keys, analysisMap);
    var analysisResults := Values(keys, analysisMap);
    var improvementSuggestions := ImprovementSuggestions(analysisResults);
    report := Report(rows, analysisResults, improvementSuggestions);
  }

  /** The two refusals: no drug code at all, and a drug code without formulary rows; no plan is analysed then. */
  lemma Refusals(rxcui: Option<int>, ndc: Option<string>, tier: Option<int>, limitb: nat, offset: nat,
                 formulary: seq<FormularyRow>, costTable: seq<CostRow>, plans: seq<PlanRow>)
    ensures var r := DrugProfitAnalysis(rxcui, ndc, tier, limitb, offset, formulary, costTable, plans);
            (rxcui.None? && ndc.None? ==> r == Err(BadRequest("Please provide either 'rxcui' or 'ndc' parameter")))
            && ((rxcui.Some? || ndc.Some?) ==>
                  var selected := Window(Filter(DrugMatcher(rxcui, ndc, tier), formulary), limitb, offset);
                  (selected == [] ==> r == Err(BadRequest("No formulary data found for the provided drug code")))
                  && (selected != [] ==> r.Ok? && r.value.drugInfo == selected))
  {
    if rxcui.Some? || ndc.Some? {
      FormularySelection(formulary, rxcui, ndc, tier, limitb, offset);
      var rows := FormularyRows(formulary, rxcui, ndc, tier, limitb, offset);
      assert DrugProfitAnalysis(rxcui, ndc, tier, limitb, offset, formulary, costTable, plans)
          == Answer(rows, formulary, rxcui, costTable, plans);
    }
  }

  /** A plan's tiers follow the formulary rows one for one; with `ndc` alone no flag is set. */
  ghost predicate TiersFollowRows(p: PlanAnalysis, rows: seq<FormularyRow>, rxcui: Option<int>)
  {
    |p.tiers| == |rows|
    && forall k :: 0 <= k < |rows| ==>
         p.tiers[k].tier == rows[k].tier
         && (rxcui.None? ==> !p.tiers[k].priorAuthorizationRequired && !p.tiers[k].stepTherapyRequired && !p.tiers[k].quantityLimit)
  }

  lemma PlanTiers(plan: PlanRow, rows: seq<FormularyRow>, formulary: seq<FormularyRow>, rxcui: Option<int>, costTable: seq<CostRow>)
    ensures TiersFollowRows(PlanOf(plan, rows, formulary, rxcui, costTable), rows, rxcui)
  {
    var levels := TierLevels(rows);
    var costs := CostsOf(costTable, plan, levels);
    var reqs := RequirementsOf(formulary, rxcui, levels);
    NoRequirementsWithoutRxcui(formulary, levels);
    forall k | 0 <= k < |rows| ensures TierOf(levels[k], costs, reqs).tier == rows[k].tier {
      TierFlags(levels[k], costs, reqs);
    }
  }

  /** In an accepted report every plan has one tier entry per formulary row, in row order. */
  lemma TiersFollowFormulary(rxcui: Option<int>, ndc: Option<string>, tier: Option<int>, limitb: nat, offset: nat,
                             formulary: seq<FormularyRow>, costTable: seq<CostRow>, plans: seq<PlanRow>)
    ensures var r := DrugProfitAnalysis(rxcui, ndc, tier, limitb, offset, formulary, costTable, plans);
            r.Ok? ==> forall j :: 0 <= j < |r.value.planAnalysis| ==> TiersFollowRows(r.value.planAnalysis[j], r.value.drugInfo, rxcui)
  {
    var r := DrugProfitAnalysis(rxcui, ndc, tier, limitb, offset, formulary, costTable, plans);
    if r.Ok? {
      ResultsFollowRows(plans, r.value.drugInfo, formulary, rxcui, costTable);
    }
  }

  lemma ResultsFollowRows(plans: seq<PlanRow>, rows: seq<FormularyRow>, formulary: seq<FormularyRow>, rxcui: Option<int>,
                          costTable: seq<CostRow>)
    ensures var results := AnalysisResults(plans, rows, formulary, rxcui, costTable);
            forall j :: 0 <= j < |results| ==> TiersFollowRows(results[j], rows, rxcui)
  {
    var results := AnalysisResults(plans, rows, formulary, rxcui, costTable);
    var keys := KeysOf(plans);
    forall j | 0 <= j < |results| ensures TiersFollowRows(results[j], rows, rxcui) {
      PlanTiers(plans[LastIndex(keys, Dedup(keys)[j])], rows, formulary, rxcui, costTable);
    }
  }
}
