/**
 * The drug-coverage analysis shared by both services (`drug_profit_analysis` in
 * `Backend/Features/main.py` and `/api/drug_profit_analysis` in
 * `USFormulary-Mridul/server.js`): the rows it reads, the report it builds, and
 * the fixed lookups it makes for every plan. Tables are sequences of rows in the
 * order the database returns them. Amounts are whole cents; `None` is SQL NULL.
 */
module Coverage {
  import opened Wrappers
  import opened Seqs
  import Sql

  /** A row of `basic_drugs_formulary`. */
  datatype FormularyRow = FormularyRow(
    formularyId: string, rxcui: Option<int>, ndc: Option<string>, tier: Option<int>,
    pa: Option<string>, st: Option<string>, ql: Option<string>)

  /**
   * The range of PostgreSQL's `INT` (int4), the type of the `RXCUI` and tier
   * columns: a parameter outside it makes the database refuse the query.
   */
  predicate IsInt4(n: int)
  {
    -0x8000_0000 <= n < 0x8000_0000
  }

  /** A row of `beneficiary_cost`: the cost range of each of the four pharmacy kinds. */
  datatype CostRow = CostRow(
    contractId: string, planId: string, segmentId: string, tier: Option<int>,
    minPref: Option<int>, maxPref: Option<int>,
    minNonpref: Option<int>, maxNonpref: Option<int>,
    minMailPref: Option<int>, maxMailPref: Option<int>,
    minMailNonpref: Option<int>, maxMailNonpref: Option<int>)

  /** A row of the plan query's result (other columns are not read by the analysis). */
  datatype PlanRow = PlanRow(
    contractId: string, planId: string, segmentId: string,
    contractName: Option<string>, planName: Option<string>)

  datatype TierAnalysis = TierAnalysis(
    tier: Option<int>, minPatientCost: Option<int>, maxPatientCost: Option<int>,
    priorAuthorizationRequired: bool, stepTherapyRequired: bool, quantityLimit: bool)

  datatype PlanAnalysis = PlanAnalysis(planName: Option<string>, contractName: Option<string>, tiers: seq<TierAnalysis>)

  /** The body of a successful answer. */
  datatype Report = Report(drugInfo: seq<FormularyRow>, planAnalysis: seq<PlanAnalysis>,
                           improvementSuggestions: seq<PlanAnalysis>)

  // ---------------------------------------------------------------- the formulary query, evaluated

  /** A row meets one `column = $k` binding of the formulary query; NULL meets nothing. */
  predicate Satisfies(row: FormularyRow, b: (Sql.Shape, Sql.Value))
  {
    if b.0 == Sql.Eq("rxcui") then b.1.IntVal? && row.rxcui == Some(b.1.i)
    else if b.0 == Sql.Eq("ndc") then b.1.StrVal? && row.ndc == Some(b.1.s)
    else if b.0 == Sql.Eq("tier_level_value") then b.1.IntVal? && row.tier == Some(b.1.i)
    else false
  }

  predicate SatisfiesAll(bindings: seq<(Sql.Shape, Sql.Value)>, row: FormularyRow)
  {
    forall k :: 0 <= k < |bindings| ==> Satisfies(row, bindings[k])
  }

  function Matcher(bindings: seq<(Sql.Shape, Sql.Value)>): FormularyRow -> bool
  {
    (row: FormularyRow) => SatisfiesAll(bindings, row)
  }

  /** `LIMIT limit OFFSET offset` over rows in the order they are produced. */
  function Window<T>(rows: seq<T>, limit: nat, offset: nat): (r: seq<T>)
    ensures |r| == if offset >= |rows| then 0 else if limit <= |rows| - offset then limit else |rows| - offset
    ensures forall k :: 0 <= k < |r| ==> offset + k < |rows| && r[k] == rows[offset + k]
  {
    if offset >= |rows| then []
    else if limit <= |rows| - offset then rows[offset..offset + limit]
    else rows[offset..]
  }

  /** The rows of `table` a conjunctive query over the formulary selects, then pages. */
  function Evaluate(table: seq<FormularyRow>, q: Sql.Query): seq<FormularyRow>
    requires Sql.Resolves(q)
    requires !q.page.SlotPage?
  {
    var selected := Filter(Matcher(Sql.Bindings(q)), table);
    match q.page
    case InlinePage(limit, offset) =>
      if limit >= 0 && offset >= 0 then Window(selected, limit, offset) else []
    case NoPage => selected
  }

  // ---------------------------------------------------------------- per-plan lookups

  /** The key a plan is reported under, `contract_plan_segment`. */
  function PlanKey(p: PlanRow): string
  {
    p.contractId + "_" + p.planId + "_" + p.segmentId
  }

  function KeysOf(plans: seq<PlanRow>): (r: seq<string>)
    ensures |r| == |plans|
    ensures forall i :: 0 <= i < |plans| ==> r[i] == PlanKey(plans[i])
  {
    seq(|plans|, i requires 0 <= i < |plans| => PlanKey(plans[i]))
  }

  /**
   * The analyses of every plan, in plan order, before any key is merged. Each
   * service passes its own per-plan analysis (`PyAnalysis.Analyzer`,
   * `JsAnalysis.Analyzer`).
   */
  function Entries(plans: seq<PlanRow>, analyze: PlanRow -> PlanAnalysis): (r: seq<PlanAnalysis>)
    ensures |r| == |plans|
    ensures forall j :: 0 <= j < |plans| ==> r[j] == analyze(plans[j])
  {
    seq(|plans|, j requires 0 <= j < |plans| => analyze(plans[j]))
  }

  /** SQL `tier = ANY(levels)`: a NULL tier matches nothing. */
  predicate AnyOf(tier: Option<int>, levels: seq<Option<int>>)
  {
    tier.Some? && tier in levels
  }

  predicate CostOfPlan(plan: PlanRow, levels: seq<Option<int>>, c: CostRow)
  {
    c.contractId == plan.contractId && c.planId == plan.planId && c.segmentId == plan.segmentId && AnyOf(c.tier, levels)
  }

  function CostMatcher(plan: PlanRow, levels: seq<Option<int>>): CostRow -> bool
  {
    (c: CostRow) => CostOfPlan(plan, levels, c)
  }

  /** The cost query of one plan: its rows at any of the drug's tiers. */
  function CostsOf(costTable: seq<CostRow>, plan: PlanRow, levels: seq<Option<int>>): seq<CostRow>
  {
    Filter(CostMatcher(plan, levels), costTable)
  }

  predicate RequirementOf(rxcui: Option<int>, levels: seq<Option<int>>, r: FormularyRow)
  {
    rxcui.Some? && r.rxcui == rxcui && AnyOf(r.tier, levels)
  }

  function RequirementMatcher(rxcui: Option<int>, levels: seq<Option<int>>): FormularyRow -> bool
  {
    (r: FormularyRow) => RequirementOf(rxcui, levels, r)
  }

  /** The requirement query: formulary rows of the drug by `rxcui` (`rxcui = NULL` matches nothing). */
  function RequirementsOf(formulary: seq<FormularyRow>, rxcui: Option<int>, levels: seq<Option<int>>): seq<FormularyRow>
  {
    Filter(RequirementMatcher(rxcui, levels), formulary)
  }

  /** Without an `rxcui` the requirement query returns nothing. */
  lemma NoRequirementsWithoutRxcui(formulary: seq<FormularyRow>, levels: seq<Option<int>>)
    ensures RequirementsOf(formulary, None, levels) == []
  {
    var p := RequirementMatcher(None, levels);
    var never: FormularyRow -> bool := _ => false;
    FilterCongruence(p, never, formulary);
    FalseFilter(never, formulary);
  }

  function CostTierMatcher(tier: Option<int>): CostRow -> bool
  {
    (c: CostRow) => c.tier == tier
  }

  /** The cost rows at one tier. */
  function AtTier(costs: seq<CostRow>, tier: Option<int>): seq<CostRow>
  {
    Filter(CostTierMatcher(tier), costs)
  }

  /** The first requirement row at a tier, if any. */
  function FirstAtTier(reqs: seq<FormularyRow>, tier: Option<int>): (r: Option<FormularyRow>)
    ensures r.Some? ==> r.value in reqs && r.value.tier == tier
    ensures r.None? <==> forall k :: 0 <= k < |reqs| ==> reqs[k].tier != tier
    ensures r.Some? ==> exists i :: 0 <= i < |reqs| && reqs[i] == r.value && forall k :: 0 <= k < i ==> reqs[k].tier != tier
    decreases |reqs|
  {
    if reqs == [] then None
    else if reqs[0].tier == tier then Some(reqs[0])
    else
      var r := FirstAtTier(reqs[1..], tier);
      assert forall k :: 1 <= k < |reqs| ==> reqs[k] == reqs[1..][k - 1];
      if r.Some? then
        var i :| 0 <= i < |reqs[1..]| && reqs[1..][i] == r.value && forall k :: 0 <= k < i ==> reqs[1..][k].tier != tier;
        assert reqs[i + 1] == r.value;
        r
      else r
  }

  function MinFields(c: CostRow): seq<Option<int>>
  {
    [c.minPref, c.minNonpref, c.minMailPref, c.minMailNonpref]
  }

  function MaxFields(c: CostRow): seq<Option<int>>
  {
    [c.maxPref, c.maxNonpref, c.maxMailPref, c.maxMailNonpref]
  }

  /** A requirement flag is set only by the literal `Y`. */
  predicate Flag(v: Option<string>)
  {
    v == Some("Y")
  }

  /** The three flags of a tier, read from its first requirement row; all false without one. */
  function Flags(req: Option<FormularyRow>): (r: (bool, bool, bool))
    ensures req.None? ==> r == (false, false, false)
    ensures req.Some? ==> r == (Flag(req.value.pa), Flag(req.value.st), Flag(req.value.ql))
  {
    if req.Some? then (Flag(req.value.pa), Flag(req.value.st), Flag(req.value.ql)) else (false, false, false)
  }

  // ---------------------------------------------------------------- suggestions

  /** A plan worth a suggestion: some tier needs step therapy or has a quantity limit. */
  predicate Suggested(p: PlanAnalysis)
  {
    exists k :: 0 <= k < |p.tiers| && (p.tiers[k].stepTherapyRequired || p.tiers[k].quantityLimit)
  }

  function SuggestedMatcher(): PlanAnalysis -> bool
  {
    (p: PlanAnalysis) => Suggested(p)
  }

  function ImprovementSuggestions(plans: seq<PlanAnalysis>): (r: seq<PlanAnalysis>)
  {
    Filter(SuggestedMatcher(), plans)
  }

  /** The suggestions are the suggested plans, in report order. */
  lemma SuggestionsAreSuggestedPlans(plans: seq<PlanAnalysis>)
    ensures SubsequenceOf(ImprovementSuggestions(plans), plans)
    ensures forall k :: 0 <= k < |ImprovementSuggestions(plans)| ==> Suggested(ImprovementSuggestions(plans)[k])
    ensures forall k :: 0 <= k < |plans| && Suggested(plans[k]) ==> plans[k] in ImprovementSuggestions(plans)
  {
    FilterIsSubsequence(SuggestedMatcher(), plans);
    FilterMembers(SuggestedMatcher(), plans);
  }

  function WithoutPriorAuthorization(t: TierAnalysis): TierAnalysis
  {
    t.(priorAuthorizationRequired := false)
  }

  /** Prior authorisation plays no part in the choice: clearing it on every tier changes nothing. */
  lemma SuggestionIgnoresPriorAuthorization(p: PlanAnalysis)
    ensures Suggested(p) == Suggested(p.(tiers := seq(|p.tiers|, k requires 0 <= k < |p.tiers| => WithoutPriorAuthorization(p.tiers[k]))))
  {
    var q := p.(tiers := seq(|p.tiers|, k requires 0 <= k < |p.tiers| => WithoutPriorAuthorization(p.tiers[k])));
    if Suggested(p) {
      var k :| 0 <= k < |p.tiers| && (p.tiers[k].stepTherapyRequired || p.tiers[k].quantityLimit);
      assert q.tiers[k].stepTherapyRequired || q.tiers[k].quantityLimit;
    }
    if Suggested(q) {
      var k :| 0 <= k < |q.tiers| && (q.tiers[k].stepTherapyRequired || q.tiers[k].quantityLimit);
      assert p.tiers[k].stepTherapyRequired || p.tiers[k].quantityLimit;
    }
  }
}
