/**
 * The query builders of the Node service (`USFormulary-Mridul/server.js`).
 * Query-string arguments arrive as optional strings (`None` for a missing key);
 * numbers are read with `Number` and must satisfy `Number.isInteger`. Where the
 * Node handler assembles the same predicate as the Python one, the Python
 * filter lists and builders are reused, and the lemmas below state the agreement.
 */
module JsEndpoints {
  import opened Wrappers
  import opened Text
  import opened Sql
  import opened Http
  import Py = PyEndpoints

  /** JavaScript truthiness of an optional query-string argument. */
  predicate Truthy(s: Option<string>)
  {
    s.Some? && s.value != ""
  }

  /** Present, and not blank after `trim()`. */
  predicate NonBlank(s: Option<string>)
  {
    s.Some? && s.value != "" && JsTrim(s.value) != ""
  }

  function Missing(name: string): Rejection
  {
    BadRequest("Missing required parameter: " + name)
  }

  function MissingOrInvalid(name: string): Rejection
  {
    BadRequest("Missing or invalid required parameter: " + name)
  }

  function NotInteger(name: string): Rejection
  {
    BadRequest("Parameter '" + name + "' must be an integer")
  }

  /** An optional integer argument: absent or empty means not given; otherwise `Number` of it must be an integer. */
  function OptionalInteger(raw: Option<string>, name: string): (r: Result<Option<int>, Rejection>)
    ensures r.Err? <==> raw.Some? && raw.value != "" && JsIntegerValue(raw.value).None?
    ensures r.Err? ==> r.error == NotInteger(name)
    ensures r.Ok? ==> (r.value.Some? <==> raw.Some? && raw.value != "")
    ensures r.Ok? && r.value.Some? ==> Some(r.value.value) == JsIntegerValue(raw.value)
  {
    if raw.None? || raw.value == "" then Ok(None)
    else match JsIntegerValue(raw.value)
      case None => Err(NotInteger(name))
      case Some(n) => Ok(Some(n))
  }

  /** A required integer argument: missing (`== null`) is refused, and `Number` of it must be an integer. */
  function RequiredInteger(raw: Option<string>, name: string): (r: Result<int, Rejection>)
    ensures raw.None? ==> r == Err(Missing(name))
    ensures raw.Some? ==> (r.Ok? <==> JsIntegerValue(raw.value).Some?)
    ensures r.Ok? ==> raw.Some? && JsIntegerValue(raw.value) == Some(r.value)
  {
    if raw.None? then Err(Missing(name))
    else match JsIntegerValue(raw.value)
      case None => Err(NotInteger(name))
      case Some(n) => Ok(n)
  }

  /** Reads an optional integer the way the handlers do: absent stays absent, a decimal integer reads as itself. */
  lemma OptionalIntegerOfDecimal(v: Option<int>, name: string)
    ensures OptionalInteger(if v.Some? then Some(IntToString(v.value)) else None, name) == Ok(v)
  {
    if v.Some? {
      JsIntegerOfInteger(v.value);
      assert IntToString(v.value) != "" by {
        IntRoundTrip(v.value);
      }
    }
  }

  /** `parsePagination`, which the file calls but never defines: every call throws a `ReferenceError`, answered with 400. */
  function PaginationAsWritten(limit: Option<string>, offset: Option<string>): (r: Result<(int, int), Rejection>)
    ensures r.Err? && r.error.status == 400
  {
    Err(BadRequest("parsePagination is not defined"))
  }

  // ---------------------------------------------------------------- /api/trends

  function TrendsQuery(year: Option<string>, limit: Option<string>, offset: Option<string>,
                       paginate: (Option<string>, Option<string>) -> Result<(int, int), Rejection>): Result<Query, Rejection>
  {
    match RequiredInteger(year, "year")
    case Err(e) => Err(e)
    case Ok(y) =>
      match paginate(limit, offset)
      case Err(e) => Err(e)
      case Ok((l, o)) => Ok(Paged(Conjunction([Filter(Eq("year"), Some(IntVal(y)))]), l, o))
  }

  // ---------------------------------------------------------------- /api/search

  function SearchQuery(drug: Option<string>, startYear: Option<string>, endYear: Option<string>): Result<Query, Rejection>
  {
    if !Truthy(drug) then Err(Missing("drug"))
    else match OptionalInteger(startYear, "startYear")
      case Err(e) => Err(e)
      case Ok(s) =>
        match OptionalInteger(endYear, "endYear")
        case Err(e) => Err(e)
        case Ok(e) => Py.SearchDrugsQuery(drug.value, s, e)
  }

  method Search(drug: Option<string>, startYear: Option<string>, endYear: Option<string>) returns (r: Result<Query, Rejection>)
    ensures r == SearchQuery(drug, startYear, endYear)
  {
    if drug.None? || drug.value == "" {
      return Err(Missing("drug"));
    }
    var s: Option<int> := None;
    if startYear.Some? && startYear.value != "" {
      var n := JsIntegerValue(startYear.value);
      if n.None? {
        return Err(NotInteger("startYear"));
      }
      s := n;
    }
    var e: Option<int> := None;
    if endYear.Some? && endYear.value != "" {
      var n := JsIntegerValue(endYear.value);
      if n.None? {
        return Err(NotInteger("endYear"));
      }
      e := n;
    }
    r := Py.SearchDrugs(drug.value, s, e);
  }

  /** For years written as decimal integers the Node search sends exactly the Python search's query. */
  lemma SearchAgreesWithPython(drug: string, startYear: Option<int>, endYear: Option<int>)
    requires drug != ""
    ensures SearchQuery(Some(drug),
                        if startYear.Some? then Some(IntToString(startYear.value)) else None,
                        if endYear.Some? then Some(IntToString(endYear.value)) else None)
            == Py.SearchDrugsQuery(drug, startYear, endYear)
  {
    OptionalIntegerOfDecimal(startYear, "startYear");
    OptionalIntegerOfDecimal(endYear, "endYear");
  }

  // ---------------------------------------------------------------- /api/geo_detail

  function GeoDetailQuery(year: Option<string>, drug: Option<string>): Result<Query, Rejection>
  {
    match RequiredInteger(year, "year")
    case Err(e) => Err(e)
    case Ok(y) => Ok(Conjunction(Py.GeoDetailFilters(y, drug)))
  }

  method GeoDetail(year: Option<string>, drug: Option<string>) returns (r: Result<Query, Rejection>)
    ensures r == GeoDetailQuery(year, drug)
  {
    if year.None? {
      return Err(Missing("year"));
    }
    var y := JsIntegerValue(year.value);
    if y.None? {
      return Err(NotInteger("year"));
    }
    var q := Py.GeoDetail(y.value, drug);
    r := Ok(q);
  }

  // ---------------------------------------------------------------- /api/region_detail

  function RegionDetailQuery(level: Option<string>, region: Option<string>, year: Option<string>,
                             limit: Option<string>, offset: Option<string>,
                             paginate: (Option<string>, Option<string>) -> Result<(int, int), Rejection>): Result<Query, Rejection>
  {
    if !NonBlank(level) then Err(MissingOrInvalid("level"))
    else if !NonBlank(region) then Err(MissingOrInvalid("region"))
    else match OptionalInteger(year, "year")
      case Err(e) => Err(e)
      case Ok(y) =>
        match paginate(limit, offset)
        case Err(e) => Err(e)
        case Ok((l, o)) => Ok(Paged(Conjunction(Py.RegionDetailFilters(level.value, region.value, y)), l, o))
  }

  /** The handler with the pagination reader it is given: `PaginationAsWritten` as the file stands, or a working one. */
  method RegionDetail(level: Option<string>, region: Option<string>, year: Option<string>,
                      limit: Option<string>, offset: Option<string>,
                      paginate: (Option<string>, Option<string>) -> Result<(int, int), Rejection>)
    returns (r: Result<Query, Rejection>)
    ensures r == RegionDetailQuery(level, region, year, limit, offset, paginate)
  {
    if !NonBlank(level) {
      return Err(MissingOrInvalid("level"));
    }
    if !NonBlank(region) {
      return Err(MissingOrInvalid("region"));
    }
    var y := OptionalInteger(year, "year");
    if y.Err? {
      return Err(y.error);
    }
    var page := paginate(limit, offset);
    if page.Err? {
      return Err(page.error);
    }
    var q := Py.RegionDetail(level.value, region.value, y.value, page.value.0, page.value.1);
    r := Ok(q);
  }

  // ---------------------------------------------------------------- /api/formulary/lookup

  function LookupFilters(drugValue: Value, idIsRxcui: bool, planId: string, contractId: Option<string>): seq<Filter>
  {
    [Filter(if idIsRxcui then Eq("bf.rxcui") else Eq("bf.ndc"), Some(drugValue)),
     Filter(Py.PlanOrFormulary, Some(StrVal(planId))),
     Filter(Eq("pi.contract_id"), if NonBlank(contractId) then Some(StrVal(contractId.value)) else None)]
  }

  /** `id_type` is `rxcui` in any letter case exactly when it spells it letter by letter in either case. */
  lemma RxcuiKindIff(t: string)
    ensures ToLower(t) == "rxcui" <==>
              |t| == 5 && (t[0] == 'r' || t[0] == 'R') && (t[1] == 'x' || t[1] == 'X') && (t[2] == 'c' || t[2] == 'C')
              && (t[3] == 'u' || t[3] == 'U') && (t[4] == 'i' || t[4] == 'I')
  {
    if |t| == 5 {
      assert ToLower(t) == [LowerChar(t[0]), LowerChar(t[1]), LowerChar(t[2]), LowerChar(t[3]), LowerChar(t[4])];
    }
  }

  /** `id_type` is `ndc` in any letter case exactly when it spells it letter by letter in either case. */
  lemma NdcKindIff(t: string)
    ensures ToLower(t) == "ndc" <==>
              |t| == 3 && (t[0] == 'n' || t[0] == 'N') && (t[1] == 'd' || t[1] == 'D') && (t[2] == 'c' || t[2] == 'C')
  {
    if |t| == 3 {
      assert ToLower(t) == [LowerChar(t[0]), LowerChar(t[1]), LowerChar(t[2])];
    }
  }

  /** The drug as it is bound: a number for `rxcui`, which must then be an integer, the text itself for `ndc`. */
  function LookupDrug(drugId: string, kind: string): (r: Result<Value, Rejection>)
    ensures kind != "rxcui" ==> r == Ok(StrVal(drugId))
    ensures kind == "rxcui" ==> (r.Ok? <==> JsIntegerValue(drugId).Some?)
    ensures kind == "rxcui" && r.Ok? ==> r.value == IntVal(JsIntegerValue(drugId).value)
  {
    if kind == "rxcui" then
      match JsIntegerValue(drugId)
      case None => Err(BadRequest("Parameter 'drug_id' must be an integer when id_type='rxcui'"))
      case Some(n) => Ok(IntVal(n))
    else Ok(StrVal(drugId))
  }

  function LookupQuery(drugId: Option<string>, idType: Option<string>, planId: Option<string>, contractId: Option<string>)
    : Result<Query, Rejection>
  {
    if !NonBlank(drugId) then Err(MissingOrInvalid("drug_id"))
    else if !Truthy(idType) then Err(MissingOrInvalid("id_type"))
    else
      var kind := ToLower(idType.value);
      if kind != "rxcui" && kind != "ndc" then Err(BadRequest("Parameter 'id_type' must be either 'rxcui' or 'ndc'"))
      else if !NonBlank(planId) then Err(MissingOrInvalid("plan_id"))
      else match LookupDrug(drugId.value, kind)
        case Err(e) => Err(e)
        case Ok(v) => Ok(Conjunction(LookupFilters(v, kind == "rxcui", planId.value, contractId)))
  }

  method FormularyLookup(drugId: Option<string>, idType: Option<string>, planId: Option<string>, contractId: Option<string>)
    returns (r: Result<Query, Rejection>)
    ensures r == LookupQuery(drugId, idType, planId, contractId)
  {
    if !NonBlank(drugId) {
      return Err(MissingOrInvalid("drug_id"));
    }
    if !Truthy(idType) {
      return Err(MissingOrInvalid("id_type"));
    }
    var kind := ToLower(idType.value);
    if kind != "rxcui" && kind != "ndc" {
      return Err(BadRequest("Parameter 'id_type' must be either 'rxcui' or 'ndc'"));
    }
    if !NonBlank(planId) {
      return Err(MissingOrInvalid("plan_id"));
    }
    var drug := LookupDrug(drugId.value, kind);
    if drug.Err? {
      return Err(drug.error);
    }
    var drugValue := drug.value;
    var query := BuildLookup(drugValue, kind == "rxcui", planId.value, contractId);
    r := Ok(query);
  }

  method BuildLookup(drugValue: Value, idIsRxcui: bool, planId: string, contractId: Option<string>) returns (q: Query)
    ensures q == Conjunction(LookupFilters(drugValue, idIsRxcui, planId, contractId))
  {
    var fs := LookupFilters(drugValue, idIsRxcui, planId, contractId);
    var clauses: seq<Clause> := [];
    var params: seq<Value> := [];
    var p: nat := 1;
    clauses, params, p := AddFilter(clauses, params, p, fs[0]);
    clauses, params, p := AddFilter(clauses, params, p, fs[1]);
    clauses, params, p := AddFilter(clauses, params, p, fs[2]);
    Unroll3(fs[0], fs[1], fs[2]);
    assert fs == [fs[0], fs[1], fs[2]];
    q := Query(clauses, params, NoPage);
  }

  /** The drug is always `$1`, the plan `$2`, and the contract `$3` exactly when it is not blank. */
  lemma LookupFiltersBind(drugValue: Value, idIsRxcui: bool, planId: string, contractId: Option<string>)
    ensures var q := Conjunction(LookupFilters(drugValue, idIsRxcui, planId, contractId));
            Resolves(q)
            && |q.clauses| == (if NonBlank(contractId) then 3 else 2)
            && Bindings(q)[0] == (if idIsRxcui then Eq("bf.rxcui") else Eq("bf.ndc"), drugValue)
            && Bindings(q)[1] == (Py.PlanOrFormulary, StrVal(planId))
  {
    var fs := LookupFilters(drugValue, idIsRxcui, planId, contractId);
    ConjunctionBinds(fs);
    Unroll3(fs[0], fs[1], fs[2]);
    assert fs == [fs[0], fs[1], fs[2]];
  }

  /**
   * An accepted lookup always binds the drug as `$1` and the plan as `$2`, the
   * contract as `$3` only when it is not blank; the drug is compared as a number
   * for `id_type=rxcui` (any letter case) and as the text itself otherwise.
   */
  lemma LookupBindings(drugId: Option<string>, idType: Option<string>, planId: Option<string>, contractId: Option<string>)
    ensures var r := LookupQuery(drugId, idType, planId, contractId);
            r.Ok? ==> Resolves(r.value)
                      && |r.value.clauses| == (if NonBlank(contractId) then 3 else 2)
                      && Bindings(r.value)[1] == (Py.PlanOrFormulary, StrVal(planId.value))
                      && Bindings(r.value)[0] ==
                         (if ToLower(idType.value) == "rxcui" then (Eq("bf.rxcui"), IntVal(JsIntegerValue(drugId.value).value))
                          else (Eq("bf.ndc"), StrVal(drugId.value)))
    ensures LookupQuery(drugId, idType, planId, contractId).Ok? ==> NonBlank(drugId) && NonBlank(planId)
  {
    var r := LookupQuery(drugId, idType, planId, contractId);
    if r.Ok? {
      var isRx := ToLower(idType.value) == "rxcui";
      var v := if isRx then IntVal(JsIntegerValue(drugId.value).value) else StrVal(drugId.value);
      LookupFiltersBind(v, isRx, planId.value, contractId);
    }
  }

  // ---------------------------------------------------------------- /api/formulary/search

  /** The query-string arguments of a formulary search. */
  datatype SearchRequest = SearchRequest(
    rxcui: Option<string>, ndc: Option<string>, tier: Option<string>,
    pa: Option<string>, st: Option<string>, ql: Option<string>,
    sortBy: Option<string>, sortDir: Option<string>,
    limit: Option<string>, offset: Option<string>)

  /** The request with its numbers read, in the form the Python handler receives it. */
  function Args(q: SearchRequest, rxcui: Option<int>, tier: Option<int>, limit: int, offset: int): Py.SearchArgs
  {
    Py.SearchArgs(rxcui, q.ndc, tier, q.pa, q.st, q.ql, q.sortBy, q.sortDir, limit, offset)
  }

  /** The flags read upper-cased when given and non-empty, each either `Y` or `N`. */
  function InvalidFlag(q: SearchRequest): Option<string>
  {
    Py.InvalidFlag(Args(q, None, None, 0, 0))
  }

  function SearchQueryWith(q: SearchRequest, paginate: (Option<string>, Option<string>) -> Result<(int, int), Rejection>)
    : Result<Py.SearchPlan, Rejection>
  {
    match OptionalInteger(q.rxcui, "rxcui")
    case Err(e) => Err(e)
    case Ok(rxcui) =>
      match OptionalInteger(q.tier, "tier")
      case Err(e) => Err(e)
      case Ok(tier) =>
        if InvalidFlag(q).Some? then Err(BadRequest(Py.FlagMessage(InvalidFlag(q).value)))
        else match paginate(q.limit, q.offset)
          case Err(e) => Err(e)
          case Ok((l, o)) =>
            Plan(Args(q, rxcui, tier, l, o))
  }

  /** The paged query of validated arguments, refused when it would have no clause. */
  function Plan(a: Py.SearchArgs): Result<Py.SearchPlan, Rejection>
  {
    var query := Paged(Conjunction(Py.SearchFilters(a)), a.limit, a.offset);
    if query.clauses == [] then Err(BadRequest("Provide at least one filter: rxcui, ndc, tier, pa, st, or ql"))
    else Ok(Py.SearchPlan(query, Py.SortColumn(a.sortBy), Py.Descending(a.sortDir)))
  }

  method BuildPlan(a: Py.SearchArgs) returns (r: Result<Py.SearchPlan, Rejection>)
    ensures r == Plan(a)
  {
    var query := Py.SearchQuery(a);
    if query.clauses == [] {
      return Err(BadRequest("Provide at least one filter: rxcui, ndc, tier, pa, st, or ql"));
    }
    r := Ok(Py.SearchPlan(query, Py.SortColumn(a.sortBy), Py.Descending(a.sortDir)));
  }

  method FormularySearch(q: SearchRequest, paginate: (Option<string>, Option<string>) -> Result<(int, int), Rejection>)
    returns (r: Result<Py.SearchPlan, Rejection>)
    ensures r == SearchQueryWith(q, paginate)
  {
    var rxcui := OptionalInteger(q.rxcui, "rxcui");
    if rxcui.Err? {
      return Err(rxcui.error);
    }
    var tier := OptionalInteger(q.tier, "tier");
    if tier.Err? {
      return Err(tier.error);
    }
    if Truthy(q.pa) && !Py.ValidFlag(ToUpper(q.pa.value)) {
      assert InvalidFlag(q) == Some("pa");
      return Err(BadRequest(Py.FlagMessage("pa")));
    }
    if Truthy(q.st) && !Py.ValidFlag(ToUpper(q.st.value)) {
      assert InvalidFlag(q) == Some("st");
      return Err(BadRequest(Py.FlagMessage("st")));
    }
    if Truthy(q.ql) && !Py.ValidFlag(ToUpper(q.ql.value)) {
      assert InvalidFlag(q) == Some("ql");
      return Err(BadRequest(Py.FlagMessage("ql")));
    }
    assert InvalidFlag(q).None?;
    var page := paginate(q.limit, q.offset);
    if page.Err? {
      return Err(page.error);
    }
    r := BuildPlan(Args(q, rxcui.value, tier.value, page.value.0, page.value.1));
  }

  /**
   * As the file stands, every formulary search, region detail and trends request
   * that passes validation fails at the undefined `parsePagination` with a 400.
   */
  lemma NoSuccessAsWritten(q: SearchRequest, level: Option<string>, region: Option<string>, year: Option<string>)
    ensures SearchQueryWith(q, PaginationAsWritten).Err?
    ensures RegionDetailQuery(level, region, year, q.limit, q.offset, PaginationAsWritten).Err?
    ensures TrendsQuery(year, q.limit, q.offset, PaginationAsWritten).Err?
    ensures OptionalInteger(q.rxcui, "rxcui").Ok? && OptionalInteger(q.tier, "tier").Ok? && InvalidFlag(q).None? ==>
            SearchQueryWith(q, PaginationAsWritten) == Err(BadRequest("parsePagination is not defined"))
  {
  }

  /** With a working pagination reader, an accepted search always has a clause and binds its flags to `Y` or `N`. */
  lemma SearchAccepted(q: SearchRequest)
    ensures var r := SearchQueryWith(q, Py.ParsePagination);
            r.Ok? ==> r.value.query.clauses != [] && Resolves(r.value.query)
                      && r.value.query.page.limitSlot == |r.value.query.clauses| + 1
                      && r.value.query.page.offsetSlot == |r.value.query.clauses| + 2
                      && |r.value.query.params| == r.value.query.page.offsetSlot
  {
    var r := SearchQueryWith(q, Py.ParsePagination);
    if r.Ok? {
      var rxcui := OptionalInteger(q.rxcui, "rxcui").value;
      var tier := OptionalInteger(q.tier, "tier").value;
      var page := Py.ParsePagination(q.limit, q.offset).value;
      var fs := Py.SearchFilters(Args(q, rxcui, tier, page.0, page.1));
      PagedBinds(fs, page.0, page.1);
    }
  }

  /**
   * The Node search, given a working pagination reader, answers exactly as the
   * corrected Python search does, for numbers written as decimal integers.
   */
  lemma SearchAgreesWithCorrectedPython(q: SearchRequest, rxcui: Option<int>, tier: Option<int>, limit: int, offset: int)
    requires q.rxcui == (if rxcui.Some? then Some(IntToString(rxcui.value)) else None)
    requires q.tier == (if tier.Some? then Some(IntToString(tier.value)) else None)
    requires q.limit == Some(IntToString(limit)) && q.offset == Some(IntToString(offset))
    requires limit > 0 && offset >= 0
    ensures SearchQueryWith(q, Py.ParsePagination) == Py.Search(Args(q, rxcui, tier, limit, offset))
  {
    var a := Args(q, rxcui, tier, limit, offset);
    assert OptionalInteger(q.rxcui, "rxcui") == Ok(rxcui) by { OptionalIntegerOfDecimal(rxcui, "rxcui"); }
    assert OptionalInteger(q.tier, "tier") == Ok(tier) by { OptionalIntegerOfDecimal(tier, "tier"); }
    assert Py.ParsePagination(q.limit, q.offset) == Ok((limit, offset)) by { Py.PaginationRoundTrip(limit, offset); }
    assert Py.InvalidFlag(a) == InvalidFlag(q);
    if InvalidFlag(q).Some? {
      assert SearchQueryWith(q, Py.ParsePagination) == Err(BadRequest(Py.FlagMessage(InvalidFlag(q).value)));
      Py.SearchRefusesFlag(a);
    } else {
      assert SearchQueryWith(q, Py.ParsePagination) == Plan(a);
      PlanAgrees(a);
    }
  }

  /** Once the flags are valid, refusing an empty predicate is what the corrected Python search does. */
  lemma PlanAgrees(a: Py.SearchArgs)
    requires Py.InvalidFlag(a).None?
    ensures Plan(a) == Py.Search(a)
  {
    var fs := Py.SearchFilters(a);
    var query := Paged(Conjunction(fs), a.limit, a.offset);
    var plan := Py.SearchPlan(query, Py.SortColumn(a.sortBy), Py.Descending(a.sortDir));
    var refusal: Result<Py.SearchPlan, Rejection> := Err(BadRequest("Provide at least one filter: rxcui, ndc, tier, pa, st, or ql"));
    assert Py.SearchAsWritten(a) == if Py.NoFilterArgument(a) then refusal else Ok(plan);
    assert Plan(a) == if query.clauses == [] then refusal else Ok(plan);
    if Py.NoFilterArgument(a) {
      assert query.clauses == [] by {
        assert forall i :: 0 <= i < |fs| ==> fs[i].value.None?;
        PresentEmptyIff(fs);
      }
    }
  }
}
