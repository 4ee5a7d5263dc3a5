/**
 * The query builders of the Python service (`Backend/Features/main.py`): each
 * handler checks its query-string arguments, then assembles a WHERE clause list
 * and a parameter list step by step with a running placeholder counter. The
 * handlers are modelled up to the query they send; the rows the database
 * answers with are not part of this module.
 */
module PyEndpoints {
  import opened Wrappers
  import opened Text
  import opened Sql
  import opened Http

  /** Python truthiness of an optional string argument. */
  predicate Truthy(s: Option<string>)
  {
    s.Some? && s.value != ""
  }

  function IntFilter(shape: Shape, v: Option<int>): Filter
  {
    Filter(shape, if v.Some? then Some(IntVal(v.value)) else None)
  }

  const DrugName: Shape := EitherILike("brnd_name", "gnrc_name")

  /** `f"%{drug}%"`: the pattern matching any name containing `drug`. */
  function ContainsPattern(drug: string): Value
  {
    StrVal("%" + drug + "%")
  }

  /** `parse_pagination`: `limit` defaults to 100 and `offset` to 0; both must read as integers, limit positive, offset not negative. */
  function ParsePagination(limit: Option<string>, offset: Option<string>): (r: Result<(int, int), Rejection>)
    ensures r.Err? ==> r.error == BadRequest("Invalid pagination parameters")
    ensures r.Ok? ==> r.value.0 > 0 && r.value.1 >= 0
    ensures r.Ok? <==>
      (limit.None? || ParseInt(limit.value).Some?) && (offset.None? || ParseInt(offset.value).Some?)
      && (limit.None? || ParseInt(limit.value).value > 0) && (offset.None? || ParseInt(offset.value).value >= 0)
  {
    var l := if limit.None? then Some(100) else ParseInt(limit.value);
    var o := if offset.None? then Some(0) else ParseInt(offset.value);
    if l.None? || o.None? || l.value <= 0 || o.value < 0 then Err(BadRequest("Invalid pagination parameters"))
    else Ok((l.value, o.value))
  }

  /** Absent arguments take their defaults; any valid pair written in decimal reads back as itself. */
  lemma PaginationRoundTrip(limit: int, offset: int)
    requires limit > 0 && offset >= 0
    ensures ParsePagination(None, None) == Ok((100, 0))
    ensures ParsePagination(Some(IntToString(limit)), Some(IntToString(offset))) == Ok((limit, offset))
  {
    IntRoundTrip(limit);
    IntRoundTrip(offset);
  }

  // ---------------------------------------------------------------- /api/pbg/search

  function SearchDrugsFilters(drug: string, startYear: Option<int>, endYear: Option<int>): seq<Filter>
  {
    [Filter(DrugName, Some(ContainsPattern(drug))), IntFilter(AtLeast("year"), startYear), IntFilter(AtMost("year"), endYear)]
  }

  function SearchDrugsQuery(drug: string, startYear: Option<int>, endYear: Option<int>): Result<Query, Rejection>
  {
    if drug == "" then Err(BadRequest("Missing required parameter: drug"))
    else Ok(Conjunction(SearchDrugsFilters(drug, startYear, endYear)))
  }

  method SearchDrugs(drug: string, startYear: Option<int>, endYear: Option<int>) returns (r: Result<Query, Rejection>)
    ensures r == SearchDrugsQuery(drug, startYear, endYear)
  {
    if drug == "" {
      return Err(BadRequest("Missing required parameter: drug"));
    }
    var fs := SearchDrugsFilters(drug, startYear, endYear);
    var clauses: seq<Clause> := [];
    var params: seq<Value> := [];
    var paramIndex: nat := 1;
    clauses, params, paramIndex := AddFilter(clauses, params, paramIndex, fs[0]);
    clauses, params, paramIndex := AddFilter(clauses, params, paramIndex, fs[1]);
    clauses, params, paramIndex := AddFilter(clauses, params, paramIndex, fs[2]);
    Unroll3(fs[0], fs[1], fs[2]);
    assert fs == [fs[0], fs[1], fs[2]];
    r := Ok(Query(clauses, params, NoPage));
  }

  /**
   * A search binds `$1` to the name pattern, then the given year bounds in order;
   * the lower bound is present exactly when `startYear` is given, the upper
   * exactly when `endYear` is.
   */
  lemma SearchDrugsBindings(drug: string, startYear: Option<int>, endYear: Option<int>)
    requires drug != ""
    ensures var r := SearchDrugsQuery(drug, startYear, endYear);
            r.Ok? && Resolves(r.value)
            && Bindings(r.value) == [(DrugName, ContainsPattern(drug))]
                 + (if startYear.Some? then [(AtLeast("year"), IntVal(startYear.value))] else [])
                 + (if endYear.Some? then [(AtMost("year"), IntVal(endYear.value))] else [])
  {
    var fs := SearchDrugsFilters(drug, startYear, endYear);
    ConjunctionBinds(fs);
    assert fs[..2][..1] == fs[..1];
    assert fs[..1][..0] == [];
  }

  // ---------------------------------------------------------------- /api/geo_detail

  function GeoDetailFilters(year: int, drug: Option<string>): seq<Filter>
  {
    [Filter(Eq("year"), Some(IntVal(year))),
     Filter(DrugName, if Truthy(drug) then Some(ContainsPattern(drug.value)) else None)]
  }

  method GeoDetail(year: int, drug: Option<string>) returns (q: Query)
    ensures q == Conjunction(GeoDetailFilters(year, drug))
  {
    var fs := GeoDetailFilters(year, drug);
    var clauses: seq<Clause> := [Clause(Eq("year"), 1)];
    var params: seq<Value> := [IntVal(year)];
    var paramIndex: nat := 2;
    assert Query(clauses, params, NoPage) == Add(Empty, fs[0]);
    clauses, params, paramIndex := AddFilter(clauses, params, paramIndex, fs[1]);
    Unroll2(fs[0], fs[1]);
    assert fs == [fs[0], fs[1]];
    q := Query(clauses, params, NoPage);
  }

  /** The year is always `$1`; a non-empty drug adds the name pattern as `$2`, an empty or absent one adds nothing. */
  lemma GeoDetailBindings(year: int, drug: Option<string>)
    ensures Resolves(Conjunction(GeoDetailFilters(year, drug)))
    ensures Bindings(Conjunction(GeoDetailFilters(year, drug))) ==
      [(Eq("year"), IntVal(year))] + (if Truthy(drug) then [(DrugName, ContainsPattern(drug.value))] else [])
  {
    var fs := GeoDetailFilters(year, drug);
    ConjunctionBinds(fs);
    assert fs[..1][..0] == [];
  }

  // ---------------------------------------------------------------- /api/region_detail

  function RegionDetailFilters(level: string, region: string, year: Option<int>): seq<Filter>
  {
    [Filter(Eq("prscrbr_geo_lvl"), Some(StrVal(level))),
     Filter(Eq("prscrbr_geo_desc"), Some(StrVal(region))),
     IntFilter(Eq("year"), year)]
  }

  method RegionDetail(level: string, region: string, year: Option<int>, limit: int, offset: int) returns (q: Query)
    ensures q == Paged(Conjunction(RegionDetailFilters(level, region, year)), limit, offset)
  {
    var fs := RegionDetailFilters(level, region, year);
    var clauses: seq<Clause> := [];
    var params: seq<Value> := [];
    var paramIndex: nat := 1;
    clauses, params, paramIndex := AddFilter(clauses, params, paramIndex, fs[0]);
    clauses, params, paramIndex := AddFilter(clauses, params, paramIndex, fs[1]);
    clauses, params, paramIndex := AddFilter(clauses, params, paramIndex, fs[2]);
    Unroll3(fs[0], fs[1], fs[2]);
    assert fs == [fs[0], fs[1], fs[2]];
    params := params + [IntVal(limit)];
    params := params + [IntVal(offset)];
    q := Query(clauses, params, SlotPage(paramIndex, paramIndex + 1));
  }

  /**
   * Level and region are `$1` and `$2`, the year (when given) `$3`; the limit and
   * offset placeholders follow the last filter directly and stand for the limit and the offset.
   */
  lemma RegionDetailBindings(level: string, region: string, year: Option<int>, limit: int, offset: int)
    ensures var q := Paged(Conjunction(RegionDetailFilters(level, region, year)), limit, offset);
            Resolves(q)
            && Bindings(q) == [(Eq("prscrbr_geo_lvl"), StrVal(level)), (Eq("prscrbr_geo_desc"), StrVal(region))]
                               + (if year.Some? then [(Eq("year"), IntVal(year.value))] else [])
            && q.page.limitSlot == (if year.Some? then 4 else 3)
            && q.params[q.page.limitSlot - 1] == IntVal(limit) && q.params[q.page.offsetSlot - 1] == IntVal(offset)
  {
    var fs := RegionDetailFilters(level, region, year);
    PagedBinds(fs, limit, offset);
    assert fs[..2][..1] == fs[..1];
    assert fs[..1][..0] == [];
  }

  // ---------------------------------------------------------------- /api/bdf_pi/search

  /** A plan or contract argument counts only when it is not blank after stripping. */
  function NonBlank(shape: Shape, v: Option<string>): Filter
  {
    Filter(shape, if v.Some? && Strip(v.value) != "" then Some(StrVal(v.value)) else None)
  }

  const PlanOrFormulary: Shape := EitherEq("pi.plan_id", "pi.formulary_id")

  function LookupFilters(rxcui: Option<int>, ndc: Option<string>, planId: Option<string>, contractId: Option<string>): seq<Filter>
  {
    [IntFilter(Eq("bf.rxcui"), rxcui),
     Filter(Eq("bf.ndc"), if rxcui.None? && ndc.Some? then Some(StrVal(ndc.value)) else None),
     NonBlank(PlanOrFormulary, planId),
     NonBlank(Eq("pi.contract_id"), contractId)]
  }

  function LookupQuery(rxcui: Option<int>, ndc: Option<string>, planId: Option<string>, contractId: Option<string>): Result<Query, Rejection>
  {
    if rxcui.None? && ndc.None? then Err(BadRequest("One of the parameter 'rxcui' or 'ndc' must be given"))
    else Ok(Conjunction(LookupFilters(rxcui, ndc, planId, contractId)))
  }

  method FormularyLookup(rxcui: Option<int>, ndc: Option<string>, planId: Option<string>, contractId: Option<string>)
    returns (r: Result<Query, Rejection>)
    ensures r == LookupQuery(rxcui, ndc, planId, contractId)
  {
    if rxcui.None? && ndc.None? {
      return Err(BadRequest("One of the parameter 'rxcui' or 'ndc' must be given"));
    }
    var fs := LookupFilters(rxcui, ndc, planId, contractId);
    var clauses: seq<Clause> := [];
    var params: seq<Value> := [];
    var paramIndex: nat := 1;
    clauses, params, paramIndex := AddFilter(clauses, params, paramIndex, fs[0]);
    clauses, params, paramIndex := AddFilter(clauses, params, paramIndex, fs[1]);
    clauses, params, paramIndex := AddFilter(clauses, params, paramIndex, fs[2]);
    clauses, params, paramIndex := AddFilter(clauses, params, paramIndex, fs[3]);
    Unroll4(fs[0], fs[1], fs[2], fs[3]);
    assert fs == [fs[0], fs[1], fs[2], fs[3]];
    r := Ok(Query(clauses, params, NoPage));
  }

  /**
   * A lookup is refused exactly when neither drug code is given. Otherwise `$1`
   * is the drug: the rxcui when given (an ndc beside it is ignored), else the ndc,
   * even an empty one; so the WHERE clause is never empty.
   */
  lemma LookupDrugFirst(rxcui: Option<int>, ndc: Option<string>, planId: Option<string>, contractId: Option<string>)
    ensures LookupQuery(rxcui, ndc, planId, contractId).Err? <==> rxcui.None? && ndc.None?
    ensures var r := LookupQuery(rxcui, ndc, planId, contractId);
            r.Ok? ==> Resolves(r.value) && |r.value.clauses| >= 1 && r.value.clauses[0].slot == 1
                      && Bindings(r.value)[0] == (if rxcui.Some? then (Eq("bf.rxcui"), IntVal(rxcui.value))
                                                  else (Eq("bf.ndc"), StrVal(ndc.value)))
  {
    var fs := LookupFilters(rxcui, ndc, planId, contractId);
    if !(rxcui.None? && ndc.None?) {
      ConjunctionBinds(fs);
      Unroll4(fs[0], fs[1], fs[2], fs[3]);
      assert fs == [fs[0], fs[1], fs[2], fs[3]];
      var q2 := Add(Add(Empty, fs[0]), fs[1]);
      assert q2.clauses == [Clause(q2.clauses[0].shape, 1)];
      var q := Conjunction(fs);
      assert q.clauses[0] == q2.clauses[0] && q.params[0] == q2.params[0];
    }
  }

  // ---------------------------------------------------------------- /api/bdf/search

  /** The arguments of a formulary search. */
  datatype SearchArgs = SearchArgs(
    rxcui: Option<int>, ndc: Option<string>, tier: Option<int>,
    pa: Option<string>, st: Option<string>, ql: Option<string>,
    sortBy: Option<string>, sortDir: Option<string>,
    limit: int, offset: int)

  /** What a formulary search executes: its predicate and paging, and its ORDER BY column and direction. */
  datatype SearchPlan = SearchPlan(query: Query, sortColumn: string, descending: bool)

  predicate ValidFlag(v: string)
  {
    v == "Y" || v == "N"
  }

  /** The flag check ignores letter case: exactly `Y`, `y`, `N` and `n` upper-case to a valid flag. */
  lemma FlagCaseInsensitive(v: string)
    ensures ValidFlag(ToUpper(v)) <==> v == "Y" || v == "y" || v == "N" || v == "n"
  {
    if ValidFlag(ToUpper(v)) {
      assert |v| == 1 && v == [v[0]];
      assert UpperChar(v[0]) == ToUpper(v)[0];
    }
  }

  /**
   * A sort direction upper-cases to `DESC` exactly when it spells it letter by
   * letter in either case; the long s `ſ` counts as an `s`.
   */
  lemma DescendingIff(d: string)
    ensures ToUpper(d) == "DESC" <==>
              |d| == 4 && (d[0] == 'd' || d[0] == 'D') && (d[1] == 'e' || d[1] == 'E')
              && (d[2] == 's' || d[2] == 'S' || d[2] == '\U{017F}') && (d[3] == 'c' || d[3] == 'C')
  {
    if |d| == 4 {
      assert ToUpper(d) == [UpperChar(d[0]), UpperChar(d[1]), UpperChar(d[2]), UpperChar(d[3])];
    }
  }

  const DefaultSortColumn := "bf.tier_level_value"

  /** `sort_column_map.get(sort_by, "bf.tier_level_value")`. */
  function SortColumn(sortBy: Option<string>): (c: string)
    ensures c in {"bf.formulary_id", "bf.tier_level_value", "bf.prior_authorization_yn", "bf.step_therapy_yn", "bf.quantity_limit_yn"}
  {
    var m := map["formularyId" := "bf.formulary_id", "tierLevel" := "bf.tier_level_value",
                 "paRequired" := "bf.prior_authorization_yn", "stepTherapyRequired" := "bf.step_therapy_yn",
                 "quantityLimit" := "bf.quantity_limit_yn"];
    if sortBy.Some? && sortBy.value in m then m[sortBy.value] else DefaultSortColumn
  }

  /** Descending exactly when a direction is given that upper-cases to `DESC`. */
  predicate Descending(sortDir: Option<string>)
  {
    Truthy(sortDir) && ToUpper(sortDir.value) == "DESC"
  }

  function FlagFilter(column: string, v: Option<string>): Filter
  {
    Filter(Eq(column), if Truthy(v) then Some(StrVal(ToUpper(v.value))) else None)
  }

  function SearchFilters(a: SearchArgs): seq<Filter>
  {
    [IntFilter(Eq("bf.rxcui"), a.rxcui),
     Filter(Eq("bf.ndc"), if Truthy(a.ndc) then Some(StrVal(a.ndc.value)) else None),
     IntFilter(Eq("bf.tier_level_value"), a.tier),
     FlagFilter("bf.prior_authorization_yn", a.pa),
     FlagFilter("bf.step_therapy_yn", a.st),
     FlagFilter("bf.quantity_limit_yn", a.ql)]
  }

  /** The flag argument that fails validation first, if any: given, non-empty, and not `Y`/`N` once upper-cased. */
  function InvalidFlag(a: SearchArgs): Option<string>
  {
    if Truthy(a.pa) && !ValidFlag(ToUpper(a.pa.value)) then Some("pa")
    else if Truthy(a.st) && !ValidFlag(ToUpper(a.st.value)) then Some("st")
    else if Truthy(a.ql) && !ValidFlag(ToUpper(a.ql.value)) then Some("ql")
    else None
  }

  function FlagMessage(name: string): string
  {
    "Parameter '" + name + "' must be 'Y' or 'N'"
  }

  predicate NoFilterArgument(a: SearchArgs)
  {
    a.rxcui.None? && a.ndc.None? && a.tier.None? && a.pa.None? && a.st.None? && a.ql.None?
  }

  /** The handler as written: the emptiness check looks at `None` only, the clauses at truthiness. */
  function SearchAsWritten(a: SearchArgs): Result<SearchPlan, Rejection>
  {
    if NoFilterArgument(a) then Err(BadRequest("Provide at least one filter: rxcui, ndc, tier, pa, st, or ql"))
    else if InvalidFlag(a).Some? then Err(BadRequest(FlagMessage(InvalidFlag(a).value)))
    else Ok(SearchPlan(Paged(Conjunction(SearchFilters(a)), a.limit, a.offset), SortColumn(a.sortBy), Descending(a.sortDir)))
  }

  method FormularySearchAsWritten(a: SearchArgs) returns (r: Result<SearchPlan, Rejection>)
    ensures r == SearchAsWritten(a)
  {
    if NoFilterArgument(a) {
      return Err(BadRequest("Provide at least one filter: rxcui, ndc, tier, pa, st, or ql"));
    }
    if Truthy(a.pa) && !ValidFlag(ToUpper(a.pa.value)) {
      assert InvalidFlag(a) == Some("pa");
      return Err(BadRequest(FlagMessage("pa")));
    }
    if Truthy(a.st) && !ValidFlag(ToUpper(a.st.value)) {
      assert InvalidFlag(a) == Some("st");
      return Err(BadRequest(FlagMessage("st")));
    }
    if Truthy(a.ql) && !ValidFlag(ToUpper(a.ql.value)) {
      assert InvalidFlag(a) == Some("ql");
      return Err(BadRequest(FlagMessage("ql")));
    }
    var sortColumn := SortColumn(a.sortBy);
    var descending := Descending(a.sortDir);

    var query := SearchQuery(a);
    assert !NoFilterArgument(a) && InvalidFlag(a).None?;
    r := Ok(SearchPlan(query, sortColumn, descending));
  }

  /** The WHERE clauses, parameters and paging of an accepted search. */
  method SearchQuery(a: SearchArgs) returns (q: Query)
    ensures q == Paged(Conjunction(SearchFilters(a)), a.limit, a.offset)
  {
    var fs := SearchFilters(a);
    var clauses: seq<Clause> := [];
    var params: seq<Value> := [];
    var paramIdx: nat := 1;
    clauses, params, paramIdx := AddFilter(clauses, params, paramIdx, fs[0]);
    clauses, params, paramIdx := AddFilter(clauses, params, paramIdx, fs[1]);
    clauses, params, paramIdx := AddFilter(clauses, params, paramIdx, fs[2]);
    clauses, params, paramIdx := AddFilter(clauses, params, paramIdx, fs[3]);
    clauses, params, paramIdx := AddFilter(clauses, params, paramIdx, fs[4]);
    clauses, params, paramIdx := AddFilter(clauses, params, paramIdx, fs[5]);
    ghost var filtered := Query(clauses, params, NoPage);
    assert filtered == Conjunction(fs) by {
      Unroll6(fs[0], fs[1], fs[2], fs[3], fs[4], fs[5]);
      assert fs == [fs[0], fs[1], fs[2], fs[3], fs[4], fs[5]];
    }
    params := params + [IntVal(a.limit)];
    params := params + [IntVal(a.offset)];
    assert params == filtered.params + [IntVal(a.limit), IntVal(a.offset)];
    q := Query(clauses, params, SlotPage(paramIdx, paramIdx + 1));
  }

  /**
   * A search is refused with the "at least one filter" message exactly when all
   * six filter arguments are absent, and with a flag message exactly when a given
   * flag is not `Y`/`N`; an accepted search binds every flag it filters on to `Y`
   * or `N` and orders by a whitelisted column.
   */
  lemma SearchValidation(a: SearchArgs)
    ensures SearchAsWritten(a).Ok? <==> !NoFilterArgument(a) && InvalidFlag(a).None?
    ensures SearchAsWritten(a).Err? ==> SearchAsWritten(a).error.status == 400
    ensures var r := SearchAsWritten(a);
            r.Ok? ==> Resolves(r.value.query)
                      && forall j :: 0 <= j < |Bindings(r.value.query)| && Bindings(r.value.query)[j].0 in
                           {Eq("bf.prior_authorization_yn"), Eq("bf.step_therapy_yn"), Eq("bf.quantity_limit_yn")}
                           ==> Bindings(r.value.query)[j].1 in {StrVal("Y"), StrVal("N")}
  {
    if SearchAsWritten(a).Ok? {
      var fs := SearchFilters(a);
      PagedBinds(fs, a.limit, a.offset);
      FlagsBound(a, fs);
    }
  }

  predicate FlagBindingOk(b: (Shape, Value))
  {
    b.0 in {Eq("bf.prior_authorization_yn"), Eq("bf.step_therapy_yn"), Eq("bf.quantity_limit_yn")}
    ==> b.1 in {StrVal("Y"), StrVal("N")}
  }

  lemma FlagsBound(a: SearchArgs, fs: seq<Filter>)
    requires InvalidFlag(a).None? && fs == SearchFilters(a)
    ensures forall j :: 0 <= j < |Present(fs)| && Present(fs)[j].0 in
              {Eq("bf.prior_authorization_yn"), Eq("bf.step_therapy_yn"), Eq("bf.quantity_limit_yn")}
              ==> Present(fs)[j].1 in {StrVal("Y"), StrVal("N")}
  {
    PresentAll(fs, FlagBindingOk);
    assert forall j :: 0 <= j < |Present(fs)| ==> FlagBindingOk(Present(fs)[j]);
  }

  /**
   * The discrepancy: an empty `ndc` (or flag) with every other filter absent
   * passes the emptiness check, yet no clause is produced, so the statement is
   * sent with an empty WHERE and fails in the database.
   */
  lemma EmptyFilterPassesValidation()
    ensures var a := SearchArgs(None, Some(""), None, None, None, None, None, None, 100, 0);
            SearchAsWritten(a).Ok? && SearchAsWritten(a).value.query.clauses == []
            && WhereSql(SearchAsWritten(a).value.query.clauses) == ""
  {
    var a := SearchArgs(None, Some(""), None, None, None, None, None, None, 100, 0);
    var fs := SearchFilters(a);
    assert forall i :: 0 <= i < |fs| ==> fs[i].value.None?;
    NonesAdd([], fs);
    assert [] + fs == fs;
  }

  /** The evidently intended handler: a search whose arguments produce no clause is refused like one without arguments. */
  function Search(a: SearchArgs): (r: Result<SearchPlan, Rejection>)
    ensures r.Ok? ==> r.value.query.clauses != [] && WhereSql(r.value.query.clauses) != ""
    ensures r.Ok? ==> SearchAsWritten(a) == r
    ensures SearchAsWritten(a).Ok? && SearchAsWritten(a).value.query.clauses != [] ==> r == SearchAsWritten(a)
  {
    var w := SearchAsWritten(a);
    if w.Ok? && w.value.query.clauses == [] then
      Err(BadRequest("Provide at least one filter: rxcui, ndc, tier, pa, st, or ql"))
    else
      WhereSqlEmptyIff(if w.Ok? then w.value.query.clauses else []);
      w
  }

  /** An invalid flag is refused with its own message, whatever else is given. */
  lemma SearchRefusesFlag(a: SearchArgs)
    requires InvalidFlag(a).Some?
    ensures Search(a) == Err(BadRequest(FlagMessage(InvalidFlag(a).value)))
  {
    assert !NoFilterArgument(a);
  }

  /** Some filter argument is truthy (or, for the integers, given). */
  predicate AnyFilterGiven(a: SearchArgs)
  {
    a.rxcui.Some? || Truthy(a.ndc) || a.tier.Some? || Truthy(a.pa) || Truthy(a.st) || Truthy(a.ql)
  }

  /** An accepted search has a clause exactly when some filter argument is truthy. */
  lemma SearchClausesIff(a: SearchArgs)
    ensures Conjunction(SearchFilters(a)).clauses != [] <==> AnyFilterGiven(a)
  {
    var fs := SearchFilters(a);
    PresentEmptyIff(fs);
    assert AnyFilterGiven(a) <==> fs[0].value.Some? || fs[1].value.Some? || fs[2].value.Some?
                                  || fs[3].value.Some? || fs[4].value.Some? || fs[5].value.Some?;
  }

  /** The corrected search is refused exactly when no filter argument is truthy or a flag is invalid. */
  lemma SearchRefusesEmptyPredicate(a: SearchArgs)
    ensures Search(a).Ok? <==> AnyFilterGiven(a) && InvalidFlag(a).None?
  {
    SearchClausesIff(a);
    var w := SearchAsWritten(a);
    assert Search(a).Ok? <==> w.Ok? && w.value.query.clauses != [];
    assert AnyFilterGiven(a) ==> !NoFilterArgument(a);
  }

  // ---------------------------------------------------------------- /api/drug_profit_analysis, the two builders

  /** The formulary query of the analysis: the drug by rxcui when given, else by ndc; the tier when given; paging written into the text. */
  function AnalysisFormularyFilters(rxcui: Option<int>, ndc: Option<string>, tier: Option<int>): seq<Filter>
  {
    [if rxcui.Some? then Filter(Eq("rxcui"), Some(IntVal(rxcui.value)))
     else Filter(Eq("ndc"), if ndc.Some? then Some(StrVal(ndc.value)) else None),
     IntFilter(Eq("tier_level_value"), tier)]
  }

  method AnalysisFormularyQuery(rxcui: Option<int>, ndc: Option<string>, tier: Option<int>, limitb: int, offset: int)
    returns (q: Query)
    requires rxcui.Some? || ndc.Some?
    ensures q == Conjunction(AnalysisFormularyFilters(rxcui, ndc, tier)).(page := InlinePage(limitb, offset))
    ensures Resolves(q) && |q.clauses| >= 1
  {
    var fs := AnalysisFormularyFilters(rxcui, ndc, tier);
    var conditions: seq<Clause> := [];
    var params: seq<Value> := [];
    var paramIndex: nat := 1;
    conditions, params, paramIndex := AddFilter(conditions, params, paramIndex, fs[0]);
    conditions, params, paramIndex := AddFilter(conditions, params, paramIndex, fs[1]);
    Unroll2(fs[0], fs[1]);
    assert fs == [fs[0], fs[1]];
    q := Query(conditions, params, InlinePage(limitb, offset));
  }

  /** The plan query of the analysis: each non-empty name argument adds a containment clause. */
  function PlanFilters(planName: Option<string>, contractName: Option<string>): seq<Filter>
  {
    [Filter(ContainsILike("p.plan_name"), if Truthy(planName) then Some(StrVal(planName.value)) else None),
     Filter(ContainsILike("p.contract_name"), if Truthy(contractName) then Some(StrVal(contractName.value)) else None)]
  }

  method AnalysisPlanQuery(planName: Option<string>, contractName: Option<string>, limitp: int, offset: int)
    returns (q: Query)
    ensures q == Conjunction(PlanFilters(planName, contractName)).(page := InlinePage(limitp, offset))
  {
    var planFilters: seq<Clause> := [];
    if planName.Some? && planName.value != "" {
      planFilters := planFilters + [Clause(ContainsILike("p.plan_name"), |planFilters| + 1)];
    }
    if contractName.Some? && contractName.value != "" {
      planFilters := planFilters + [Clause(ContainsILike("p.contract_name"), |planFilters| + 1)];
    }
    var planParams: seq<Value> := [];
    if planFilters != [] {
      if planName.Some? && planName.value != "" {
        planParams := planParams + [StrVal(planName.value)];
      }
      if contractName.Some? && contractName.value != "" {
        planParams := planParams + [StrVal(contractName.value)];
      }
    }
    Unroll2(PlanFilters(planName, contractName)[0], PlanFilters(planName, contractName)[1]);
    q := Query(planFilters, planParams, InlinePage(limitp, offset));
  }

  /** Each name placeholder stands for the raw name it was given for, contract after plan. */
  lemma PlanQueryBindings(planName: Option<string>, contractName: Option<string>)
    ensures Resolves(Conjunction(PlanFilters(planName, contractName)))
    ensures Bindings(Conjunction(PlanFilters(planName, contractName))) ==
      (if Truthy(planName) then [(ContainsILike("p.plan_name"), StrVal(planName.value))] else [])
      + (if Truthy(contractName) then [(ContainsILike("p.contract_name"), StrVal(contractName.value))] else [])
  {
    var fs := PlanFilters(planName, contractName);
    ConjunctionBinds(fs);
    assert fs[..1][..0] == [];
  }
}
