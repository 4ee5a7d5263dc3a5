# US Formulary: coverage analysis, query builders and file loaders

US Formulary publishes the Medicare Part D formulary and prescriber files through two web services:
- a FastAPI service, `Backend/Features/main.py`;
- an Express service, `USFormulary-Mridul/server.js`.

Both work over one PostgreSQL database. Their endpoints overlap: some are served by both, under different paths (`/api/search` and `/api/pbg/search`, `/api/formulary/lookup` and `/api/bdf_pi/search`, `/api/formulary/search` and `/api/bdf/search`, `/health` and `/api/health`), and the two lookups take different parameters (`rxcui`/`ndc` against `drug_id`/`id_type`); others, such as `/api/drug_insights` or `/api/rxnorm`, exist in the Express service only. A set of loader scripts fills that database from the CMS pipe-delimited text files. This project is a Dafny model of the parts of the system that compute something.

- **The drug coverage and cost analysis** (`/api/drug_profit_analysis`), in both services (modules `PyAnalysis` and `JsAnalysis` over the shared rows of `Coverage`).
  - The inputs are the formulary rows of a drug, the plans returned by the plan query, and the `beneficiary_cost` and `basic_drugs_formulary` tables.
  - For each plan it reports one entry per tier, with:
    - the least and greatest patient cost, with NULL handled;
    - the prior-authorisation, step-therapy and quantity-limit flags.
  - Plans are merged under the `contract_plan_segment` key, and a list of "improvement suggestions" is picked out.
  - The two services differ in two ways, and each difference is proved:
    - Python keeps duplicate tier levels; Node removes them.
    - On a repeated plan key, Python keeps the last plan; Node keeps the first.
  - For the same tier, both compute the same entry (`JsAnalysis.TierAgrees`). A zero minimum cost counts in both: the `pg` driver hands `DECIMAL` amounts to Node as strings, so `"0.00" || Infinity` keeps the amount.
- **The WHERE-clause builders of every endpoint** (`Sql`, `PyEndpoints`, `JsEndpoints`).
  - Optional filters become a conjunction of clauses with placeholders `$1..$n` and a parallel parameter list. LIMIT/OFFSET may follow as `$n+1`/`$n+2`.
  - Most builders are methods that append step by step (`Sql.AddFilter`); `PyEndpoints.AnalysisPlanQuery` appends its clauses directly. Every builder is proved equal to `Sql.Conjunction` of the endpoint's filter list.
  - `Sql.ConjunctionBinds` proves that placeholder `$k` stands for the value of the k-th given filter.
  - The request validation beside the builders is modelled too: pagination, Y/N flags, the sort whitelist and direction, and integer arguments.
- **`convert_decimals`** (`JsonValues`) and **the start-up time guard** (`ServerTime`).
- **The six loader scripts** (`PipeFile`, `Batching`, one module per script). Each script:
  - skips the header;
  - strips each line, splits it on `|` and strips every field;
  - keeps only the lines of the file's arity;
  - converts some columns;
  - inserts the rows in fixed-size batches.

  Each loader's loop is a method proved equal to `PipeFile.Load`. `PipeFile.Load` is characterised by `PipeFile.LoadIsCollect`: the rows of the kept lines in file order, or the error of the first line whose conversion raises.

Conventions:
- Money (`DECIMAL(10,2)`) is `Option<int>` in cents, with `None` for NULL.
- Tiers are `Option<int>`.
- The database is represented by sequences of rows. An SQL filter is a `Filter` over such a sequence, and `LIMIT`/`OFFSET` over produced rows is `Coverage.Window`.
- Handler outcomes are `Result<_, Rejection>`, where a `Rejection` carries the HTTP status and message.
- Query-string arguments are `Option<string>`, with `None` for absent.

## Model

| member | source | states |
|---|---|---|
| Text.StripLeftSpec | insert_basic_drugs_formulary_file.py:33 | left stripping removes exactly a whitespace prefix and stops at the first non-space character |
| Text.StripRightSpec | insert_basic_drugs_formulary_file.py:33 | right stripping removes exactly a whitespace suffix and stops at the last non-space character |
| Text.StripEnds | insert_basic_drugs_formulary_file.py:33 | a stripped value neither starts nor ends with whitespace |
| Text.StripIsSlice | insert_basic_drugs_formulary_file.py:33 | `str.strip()` keeps a contiguous slice of the input and removes only whitespace on either side of it |
| Text.StripNoSpace | insert_basic_drugs_formulary_file.py:33 | a value with no whitespace at either end is left unchanged |
| Text.StripIdempotent | insert_basic_drugs_formulary_file.py:33 | stripping a stripped value changes nothing |
| Text.StripKeepsCount | insert_basic_drugs_formulary_file.py:33 | stripping keeps every occurrence of a non-space character, so no `\|` is lost before the split |
| Text.Split | insert_basic_drugs_formulary_file.py:33 | `split('\|')` yields one more piece than there are separators |
| Text.SplitNoSeparator | insert_basic_drugs_formulary_file.py:33 | no piece of a split contains the separator |
| Text.JoinSplit | insert_basic_drugs_formulary_file.py:33 | joining the pieces with the separator gives back the line, so the split loses nothing |
| Text.Fields | insert_basic_drugs_formulary_file.py:33 | a line has one more field than it has `\|` characters |
| Text.FieldsStripped | insert_basic_drugs_formulary_file.py:33 | every field comes out stripped |
| Text.IntRoundTrip | insert_basic_drugs_formulary_file.py:39-42 | `int(str(i)) == i` for every integer |
| Text.DecimalOfInteger | insert_insulin_beneficiary_cost.py:55 | an integer literal reads as a decimal of that exact value |
| Text.JsTrimLeftSpec | USFormulary-Mridul/server.js:265 | the left half of `trim()` cuts exactly an ECMAScript-whitespace prefix and stops at the first other character |
| Text.JsTrimRightSpec | USFormulary-Mridul/server.js:265 | the right half of `trim()` cuts exactly an ECMAScript-whitespace suffix and stops at the last other character |
| Text.JsTrimIsSlice | USFormulary-Mridul/server.js:265-268 | `trim()` keeps a contiguous slice, cuts only ECMAScript whitespace (the byte order mark included), and leaves none at either end |
| Text.JsTrimNoSpace | USFormulary-Mridul/server.js:265-268 | a value with no ECMAScript whitespace at either end is left unchanged by `trim()` |
| Text.WhitespaceSetsDiffer | USFormulary-Mridul/server.js:265 | JavaScript trims the byte order mark, which Python keeps; Python strips U+001C, which JavaScript keeps |
| Text.JsIntegerOfInteger | USFormulary-Mridul/server.js:52-53 | `Number(s)` of an integer written in decimal is that integer and passes `Number.isInteger` |
| Sql.WhereSqlEmptyIff | Backend/Features/main.py:646 | the joined WHERE text is empty exactly when no clause was produced |
| Sql.Conjunction | Backend/Features/main.py:617-646 | the built predicate has no paging and exactly one clause and one parameter per given filter |
| Sql.AddFilter | Backend/Features/main.py:621-624 | one builder step adds the filter's clause at placeholder `param_index` and its value, and keeps `param_index == len(params) + 1` |
| Sql.ConjunctionNumbering | Backend/Features/main.py:617-644 | clause j carries placeholder `$j+1` and is the j-th given filter with its value |
| Sql.ConjunctionBinds | Backend/Features/main.py:617-644 | every placeholder resolves, and placeholder `$k` stands for the value of the k-th given filter |
| Sql.PagedBinds | Backend/Features/main.py:648-657 | after the filters, LIMIT and OFFSET take placeholders `$n+1` and `$n+2`, bound to the limit and the offset |
| Sql.PresentCount | Backend/Features/main.py:617-644 | the number of clauses is the number of filters given |
| Sql.PresentEmptyIff | Backend/Features/main.py:617-646 | no clause is produced exactly when no filter is given |
| Sql.PresentAll | Backend/Features/main.py:617-644 | a property of every given filter holds of every binding |
| Sql.NonesAdd | Backend/Features/main.py:617-644 | filters that are not given add nothing to the predicate |
| Coverage.Window | Backend/Features/main.py:749 | `LIMIT l OFFSET o` has `min(l, n - o)` of the `n` rows, none when `o` is past the end, and its row `k` is row `o + k` |
| Coverage.NoRequirementsWithoutRxcui | Backend/Features/main.py:814-819 | without an `rxcui` the requirement query (`rxcui = NULL`) returns no row |
| Coverage.FirstAtTier | Backend/Features/main.py:825 | `next(...)` finds the first requirement row at the tier, and gives `None` exactly when no row is at that tier |
| Coverage.SuggestionsAreSuggestedPlans | Backend/Features/main.py:869-872 | the suggestions are an order-keeping subsequence of the plans, each with a tier needing step therapy or with a quantity limit, and every such plan is included (Node: server.js:834-840) |
| Coverage.SuggestionIgnoresPriorAuthorization | Backend/Features/main.py:869-872 | clearing prior authorisation on every tier leaves the choice of suggestions unchanged |
| PyAnalysis.NonNull | Backend/Features/main.py:838 | the non-NULL amounts are exactly the amounts that are present |
| PyAnalysis.MinCandidatesMembers | Backend/Features/main.py:831-839 | `min_costs` holds exactly the non-NULL minimum amounts of the tier's cost rows |
| PyAnalysis.MaxCandidatesMembers | Backend/Features/main.py:841-846 | `max_costs` holds four amounts per row, NULL read as 0, and nothing else |
| PyAnalysis.CollectCosts | Backend/Features/main.py:831-846 | the inner loop over a tier's cost rows builds exactly `min_costs` and `max_costs` |
| PyAnalysis.MinPatientCost | Backend/Features/main.py:847 | `minPatientCost` is the least non-NULL minimum amount at the tier, zero included, and `None` exactly when there is none |
| PyAnalysis.ZeroMinimumCounts | Backend/Features/main.py:838-847 | a cost row with a zero preferred minimum, and no negative amount, gives a minimum of 0 |
| PyAnalysis.MaxPatientCost | Backend/Features/main.py:848 | `maxPatientCost` is `None` exactly when the tier has no cost row; otherwise it is the greatest maximum amount with NULL read as 0, and not negative when the amounts are not |
| PyAnalysis.TierFlags | Backend/Features/main.py:850-857 | the entry carries its tier; each flag holds exactly when the first requirement row at the tier says `Y`, and none holds without such a row |
| PyAnalysis.AnalyzeTiers | Backend/Features/main.py:822-857 | the loop over tier levels yields one entry per level, in order, each the tier analysis of that level |
| PyAnalysis.AnalyzeTier | Backend/Features/main.py:823-857 | the loop body computes the tier analysis of one level |
| PyAnalysis.AnalyzePlan | Backend/Features/main.py:795-862 | the body of the plan loop computes that plan's analysis from its own cost rows and the drug's requirement rows |
| PyAnalysis.AnalysisResults | Backend/Features/main.py:866 | there is one result per distinct plan key |
| PyAnalysis.LastWinsStep | Backend/Features/main.py:859-863 | assigning `analysis_map[key]` keeps the map holding, for every key, the entry of its last plan so far, and keeps the keys in first-insertion order |
| PyAnalysis.BuildAnalysisMap | Backend/Features/main.py:794-863 | after the plan loop the dict maps each key to the analysis of the last plan with that key, keys in first-appearance order |
| PyAnalysis.ValuesAreResults | Backend/Features/main.py:866 | `list(analysis_map.values())` is the analysis results |
| PyAnalysis.DistinctKeysKeepEveryPlan | Backend/Features/main.py:859-866 | when no key repeats, every plan is reported, in plan order |
| PyAnalysis.LaterPlanWins | Backend/Features/main.py:859-866 | of two plans with the same key, only the later one's analysis is reported |
| PyAnalysis.FormularySelection | Backend/Features/main.py:728-751 | the formulary query selects the rows of the drug (by `rxcui` when given, else by `ndc`), at the tier when one is given, then applies `LIMIT limitb OFFSET offset` |
| PyAnalysis.SelectFormulary | Backend/Features/main.py:728-751 | building and running the formulary query yields exactly the drug's formulary rows |
| PyAnalysis.DrugProfitAnalysisHandler | Backend/Features/main.py:706-881 | the handler returns exactly the analysis of its inputs: refusal, or the report |
| PyAnalysis.AnalyzePlans | Backend/Features/main.py:791-872 | the report holds the formulary rows, the analysis results and their suggestions |
| PyAnalysis.Refusals | Backend/Features/main.py:719-757 | with neither code the answer is the 400; with no selected formulary row it is the other 400 and no plan is analysed; otherwise the report lists exactly the selected rows |
| PyAnalysis.PlanTiers | Backend/Features/main.py:810-857 | a plan's tiers follow the formulary rows one for one; with `ndc` alone no flag is set |
| PyAnalysis.TiersFollowFormulary | Backend/Features/main.py:810-857 | in an accepted report every plan has one tier entry per reported formulary row, in row order |
| PyAnalysis.ResultsFollowRows | Backend/Features/main.py:822-866 | every analysis result has one tier per formulary row, taken from that row |
| PyEndpoints.ParsePagination | Backend/Features/main.py:51-61 | the limit (default 100) and offset (default 0) must read as integers, with the limit positive and the offset not negative; any failure is the 400 "Invalid pagination parameters" |
| PyEndpoints.PaginationRoundTrip | Backend/Features/main.py:51-59 | absent arguments take the defaults, and any valid pair written in decimal reads back as itself |
| PyEndpoints.SearchDrugs | Backend/Features/main.py:138-167 | the builder refuses an empty drug, otherwise builds exactly the search predicate |
| PyEndpoints.SearchDrugsBindings | Backend/Features/main.py:148-167 | the name pattern is `$1`; the start year and the end year follow, each only when given |
| PyEndpoints.GeoDetail | Backend/Features/main.py:299-308 | the builder yields the predicate of the year and the optional drug |
| PyEndpoints.GeoDetailBindings | Backend/Features/main.py:299-308 | the year is always `$1`; a non-empty drug adds its pattern as `$2`, an empty or absent one adds nothing |
| PyEndpoints.RegionDetail | Backend/Features/main.py:372-393 | the builder yields the level, region and optional year predicate, followed by limit and offset |
| PyEndpoints.RegionDetailBindings | Backend/Features/main.py:372-409 | level is `$1`, region `$2`, year `$3` when given; LIMIT and OFFSET take the next two placeholders |
| PyEndpoints.FormularyLookup | Backend/Features/main.py:453-494 | the builder refuses a request with neither code, otherwise builds the lookup predicate |
| PyEndpoints.LookupDrugFirst | Backend/Features/main.py:453-494 | refused exactly when both codes are absent; the drug (`rxcui` preferred) is `$1`; a non-blank plan and a non-blank contract follow in that order |
| PyEndpoints.SortColumn | Backend/Features/main.py:607-614 | the ORDER BY column is always one of the five whitelisted columns, `bf.tier_level_value` by default |
| PyEndpoints.FormularySearchAsWritten | Backend/Features/main.py:582-657 | the handler's validation and builder compute exactly the search as written |
| PyEndpoints.SearchQuery | Backend/Features/main.py:617-657 | the WHERE builder yields the predicate of the truthy filters, followed by LIMIT/OFFSET |
| PyEndpoints.SearchValidation | Backend/Features/main.py:582-604 | accepted exactly when some argument is not `None` and no flag is invalid; every refusal is a 400, with its own message |
| PyEndpoints.FlagCaseInsensitive | Backend/Features/main.py:590-603 | `valid_flag(v.upper())` accepts exactly `Y`, `y`, `N` and `n` |
| PyEndpoints.DescendingIff | Backend/Features/main.py:615 | `sort_dir.upper() == "DESC"` holds exactly for `desc` spelt in any letter case, the long s `ſ` counting as `s` |
| PyEndpoints.FlagsBound | Backend/Features/main.py:589-644 | once validation passes, each flag is bound as `Y` or `N` |
| PyEndpoints.EmptyFilterPassesValidation | Backend/Features/main.py:582-646 | `ndc=""` with nothing else passes validation but yields an empty WHERE (see Findings) |
| PyEndpoints.Search | Backend/Features/main.py:582-657 | the corrected search never runs an empty WHERE, and agrees with the search as written whenever that one has a clause |
| PyEndpoints.SearchRefusesFlag | Backend/Features/main.py:589-604 | an invalid flag is refused with its own message, whatever else is given |
| PyEndpoints.SearchClausesIff | Backend/Features/main.py:617-644 | the predicate has a clause exactly when some filter argument is truthy |
| PyEndpoints.SearchRefusesEmptyPredicate | Backend/Features/main.py:582-657 | the corrected search accepts exactly when some filter is truthy and every flag is valid |
| PyEndpoints.AnalysisFormularyQuery | Backend/Features/main.py:728-749 | the analysis formulary query is the drug-and-tier predicate with LIMIT/OFFSET written into the text, and it always has a clause |
| PyEndpoints.AnalysisPlanQuery | Backend/Features/main.py:761-786 | the plan query holds one containment clause per non-empty name, with the paging written into the text |
| PyEndpoints.PlanQueryBindings | Backend/Features/main.py:761-778 | each name placeholder stands for the name it was given for, plan name before contract name |
| JsEndpoints.OptionalInteger | USFormulary-Mridul/server.js:106-111 | an absent or empty argument is not given; any other is refused exactly when `Number` of it is not an integer |
| JsEndpoints.RequiredInteger | USFormulary-Mridul/server.js:48-55 | a missing argument is refused; a present one is accepted exactly when it reads as an integer |
| JsEndpoints.OptionalIntegerOfDecimal | USFormulary-Mridul/server.js:106-117 | an absent argument stays absent, and a decimal integer reads as itself |
| JsEndpoints.PaginationAsWritten | USFormulary-Mridul/server.js:59 | as the file stands, every call of the undefined `parsePagination` ends in a 400 (see Findings) |
| JsEndpoints.Search | USFormulary-Mridul/server.js:97-136 | the handler's validation and builder compute the search query |
| JsEndpoints.SearchAgreesWithPython | USFormulary-Mridul/server.js:119-136 | for years written as decimal integers, the Node search sends the same query as the Python one |
| JsEndpoints.GeoDetail | USFormulary-Mridul/server.js:204-222 | the handler's validation and builder compute the geo-detail query |
| JsEndpoints.RegionDetail | USFormulary-Mridul/server.js:261-305 | the handler, with a given pagination reader, computes the region-detail query |
| JsEndpoints.RxcuiKindIff | USFormulary-Mridul/server.js:355-356 | `id_type.toLowerCase()` is `rxcui` exactly for `rxcui` spelt in any letter case |
| JsEndpoints.NdcKindIff | USFormulary-Mridul/server.js:355-356 | `id_type.toLowerCase()` is `ndc` exactly for `ndc` spelt in any letter case |
| JsEndpoints.LookupDrug | USFormulary-Mridul/server.js:370-383 | for `rxcui` the drug is bound as a number and must be an integer; for `ndc` it is bound as the text |
| JsEndpoints.FormularyLookup | USFormulary-Mridul/server.js:345-395 | the handler's validation and builder compute the lookup query |
| JsEndpoints.BuildLookup | USFormulary-Mridul/server.js:363-395 | the builder yields the drug, plan and optional contract predicate |
| JsEndpoints.LookupFiltersBind | USFormulary-Mridul/server.js:363-395 | the drug is `$1` and the plan `$2`; the contract is `$3` exactly when it is not blank |
| JsEndpoints.LookupBindings | USFormulary-Mridul/server.js:345-395 | an accepted lookup has a non-blank drug and plan; the drug is compared as a number for `id_type=rxcui` (any letter case), otherwise as text |
| JsEndpoints.BuildPlan | USFormulary-Mridul/server.js:477-505 | the builder refuses an empty predicate, otherwise yields the paged query and the sort |
| JsEndpoints.FormularySearch | USFormulary-Mridul/server.js:441-505 | the handler, with a given pagination reader, computes the formulary search |
| JsEndpoints.NoSuccessAsWritten | USFormulary-Mridul/server.js:468-475 | every formulary search, region-detail and trends request fails; once validation passes, it fails at `parsePagination` |
| JsEndpoints.SearchAccepted | USFormulary-Mridul/server.js:477-519 | with a working pagination reader, an accepted search has a clause, every placeholder resolves, and LIMIT/OFFSET are `$p`/`$p+1` right after the filters |
| JsEndpoints.SearchAgreesWithCorrectedPython | USFormulary-Mridul/server.js:441-519 | with working pagination, the Node formulary search (flags, empty-predicate refusal, sort) is the corrected Python search |
| JsEndpoints.PlanAgrees | USFormulary-Mridul/server.js:488-491 | once the flags are valid, refusing an empty predicate is what the corrected Python search does |
| JsAnalysis.TruthyAmounts | USFormulary-Mridul/server.js:798-803 | the amounts surviving `\|\| Infinity` are exactly the non-NULL ones, zero included, since `pg` delivers them as strings |
| JsAnalysis.RowMins | USFormulary-Mridul/server.js:796-802 | there is one row minimum per cost row |
| JsAnalysis.MaxCosts | USFormulary-Mridul/server.js:805-812 | there is one row maximum per cost row |
| JsAnalysis.RowMinIsLeast | USFormulary-Mridul/server.js:797-802 | a row's minimum is its least non-NULL minimum amount, and `Infinity` exactly when all four are NULL |
| JsAnalysis.MinCostsMembers | USFormulary-Mridul/server.js:796-803 | `minCosts` holds exactly the finite row minimums |
| JsAnalysis.LeastRowMin | USFormulary-Mridul/server.js:796-816 | the least row minimum is the least non-NULL minimum amount over all rows |
| JsAnalysis.MinPatientCost | USFormulary-Mridul/server.js:816 | `minPatientCost` is the least non-NULL minimum amount at the tier, zero included, and `null` exactly when there is none |
| JsAnalysis.MinAgreesOnRows | USFormulary-Mridul/server.js:796-816 | the least of Node's row minimums is the least of Python's flat list of minimum amounts |
| JsAnalysis.MinAgrees | USFormulary-Mridul/server.js:796-816 | both services report the same minimum for every tier |
| JsAnalysis.ZeroMinimumKept | USFormulary-Mridul/server.js:798 | a single row whose only minimum is 0: both services report 0 |
| JsAnalysis.RowMaxIsGreatest | USFormulary-Mridul/server.js:806-811 | the row maximum is the greatest of the four amounts, falsy read as 0 |
| JsAnalysis.GreatestRowMax | USFormulary-Mridul/server.js:805-817 | the greatest row maximum is the greatest maximum amount of all rows |
| JsAnalysis.MaxAgrees | USFormulary-Mridul/server.js:817 | `maxPatientCost` is the same in both services for all amounts |
| JsAnalysis.TierAgrees | USFormulary-Mridul/server.js:814-821 | a Node tier entry equals the Python one for the same tier |
| JsAnalysis.TierLevels | USFormulary-Mridul/server.js:754 | `[...new Set(...)]` has no duplicates and holds exactly the formulary rows' tiers |
| JsAnalysis.AnalysisResults | USFormulary-Mridul/server.js:831 | there is one result per distinct plan key |
| JsAnalysis.FirstWinsSkip | USFormulary-Mridul/server.js:764-766 | skipping a key already in the Map keeps the first plan's entry |
| JsAnalysis.FirstWinsAdd | USFormulary-Mridul/server.js:824-828 | setting a new key appends it to the key order with the current plan's entry |
| JsAnalysis.BuildAnalysisMap | USFormulary-Mridul/server.js:759-829 | after the plan loop the Map holds, for each key, the analysis of the first plan with that key, keys in first-appearance order |
| JsAnalysis.ValuesAreResults | USFormulary-Mridul/server.js:831 | `Array.from(analysisMap.values())` is the analysis results |
| JsAnalysis.DistinctKeysKeepEveryPlan | USFormulary-Mridul/server.js:759-831 | when no key repeats, every plan is reported, in plan order |
| JsAnalysis.EarlierPlanWins | USFormulary-Mridul/server.js:764-766 | of two plans with the same key, only the first is reported |
| JsAnalysis.DrugProfitAnalysisHandler | USFormulary-Mridul/server.js:709-849 | the handler returns exactly the analysis of its inputs |
| JsAnalysis.Respond | USFormulary-Mridul/server.js:737-846 | after the formulary query, the handler gives the 404 or the report |
| JsAnalysis.AnalyzePlans | USFormulary-Mridul/server.js:754-846 | the report holds the formulary rows, the analysis results and their suggestions |
| JsAnalysis.MissingCodeRefused | USFormulary-Mridul/server.js:712-714 | the answer is a 400 exactly when neither `ndc` nor `rxcui` is truthy |
| JsAnalysis.BadRxcuiRefused | USFormulary-Mridul/server.js:847-849 | the answer is the 500 exactly when `rxcui` is truthy and `Number` of it is not an integer or lies outside the int4 range of the `RXCUI INT` column |
| JsAnalysis.OutOfRangeRxcuiRefused | USFormulary-Mridul/server.js:726-735 | an integer `rxcui` outside int4, such as `3000000000`, is answered with the 500, not looked up |
| JsAnalysis.UnknownDrugRefused | USFormulary-Mridul/server.js:737-739 | the answer is a 404 exactly when some code is given, a truthy `rxcui` is an int4 integer, and no formulary row has the drug code |
| JsAnalysis.ReportedRows | USFormulary-Mridul/server.js:720-743 | a report lists exactly the formulary rows of the drug (by `rxcui` when truthy, else by `ndc`) in table order, and at least one |
| JsAnalysis.TiersFollowLevels | USFormulary-Mridul/server.js:789-822 | every plan has exactly one tier entry per distinct tier level, in first-occurrence order |
| JsonValues.ConvertDecimals | Backend/Features/main.py:693-701 | the value's kind is kept, lists keep their length and dicts their keys |
| JsonValues.ConvertChangesOnlyDecimals | Backend/Features/main.py:693-701 | only `Decimal` leaves change, and none is left behind |
| JsonValues.ConvertIdentityWithoutDecimals | Backend/Features/main.py:693-701 | a value without decimals passes through unchanged |
| JsonValues.ConvertIdempotent | Backend/Features/main.py:693-701 | converting twice is converting once |
| ServerTime.BeforeIsChronological | Backend/Features/main.py:19-21 | Python's ordering of times is chronological order |
| ServerTime.IsOutsideServerTimeAsWritten | Backend/Features/main.py:16-21 | as written, the guard holds exactly before 6:00 AM |
| ServerTime.IsOutsideServerTime | Backend/Features/main.py:16-25 | the corrected guard holds exactly from 6:00 AM on |
| ServerTime.StartsAsWritten | Backend/Features/main.py:23-25 | as written, the service starts exactly from 6:00 AM on |
| ServerTime.StopsInsideWindow | Backend/Features/main.py:23-25 | at 3:00 AM, inside the announced window, the guard as written stops the service |
| ServerTime.StartsOnlyInWindow | Backend/Features/main.py:16-25 | corrected, the service starts exactly inside the window from 12:00 AM to before 6:00 AM |
| PipeFile.LoadSnoc | insert_basic_drugs_formulary_file.py:26-43 | each line after the header extends what the loop has collected by that line alone |
| PipeFile.LoadFirst | insert_basic_drugs_formulary_file.py:30-32 | after the header line nothing is collected |
| PipeFile.LoadBodyErrPersists | insert_basic_drugs_formulary_file.py:39-42 | once a conversion has raised, later lines change nothing |
| PipeFile.LoadErrPersists | insert_basic_drugs_formulary_file.py:39-42 | an error in a prefix of the file is the error of the whole file |
| PipeFile.HeaderIgnored | insert_basic_drugs_formulary_file.py:23-32 | the first line is discarded whatever it holds |
| PipeFile.ArityIffPipes | insert_basic_drugs_formulary_file.py:33-34 | a line has the expected arity exactly when it has arity − 1 pipe characters |
| PipeFile.Steps | insert_basic_drugs_formulary_file.py:33-43 | each kept line is converted from its own fields, in file order |
| PipeFile.CollectCases | insert_basic_drugs_formulary_file.py:39-43 | without a raise the result is the emitted rows; otherwise it is the error of the first raise, and every earlier step did not raise |
| PipeFile.RowsAllEmit | insert_basic_drugs_formulary_file.py:43 | when every step emits, row k is what step k emitted |
| PipeFile.LoadIsCollect | insert_basic_drugs_formulary_file.py:23-43 | the loop's result is the collection of the conversions of the kept lines, in file order |
| PipeFile.LoadBodyIsCollect | insert_basic_drugs_formulary_file.py:26-43 | the loop after the header collects the conversions of the lines of the right arity |
| PipeFile.IntOrNullMeaning | insert_basic_drugs_formulary_file.py:39-42 | a converted field is NULL when empty, else the integer it spells |
| PipeFile.FirstInvalid | insert_excluded_drugs_formulary.py:40-45 | finds the first listed column that does not convert, and `None` exactly when all convert |
| PipeFile.ConvertIntColumns | insert_excluded_drugs_formulary.py:41-45 | the in-place loop over the integer columns yields the first error, or the converted cells |
| PipeFile.KeptHaveArity | insert_basic_drugs_formulary_file.py:34 | every kept line has the expected arity |
| PipeFile.LoadWithoutSkips | insert_basic_drugs_formulary_file.py:26-43 | a loader that never skips yields one row per kept line, or the error of the first kept line that raises |
| PipeFile.CollectWithoutSkips | insert_basic_drugs_formulary_file.py:39-43 | steps that never skip give one row per step, or the error of the first step that raises |
| PipeFile.LoadWithoutAborts | insert_indication_based_coverage_formulary.py:25-38 | a loader whose conversion never raises always succeeds, with the rows of the lines it does not skip |
| PipeFile.LoadTotal | insert_beneficiary_cost.py:26-43 | a loader that converts every kept line gives one row per kept line, in file order |
| Batching.ChunksFlatten | insert_basic_drugs_formulary_file.py:56-57 | the batches, concatenated, are the data |
| Batching.ChunksSizes | insert_basic_drugs_formulary_file.py:56-57 | every batch is non-empty and at most the batch size, and all but the last are full |
| Batching.ChunksOffsets | insert_basic_drugs_formulary_file.py:56-57 | batch k is `data[k*size : k*size+size]` |
| Batching.Batches | insert_basic_drugs_formulary_file.py:54-58 | the range loop partitions the data contiguously into the slices `data[i:i+size]`, with no loss or overlap |
| BasicDrugsLoader.BasicRow | insert_basic_drugs_formulary_file.py:35-43 | the row of a converted line has the 11 columns |
| BasicDrugsLoader.ConvertFields | insert_basic_drugs_formulary_file.py:35-43 | the in-place edits of one line's fields give its row, or the error of its first bad integer column |
| BasicDrugsLoader.IntColumnsOfQuantityCells | insert_basic_drugs_formulary_file.py:35-42 | once the quantity-limit cells are set, converting columns 1, 2, 3, 5 raises exactly for a line with a bad one, and otherwise gives the row |
| BasicDrugsLoader.ParseLine | insert_basic_drugs_formulary_file.py:26-43 | one pass of the loop extends the collected rows by line i |
| BasicDrugsLoader.ParseLines | insert_basic_drugs_formulary_file.py:23-43 | the parsing loop computes exactly the load of the file |
| BasicDrugsLoader.LoadFile | insert_basic_drugs_formulary_file.py:20-58 | the script fails exactly when the load fails, with its error; otherwise its 5000-row batches concatenate to the loaded rows |
| BasicDrugsLoader.BasicRowIntegers | insert_basic_drugs_formulary_file.py:35-42 | columns 1, 2, 3, 5 are NULL or the integer they spell; columns 7 and 8 are NULL exactly when empty and otherwise their text; the others keep their text |
| BasicDrugsLoader.LoadedRows | insert_basic_drugs_formulary_file.py:23-43 | a successful load has one row per kept line, in file order, each the converted line |
| BasicDrugsLoader.LoadFailure | insert_basic_drugs_formulary_file.py:39-42 | a load fails only with the error of the first kept line holding a non-integer in an integer column |
| BasicDrugsLoader.LoadSucceeds | insert_basic_drugs_formulary_file.py:23-43 | a load whose kept lines all convert succeeds |
| ExcludedDrugsLoader.ExcludedRow | insert_excluded_drugs_formulary.py:40-46 | the row of a converted line has the 10 columns |
| ExcludedDrugsLoader.ConvertFields | insert_excluded_drugs_formulary.py:40-46 | the loop over `int_fields_idx` gives the row, or the error of the first bad column |
| ExcludedDrugsLoader.ParseLine | insert_excluded_drugs_formulary.py:30-46 | one pass of the loop extends the collected rows by line i |
| ExcludedDrugsLoader.ParseLines | insert_excluded_drugs_formulary.py:27-46 | the parsing loop computes exactly the load of the file |
| ExcludedDrugsLoader.LoadFile | insert_excluded_drugs_formulary.py:23-68 | the script fails exactly when the load fails; otherwise its 1000-row batches concatenate to the loaded rows |
| ExcludedDrugsLoader.ExcludedRowIntegers | insert_excluded_drugs_formulary.py:40-46 | columns 2, 3, 5, 6 are NULL exactly when empty, else the integer they spell; every other column keeps its stripped text |
| ExcludedDrugsLoader.LoadOutcome | insert_excluded_drugs_formulary.py:27-46 | a successful load has one row per kept line, in file order |
| ExcludedDrugsLoader.LoadFailure | insert_excluded_drugs_formulary.py:40-45 | a load fails exactly when some kept line has a bad integer column, and then with the error of the first such line |
| BeneficiaryCostLoader.ParseLines | insert_beneficiary_cost.py:23-43 | the parsing loop computes the load of the file, which always succeeds |
| BeneficiaryCostLoader.LoadFile | insert_beneficiary_cost.py:20-68 | the 1000-row batches concatenate to the loaded rows |
| BeneficiaryCostLoader.LoadOutcome | insert_beneficiary_cost.py:23-43 | one row per 24-field line, in file order, holding its stripped fields verbatim |
| GeographicLocatorLoader.DropLeading | insert_data_to_table.py:38 | `data[10:]` has `max(0, n − 10)` rows, the ones after the tenth |
| GeographicLocatorLoader.ParseLines | insert_data_to_table.py:22-34 | the parsing loop computes the load of the file, which always succeeds |
| GeographicLocatorLoader.LoadFile | insert_data_to_table.py:19-68 | the 20-row batches concatenate to the loaded rows minus the first ten |
| GeographicLocatorLoader.InsertedRows | insert_data_to_table.py:22-38 | the kept lines from the eleventh on are inserted, in file order, with their stripped fields verbatim |
| IndicationCoverageLoader.ConvertFields | insert_indication_based_coverage_formulary.py:33-38 | the `try`/`except ValueError: continue` converts or skips the line |
| IndicationCoverageLoader.ParseLines | insert_indication_based_coverage_formulary.py:22-38 | the parsing loop computes the load of the file, which always succeeds |
| IndicationCoverageLoader.LoadFile | insert_indication_based_coverage_formulary.py:19-53 | the 5000-row batches concatenate to the loaded rows |
| IndicationCoverageLoader.ConvertIndicationCases | insert_indication_based_coverage_formulary.py:32-38 | a line is skipped exactly when its RXCUI is neither empty nor an integer, and never raises; the row keeps three text fields and the RXCUI as NULL or its integer |
| IndicationCoverageLoader.LoadOutcome | insert_indication_based_coverage_formulary.py:22-38 | the load always succeeds, with the rows of the lines not skipped, in file order, never more than the kept lines |
| InsulinCostLoader.InsulinRowColumns | insert_insulin_beneficiary_cost.py:64-74 | each column comes from the field at its position: the three keys as text, the tier as its integer or else its text, the days supply as its integer or else NULL, each amount as the number it spells or NULL when empty or unreadable |
| InsulinCostLoader.ParseFloat | insert_insulin_beneficiary_cost.py:51-57 | `parse_float` gives NULL for an empty or unreadable amount, else its decimal value |
| InsulinCostLoader.ConvertFields | insert_insulin_beneficiary_cost.py:33-74 | the tier, days-supply and copay branches give the row of the line |
| InsulinCostLoader.ParseLines | insert_insulin_beneficiary_cost.py:22-74 | the parsing loop computes the load of the file, which always succeeds |
| InsulinCostLoader.LoadFile | insert_insulin_beneficiary_cost.py:19-93 | the 1000-row batches concatenate to the loaded rows |
| InsulinCostLoader.LoadOutcome | insert_insulin_beneficiary_cost.py:22-74 | the loader never fails and yields one row per 9-field line, in file order |
| InsulinCostLoader.TierTextIffNotInteger | insert_insulin_beneficiary_cost.py:37-44 | the tier stays text (the field itself) exactly when it is not an integer literal, `.` included, and is otherwise its integer |
| InsulinCostLoader.EmptyNumbersAreNull | insert_insulin_beneficiary_cost.py:46-57 | an empty days supply or amount loads as NULL |
| InsulinCostLoader.IntegerCopay | insert_insulin_beneficiary_cost.py:51-57 | an amount written as an integer loads as exactly that number |

## Left out

- Database access is not modelled: connection pools, `acquire`, transactions, commits, rollbacks and `execute_values`. A loader's output is the sequence of batches it hands to the INSERT.
- SQL execution is modelled only for the formulary, requirement and cost queries of the analysis, as filters over row sequences. The plan query's result (DISTINCT, ILIKE, `LIMIT 50`, `formulary_id = ANY`) is an input sequence, and the order of rows the database returns is taken as given.
- The query texts (ORDER BY, selected columns) are not modelled beyond the sort column and direction. The SQL aggregation endpoints are left out: trends totals, national totals, years, drug insights, plan MA, drug costs, underperforming drugs, RxNorm and drug search.
- The Python `get_trends` handler is not modelled; it binds only fixed parameters. The Node `/api/trends` builder is `JsEndpoints.TrendsQuery`, which carries no contract of its own and is covered by `JsEndpoints.NoSuccessAsWritten`.
- FastAPI's own query validation (`min_length=1`, `gt=0`, `ge=0`, typed `int` arguments answered with 422) is assumed to have run. The Python handlers receive typed values.
- Response mapping is not modelled: `float(...)` in the response mappers, JSON serialisation, `jsonable_encoder`, and the `count` fields.
- Decimal→float in `convert_decimals` is an abstract conversion of a `Decimal` leaf.
- Text.ParseDecimal: reads plain decimal literals (sign, digits, an optional point) exactly, as a `Decimal`. Python `float()` rounding, exponents, `inf`, `nan` and non-ASCII Unicode digits are not modelled.
- InsulinCostLoader.ParseFloat: an amount is a decimal literal read exactly, not a rounded binary float. Forms that `float()` accepts beyond plain decimals (`1e3`, `inf`, `nan`, `_` separators) read as NULL in the model.
- Text.JsIntegerValue: covers JavaScript `Number()` for plain decimal literals only, with text that is blank after `trim()` read as 0. Hexadecimal, binary, exponent and `Infinity` forms, and integers beyond 2^53, are not modelled. A literal is read exactly, not rounded to a double. So a literal with more significant digits than a double holds, such as `1.0000000000000001` (which `Number` rounds to 1) or `2020.0000000000001`, reads as a non-integer. Node would accept it as an integer, so JsAnalysis.DrugProfitAnalysisHandler answers the 500 and JsEndpoints.OptionalInteger / JsEndpoints.RequiredInteger the 400 where Node would run the query.
- JsAnalysis.TruthyAmounts: follows the default `pg` pool the file creates, which delivers `DECIMAL` as strings, so every non-NULL amount is truthy. A pool with a numeric type parser for `DECIMAL` would turn 0 into a falsy number and drop it from the minimum; that configuration is not modelled. The same holds for JsAnalysis.RowMinIsLeast, JsAnalysis.LeastRowMin, JsAnalysis.MinPatientCost and JsAnalysis.ZeroMinimumKept.
- JsEndpoints.FormularySearch: does not model the inherited object keys of `sortColumnMap[sortByRaw]` (`constructor`, `toString`), or query parameters arriving as arrays. Both are artefacts of JavaScript's dynamic typing.
- Plan keys are compared as the concatenated strings `contract_plan_segment`, as in the source. The model does not rule out two different triples producing the same key.
- The clock read of `is_outside_server_time` (`datetime.now` in Asia/Kolkata) is left out: the guard is a predicate on a given time of day. `sys.exit` and the logging are represented by the guard's value.
- The exception path of the Python analysis (Backend/Features/main.py:883-884, which returns rather than raises an `HTTPException`) is not modelled, and neither are the other handlers' database-error answers. The Node analysis's 500 is modelled for the failures the input alone decides: an `rxcui` that `Number` does not read as an integer, and an integer `rxcui` outside int4.
- PyAnalysis.Refusals: an `rxcui` or `tier` outside int4 makes the driver raise, and the handler then takes the unmodelled exception path at Backend/Features/main.py:883-884. The model instead runs the query and answers the "No formulary data" 400.
- PyAnalysis.DrugProfitAnalysisHandler: assumes `rxcui` and `tier` lie within int4, as stated on the PyAnalysis.Refusals line.
- Text.ParseInt: accepts only the ASCII digits `0`-`9`. Python's `int()` also accepts every other Unicode decimal digit (Arabic-Indic `٥` reads as 5); the model treats such a field as a `ValueError`, so a loader aborts or skips where the script would insert the integer.
- Plan rows are modelled with non-NULL `plan_id` and `segment_id`. With a NULL one, Python builds the key `H1234_None_None` and Node `H1234_null_null`, and the `= NULL` cost query matches nothing; neither path is represented.
- JsEndpoints.GeoDetail: query parameters are modelled as single strings. A repeated parameter arrives in Express as an array: `?year=1&year=2` reads as `NaN` and is refused, and `typeof level !== 'string'` refuses an array `level`. This holds for every Node handler (JsEndpoints.RegionDetail, JsEndpoints.FormularyLookup, JsEndpoints.Search, JsAnalysis.DrugProfitAnalysisHandler, where `?rxcui=1&rxcui=2` gives `NaN` and the 500).
- `/api/drug_full_data` (USFormulary-Mridul/server.js:599-706) is left out: it only collects query results.
- The loaders' debug prints, the line counter `c`, and the final row-count messages are left out. File reading (`readlines`, `errors='ignore'` decoding) is represented by the input sequence of lines.
- Text.ToUpper: maps the ASCII letters, plus the two non-ASCII letters whose capital is ASCII (dotless i, long s). That is enough to decide whether a flag upper-cases to `Y`, `N` or `DESC`; other Unicode case mappings are not modelled.
- Text.ToLower: maps the ASCII letters, plus the Kelvin sign, whose small form is `k`. That is enough to decide whether `id_type` lower-cases to `rxcui` or `ndc`; other Unicode case mappings are not modelled.

## Findings

| source | as written | input that shows it | evidently intended | confidence | as-written member | corrected member |
|---|---|---|---|---|---|---|
| Backend/Features/main.py:582-646 | the emptiness check tests arguments for `None`, but clauses are added only for truthy strings | `ndc=""` with no other filter passes validation and builds `WHERE ` with no clause | refuse a search whose arguments produce no clause, as the Node handler does (server.js:489-491) | not executed | PyEndpoints.EmptyFilterPassesValidation | PyEndpoints.SearchRefusesEmptyPredicate |
| USFormulary-Mridul/server.js:471 | `parsePagination` is called (also at 59 and 284) but never defined or imported | any valid formulary search, e.g. `rxcui=1`, ends in the `catch` with a 400 | read `limit`/`offset` as Python's `parse_pagination` does | not executed | JsEndpoints.NoSuccessAsWritten | JsEndpoints.SearchAgreesWithCorrectedPython |
| Backend/Features/main.py:16-25 | `is_outside_server_time` returns true inside the 12:00 AM–6:00 AM window, and the guard then exits | a start at 03:00 IST stops the service; a start at 12:00 IST lets it run | stop outside the window, as the function's name and the exit message say | not executed | ServerTime.StopsInsideWindow | ServerTime.StartsOnlyInWindow |
