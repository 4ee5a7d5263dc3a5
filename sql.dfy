/**
 * The parameterised SQL predicates the endpoints assemble: a list of clauses,
 * each naming its parameter by a positional placeholder `$k`, a parallel list
 * of parameter values, and optionally LIMIT/OFFSET. `Conjunction` is the
 * reference for what every builder produces from its optional filters.
 */
module Sql {
  import opened Wrappers
  import opened Text

  /** A bound parameter value. */
  datatype Value = IntVal(i: int) | StrVal(s: string)

  /** The form of one clause; the placeholder is supplied by the `Clause`. */
  datatype Shape =
    | Eq(column: string)                          // column = $k
    | AtLeast(column: string)                     // column >= $k
    | AtMost(column: string)                      // column <= $k
    | EitherILike(first: string, second: string)  // (first ILIKE $k OR second ILIKE $k)
    | EitherEq(first: string, second: string)     // (first = $k OR second = $k)
    | ContainsILike(column: string)               // column ILIKE '%' || $k || '%'

  datatype Clause = Clause(shape: Shape, slot: nat)

  /** How the rows are paged: not at all, by two placeholders, or by numbers written into the text. */
  datatype Page = NoPage | SlotPage(limitSlot: nat, offsetSlot: nat) | InlinePage(limit: int, offset: int)

  /** A query's variable part: its WHERE clauses, the parameter list sent with it, and its paging. */
  datatype Query = Query(clauses: seq<Clause>, params: seq<Value>, page: Page)

  function Placeholder(k: nat): string
  {
    "$" + NatToString(k)
  }

  function Render(c: Clause): (r: string)
    ensures |r| > 0
  {
    var ph := Placeholder(c.slot);
    match c.shape
    case Eq(col) => col + " = " + ph
    case AtLeast(col) => col + " >= " + ph
    case AtMost(col) => col + " <= " + ph
    case EitherILike(a, b) => "(" + a + " ILIKE " + ph + " OR " + b + " ILIKE " + ph + ")"
    case EitherEq(a, b) => "(" + a + " = " + ph + " OR " + b + " = " + ph + ")"
    case ContainsILike(col) => col + " ILIKE '%' || " + ph + " || '%'"
  }

  /** `sep.join(parts)` for a string separator. */
  function JoinWith(parts: seq<string>, sep: string): (r: string)
    ensures parts != [] ==> |r| >= |parts[0]|
    decreases |parts|
  {
    if parts == [] then ""
    else if |parts| == 1 then parts[0]
    else parts[0] + sep + JoinWith(parts[1..], sep)
  }

  /** `" AND ".join(where_clauses)`. */
  function WhereSql(cs: seq<Clause>): string
  {
    JoinWith(seq(|cs|, i requires 0 <= i < |cs| => Render(cs[i])), " AND ")
  }

  /** The WHERE text is empty exactly when no clause was produced. */
  lemma WhereSqlEmptyIff(cs: seq<Clause>)
    ensures WhereSql(cs) == "" <==> cs == []
  {
    if cs != [] {
      assert |Render(cs[0])| > 0;
    }
  }

  /** The LIMIT/OFFSET text of a query. */
  function PageSql(p: Page): string
  {
    match p
    case NoPage => ""
    case SlotPage(l, o) => "LIMIT " + Placeholder(l) + " OFFSET " + Placeholder(o)
    case InlinePage(l, o) => "LIMIT " + IntToString(l) + " OFFSET " + IntToString(o)
  }

  /** A filter an endpoint may add: its clause form and its value, `None` when the filter is not given. */
  datatype Filter = Filter(shape: Shape, value: Option<Value>)

  /** The filters that are given, in order, with their values. */
  function Present(fs: seq<Filter>): (r: seq<(Shape, Value)>)
    ensures |r| <= |fs|
    decreases |fs|
  {
    if fs == [] then []
    else
      var f := fs[|fs| - 1];
      Present(fs[..|fs| - 1]) + (if f.value.Some? then [(f.shape, f.value.value)] else [])
  }

  /**
   * The WHERE part every builder produces from its optional filters: one clause
   * per given filter, in order, numbered `$1, $2, ...` with no gap, and the
   * parameter list holding the given values in the same order.
   */
  function Conjunction(fs: seq<Filter>): (r: Query)
    ensures r.page == NoPage
    ensures |r.clauses| == |r.params| == |Present(fs)|
    decreases |fs|
  {
    if fs == [] then Query([], [], NoPage)
    else Add(Conjunction(fs[..|fs| - 1]), fs[|fs| - 1])
  }

  /** One builder step: a given filter appends its clause with the next placeholder, and its value. */
  function Add(q: Query, f: Filter): Query
  {
    match f.value
    case None => q
    case Some(v) => Query(q.clauses + [Clause(f.shape, |q.params| + 1)], q.params + [v], q.page)
  }

  lemma ConjunctionSnoc(fs: seq<Filter>, f: Filter)
    ensures Conjunction(fs + [f]) == Add(Conjunction(fs), f)
  {
    assert (fs + [f])[..|fs|] == fs;
  }

  const Empty: Query := Query([], [], NoPage)

  /** The predicate of a fixed list of filters, as the sequence of builder steps a handler performs. */
  lemma Unroll2(f0: Filter, f1: Filter)
    ensures Conjunction([f0, f1]) == Add(Add(Empty, f0), f1)
  {
    ConjunctionSnoc([], f0);
    ConjunctionSnoc([f0], f1);
    assert [] + [f0] == [f0];
    assert [f0] + [f1] == [f0, f1];
  }

  lemma Unroll3(f0: Filter, f1: Filter, f2: Filter)
    ensures Conjunction([f0, f1, f2]) == Add(Add(Add(Empty, f0), f1), f2)
  {
    Unroll2(f0, f1);
    ConjunctionSnoc([f0, f1], f2);
    assert [f0, f1] + [f2] == [f0, f1, f2];
  }

  lemma Unroll4(f0: Filter, f1: Filter, f2: Filter, f3: Filter)
    ensures Conjunction([f0, f1, f2, f3]) == Add(Add(Add(Add(Empty, f0), f1), f2), f3)
  {
    Unroll3(f0, f1, f2);
    ConjunctionSnoc([f0, f1, f2], f3);
    assert [f0, f1, f2] + [f3] == [f0, f1, f2, f3];
  }

  lemma Unroll6(f0: Filter, f1: Filter, f2: Filter, f3: Filter, f4: Filter, f5: Filter)
    ensures Conjunction([f0, f1, f2, f3, f4, f5]) == Add(Add(Add(Add(Add(Add(Empty, f0), f1), f2), f3), f4), f5)
  {
    Unroll4(f0, f1, f2, f3);
    ConjunctionSnoc([f0, f1, f2, f3], f4);
    assert [f0, f1, f2, f3] + [f4] == [f0, f1, f2, f3, f4];
    ConjunctionSnoc([f0, f1, f2, f3, f4], f5);
    assert [f0, f1, f2, f3, f4] + [f5] == [f0, f1, f2, f3, f4, f5];
  }

  /**
   * One step of a handler's builder: when the filter is given, append its clause
   * with placeholder `$index` and its value, and advance the index.
   */
  method AddFilter(clauses: seq<Clause>, params: seq<Value>, index: nat, f: Filter)
    returns (clauses': seq<Clause>, params': seq<Value>, index': nat)
    requires index == |params| + 1
    ensures Query(clauses', params', NoPage) == Add(Query(clauses, params, NoPage), f)
    ensures index' == |params'| + 1
  {
    clauses', params', index' := clauses, params, index;
    if f.value.Some? {
      clauses' := clauses' + [Clause(f.shape, index')];
      params' := params' + [f.value.value];
      index' := index' + 1;
    }
  }

  /**
   * The numbering of a built predicate: clause `j` carries placeholder `$(j+1)`,
   * and the clause and the parameter at `j` are the `j`-th given filter.
   */
  lemma {:induction false} ConjunctionNumbering(fs: seq<Filter>)
    ensures var r := Conjunction(fs);
            forall j :: 0 <= j < |r.clauses| ==> r.clauses[j].slot == j + 1 && (r.clauses[j].shape, r.params[j]) == Present(fs)[j]
    decreases |fs|
  {
    if fs != [] {
      var init, f := fs[..|fs| - 1], fs[|fs| - 1];
      ConjunctionNumbering(init);
      var q, r := Conjunction(init), Conjunction(fs);
      assert r == Add(q, f);
      assert Present(fs) == Present(init) + (if f.value.Some? then [(f.shape, f.value.value)] else []);
      forall j | 0 <= j < |r.clauses|
        ensures r.clauses[j].slot == j + 1 && (r.clauses[j].shape, r.params[j]) == Present(fs)[j]
      {
        if j < |q.clauses| {
          assert r.clauses[j] == q.clauses[j] && r.params[j] == q.params[j];
          assert Present(fs)[j] == Present(init)[j];
        }
      }
    }
  }

  /** `params.append(limit); params.append(offset)` and `LIMIT $n OFFSET $n+1` after the filters. */
  function Paged(q: Query, limit: int, offset: int): Query
  {
    Query(q.clauses, q.params + [IntVal(limit), IntVal(offset)], SlotPage(|q.params| + 1, |q.params| + 2))
  }

  /** Every placeholder of the query names one of its parameters. */
  predicate Resolves(q: Query)
  {
    (forall j :: 0 <= j < |q.clauses| ==> 1 <= q.clauses[j].slot <= |q.params|)
    && (q.page.SlotPage? ==> 1 <= q.page.limitSlot <= |q.params| && 1 <= q.page.offsetSlot <= |q.params|)
  }

  /** Each clause with the parameter its placeholder stands for: `$k` is `params[k-1]`. */
  function Bindings(q: Query): (r: seq<(Shape, Value)>)
    requires Resolves(q)
    ensures |r| == |q.clauses|
  {
    seq(|q.clauses|, j requires 0 <= j < |q.clauses| => (q.clauses[j].shape, q.params[q.clauses[j].slot - 1]))
  }

  /** Each placeholder of a built predicate stands for the value of the filter that produced it. */
  lemma ConjunctionBinds(fs: seq<Filter>)
    ensures Resolves(Conjunction(fs))
    ensures Bindings(Conjunction(fs)) == Present(fs)
  {
    var q := Conjunction(fs);
    ConjunctionNumbering(fs);
    assert Resolves(q);
    var b := Bindings(q);
    forall j | 0 <= j < |b|
      ensures b[j] == Present(fs)[j]
    {
      assert q.clauses[j].slot == j + 1;
      assert b[j] == (q.clauses[j].shape, q.params[j]);
    }
  }

  /**
   * Paging keeps every filter binding and adds two placeholders right after the
   * filter parameters, standing for the limit and the offset.
   */
  lemma PagedBinds(fs: seq<Filter>, limit: int, offset: int)
    ensures var q := Paged(Conjunction(fs), limit, offset);
            Resolves(q) && Bindings(q) == Present(fs)
            && q.page.limitSlot == |Present(fs)| + 1 && q.page.offsetSlot == q.page.limitSlot + 1
            && q.params[q.page.limitSlot - 1] == IntVal(limit) && q.params[q.page.offsetSlot - 1] == IntVal(offset)
            && |q.params| == q.page.offsetSlot
  {
    var c := Conjunction(fs);
    ConjunctionNumbering(fs);
    var q := Paged(c, limit, offset);
    assert forall j :: 0 <= j < |c.clauses| ==> q.params[j] == c.params[j];
  }

  /** A filter is bound exactly when it is given: the number of clauses counts the given filters. */
  lemma {:induction false} PresentCount(fs: seq<Filter>)
    ensures |Present(fs)| == |set i | 0 <= i < |fs| && fs[i].value.Some?|
    decreases |fs|
  {
    if fs != [] {
      var init := fs[..|fs| - 1];
      PresentCount(init);
      var s0 := set i | 0 <= i < |init| && init[i].value.Some?;
      var s1 := set i | 0 <= i < |fs| && fs[i].value.Some?;
      if fs[|fs| - 1].value.Some? {
        assert s1 == s0 + {|fs| - 1};
      } else {
        assert s1 == s0;
      }
    }
  }

  /** No clause is produced exactly when no filter is given. */
  lemma {:induction false} PresentEmptyIff(fs: seq<Filter>)
    ensures Present(fs) == [] <==> forall i :: 0 <= i < |fs| ==> fs[i].value.None?
    decreases |fs|
  {
    if fs != [] {
      var init := fs[..|fs| - 1];
      PresentEmptyIff(init);
      assert forall i :: 0 <= i < |init| ==> init[i] == fs[i];
    }
  }

  /** A property of every given filter holds of every binding. */
  lemma {:induction false} PresentAll(fs: seq<Filter>, p: ((Shape, Value)) -> bool)
    requires forall i :: 0 <= i < |fs| && fs[i].value.Some? ==> p((fs[i].shape, fs[i].value.value))
    ensures forall j :: 0 <= j < |Present(fs)| ==> p(Present(fs)[j])
    decreases |fs|
  {
    if fs != [] {
      var init := fs[..|fs| - 1];
      assert forall i :: 0 <= i < |init| ==> init[i] == fs[i];
      PresentAll(init, p);
    }
  }

  /** Filters that are not given add nothing to the predicate. */
  lemma {:induction false} NonesAdd(fs: seq<Filter>, nones: seq<Filter>)
    requires forall i :: 0 <= i < |nones| ==> nones[i].value.None?
    ensures Conjunction(fs + nones) == Conjunction(fs)
    decreases |nones|
  {
    if nones == [] {
      assert fs + nones == fs;
    } else {
      var init := nones[..|nones| - 1];
      NonesAdd(fs, init);
      assert (fs + nones)[..|fs + nones| - 1] == fs + init;
    }
  }
}
