/**
 * The excluded drugs formulary loader: 10 fields per line; RXCUI, tier and the
 * two quantity-limit numbers become integers, NULL when empty; a non-integer
 * in one of them raises and ends the load before anything is inserted.
 */
module ExcludedDrugsLoader {
  import opened Wrappers
  import opened Text
  import opened Seqs
  import opened PipeFile
  import opened Batching

  const Arity: nat := 10
  /** RXCUI, TIER, QUANTITY_LIMIT_AMOUNT, QUANTITY_LIMIT_DAYS, converted in this order. */
  const IntFields: seq<nat> := [2, 3, 5, 6]
  const BatchSize: nat := 1000

  /** The row of a line whose integer columns all convert, column by column. */
  function ExcludedRow(f: seq<string>): (r: seq<Cell>)
    requires |f| == Arity
    ensures |r| == Arity
  {
    seq(Arity, j requires 0 <= j < Arity => if j in IntFields then IntOrNull(f[j]) else Str(f[j]))
  }

  lemma IntFieldsInRange()
    ensures forall i :: 0 <= i < |IntFields| ==> IntFields[i] < Arity
  {
  }

  /** The fields of a line that converts: the right arity, and every integer column empty or an integer. */
  predicate Converts(f: seq<string>)
  {
    |f| == Arity && FirstInvalid(f, IntFields).None?
  }

  /** The fields of a line whose conversion raises. */
  predicate Rejects(f: seq<string>)
  {
    |f| == Arity && FirstInvalid(f, IntFields).Some?
  }

  /** The error a rejected line raises: the literal of its first integer column that does not convert. */
  function LineError(f: seq<string>): LoadError
    requires Rejects(f)
  {
    InvalidLiteral(f[IntFields[FirstInvalid(f, IntFields).value]])
  }

  /** What the loader makes of the fields of a line. */
  function ConvertExcluded(f: seq<string>): Step
  {
    if |f| != Arity then Skip
    else if Rejects(f) then Abort(LineError(f))
    else Emit(ExcludedRow(f))
  }

  /** The in-place conversion loop over `int_fields_idx` for the fields list of one line. */
  method ConvertFields(fields: seq<string>) returns (step: Step)
    requires |fields| == Arity
    ensures step == ConvertExcluded(fields)
  {
    IntFieldsInRange();
    var r := ConvertIntColumns(fields, TextCells(fields), IntFields);
    match r
    case Err(e) =>
      step := Abort(e);
    case Ok(row) =>
      assert forall j :: 0 <= j < Arity ==> row[j] == ExcludedRow(fields)[j];
      step := Emit(row);
  }

  /** One pass of the parsing loop after the header: line `i` is skipped, converted, or raises. */
  method ParseLine(lines: seq<string>, i: nat, data: seq<seq<Cell>>) returns (next: Result<seq<seq<Cell>>, LoadError>)
    requires 0 < i < |lines| && Load(lines[..i], Arity, ConvertExcluded) == Ok(data)
    ensures next == Load(lines[..i + 1], Arity, ConvertExcluded)
  {
    LoadSnoc(lines, i, Arity, ConvertExcluded);
    var fields := Fields(lines[i]);
    if |fields| != Arity {
      return Ok(data);
    }
    var step := ConvertFields(fields);
    assert Extend(Ok(data), lines[i], Arity, ConvertExcluded) == Push(Ok(data), step);
    if step.Abort? {
      return Err(step.err);
    }
    next := Ok(data + [step.row]);
  }

  /** The parsing loop over the lines of the file, header first. */
  method ParseLines(lines: seq<string>) returns (r: Result<seq<seq<Cell>>, LoadError>)
    ensures r == Load(lines, Arity, ConvertExcluded)
  {
    var headerSkipped := false;
    var data: seq<seq<Cell>> := [];
    var i := 0;
    while i < |lines|
      invariant 0 <= i <= |lines|
      invariant headerSkipped <==> i > 0
      invariant i == 0 ==> data == []
      invariant i > 0 ==> Load(lines[..i], Arity, ConvertExcluded) == Ok(data)
    {
      if !headerSkipped {
        headerSkipped := true;
        LoadFirst(lines, Arity, ConvertExcluded);
        i := i + 1;
        continue;
      }
      var next := ParseLine(lines, i, data);
      if next.Err? {
        LoadErrPersists(lines, i + 1, Arity, ConvertExcluded);
        return next;
      }
      data := next.value;
      i := i + 1;
    }
    assert lines[..i] == lines;
    r := Ok(data);
  }

  /** The whole script: parse every line, then hand the rows to the INSERT in batches of `BatchSize`. */
  method LoadFile(lines: seq<string>) returns (r: Result<seq<seq<seq<Cell>>>, LoadError>)
    ensures r.Err? <==> Load(lines, Arity, ConvertExcluded).Err?
    ensures r.Err? ==> r.error == Load(lines, Arity, ConvertExcluded).error
    ensures r.Ok? ==> Flatten(r.value) == Load(lines, Arity, ConvertExcluded).value
    ensures r.Ok? ==> forall k :: 0 <= k < |r.value| ==> 0 < |r.value[k]| <= BatchSize
  {
    var parsed := ParseLines(lines);
    match parsed
    case Err(e) =>
      r := Err(e);
    case Ok(data) =>
      var batches := Batches(data, BatchSize);
      r := Ok(batches);
  }

  /** In a converted row each integer column is NULL exactly when its field is empty, else the integer it spells. */
  lemma ExcludedRowIntegers(f: seq<string>)
    requires |f| == Arity && FirstInvalid(f, IntFields).None?
    ensures forall c :: 0 <= c < Arity && c in IntFields ==>
              (ExcludedRow(f)[c] == Null && f[c] == "") || (ExcludedRow(f)[c].Int? && ParseInt(f[c]) == Some(ExcludedRow(f)[c].i))
    ensures forall c :: 0 <= c < Arity && c !in IntFields ==> ExcludedRow(f)[c] == Str(f[c])
  {
    forall c | 0 <= c < Arity && c in IntFields
      ensures (ExcludedRow(f)[c] == Null && f[c] == "") || (ExcludedRow(f)[c].Int? && ParseInt(f[c]) == Some(ExcludedRow(f)[c].i))
    {
      var i :| 0 <= i < |IntFields| && IntFields[i] == c;
      assert IntCell(f[c]).Ok?;
      IntOrNullMeaning(f[c]);
    }
  }

  /** A successful load has one row per kept line, in file order, converted as `ExcludedRow` states. */
  lemma LoadOutcome(lines: seq<string>)
    ensures var kept := KeptLines(lines, Arity);
            Load(lines, Arity, ConvertExcluded).Ok? ==>
              var d := Load(lines, Arity, ConvertExcluded).value;
              |d| == |kept| && forall k :: 0 <= k < |kept| ==> Converts(Fields(kept[k])) && d[k] == ExcludedRow(Fields(kept[k]))
  {
    KeptHaveArity(lines, Arity);
    LoadWithoutSkips(lines, Arity, ConvertExcluded);
  }

  /**
   * A load fails exactly when some kept line has a non-integer in an integer
   * column, and then with the literal of the first such line.
   */
  lemma LoadFailure(lines: seq<string>)
    ensures var kept := KeptLines(lines, Arity);
            Load(lines, Arity, ConvertExcluded).Err? ==>
              exists k :: 0 <= k < |kept| && Rejects(Fields(kept[k]))
                          && Load(lines, Arity, ConvertExcluded).error == LineError(Fields(kept[k]))
                          && forall j :: 0 <= j < k ==> Converts(Fields(kept[j]))
    ensures var kept := KeptLines(lines, Arity);
            (exists k :: 0 <= k < |kept| && Rejects(Fields(kept[k]))) ==> Load(lines, Arity, ConvertExcluded).Err?
  {
    KeptHaveArity(lines, Arity);
    LoadWithoutSkips(lines, Arity, ConvertExcluded);
  }
}
