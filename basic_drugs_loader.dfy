/**
 * The basic drugs formulary loader: 11 fields per line; the two quantity-limit
 * columns become NULL when empty, and formulary version, contract year, RXCUI
 * and tier level become integers (NULL when empty); a non-integer in one of
 * those four columns raises and ends the load before anything is inserted.
 */
module BasicDrugsLoader {
  import opened Wrappers
  import opened Text
  import opened Seqs
  import opened PipeFile
  import opened Batching

  const Arity: nat := 11
  /** FORMULARY_VERSION, CONTRACT_YEAR, RXCUI, TIER_LEVEL_VALUE, converted in this order. */
  const IntFields: seq<nat> := [1, 2, 3, 5]
  const BatchSize: nat := 5000

  /** The row of a line whose integer columns all convert, column by column. */
  function BasicRow(f: seq<string>): (r: seq<Cell>)
    requires |f| == Arity
    ensures |r| == Arity
  {
    seq(Arity, j requires 0 <= j < Arity =>
      if j in IntFields then IntOrNull(f[j])
      else if j == 7 || j == 8 then NullIfEmpty(f[j])
      else Str(f[j]))
  }

  lemma IntFieldsInRange()
    ensures forall i :: 0 <= i < |IntFields| ==> IntFields[i] < Arity
  {
  }

  /** The fields of a line that converts: the right arity, and every integer column empty or an integer. */
  predicate Converts(f: seq<string>)
  {
    |f| == Arity && FirstInvalid(f, IntFields).None?
  }

  /** The fields of a line whose conversion raises. */
  predicate Rejects(f: seq<string>)
  {
    |f| == Arity && FirstInvalid(f, IntFields).Some?
  }

  /** The error a rejected line raises: the literal of its first integer column that does not convert. */
  function LineError(f: seq<string>): LoadError
    requires Rejects(f)
  {
    InvalidLiteral(f[IntFields[FirstInvalid(f, IntFields).value]])
  }

  /** What the loader makes of the fields of a line. */
  function ConvertBasic(f: seq<string>): Step
  {
    if |f| != Arity then Skip
    else if Rejects(f) then Abort(LineError(f))
    else Emit(BasicRow(f))
  }

  /** The in-place conversion of the fields list of one line. */
  method ConvertFields(fields: seq<string>) returns (step: Step)
    requires |fields| == Arity
    ensures step == ConvertBasic(fields)
  {
    var cells := TextCells(fields);
    if fields[7] == "" {
      cells := cells[7 := Null];
    }
    if fields[8] == "" {
      cells := cells[8 := Null];
    }
    assert QuantityCells(fields, cells);
    IntColumnsOfQuantityCells(fields, cells);
    IntFieldsInRange();
    var r := ConvertIntColumns(fields, cells, IntFields);
    match r
    case Err(e) =>
      step := Abort(e);
    case Ok(row) =>
      step := Emit(row);
  }

  /** The cells after the two quantity-limit columns have become NULL when empty. */
  predicate QuantityCells(fields: seq<string>, cells: seq<Cell>)
  {
    |fields| == Arity && |cells| == Arity
    && forall j :: 0 <= j < Arity ==> cells[j] == if j == 7 || j == 8 then NullIfEmpty(fields[j]) else Str(fields[j])
  }

  lemma IntColumnsOfQuantityCells(fields: seq<string>, cells: seq<Cell>)
    requires QuantityCells(fields, cells)
    ensures IntColumns(fields, cells, IntFields) == if Rejects(fields) then Err(LineError(fields)) else Ok(BasicRow(fields))
  {
    if !Rejects(fields) {
      var row := IntColumns(fields, cells, IntFields).value;
      var expected := BasicRow(fields);
      assert |row| == Arity;
      forall j | 0 <= j < Arity ensures row[j] == expected[j] {
        if j !in IntFields {
          assert row[j] == cells[j];
        }
      }
      assert row == expected;
    }
  }

  /** One pass of the parsing loop after the header: line `i` is skipped, converted, or raises. */
  method ParseLine(lines: seq<string>, i: nat, data: seq<seq<Cell>>) returns (next: Result<seq<seq<Cell>>, LoadError>)
    requires 0 < i < |lines| && Load(lines[..i], Arity, ConvertBasic) == Ok(data)
    ensures next == Load(lines[..i + 1], Arity, ConvertBasic)
  {
    LoadSnoc(lines, i, Arity, ConvertBasic);
    var fields := Fields(lines[i]);
    if |fields| != Arity {
      return Ok(data);
    }
    var step := ConvertFields(fields);
    assert Extend(Ok(data), lines[i], Arity, ConvertBasic) == Push(Ok(data), step);
    if step.Abort? {
      return Err(step.err);
    }
    next := Ok(data + [step.row]);
  }

  /** The parsing loop over the lines of the file, header first. */
  method ParseLines(lines: seq<string>) returns (r: Result<seq<seq<Cell>>, LoadError>)
    ensures r == Load(lines, Arity, ConvertBasic)
  {
    var headerSkipped := false;
    var data: seq<seq<Cell>> := [];
    var i := 0;
    while i < |lines|
      invariant 0 <= i <= |lines|
      invariant headerSkipped <==> i > 0
      invariant i == 0 ==> data == []
      invariant i > 0 ==> Load(lines[..i], Arity, ConvertBasic) == Ok(data)
    {
      if !headerSkipped {
        headerSkipped := true;
        LoadFirst(lines, Arity, ConvertBasic);
        i := i + 1;
        continue;
      }
      var next := ParseLine(lines, i, data);
      if next.Err? {
        LoadErrPersists(lines, i + 1, Arity, ConvertBasic);
        return next;
      }
      data := next.value;
      i := i + 1;
    }
    assert lines[..i] == lines;
    r := Ok(data);
  }

  /** The whole script: parse every line, then hand the rows to the INSERT in batches of `BatchSize`. */
  method LoadFile(lines: seq<string>) returns (r: Result<seq<seq<seq<Cell>>>, LoadError>)
    ensures r.Err? <==> Load(lines, Arity, ConvertBasic).Err?
    ensures r.Err? ==> r.error == Load(lines, Arity, ConvertBasic).error
    ensures r.Ok? ==> Flatten(r.value) == Load(lines, Arity, ConvertBasic).value
    ensures r.Ok? ==> forall k :: 0 <= k < |r.value| ==> 0 < |r.value[k]| <= BatchSize
  {
    var parsed := ParseLines(lines);
    match parsed
    case Err(e) =>
      r := Err(e);
    case Ok(data) =>
      var batches := Batches(data, BatchSize);
      r := Ok(batches);
  }

  /**
   * In a converted row each integer column is NULL or holds the integer its field
   * spells, the two quantity-limit columns are NULL exactly when empty and
   * otherwise their text, and every other column is its text.
   */
  lemma BasicRowIntegers(f: seq<string>)
    requires |f| == Arity && FirstInvalid(f, IntFields).None?
    ensures forall c :: 0 <= c < Arity && c in IntFields ==>
              (BasicRow(f)[c] == Null && f[c] == "") || (BasicRow(f)[c].Int? && ParseInt(f[c]) == Some(BasicRow(f)[c].i))
    ensures forall c :: c == 7 || c == 8 ==> (BasicRow(f)[c] == Null <==> f[c] == "") && (f[c] != "" ==> BasicRow(f)[c] == Str(f[c]))
    ensures forall c :: 0 <= c < Arity && c !in IntFields && c != 7 && c != 8 ==> BasicRow(f)[c] == Str(f[c])
  {
    forall c | 0 <= c < Arity && c in IntFields
      ensures (BasicRow(f)[c] == Null && f[c] == "") || (BasicRow(f)[c].Int? && ParseInt(f[c]) == Some(BasicRow(f)[c].i))
    {
      var i :| 0 <= i < |IntFields| && IntFields[i] == c;
      assert IntCell(f[c]).Ok?;
      IntOrNullMeaning(f[c]);
    }
  }

  /**
   * The rows of a successful load are the kept lines in file order, each
   * converted column by column as `BasicRow` states.
   */
  lemma LoadedRows(lines: seq<string>)
    ensures var kept := KeptLines(lines, Arity);
            Load(lines, Arity, ConvertBasic).Ok? ==>
              var d := Load(lines, Arity, ConvertBasic).value;
              |d| == |kept| && forall k :: 0 <= k < |kept| ==> Converts(Fields(kept[k])) && d[k] == BasicRow(Fields(kept[k]))
  {
    KeptHaveArity(lines, Arity);
    LoadWithoutSkips(lines, Arity, ConvertBasic);
  }

  /**
   * A load fails only when some kept line holds a non-integer in one of the
   * integer columns, and the error names that field of the first such line.
   */
  lemma LoadFailure(lines: seq<string>)
    ensures var kept := KeptLines(lines, Arity);
            Load(lines, Arity, ConvertBasic).Err? ==>
              exists k :: 0 <= k < |kept| && Rejects(Fields(kept[k]))
                          && Load(lines, Arity, ConvertBasic).error == LineError(Fields(kept[k]))
                          && forall j :: 0 <= j < k ==> Converts(Fields(kept[j]))
  {
    KeptHaveArity(lines, Arity);
    LoadWithoutSkips(lines, Arity, ConvertBasic);
  }

  /** A load whose kept lines all convert succeeds. */
  lemma LoadSucceeds(lines: seq<string>)
    ensures var kept := KeptLines(lines, Arity);
            (forall k :: 0 <= k < |kept| ==> Converts(Fields(kept[k]))) ==> Load(lines, Arity, ConvertBasic).Ok?
  {
    LoadFailure(lines);
  }
}
