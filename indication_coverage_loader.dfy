/**
 * The indication-based coverage loader: 4 fields per line; the RXCUI becomes
 * an integer, NULL when empty; a line whose RXCUI is not an integer is skipped
 * (the script reports it and goes on), so the load never fails.
 */
module IndicationCoverageLoader {
  import opened Wrappers
  import opened Text
  import opened Seqs
  import opened PipeFile
  import opened Batching

  const Arity: nat := 4
  const BatchSize: nat := 5000

  /** What the loader makes of the fields of a line. */
  function ConvertIndication(f: seq<string>): Step
  {
    if |f| != Arity then Skip
    else
      match IntCell(f[2])
      case Ok(rxcui) => Emit([Str(f[0]), Str(f[1]), rxcui, Str(f[3])])
      case Err(_) => Skip
  }

  /** The body of the `try` block and its `except ValueError: continue`. */
  method ConvertFields(fields: seq<string>) returns (step: Step)
    requires |fields| == Arity
    ensures step == ConvertIndication(fields)
  {
    var rxcuiInt: Cell;
    if fields[2] != "" {
      var v := ParseInt(fields[2]);
      if v.None? {
        return Skip;
      }
      rxcuiInt := Int(v.value);
    } else {
      rxcuiInt := Null;
    }
    step := Emit([Str(fields[0]), Str(fields[1]), rxcuiInt, Str(fields[3])]);
  }

  /** The parsing loop over the lines of the file, header first. */
  method ParseLines(lines: seq<string>) returns (data: seq<seq<Cell>>)
    ensures Load(lines, Arity, ConvertIndication) == Ok(data)
  {
    var headerSkipped := false;
    data := [];
    var i := 0;
    while i < |lines|
      invariant 0 <= i <= |lines|
      invariant headerSkipped <==> i > 0
      invariant i == 0 ==> data == []
      invariant i > 0 ==> Load(lines[..i], Arity, ConvertIndication) == Ok(data)
    {
      if !headerSkipped {
        headerSkipped := true;
        LoadFirst(lines, Arity, ConvertIndication);
        i := i + 1;
        continue;
      }
      LoadSnoc(lines, i, Arity, ConvertIndication);
      var fields := Fields(lines[i]);
      if |fields| == Arity {
        var step := ConvertFields(fields);
        assert Extend(Ok(data), lines[i], Arity, ConvertIndication) == Push(Ok(data), step);
        if step.Emit? {
          data := data + [step.row];
        }
      }
      i := i + 1;
    }
    assert lines[..i] == lines;
  }

  /** The whole script: parse every line, then hand the rows to the INSERT in batches of `BatchSize`. */
  method LoadFile(lines: seq<string>) returns (batches: seq<seq<seq<Cell>>>)
    ensures Load(lines, Arity, ConvertIndication).Ok?
    ensures Flatten(batches) == Load(lines, Arity, ConvertIndication).value
    ensures forall k :: 0 <= k < |batches| ==> 0 < |batches[k]| <= BatchSize
  {
    var data := ParseLines(lines);
    batches := Batches(data, BatchSize);
  }

  /**
   * A line of the right arity is skipped exactly when its RXCUI field is
   * neither empty nor an integer; otherwise its row keeps the three text
   * fields and the RXCUI as NULL or as the integer it spells.
   */
  lemma ConvertIndicationCases(f: seq<string>)
    requires |f| == Arity
    ensures ConvertIndication(f).Skip? <==> f[2] != "" && ParseInt(f[2]).None?
    ensures !ConvertIndication(f).Abort?
    ensures ConvertIndication(f).Emit? ==>
              var row := ConvertIndication(f).row;
              |row| == 4 && row[0] == Str(f[0]) && row[1] == Str(f[1]) && row[3] == Str(f[3])
              && (row[2] == Null <==> f[2] == "")
              && (row[2] != Null ==> row[2].Int? && ParseInt(f[2]) == Some(row[2].i))
  {
  }

  /** The load always succeeds, with the rows of the lines not skipped, in file order. */
  lemma LoadOutcome(lines: seq<string>)
    ensures Load(lines, Arity, ConvertIndication) == Ok(Rows(Steps(KeptLines(lines, Arity), ConvertIndication)))
    ensures |Load(lines, Arity, ConvertIndication).value| <= |KeptLines(lines, Arity)|
  {
    LoadWithoutAborts(lines, Arity, ConvertIndication);
    RowsAtMostSteps(Steps(KeptLines(lines, Arity), ConvertIndication));
  }
}
