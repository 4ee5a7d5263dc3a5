/**
 * The insulin beneficiary cost loader: 9 fields per line; the tier becomes an
 * integer when it is one and stays text otherwise, the days supply becomes an
 * integer or NULL, and the four copay amounts become numbers or NULL. No
 * field makes the load fail.
 */
module InsulinCostLoader {
  import opened Wrappers
  import opened Text
  import opened Seqs
  import opened PipeFile
  import opened Batching

  const Arity: nat := 9
  const BatchSize: nat := 1000

  /** The tier column: `.` and any other non-integer kept as text. */
  function TierCell(v: string): Cell
  {
    if v == "." then Str(v)
    else match ParseInt(v)
      case Some(n) => Int(n)
      case None => Str(v)
  }

  /** The days-supply column: its integer, or NULL when `int()` raises (the empty field included). */
  function DaysCell(v: string): Cell
  {
    match ParseInt(v)
    case Some(n) => Int(n)
    case None => Null
  }

  /** `parse_float`: NULL for an empty or unreadable amount. */
  function CopayCell(v: string): Cell
  {
    if v == "" then Null
    else match ParseDecimal(v)
      case Some(d) => Float(d)
      case None => Null
  }

  /** The row tuple built from the fields of a line. */
  function InsulinRow(f: seq<string>): (r: seq<Cell>)
    requires |f| == Arity
    ensures |r| == Arity
  {
    [Str(f[0]), Str(f[1]), Str(f[2]), TierCell(f[3]), DaysCell(f[4]),
     CopayCell(f[5]), CopayCell(f[6]), CopayCell(f[7]), CopayCell(f[8])]
  }

  function ConvertInsulin(f: seq<string>): Step
  {
    if |f| != Arity then Skip else Emit(InsulinRow(f))
  }

  /** `parse_float(val)` written as the source's guard and try/except. */
  method ParseFloat(val: string) returns (c: Cell)
    ensures c == CopayCell(val)
  {
    if val == "" {
      return Null;
    }
    var d := ParseDecimal(val);
    if d.None? {
      return Null;
    }
    c := Float(d.value);
  }

  /** The conversion of the fields of one line, branch by branch. */
  method ConvertFields(fields: seq<string>) returns (step: Step)
    requires |fields| == Arity
    ensures step == ConvertInsulin(fields)
  {
    var tierValue: Cell;
    if fields[3] == "." {
      tierValue := Str(fields[3]);
    } else {
      var t := ParseInt(fields[3]);
      tierValue := if t.Some? then Int(t.value) else Str(fields[3]);
    }
    var d := ParseInt(fields[4]);
    var daysSupplyValue := if d.Some? then Int(d.value) else Null;
    var c5 := ParseFloat(fields[5]);
    var c6 := ParseFloat(fields[6]);
    var c7 := ParseFloat(fields[7]);
    var c8 := ParseFloat(fields[8]);
    step := Emit([Str(fields[0]), Str(fields[1]), Str(fields[2]), tierValue, daysSupplyValue, c5, c6, c7, c8]);
  }

  /** The parsing loop over the lines of the file, header first. */
  method ParseLines(lines: seq<string>) returns (data: seq<seq<Cell>>)
    ensures Load(lines, Arity, ConvertInsulin) == Ok(data)
  {
    var headerSkipped := false;
    data := [];
    var i := 0;
    while i < |lines|
      invariant 0 <= i <= |lines|
      invariant headerSkipped <==> i > 0
      invariant i == 0 ==> data == []
      invariant i > 0 ==> Load(lines[..i], Arity, ConvertInsulin) == Ok(data)
    {
      if !headerSkipped {
        headerSkipped := true;
        LoadFirst(lines, Arity, ConvertInsulin);
        i := i + 1;
        continue;
      }
      LoadSnoc(lines, i, Arity, ConvertInsulin);
      var fields := Fields(lines[i]);
      if |fields| == Arity {
        var step := ConvertFields(fields);
        assert Extend(Ok(data), lines[i], Arity, ConvertInsulin) == Push(Ok(data), step);
        data := data + [step.row];
      }
      i := i + 1;
    }
    assert lines[..i] == lines;
  }

  /** The whole script: parse every line, then hand the rows to the INSERT in batches of `BatchSize`. */
  method LoadFile(lines: seq<string>) returns (batches: seq<seq<seq<Cell>>>)
    ensures Load(lines, Arity, ConvertInsulin).Ok?
    ensures Flatten(batches) == Load(lines, Arity, ConvertInsulin).value
    ensures forall k :: 0 <= k < |batches| ==> 0 < |batches[k]| <= BatchSize
  {
    var data := ParseLines(lines);
    batches := Batches(data, BatchSize);
  }

  /** The loader never fails and yields one row per kept line, in file order. */
  lemma LoadOutcome(lines: seq<string>)
    ensures var kept := KeptLines(lines, Arity);
            Load(lines, Arity, ConvertInsulin).Ok?
            && |Load(lines, Arity, ConvertInsulin).value| == |kept|
            && forall k :: 0 <= k < |kept| ==>
                 |Fields(kept[k])| == Arity && Load(lines, Arity, ConvertInsulin).value[k] == InsulinRow(Fields(kept[k]))
  {
    KeptHaveArity(lines, Arity);
    LoadTotal(lines, Arity, ConvertInsulin);
  }

  /**
   * The special case for `.` changes nothing: the tier is text exactly when it
   * is not an integer literal, and then it is the field itself.
   */
  lemma TierTextIffNotInteger(v: string)
    ensures TierCell(v).Str? <==> ParseInt(v).None?
    ensures TierCell(v).Str? ==> TierCell(v) == Str(v)
    ensures TierCell(v).Int? ==> ParseInt(v) == Some(TierCell(v).i)
  {
    if v == "." {
      StripNoSpace(v);
      assert !IsDigitRun(v);
    }
  }

  /**
   * Column by column, the row is read from the field at the same position:
   * contract, plan and segment as text; the tier as an integer when it is one,
   * else its text; the days supply as its integer, else NULL; and each of the
   * four amounts as the number it spells, NULL when empty or unreadable.
   */
  lemma InsulinRowColumns(f: seq<string>)
    requires |f| == Arity
    ensures InsulinRow(f)[..3] == [Str(f[0]), Str(f[1]), Str(f[2])]
    ensures (InsulinRow(f)[3] == Str(f[3]) <==> ParseInt(f[3]).None?)
            && (ParseInt(f[3]).Some? ==> InsulinRow(f)[3] == Int(ParseInt(f[3]).value))
    ensures (InsulinRow(f)[4] == Null <==> ParseInt(f[4]).None?)
            && (ParseInt(f[4]).Some? ==> InsulinRow(f)[4] == Int(ParseInt(f[4]).value))
    ensures forall k :: 5 <= k < Arity ==>
              (InsulinRow(f)[k] == Null <==> f[k] == "" || ParseDecimal(f[k]).None?)
              && (InsulinRow(f)[k] != Null ==> Some(InsulinRow(f)[k].d) == ParseDecimal(f[k]))
  {
    TierTextIffNotInteger(f[3]);
  }

  /** An empty amount or days supply always loads as NULL. */
  lemma EmptyNumbersAreNull()
    ensures DaysCell("") == Null && CopayCell("") == Null
  {
    assert Strip("") == "";
  }

  /** An amount written as an integer loads as that exact number. */
  lemma IntegerCopay(i: int)
    ensures CopayCell(IntToString(i)) == Float(Decimal(i, 0))
  {
    DecimalOfInteger(i);
  }
}
