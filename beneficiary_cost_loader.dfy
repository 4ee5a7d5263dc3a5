/** The beneficiary cost loader: 24 fields per line, every field inserted as text. */
module BeneficiaryCostLoader {
  import opened Wrappers
  import opened Text
  import opened Seqs
  import opened PipeFile
  import opened Batching

  const Arity: nat := 24
  const BatchSize: nat := 1000

  function ConvertBeneficiary(f: seq<string>): Step
  {
    if |f| != Arity then Skip else Emit(TextCells(f))
  }

  /** The parsing loop over the lines of the file, header first. */
  method ParseLines(lines: seq<string>) returns (data: seq<seq<Cell>>)
    ensures Load(lines, Arity, ConvertBeneficiary) == Ok(data)
  {
    var headerSkipped := false;
    data := [];
    var i := 0;
    while i < |lines|
      invariant 0 <= i <= |lines|
      invariant headerSkipped <==> i > 0
      invariant i == 0 ==> data == []
      invariant i > 0 ==> Load(lines[..i], Arity, ConvertBeneficiary) == Ok(data)
    {
      if !headerSkipped {
        headerSkipped := true;
        LoadFirst(lines, Arity, ConvertBeneficiary);
        i := i + 1;
        continue;
      }
      LoadSnoc(lines, i, Arity, ConvertBeneficiary);
      var fields := Fields(lines[i]);
      if |fields| == Arity {
        data := data + [TextCells(fields)];
      }
      i := i + 1;
    }
    assert lines[..i] == lines;
  }

  /** The whole script: parse every line, then hand the rows to the INSERT in batches of `BatchSize`. */
  method LoadFile(lines: seq<string>) returns (batches: seq<seq<seq<Cell>>>)
    ensures Load(lines, Arity, ConvertBeneficiary).Ok?
    ensures Flatten(batches) == Load(lines, Arity, ConvertBeneficiary).value
    ensures forall k :: 0 <= k < |batches| ==> 0 < |batches[k]| <= BatchSize
  {
    var data := ParseLines(lines);
    batches := Batches(data, BatchSize);
  }

  /** One row per kept line, in file order, holding that line's stripped fields verbatim. */
  lemma LoadOutcome(lines: seq<string>)
    ensures Load(lines, Arity, ConvertBeneficiary).Ok?
    ensures var kept := KeptLines(lines, Arity);
            var d := Load(lines, Arity, ConvertBeneficiary).value;
            |d| == |kept|
            && forall k :: 0 <= k < |kept| ==>
                 |Fields(kept[k])| == Arity && |d[k]| == Arity
                 && forall j :: 0 <= j < Arity ==> d[k][j] == Str(Fields(kept[k])[j])
  {
    KeptHaveArity(lines, Arity);
    LoadTotal(lines, Arity, ConvertBeneficiary);
  }
}
