/**
 * The geographic locator loader: 7 fields per line, every field inserted as
 * text; the first ten parsed rows are dropped before insertion, and the rest
 * go to the INSERT twenty at a time.
 */
module GeographicLocatorLoader {
  import opened Wrappers
  import opened Text
  import opened Seqs
  import opened PipeFile
  import opened Batching

  const Arity: nat := 7
  const Dropped: nat := 10
  const BatchSize: nat := 20

  function ConvertLocator(f: seq<string>): Step
  {
    if |f| != Arity then Skip else Emit(TextCells(f))
  }

  /** Python's `data[10:]`: empty when there are ten rows or fewer. */
  function DropLeading<T>(d: seq<T>): (r: seq<T>)
    ensures |r| == if |d| <= Dropped then 0 else |d| - Dropped
    ensures forall k :: 0 <= k < |r| ==> r[k] == d[k + Dropped]
  {
    if |d| <= Dropped then [] else d[Dropped..]
  }

  /** The parsing loop over the lines of the file, header first. */
  method ParseLines(lines: seq<string>) returns (data: seq<seq<Cell>>)
    ensures Load(lines, Arity, ConvertLocator) == Ok(data)
  {
    var headerSkipped := false;
    data := [];
    var i := 0;
    while i < |lines|
      invariant 0 <= i <= |lines|
      invariant headerSkipped <==> i > 0
      invariant i == 0 ==> data == []
      invariant i > 0 ==> Load(lines[..i], Arity, ConvertLocator) == Ok(data)
    {
      if !headerSkipped {
        headerSkipped := true;
        LoadFirst(lines, Arity, ConvertLocator);
        i := i + 1;
        continue;
      }
      LoadSnoc(lines, i, Arity, ConvertLocator);
      var fields := Fields(lines[i]);
      if |fields| == Arity {
        data := data + [TextCells(fields)];
      }
      i := i + 1;
    }
    assert lines[..i] == lines;
  }

  /** The whole script: parse, drop the first ten rows, insert the rest twenty at a time. */
  method LoadFile(lines: seq<string>) returns (batches: seq<seq<seq<Cell>>>)
    ensures Load(lines, Arity, ConvertLocator).Ok?
    ensures Flatten(batches) == DropLeading(Load(lines, Arity, ConvertLocator).value)
    ensures forall k :: 0 <= k < |batches| ==> 0 < |batches[k]| <= BatchSize
  {
    var data := ParseLines(lines);
    data := DropLeading(data);
    batches := Batches(data, BatchSize);
  }

  /**
   * What is inserted is the kept lines from the eleventh on, in file order,
   * each with its stripped fields verbatim; a file with at most ten kept lines
   * inserts nothing.
   */
  lemma InsertedRows(lines: seq<string>)
    ensures Load(lines, Arity, ConvertLocator).Ok?
    ensures var kept := KeptLines(lines, Arity);
            var ins := DropLeading(Load(lines, Arity, ConvertLocator).value);
            |ins| == (if |kept| <= Dropped then 0 else |kept| - Dropped)
            && forall k :: 0 <= k < |ins| ==>
                 |Fields(kept[k + Dropped])| == Arity && |ins[k]| == Arity
                 && forall j :: 0 <= j < Arity ==> ins[k][j] == Str(Fields(kept[k + Dropped])[j])
  {
    KeptHaveArity(lines, Arity);
    LoadTotal(lines, Arity, ConvertLocator);
  }
}
