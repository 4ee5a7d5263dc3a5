/**
 * The shape shared by every flat-file loader: the first line is a header and
 * is skipped whatever it holds; every other line is cut into stripped
 * `|`-separated fields; a line with the wrong number of fields is dropped
 * silently; the fields of every other line are converted into one row, or the
 * line is skipped, or the conversion raises and the whole load stops.
 */
module PipeFile {
  import opened Wrappers
  import opened Text
  import opened Seqs

  /** One element of a row tuple handed to the INSERT. */
  datatype Cell = Str(s: string) | Int(i: int) | Float(d: Decimal) | Null

  /** Python's `ValueError: invalid literal for int() ...`, which ends the loader script. */
  datatype LoadError = InvalidLiteral(literal: string)

  /** What a loader makes of the fields of a line that has the expected arity. */
  datatype Step = Emit(row: seq<Cell>) | Skip | Abort(err: LoadError)

  /** One conversion result added to what the loop has collected so far. */
  function Push(acc: Result<seq<seq<Cell>>, LoadError>, step: Step): Result<seq<seq<Cell>>, LoadError>
  {
    match acc
    case Err(e) => Err(e)
    case Ok(data) =>
      match step
      case Emit(row) => Ok(data + [row])
      case Skip => Ok(data)
      case Abort(e) => Err(e)
  }

  /** One line offered to the loop: dropped when its arity is wrong, converted and pushed otherwise. */
  function Extend(acc: Result<seq<seq<Cell>>, LoadError>, line: string, arity: nat,
                  conv: seq<string> -> Step): Result<seq<seq<Cell>>, LoadError>
  {
    var fields := Fields(line);
    if |fields| != arity then acc else Push(acc, conv(fields))
  }

  /** The loop over the lines after the header. */
  function LoadBody(body: seq<string>, arity: nat, conv: seq<string> -> Step): Result<seq<seq<Cell>>, LoadError>
    decreases |body|
  {
    if body == [] then Ok([])
    else Extend(LoadBody(body[..|body| - 1], arity, conv), body[|body| - 1], arity, conv)
  }

  /** The whole parsing loop of a loader, header line included. */
  function Load(lines: seq<string>, arity: nat, conv: seq<string> -> Step): Result<seq<seq<Cell>>, LoadError>
  {
    if lines == [] then Ok([]) else LoadBody(lines[1..], arity, conv)
  }

  /** One more line through the loop (the invariant step of every loader method). */
  lemma LoadSnoc(lines: seq<string>, i: nat, arity: nat, conv: seq<string> -> Step)
    requires 0 < i < |lines|
    ensures Load(lines[..i + 1], arity, conv) == Extend(Load(lines[..i], arity, conv), lines[i], arity, conv)
  {
    var body := lines[..i + 1][1..];
    assert body[..|body| - 1] == lines[..i][1..];
  }

  lemma LoadFirst(lines: seq<string>, arity: nat, conv: seq<string> -> Step)
    requires 0 < |lines|
    ensures Load(lines[..1], arity, conv) == Ok([])
  {
    assert lines[..1][1..] == [];
  }

  /** Once the conversion has raised, later lines change nothing: the script has stopped. */
  lemma {:induction false} LoadBodyErrPersists(body: seq<string>, more: seq<string>, arity: nat, conv: seq<string> -> Step)
    requires LoadBody(body, arity, conv).Err?
    ensures LoadBody(body + more, arity, conv) == LoadBody(body, arity, conv)
    decreases |more|
  {
    if more == [] {
      assert body + more == body;
    } else {
      var init := more[..|more| - 1];
      LoadBodyErrPersists(body, init, arity, conv);
      assert (body + more)[..|body + more| - 1] == body + init;
    }
  }

  lemma LoadErrPersists(lines: seq<string>, i: nat, arity: nat, conv: seq<string> -> Step)
    requires 0 < i <= |lines|
    requires Load(lines[..i], arity, conv).Err?
    ensures Load(lines, arity, conv) == Load(lines[..i], arity, conv)
  {
    LoadBodyErrPersists(lines[..i][1..], lines[i..], arity, conv);
    assert lines[..i][1..] + lines[i..] == lines[1..];
  }

  /** The header line is discarded whatever its content. */
  lemma HeaderIgnored(h1: string, h2: string, rest: seq<string>, arity: nat, conv: seq<string> -> Step)
    ensures Load([h1] + rest, arity, conv) == Load([h2] + rest, arity, conv)
  {
    assert ([h1] + rest)[1..] == rest == ([h2] + rest)[1..];
  }

  /** A line has the loader's arity exactly when it holds `arity - 1` pipe characters. */
  lemma ArityIffPipes(line: string, arity: nat)
    requires arity > 0
    ensures |Fields(line)| == arity <==> Count(line, '|') == arity - 1
  {
  }

  /** The test a line must pass to be loaded at all. */
  function HasArity(arity: nat): string -> bool
  {
    (l: string) => |Fields(l)| == arity
  }

  /** The lines after the header that have the expected arity, in file order. */
  function KeptLines(lines: seq<string>, arity: nat): seq<string>
  {
    if lines == [] then [] else Filter(HasArity(arity), lines[1..])
  }

  /** What the conversion makes of each kept line, in file order. */
  function Steps(kept: seq<string>, conv: seq<string> -> Step): (r: seq<Step>)
    ensures |r| == |kept|
    ensures forall k :: 0 <= k < |kept| ==> r[k] == conv(Fields(kept[k]))
  {
    seq(|kept|, k requires 0 <= k < |kept| => conv(Fields(kept[k])))
  }

  /** The rows of the steps up to the first `Abort`, or that `Abort`'s error. */
  function Collect(steps: seq<Step>): Result<seq<seq<Cell>>, LoadError>
    decreases |steps|
  {
    if steps == [] then Ok([]) else Push(Collect(steps[..|steps| - 1]), steps[|steps| - 1])
  }

  lemma CollectSnoc(steps: seq<Step>, x: Step)
    ensures Collect(steps + [x]) == Push(Collect(steps), x)
  {
    assert (steps + [x])[..|steps|] == steps;
  }

  lemma StepsSnoc(kept: seq<string>, x: string, conv: seq<string> -> Step)
    ensures Steps(kept + [x], conv) == Steps(kept, conv) + [conv(Fields(x))]
  {
  }

  /** The rows of the `Emit` steps, in order. */
  function Rows(steps: seq<Step>): seq<seq<Cell>>
    decreases |steps|
  {
    if steps == [] then []
    else Rows(steps[..|steps| - 1]) + (if steps[|steps| - 1].Emit? then [steps[|steps| - 1].row] else [])
  }

  lemma {:induction false} RowsAtMostSteps(steps: seq<Step>)
    ensures |Rows(steps)| <= |steps|
    decreases |steps|
  {
    if steps != [] {
      RowsAtMostSteps(steps[..|steps| - 1]);
    }
  }

  predicate NoAbort(steps: seq<Step>)
  {
    forall k :: 0 <= k < |steps| ==> !steps[k].Abort?
  }

  /**
   * `Collect` fails exactly when some step aborts, and then with the error of
   * the FIRST aborting step; otherwise it yields the rows of the `Emit` steps.
   */
  lemma {:induction false} CollectCases(steps: seq<Step>)
    ensures NoAbort(steps) ==> Collect(steps) == Ok(Rows(steps))
    ensures !NoAbort(steps) ==>
              exists k :: 0 <= k < |steps| && steps[k].Abort? && NoAbort(steps[..k])
                          && Collect(steps) == Err(steps[k].err)
    decreases |steps|
  {
    if steps != [] {
      var init := steps[..|steps| - 1];
      CollectCases(init);
      assert forall k :: 0 <= k < |init| ==> init[k] == steps[k];
      if !NoAbort(init) {
        var k :| 0 <= k < |init| && init[k].Abort? && NoAbort(init[..k]) && Collect(init) == Err(init[k].err);
        assert init[..k] == steps[..k];
      } else if steps[|steps| - 1].Abort? {
        var k := |steps| - 1;
        assert steps[..k] == init;
        assert steps[k].Abort? && NoAbort(steps[..k]) && Collect(steps) == Err(steps[k].err);
      } else {
        assert Collect(init) == Ok(Rows(init));
        assert Rows(steps) == Rows(init) + (if steps[|steps| - 1].Emit? then [steps[|steps| - 1].row] else []);
        if steps[|steps| - 1].Skip? {
          assert Rows(init) + [] == Rows(init);
        }
      }
    }
  }

  /** When every step emits, row k is exactly what the k-th step emitted. */
  lemma {:induction false} RowsAllEmit(steps: seq<Step>)
    requires forall k :: 0 <= k < |steps| ==> steps[k].Emit?
    ensures |Rows(steps)| == |steps|
    ensures forall k :: 0 <= k < |steps| ==> Rows(steps)[k] == steps[k].row
    decreases |steps|
  {
    if steps != [] {
      var init := steps[..|steps| - 1];
      RowsAllEmit(init);
      assert Rows(steps) == Rows(init) + [steps[|steps| - 1].row];
      assert forall k :: 0 <= k < |init| ==> Rows(steps)[k] == Rows(init)[k] == steps[k].row;
    }
  }

  /**
   * The parsing loop is a pipeline: drop the header, keep the lines of the
   * right arity in file order, convert each, and collect the results up to the
   * first failure.
   */
  lemma LoadIsCollect(lines: seq<string>, arity: nat, conv: seq<string> -> Step)
    ensures Load(lines, arity, conv) == Collect(Steps(KeptLines(lines, arity), conv))
  {
    if lines != [] {
      LoadBodyIsCollect(lines[1..], arity, conv);
    }
  }

  lemma {:induction false} LoadBodyIsCollect(body: seq<string>, arity: nat, conv: seq<string> -> Step)
    ensures LoadBody(body, arity, conv) == Collect(Steps(Filter(HasArity(arity), body), conv))
    decreases |body|
  {
    if body != [] {
      var keep := HasArity(arity);
      var init, last := body[..|body| - 1], body[|body| - 1];
      LoadBodyIsCollect(init, arity, conv);
      var acc := LoadBody(init, arity, conv);
      assert LoadBody(body, arity, conv) == Extend(acc, last, arity, conv);
      SplitLast(body);
      FilterSnoc(keep, init, last);
      var keptInit := Filter(keep, init);
      if keep(last) {
        assert Filter(keep, body) == keptInit + [last];
        StepsSnoc(keptInit, last, conv);
        CollectSnoc(Steps(keptInit, conv), conv(Fields(last)));
        assert Extend(acc, last, arity, conv) == Push(acc, conv(Fields(last)));
      } else {
        assert Filter(keep, body) == keptInit;
        assert Extend(acc, last, arity, conv) == acc;
      }
    }
  }

  /** All the fields as text, unconverted. */
  function TextCells(f: seq<string>): (r: seq<Cell>)
    ensures |r| == |f|
    ensures forall k :: 0 <= k < |f| ==> r[k] == Str(f[k])
  {
    seq(|f|, k requires 0 <= k < |f| => Str(f[k]))
  }

  /** `fields[i] = int(fields[i]) if fields[i] != '' else None`: the outcome for one column. */
  function IntCell(v: string): (r: Result<Cell, LoadError>)
    ensures r.Ok? <==> v == "" || ParseInt(v).Some?
    ensures r.Err? ==> r.error == InvalidLiteral(v)
    ensures r == Ok(Null) <==> v == ""
  {
    if v == "" then Ok(Null)
    else match ParseInt(v)
      case Some(n) => Ok(Int(n))
      case None => Err(InvalidLiteral(v))
  }

  /** An empty field as NULL, any other as its text. */
  function NullIfEmpty(v: string): (r: Cell)
    ensures r == Null <==> v == ""
    ensures r != Null ==> r == Str(v)
  {
    if v == "" then Null else Str(v)
  }

  /** The converted cell of an integer column whose conversion succeeds. */
  function IntOrNull(v: string): Cell
  {
    match IntCell(v)
    case Ok(c) => c
    case Err(_) => Str(v)
  }

  /** A field that converts becomes NULL when empty, else the integer it spells. */
  lemma IntOrNullMeaning(v: string)
    requires IntCell(v).Ok?
    ensures (IntOrNull(v) == Null && v == "") || (IntOrNull(v).Int? && ParseInt(v) == Some(IntOrNull(v).i))
  {
  }

  /**
   * The position, in the order the columns are converted, of the first integer
   * column whose conversion raises; `None` when every one converts.
   */
  function FirstInvalid(f: seq<string>, idx: seq<nat>): (r: Option<nat>)
    requires forall i :: 0 <= i < |idx| ==> idx[i] < |f|
    ensures r.None? <==> forall i :: 0 <= i < |idx| ==> IntCell(f[idx[i]]).Ok?
    ensures r.Some? ==> r.value < |idx| && IntCell(f[idx[r.value]]).Err?
                        && forall i :: 0 <= i < r.value ==> IntCell(f[idx[i]]).Ok?
    decreases |idx|
  {
    if idx == [] then None
    else if IntCell(f[idx[0]]).Err? then Some(0)
    else
      match FirstInvalid(f, idx[1..])
      case None => None
      case Some(i) => Some(i + 1)
  }

  /** What converting the listed integer columns of `cells` in order yields: the first error, or the new cells. */
  function IntColumns(f: seq<string>, cells: seq<Cell>, idx: seq<nat>): Result<seq<Cell>, LoadError>
    requires forall i :: 0 <= i < |idx| ==> idx[i] < |f|
  {
    match FirstInvalid(f, idx)
    case Some(i) => Err(InvalidLiteral(f[idx[i]]))
    case None => Ok(seq(|cells|, c requires 0 <= c < |cells| => if c in idx then IntOrNull(f[c]) else cells[c]))
  }

  /**
   * The in-place loop `for i in idx: fields[i] = None if fields[i] == '' else int(fields[i])`
   * over the cells of a line; it stops at the first column that does not convert.
   */
  method ConvertIntColumns(fields: seq<string>, cells: seq<Cell>, idx: seq<nat>) returns (r: Result<seq<Cell>, LoadError>)
    requires |cells| == |fields|
    requires forall i :: 0 <= i < |idx| ==> idx[i] < |fields|
    ensures r == IntColumns(fields, cells, idx)
  {
    var out := cells;
    var i := 0;
    while i < |idx|
      invariant 0 <= i <= |idx|
      invariant |out| == |cells|
      invariant forall j :: 0 <= j < i ==> IntCell(fields[idx[j]]).Ok?
      invariant forall c :: 0 <= c < |out| ==> out[c] == if c in idx[..i] then IntOrNull(fields[c]) else cells[c]
    {
      var c := idx[i];
      if fields[c] == "" {
        out := out[c := Null];
      } else {
        var v := ParseInt(fields[c]);
        if v.None? {
          assert FirstInvalid(fields, idx) == Some(i);
          r := Err(InvalidLiteral(fields[c]));
          assert r == IntColumns(fields, cells, idx);
          return;
        }
        out := out[c := Int(v.value)];
      }
      assert IntCell(fields[idx[i]]).Ok?;
      TakeSnoc(idx, i);
      i := i + 1;
    }
    assert idx[..i] == idx;
    assert FirstInvalid(fields, idx).None?;
    var expected := seq(|cells|, c requires 0 <= c < |cells| => if c in idx then IntOrNull(fields[c]) else cells[c]);
    assert forall c :: 0 <= c < |out| ==> out[c] == expected[c];
    assert out == expected;
    r := Ok(out);
  }

  /** Every line kept by the arity test has that arity. */
  lemma KeptHaveArity(lines: seq<string>, arity: nat)
    ensures forall k :: 0 <= k < |KeptLines(lines, arity)| ==> |Fields(KeptLines(lines, arity)[k])| == arity
  {
    if lines != [] {
      FilterMembers(HasArity(arity), lines[1..]);
    }
  }

  /**
   * A loader whose conversion never skips a line: it either yields exactly one
   * row per kept line, in file order, or fails with the error of the first kept
   * line whose conversion raises.
   */
  lemma LoadWithoutSkips(lines: seq<string>, arity: nat, conv: seq<string> -> Step)
    requires forall f: seq<string> :: |f| == arity ==> !conv(f).Skip?
    ensures var kept := KeptLines(lines, arity);
            Load(lines, arity, conv).Ok? ==>
              |Load(lines, arity, conv).value| == |kept|
              && forall k :: 0 <= k < |kept| ==>
                   conv(Fields(kept[k])).Emit? && Load(lines, arity, conv).value[k] == conv(Fields(kept[k])).row
    ensures var kept := KeptLines(lines, arity);
            Load(lines, arity, conv).Err? ==>
              exists k :: 0 <= k < |kept| && conv(Fields(kept[k])) == Abort(Load(lines, arity, conv).error)
                          && forall j :: 0 <= j < k ==> conv(Fields(kept[j])).Emit?
  {
    var kept := KeptLines(lines, arity);
    var steps := Steps(kept, conv);
    assert Load(lines, arity, conv) == Collect(steps) by {
      LoadIsCollect(lines, arity, conv);
    }
    assert forall k :: 0 <= k < |steps| ==> !steps[k].Skip? by {
      KeptHaveArity(lines, arity);
    }
    CollectWithoutSkips(steps);
  }

  /** Steps that never skip: one row per step, or the error of the first step that aborts. */
  lemma CollectWithoutSkips(steps: seq<Step>)
    requires forall k :: 0 <= k < |steps| ==> !steps[k].Skip?
    ensures Collect(steps).Ok? ==>
              |Collect(steps).value| == |steps|
              && forall k :: 0 <= k < |steps| ==> steps[k].Emit? && Collect(steps).value[k] == steps[k].row
    ensures Collect(steps).Err? ==>
              exists k :: 0 <= k < |steps| && steps[k] == Abort(Collect(steps).error)
                          && forall j :: 0 <= j < k ==> steps[j].Emit?
  {
    CollectCases(steps);
    if NoAbort(steps) {
      RowsAllEmit(steps);
    } else {
      var k :| 0 <= k < |steps| && steps[k].Abort? && NoAbort(steps[..k]) && Collect(steps) == Err(steps[k].err);
      assert forall j :: 0 <= j < k ==> steps[..k][j] == steps[j];
    }
  }

  /** A loader whose conversion never raises always succeeds, with the rows of the lines it does not skip. */
  lemma LoadWithoutAborts(lines: seq<string>, arity: nat, conv: seq<string> -> Step)
    requires forall f: seq<string> :: !conv(f).Abort?
    ensures Load(lines, arity, conv) == Ok(Rows(Steps(KeptLines(lines, arity), conv)))
  {
    LoadIsCollect(lines, arity, conv);
    CollectCases(Steps(KeptLines(lines, arity), conv));
  }

  /** A loader that converts every kept line into a row yields one row per kept line, in file order. */
  lemma LoadTotal(lines: seq<string>, arity: nat, conv: seq<string> -> Step)
    requires forall f: seq<string> :: |f| == arity ==> conv(f).Emit?
    ensures var kept := KeptLines(lines, arity);
            Load(lines, arity, conv).Ok? && |Load(lines, arity, conv).value| == |kept|
            && forall k :: 0 <= k < |kept| ==>
                 conv(Fields(kept[k])).Emit? && Load(lines, arity, conv).value[k] == conv(Fields(kept[k])).row
  {
    var steps := Steps(KeptLines(lines, arity), conv);
    LoadIsCollect(lines, arity, conv);
    KeptHaveArity(lines, arity);
    CollectCases(steps);
    RowsAllEmit(steps);
  }
}
