/**
 * The values a Python handler hands to the JSON encoder, and `convert_decimals`
 * (`Backend/Features/main.py`), which replaces every `Decimal` by a float
 * inside lists and dicts. Floating point is left out: a float keeps the
 * decimal value it was converted from.
 */
module JsonValues {
  import opened Text

  datatype JValue =
    | JNull
    | JBool(b: bool)
    | JInt(i: int)
    | JStr(s: string)
    | JDecimal(d: Decimal)
    | JFloat(f: Decimal)
    | JList(items: seq<JValue>)
    | JDict(entries: seq<(string, JValue)>)

  function Keys(entries: seq<(string, JValue)>): (r: seq<string>)
    ensures |r| == |entries|
    ensures forall i :: 0 <= i < |entries| ==> r[i] == entries[i].0
  {
    seq(|entries|, i requires 0 <= i < |entries| => entries[i].0)
  }

  /** No `Decimal` anywhere in the value. */
  predicate DecimalFree(v: JValue)
    decreases v
  {
    match v
    case JDecimal(_) => false
    case JList(items) => forall i :: 0 <= i < |items| ==> DecimalFree(items[i])
    case JDict(entries) => forall i :: 0 <= i < |entries| ==> DecimalFree(entries[i].1)
    case _ => true
  }

  /**
   * `r` is `v` with some `Decimal` leaves turned into floats of the same value:
   * the same lists of the same lengths, the same dict keys in the same order,
   * every other leaf unchanged.
   */
  predicate OnlyDecimalsChanged(v: JValue, r: JValue)
    decreases v
  {
    match v
    case JDecimal(d) => r == v || r == JFloat(d)
    case JList(items) =>
      r.JList? && |r.items| == |items|
      && forall i :: 0 <= i < |items| ==> OnlyDecimalsChanged(items[i], r.items[i])
    case JDict(entries) =>
      r.JDict? && Keys(r.entries) == Keys(entries)
      && forall i :: 0 <= i < |entries| ==> OnlyDecimalsChanged(entries[i].1, r.entries[i].1)
    case _ => r == v
  }

  function ConvertDecimals(v: JValue): (r: JValue)
    ensures v.JList? <==> r.JList?
    ensures v.JDict? <==> r.JDict?
    ensures v.JList? ==> |r.items| == |v.items|
    ensures v.JDict? ==> Keys(r.entries) == Keys(v.entries)
    decreases v
  {
    match v
    case JList(items) => JList(seq(|items|, i requires 0 <= i < |items| => ConvertDecimals(items[i])))
    case JDict(entries) =>
      JDict(seq(|entries|, i requires 0 <= i < |entries| => (entries[i].0, ConvertDecimals(entries[i].1))))
    case JDecimal(d) => JFloat(d)
    case _ => v
  }

  /** The conversion changes only `Decimal` leaves, and it leaves none behind. */
  lemma {:induction false} ConvertChangesOnlyDecimals(v: JValue)
    ensures OnlyDecimalsChanged(v, ConvertDecimals(v))
    ensures DecimalFree(ConvertDecimals(v))
    decreases v
  {
    match v
    case JList(items) =>
      forall i | 0 <= i < |items|
        ensures OnlyDecimalsChanged(items[i], ConvertDecimals(v).items[i])
        ensures DecimalFree(ConvertDecimals(v).items[i])
      {
        ConvertChangesOnlyDecimals(items[i]);
      }
    case JDict(entries) =>
      forall i | 0 <= i < |entries|
        ensures OnlyDecimalsChanged(entries[i].1, ConvertDecimals(v).entries[i].1)
        ensures DecimalFree(ConvertDecimals(v).entries[i].1)
      {
        ConvertChangesOnlyDecimals(entries[i].1);
      }
    case _ =>
  }

  /** A value without decimals passes through unchanged. */
  lemma {:induction false} ConvertIdentityWithoutDecimals(v: JValue)
    requires DecimalFree(v)
    ensures ConvertDecimals(v) == v
    decreases v
  {
    match v
    case JList(items) =>
      var r := ConvertDecimals(v).items;
      forall i | 0 <= i < |items| ensures r[i] == items[i] {
        ConvertIdentityWithoutDecimals(items[i]);
      }
      assert r == items;
    case JDict(entries) =>
      var r := ConvertDecimals(v).entries;
      forall i | 0 <= i < |entries| ensures r[i] == entries[i] {
        ConvertIdentityWithoutDecimals(entries[i].1);
      }
      assert r == entries;
    case _ =>
  }

  /** Converting twice is converting once. */
  lemma ConvertIdempotent(v: JValue)
    ensures ConvertDecimals(ConvertDecimals(v)) == ConvertDecimals(v)
  {
    ConvertChangesOnlyDecimals(v);
    ConvertIdentityWithoutDecimals(ConvertDecimals(v));
  }
}
