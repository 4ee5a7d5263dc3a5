/**
 * Character- and string-level operations the loaders and the endpoints rely on:
 * Python's `str.strip`, `str.split('|')`, `int(str)`, `float(str)` on decimal
 * literals, `str(int)`, and upper-casing as used by the Y/N flag validation;
 * and JavaScript's `trim()` and `Number()` on decimal literals, which skip a
 * different set of whitespace characters.
 */
module Text {
  import opened Wrappers

  /** The characters Python's `str.isspace` (and so `str.strip()`) treats as whitespace. */
  predicate IsSpace(c: char)
  {
    c == ' ' || c == '\t' || c == '\n' || c == '\r' || c == '\U{000B}' || c == '\U{000C}'
    || ('\U{001C}' <= c <= '\U{001F}') || c == '\U{0085}' || c == '\U{00A0}' || c == '\U{1680}'
    || ('\U{2000}' <= c <= '\U{200A}') || c == '\U{2028}' || c == '\U{2029}' || c == '\U{202F}'
    || c == '\U{205F}' || c == '\U{3000}'
  }

  predicate AllSpace(s: string)
  {
    forall i :: 0 <= i < |s| ==> IsSpace(s[i])
  }

  /** Number of occurrences of `c` in `s`. */
  function Count(s: string, c: char): nat
    decreases |s|
  {
    if s == [] then 0 else (if s[0] == c then 1 else 0) + Count(s[1..], c)
  }

  lemma {:induction false} CountAppend(a: string, b: string, c: char)
    ensures Count(a + b, c) == Count(a, c) + Count(b, c)
    decreases |a|
  {
    if a == [] {
      assert a + b == b;
    } else {
      assert (a + b)[1..] == a[1..] + b;
      CountAppend(a[1..], b, c);
    }
  }

  /** `s` without its leading whitespace. */
  function StripLeft(s: string): (r: string)
    ensures |r| <= |s|
    decreases |s|
  {
    if s != [] && IsSpace(s[0]) then StripLeft(s[1..]) else s
  }

  /** `StripLeft` cuts a whitespace prefix and stops at the first non-space character. */
  lemma {:induction false} StripLeftSpec(s: string)
    ensures var r := StripLeft(s); r == s[|s| - |r|..] && AllSpace(s[..|s| - |r|]) && (r == [] || !IsSpace(r[0]))
    decreases |s|
  {
    if s != [] && IsSpace(s[0]) {
      StripLeftSpec(s[1..]);
      var r := StripLeft(s);
      assert s[..|s| - |r|] == [s[0]] + s[1..][..|s| - 1 - |r|];
    }
  }

  /** `s` without its trailing whitespace. */
  function StripRight(s: string): (r: string)
    ensures |r| <= |s|
    decreases |s|
  {
    if s != [] && IsSpace(s[|s| - 1]) then StripRight(s[..|s| - 1]) else s
  }

  /** `StripRight` cuts a whitespace suffix and stops at the last non-space character. */
  lemma {:induction false} StripRightSpec(s: string)
    ensures var r := StripRight(s); r == s[..|r|] && AllSpace(s[|r|..]) && (r == [] || !IsSpace(r[|r| - 1]))
    decreases |s|
  {
    if s != [] && IsSpace(s[|s| - 1]) {
      var init := s[..|s| - 1];
      StripRightSpec(init);
      var r := StripRight(s);
      assert s[|r|..] == init[|r|..] + [s[|s| - 1]];
    }
  }

  /** Python's `s.strip()`: `s` without its leading and trailing whitespace. */
  function Strip(s: string): (r: string)
    ensures |r| <= |s|
  {
    StripRight(StripLeft(s))
  }

  /** The result of `Strip` neither starts nor ends with whitespace. */
  lemma StripEnds(s: string)
    ensures var r := Strip(s); r == [] || (!IsSpace(r[0]) && !IsSpace(r[|r| - 1]))
  {
    var l := StripLeft(s);
    StripLeftSpec(s);
    StripRightSpec(l);
    var r := StripRight(l);
    if r != [] {
      assert r[0] == l[0];
    }
  }

  /** The result of `Strip` is a contiguous slice of `s` and only whitespace is cut away. */
  lemma StripIsSlice(s: string)
    ensures var r := Strip(s); var i := |s| - |StripLeft(s)|;
            i + |r| <= |s| && r == s[i..i + |r|] && AllSpace(s[..i]) && AllSpace(s[i + |r|..])
  {
    var l := StripLeft(s);
    var r := StripRight(l);
    var i := |s| - |l|;
    assert l == s[i..] && AllSpace(s[..i]) by { StripLeftSpec(s); }
    assert r == l[..|r|] && AllSpace(l[|r|..]) by { StripRightSpec(l); }
    SuffixSlices(s, i, |r|);
  }

  lemma SuffixSlices(s: string, i: nat, n: nat)
    requires i + n <= |s|
    ensures s[i..][..n] == s[i..i + n] && s[i..][n..] == s[i + n..]
  {
  }

  /** A string that neither starts nor ends with whitespace is left alone. */
  lemma StripNoSpace(t: string)
    requires t != [] && !IsSpace(t[0]) && !IsSpace(t[|t| - 1])
    ensures Strip(t) == t
  {
    assert StripLeft(t) == t;
    assert StripRight(t) == t;
  }

  /** Stripping leaves no whitespace to strip. */
  lemma StripIdempotent(s: string)
    ensures Strip(Strip(s)) == Strip(s)
  {
    var t := Strip(s);
    StripEnds(s);
    if t != [] {
      StripNoSpace(t);
    }
  }

  lemma {:induction false} StripLeftKeepsCount(s: string, c: char)
    requires !IsSpace(c)
    ensures Count(StripLeft(s), c) == Count(s, c)
    decreases |s|
  {
    if s != [] && IsSpace(s[0]) {
      StripLeftKeepsCount(s[1..], c);
    }
  }

  lemma {:induction false} StripRightKeepsCount(s: string, c: char)
    requires !IsSpace(c)
    ensures Count(StripRight(s), c) == Count(s, c)
    decreases |s|
  {
    if s != [] && IsSpace(s[|s| - 1]) {
      var init := s[..|s| - 1];
      assert s == init + [s[|s| - 1]];
      CountAppend(init, [s[|s| - 1]], c);
      StripRightKeepsCount(init, c);
    }
  }

  /** Stripping removes whitespace only, so it keeps every occurrence of a non-space character. */
  lemma StripKeepsCount(s: string, c: char)
    requires !IsSpace(c)
    ensures Count(Strip(s), c) == Count(s, c)
  {
    StripLeftKeepsCount(s, c);
    StripRightKeepsCount(StripLeft(s), c);
  }

  /**
   * Python's `s.split(sep)` for a one-character separator: the pieces between
   * the separators, never an empty list (`"".split('|') == [""]`).
   */
  function Split(s: string, sep: char): (r: seq<string>)
    ensures |r| == Count(s, sep) + 1
    decreases |s|
  {
    if s == [] then [""]
    else
      var rest := Split(s[1..], sep);
      if s[0] == sep then [""] + rest
      else [[s[0]] + rest[0]] + rest[1..]
  }

  /** No piece holds the separator. */
  lemma {:induction false} SplitNoSeparator(s: string, sep: char)
    ensures forall k :: 0 <= k < |Split(s, sep)| ==> sep !in Split(s, sep)[k]
    decreases |s|
  {
    if s != [] {
      SplitNoSeparator(s[1..], sep);
      var rest := Split(s[1..], sep);
      if s[0] != sep {
        var parts := Split(s, sep);
        assert parts[0] == [s[0]] + rest[0];
        forall k | 0 < k < |parts| ensures sep !in parts[k] {
          assert parts[k] == rest[k];
        }
      }
    }
  }

  /** Python's `sep.join(parts)`. */
  function Join(parts: seq<string>, sep: char): string
    decreases |parts|
  {
    if parts == [] then ""
    else if |parts| == 1 then parts[0]
    else parts[0] + [sep] + Join(parts[1..], sep)
  }

  /** Splitting loses nothing: joining the pieces with the separator gives back the line. */
  lemma {:induction false} JoinSplit(s: string, sep: char)
    ensures Join(Split(s, sep), sep) == s
    decreases |s|
  {
    if s != [] {
      JoinSplit(s[1..], sep);
      var rest := Split(s[1..], sep);
      if s[0] == sep {
        assert Split(s, sep) == [""] + rest;
        assert ([""] + rest)[1..] == rest;
      } else {
        var parts := [[s[0]] + rest[0]] + rest[1..];
        assert Split(s, sep) == parts;
        if |rest| == 1 {
          assert Join(rest, sep) == rest[0];
        } else {
          assert Join(rest, sep) == rest[0] + [sep] + Join(rest[1..], sep);
          assert parts[1..] == rest[1..];
        }
      }
    }
  }

  /** Each piece stripped, in order. */
  function StripEach(parts: seq<string>): (r: seq<string>)
    ensures |r| == |parts|
  {
    if parts == [] then [] else [Strip(parts[0])] + StripEach(parts[1..])
  }

  lemma {:induction false} StripEachAt(parts: seq<string>, k: nat)
    requires k < |parts|
    ensures StripEach(parts)[k] == Strip(parts[k])
  {
    if k > 0 {
      StripEachAt(parts[1..], k - 1);
    }
  }

  /**
   * The loaders' `[x.strip() for x in line.strip().split('|')]`: the stripped
   * pipe-separated fields of a line. There is one field more than there are
   * `|` characters in the line.
   */
  function Fields(line: string): (r: seq<string>)
    ensures |r| == Count(line, '|') + 1
  {
    StripKeepsCount(line, '|');
    StripEach(Split(Strip(line), '|'))
  }

  /** Every field comes out stripped: stripping it again changes nothing. */
  lemma FieldsStripped(line: string)
    ensures forall k :: 0 <= k < |Fields(line)| ==> Strip(Fields(line)[k]) == Fields(line)[k]
  {
    var parts := Split(Strip(line), '|');
    forall k | 0 <= k < |parts| ensures Strip(Fields(line)[k]) == Fields(line)[k] {
      StripEachAt(parts, k);
      StripIdempotent(parts[k]);
    }
  }

  predicate IsDigit(c: char)
  {
    '0' <= c <= '9'
  }

  function DigitValue(c: char): nat
    requires IsDigit(c)
  {
    (c as int - '0' as int) as nat
  }

  function DigitChar(d: nat): (c: char)
    requires d < 10
    ensures IsDigit(c) && DigitValue(c) == d
  {
    ('0' as int + d) as char
  }

  /** A run of decimal digits in which single underscores may separate digits (`1_000`). */
  predicate IsDigitRun(t: string)
  {
    |t| > 0 && IsDigit(t[0]) && IsDigit(t[|t| - 1]) && DigitsOrUnderscores(t)
    && forall i :: 0 <= i < |t| && t[i] == '_' ==> i + 1 < |t| && IsDigit(t[i + 1])
  }

  predicate DigitsOrUnderscores(t: string)
  {
    forall i :: 0 <= i < |t| ==> IsDigit(t[i]) || t[i] == '_'
  }

  predicate AllDigits(t: string)
  {
    forall i :: 0 <= i < |t| ==> IsDigit(t[i])
  }

  /** The value of a digit run, underscores ignored. */
  function DigitsValue(t: string): nat
    requires DigitsOrUnderscores(t)
    decreases |t|
  {
    if t == [] then 0
    else
      var init := t[..|t| - 1];
      assert forall i :: 0 <= i < |init| ==> init[i] == t[i];
      if t[|t| - 1] == '_' then DigitsValue(init)
      else DigitsValue(init) * 10 + DigitValue(t[|t| - 1])
  }

  /**
   * Python's `int(s)` on a string, base 10: surrounding whitespace, an optional
   * sign, then a digit run. `None` stands for the `ValueError` it raises.
   */
  function ParseInt(s: string): Option<int>
  {
    var t := Strip(s);
    if |t| > 0 && (t[0] == '+' || t[0] == '-') then
      if IsDigitRun(t[1..]) then
        var v: int := DigitsValue(t[1..]);
        Some(if t[0] == '-' then -v else v)
      else None
    else if IsDigitRun(t) then Some(DigitsValue(t))
    else None
  }

  /** Decimal digits of `n`, most significant first (Python `str(n)` for `n >= 0`). */
  function NatToString(n: nat): (r: string)
    ensures |r| > 0 && AllDigits(r)
    decreases n
  {
    if n < 10 then [DigitChar(n)] else NatToString(n / 10) + [DigitChar(n % 10)]
  }

  /** Python's `str(i)` for an integer. */
  function IntToString(i: int): string
  {
    if i < 0 then "-" + NatToString(-i) else NatToString(i)
  }

  lemma {:induction false} NatToStringValue(n: nat)
    ensures DigitsValue(NatToString(n)) == n
    decreases n
  {
    if n >= 10 {
      NatToStringValue(n / 10);
      var s := NatToString(n);
      assert s[..|s| - 1] == NatToString(n / 10);
    }
  }

  lemma AllDigitsIsRun(t: string)
    requires |t| > 0 && AllDigits(t)
    ensures IsDigitRun(t)
  {
  }

  /** `int(str(i)) == i`: the decimal rendering of an integer reads back as that integer. */
  lemma IntRoundTrip(i: int)
    ensures ParseInt(IntToString(i)) == Some(i)
  {
    var n: nat := if i < 0 then -i else i;
    var d := NatToString(n);
    NatToStringValue(n);
    AllDigitsIsRun(d);
    if i < 0 {
      var s := "-" + d;
      assert s[1..] == d;
      StripNoSpace(s);
    } else {
      StripNoSpace(d);
    }
  }

  /** The value of a decimal literal: `unscaled / 10^scale` (Python `Decimal`). */
  datatype Decimal = Decimal(unscaled: int, scale: nat)

  function Pow10(k: nat): (r: nat)
    ensures r > 0
  {
    if k == 0 then 1 else 10 * Pow10(k - 1)
  }

  function IndexOf(s: string, c: char): (i: nat)
    requires c in s
    ensures i < |s| && s[i] == c && c !in s[..i]
    decreases |s|
  {
    if s[0] == c then 0 else 1 + IndexOf(s[1..], c)
  }

  /** Unsigned decimal literal: digits, optionally a point and more digits, at least one digit. */
  function ParseUnsignedDecimal(b: string): Option<Decimal>
  {
    if '.' in b then
      var i := IndexOf(b, '.');
      var ip, fp := b[..i], b[i + 1..];
      if AllDigits(ip) && AllDigits(fp) && |ip| + |fp| > 0
      then Some(Decimal(DigitsValue(ip) * Pow10(|fp|) + DigitsValue(fp), |fp|))
      else None
    else if |b| > 0 && AllDigits(b) then Some(Decimal(DigitsValue(b), 0))
    else None
  }

  /**
   * Python's `float(s)` restricted to plain decimal literals (`12.50`, `-3`,
   * `.5`, `7.`): surrounding whitespace and an optional sign allowed. The value
   * is kept exactly, as a `Decimal`; `None` stands for the `ValueError`.
   */
  function ParseDecimal(s: string): Option<Decimal>
  {
    ParseSignedDecimal(Strip(s))
  }

  /** A plain decimal literal with an optional sign and no surrounding whitespace. */
  function ParseSignedDecimal(t: string): Option<Decimal>
  {
    if |t| > 0 && (t[0] == '+' || t[0] == '-') then
      match ParseUnsignedDecimal(t[1..])
      case None => None
      case Some(d) => Some(if t[0] == '-' then Decimal(-d.unscaled, d.scale) else d)
    else ParseUnsignedDecimal(t)
  }

  /** On an integer literal the decimal reading agrees with `int(...)`. */
  lemma DecimalOfInteger(i: int)
    ensures ParseDecimal(IntToString(i)) == Some(Decimal(i, 0))
  {
    var n: nat := if i < 0 then -i else i;
    var d := NatToString(n);
    NatToStringValue(n);
    assert '.' !in d;
    if i < 0 {
      var s := "-" + d;
      assert s[1..] == d;
      StripNoSpace(s);
    } else {
      StripNoSpace(d);
    }
  }

  /** Upper-casing of one character as Python's `str.upper` and JavaScript's `toUpperCase` do it
    * for ASCII letters and for the two non-ASCII letters whose capital is ASCII. */
  function UpperChar(c: char): char
  {
    if 'a' <= c <= 'z' then (c as int - 32) as char
    else if c == '\U{0131}' then 'I'  // dotless i
    else if c == '\U{017F}' then 'S'  // long s
    else c
  }

  function ToUpper(s: string): (r: string)
    ensures |r| == |s|
    ensures forall i :: 0 <= i < |s| ==> r[i] == UpperChar(s[i])
  {
    seq(|s|, i requires 0 <= i < |s| => UpperChar(s[i]))
  }

  /** Lower-casing of one character as JavaScript's `toLowerCase` does it for ASCII letters
    * and for the Kelvin sign, the one non-ASCII letter whose small form is ASCII. */
  function LowerChar(c: char): char
  {
    if 'A' <= c <= 'Z' then (c as int + 32) as char
    else if c == '\U{212A}' then 'k'  // Kelvin sign
    else c
  }

  function ToLower(s: string): (r: string)
    ensures |r| == |s|
    ensures forall i :: 0 <= i < |s| ==> r[i] == LowerChar(s[i])
  {
    seq(|s|, i requires 0 <= i < |s| => LowerChar(s[i]))
  }

  /**
   * JavaScript's `Number(s)` where `Number.isInteger` of it holds: the integer,
   * or `None` when the number is not an integer. Blank text reads as 0; a plain
   * decimal literal is an integer when its fraction is zero (`"12.0"`). The
   * literal is read exactly, without the rounding to a double that `Number` does.
   */
  function JsIntegerValue(s: string): Option<int>
  {
    var t := JsTrim(s);
    if t == "" then Some(0)
    else match ParseSignedDecimal(t)
      case None => None
      case Some(d) => if d.unscaled % Pow10(d.scale) == 0 then Some(d.unscaled / Pow10(d.scale)) else None
  }

  /** An integer written in decimal reads back as itself. */
  lemma JsIntegerOfInteger(i: int)
    ensures JsIntegerValue(IntToString(i)) == Some(i)
  {
    var s := IntToString(i);
    DecimalOfInteger(i);
    IntRoundTrip(i);
    assert ParseInt(s).Some?;
    assert Strip(s) != "" && s != [];
    assert !JsIsSpace(s[0]) && !JsIsSpace(s[|s| - 1]) by {
      if i < 0 {
        assert s[1..] == NatToString(-i);
        assert s[|s| - 1] == NatToString(-i)[|NatToString(-i)| - 1];
      }
    }
    JsTrimNoSpace(s);
    StripNoSpace(s);
  }

  /**
   * The characters ECMAScript's `trim()` and `Number()` skip: WhiteSpace (tab,
   * vertical tab, form feed, the byte order mark and the Zs space separators)
   * and LineTerminator (line feed, carriage return, U+2028, U+2029).
   */
  predicate JsIsSpace(c: char)
  {
    c == '\t' || c == '\n' || c == '\U{000B}' || c == '\U{000C}' || c == '\r' || c == ' '
    || c == '\U{00A0}' || c == '\U{1680}' || ('\U{2000}' <= c <= '\U{200A}') || c == '\U{2028}'
    || c == '\U{2029}' || c == '\U{202F}' || c == '\U{205F}' || c == '\U{3000}' || c == '\U{FEFF}'
  }

  predicate AllJsSpace(s: string)
  {
    forall i :: 0 <= i < |s| ==> JsIsSpace(s[i])
  }

  function JsTrimLeft(s: string): (r: string)
    ensures |r| <= |s|
    decreases |s|
  {
    if s != [] && JsIsSpace(s[0]) then JsTrimLeft(s[1..]) else s
  }

  function JsTrimRight(s: string): (r: string)
    ensures |r| <= |s|
    decreases |s|
  {
    if s != [] && JsIsSpace(s[|s| - 1]) then JsTrimRight(s[..|s| - 1]) else s
  }

  /** JavaScript's `s.trim()`: `s` without its leading and trailing ECMAScript whitespace. */
  function JsTrim(s: string): (r: string)
    ensures |r| <= |s|
  {
    JsTrimRight(JsTrimLeft(s))
  }

  lemma {:induction false} JsTrimLeftSpec(s: string)
    ensures var r := JsTrimLeft(s); r == s[|s| - |r|..] && AllJsSpace(s[..|s| - |r|]) && (r == [] || !JsIsSpace(r[0]))
    decreases |s|
  {
    if s != [] && JsIsSpace(s[0]) {
      JsTrimLeftSpec(s[1..]);
      var r := JsTrimLeft(s);
      assert s[..|s| - |r|] == [s[0]] + s[1..][..|s| - 1 - |r|];
    }
  }

  lemma {:induction false} JsTrimRightSpec(s: string)
    ensures var r := JsTrimRight(s); r == s[..|r|] && AllJsSpace(s[|r|..]) && (r == [] || !JsIsSpace(r[|r| - 1]))
    decreases |s|
  {
    if s != [] && JsIsSpace(s[|s| - 1]) {
      var init := s[..|s| - 1];
      JsTrimRightSpec(init);
      var r := JsTrimRight(s);
      assert s[|r|..] == init[|r|..] + [s[|s| - 1]];
    }
  }

  /** `trim()` keeps a contiguous slice of `s`, cuts only ECMAScript whitespace, and leaves none at either end. */
  lemma JsTrimIsSlice(s: string)
    ensures var r := JsTrim(s); var i := |s| - |JsTrimLeft(s)|;
            i + |r| <= |s| && r == s[i..i + |r|] && AllJsSpace(s[..i]) && AllJsSpace(s[i + |r|..])
            && (r == [] || (!JsIsSpace(r[0]) && !JsIsSpace(r[|r| - 1])))
  {
    var l := JsTrimLeft(s);
    var r := JsTrimRight(l);
    var i := |s| - |l|;
    assert l == s[i..] && AllJsSpace(s[..i]) && (l == [] || !JsIsSpace(l[0])) by { JsTrimLeftSpec(s); }
    assert r == l[..|r|] && AllJsSpace(l[|r|..]) && (r == [] || !JsIsSpace(r[|r| - 1])) by { JsTrimRightSpec(l); }
    SuffixSlices(s, i, |r|);
    if r != [] {
      assert r[0] == l[0];
    }
  }

  /** A string that neither starts nor ends with ECMAScript whitespace is left alone by `trim()`. */
  lemma JsTrimNoSpace(t: string)
    requires t != [] && !JsIsSpace(t[0]) && !JsIsSpace(t[|t| - 1])
    ensures JsTrim(t) == t
  {
    assert JsTrimLeft(t) == t;
    assert JsTrimRight(t) == t;
  }

  /**
   * Where the two whitespace sets differ: the byte order mark is trimmed by
   * JavaScript and kept by Python, and the information separator U+001C is
   * stripped by Python and kept by JavaScript.
   */
  lemma WhitespaceSetsDiffer()
    ensures JsTrim("\U{FEFF}") == "" && Strip("\U{FEFF}") == "\U{FEFF}"
    ensures JsTrim("\U{001C}") == "\U{001C}" && Strip("\U{001C}") == ""
  {
    assert JsTrimLeft("\U{FEFF}") == JsTrimLeft("");
    assert StripLeft("\U{001C}") == StripLeft("");
  }
}
