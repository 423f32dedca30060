/**
 * Numbers read out of text: Python's `int()` on digit runs, `float()` on
 * decimal text, the scrapers' `extract_numeric_price`, and `str()` of a
 * float as the Amazon rating prints it. Values are exact reals; binary
 * floating-point rounding is not modelled.
 */
module Decimal {
  import opened Wrappers
  import opened Text

  function DigitVal(c: char): nat
    requires IsDigit(c)
  {
    (c as int) - ('0' as int)
  }

  function Pow10(n: nat): (r: nat)
    ensures r >= 1
  {
    if n == 0 then 1 else 10 * Pow10(n - 1)
  }

  /** The number a run of decimal digits denotes, as `int()` reads it. */
  function DigitsValue(s: string): nat
    requires AllDigits(s)
    decreases |s|
  {
    if s == [] then 0 else 10 * DigitsValue(s[..|s| - 1]) + DigitVal(s[|s| - 1])
  }

  /** A three-digit run read place by place. */
  lemma ThreeDigits(s: string)
    requires |s| == 3 && AllDigits(s)
    ensures DigitsValue(s) == 100 * DigitVal(s[0]) + 10 * DigitVal(s[1]) + DigitVal(s[2])
  {
    var two, one := s[..2], s[..1];
    assert two[..1] == one && one[..0] == [];
    assert DigitsValue(one) == DigitVal(s[0]);
    assert DigitsValue(two) == 10 * DigitVal(s[0]) + DigitVal(s[1]);
  }

  /** A run of `n` digits denotes less than 10^n. */
  lemma {:induction false} DigitsValueBound(s: string)
    requires AllDigits(s)
    ensures DigitsValue(s) < Pow10(|s|)
    decreases |s|
  {
    if s != [] {
      DigitsValueBound(s[..|s| - 1]);
    }
  }

  /** The value of `ip.fp` with `ip` and `fp` runs of digits. */
  function DecimalValue(ip: string, fp: string): (v: real)
    requires AllDigits(ip) && AllDigits(fp)
    ensures v >= 0.0
  {
    ShiftNonNegative(DigitsValue(fp) as real, |fp|);
    DigitsValue(ip) as real + Shift(DigitsValue(fp) as real, |fp|)
  }

  /** `v` moved `n` places to the right of the decimal point: `v / 10^n`, one place at a time. */
  function Shift(v: real, n: nat): real {
    if n == 0 then v else Shift(v, n - 1) / 10.0
  }

  lemma {:induction false} ShiftNonNegative(v: real, n: nat)
    requires v >= 0.0
    ensures Shift(v, n) >= 0.0
  {
    if n > 0 {
      ShiftNonNegative(v, n - 1);
    }
  }

  /** Shifting is dividing by `10^n`. */
  lemma {:induction false} ShiftIsQuotient(v: real, n: nat)
    ensures Shift(v, n) == v / Pow10(n) as real
  {
    if n > 0 {
      ShiftIsQuotient(v, n - 1);
      var p := Pow10(n - 1) as real;
      assert p > 0.0;
      assert Pow10(n) as real == 10.0 * p;
      assert (v / p) / 10.0 == v / (10.0 * p);
    }
  }

  /** Ten times the value, shifted one place further, is the same number. */
  lemma {:induction false} ShiftTenfold(v: real, n: nat)
    ensures Shift(10.0 * v, n + 1) == Shift(v, n)
  {
    if n > 0 {
      ShiftTenfold(v, n - 1);
    }
  }

  /** `float()` on text with no sign and no surrounding space: `d+`, `d+.`, `.d+` or `d+.d+`. */
  function ParseUnsigned(s: string): (r: Option<real>)
    ensures r.Some? ==> r.value >= 0.0
  {
    if '.' in s then
      var k := IndexOf(s, '.');
      if AllDigits(s[..k]) && AllDigits(s[k + 1..]) && |s| > 1 then Some(DecimalValue(s[..k], s[k + 1..])) else None
    else if IsDigits(s) then Some(DigitsValue(s) as real)
    else None
  }

  /** Python's `float()` on decimal text: surrounding whitespace, an optional sign, then an unsigned number. */
  function ParseFloat(s: string): Option<real> {
    var t := Strip(s);
    if |t| > 0 && t[0] == '-' then
      match ParseUnsigned(t[1..])
      case Some(v) => Some(-v)
      case None => None
    else if |t| > 0 && t[0] == '+' then ParseUnsigned(t[1..])
    else ParseUnsigned(t)
  }

  predicate DigitOrDot(c: char) {
    IsDigit(c) || c == '.'
  }

  predicate AllDigitOrDot(s: string) {
    forall i :: 0 <= i < |s| ==> DigitOrDot(s[i])
  }

  /** On text made of digits and dots, `float()` succeeds exactly when there is a digit and at most one dot. */
  lemma ParseUnsignedDefined(t: string)
    requires AllDigitOrDot(t)
    ensures ParseUnsigned(t).Some? <==> HasDigit(t) && Count(t, '.') <= 1
  {
    if '.' in t {
      DottedDefined(t);
    } else {
      UndottedDefined(t);
    }
  }

  lemma DottedDefined(t: string)
    requires AllDigitOrDot(t) && '.' in t
    ensures ParseUnsigned(t).Some? <==> HasDigit(t) && Count(t, '.') <= 1
  {
    var k := IndexOf(t, '.');
    var ip, fp := t[..k], t[k + 1..];
    assert t == ip + "." + fp;
    CountAppend(ip + ".", fp, '.');
    CountAppend(ip, ".", '.');
    CountZero(ip, '.');
    CountZero(fp, '.');
    HasDigitAppend(ip + ".", fp);
    HasDigitAppend(ip, ".");
    assert !HasDigit(".");
    assert AllDigits(ip) by {
      forall i | 0 <= i < |ip| ensures IsDigit(ip[i]) {
        assert ip[i] == t[i];
      }
    }
    if '.' !in fp {
      assert AllDigits(fp) by {
        forall i | 0 <= i < |fp| ensures IsDigit(fp[i]) {
          assert fp[i] == t[k + 1 + i];
        }
      }
      if |ip| > 0 { assert IsDigit(ip[0]); }
      if |fp| > 0 { assert IsDigit(fp[0]); }
    }
  }

  lemma UndottedDefined(t: string)
    requires AllDigitOrDot(t) && '.' !in t
    ensures ParseUnsigned(t).Some? <==> HasDigit(t) && Count(t, '.') <= 1
  {
    CountZero(t, '.');
    assert AllDigits(t) by {
      forall i | 0 <= i < |t| ensures IsDigit(t[i]) {
        assert t[i] in t;
      }
    }
    if |t| > 0 { assert IsDigit(t[0]); }
  }

  lemma PlainIsBare(t: string)
    requires AllDigitOrDot(t)
    ensures Stripped(t)
    ensures t == [] || (t[0] != '-' && t[0] != '+')
  {
    if t != [] {
      assert DigitOrDot(t[0]) && DigitOrDot(t[|t| - 1]);
    }
  }

  /** Text of digits and dots has nothing for `float()` to strip and no sign. */
  lemma ParseFloatPlain(t: string)
    requires AllDigitOrDot(t)
    ensures ParseFloat(t) == ParseUnsigned(t)
  {
    PlainIsBare(t);
    StripUnchanged(t);
  }

  /** `int()` of a run of digits, read through `float()`, gives the same number. */
  lemma ParseFloatDigits(s: string)
    requires IsDigits(s)
    ensures ParseFloat(s) == Some(DigitsValue(s) as real)
  {
    assert AllDigitOrDot(s);
    ParseFloatPlain(s);
  }

  predicate IsPriceChar(c: char) {
    IsDigit(c) || c == '.' || c == ','
  }

  /** The text `extract_numeric_price` hands to `float()`: only digits, dots and commas kept, then commas dropped. */
  function PriceDigits(s: string): (r: string)
    ensures AllDigitOrDot(r)
  {
    KeepCharsChars(s, IsPriceChar);
    RemoveCharChars(KeepChars(s, IsPriceChar), ',');
    RemoveChar(KeepChars(s, IsPriceChar), ',')
  }

  lemma {:induction false} KeepPriceChars(s: string)
    ensures Count(KeepChars(s, IsPriceChar), '.') == Count(s, '.')
    ensures HasDigit(KeepChars(s, IsPriceChar)) <==> HasDigit(s)
    decreases |s|
  {
    if s != [] {
      KeepPriceChars(s[1..]);
      var head := if IsPriceChar(s[0]) then [s[0]] else [];
      assert KeepChars(s, IsPriceChar) == head + KeepChars(s[1..], IsPriceChar);
      CountAppend(head, KeepChars(s[1..], IsPriceChar), '.');
      HasDigitAppend(head, KeepChars(s[1..], IsPriceChar));
      assert s == [s[0]] + s[1..];
      CountAppend([s[0]], s[1..], '.');
      HasDigitAppend([s[0]], s[1..]);
    }
  }

  lemma {:induction false} RemoveCommas(s: string)
    ensures Count(RemoveChar(s, ','), '.') == Count(s, '.')
    ensures HasDigit(RemoveChar(s, ',')) <==> HasDigit(s)
    decreases |s|
  {
    if s != [] {
      RemoveCommas(s[1..]);
      var head := if s[0] == ',' then [] else [s[0]];
      assert RemoveChar(s, ',') == head + RemoveChar(s[1..], ',');
      CountAppend(head, RemoveChar(s[1..], ','), '.');
      HasDigitAppend(head, RemoveChar(s[1..], ','));
      assert s == [s[0]] + s[1..];
      CountAppend([s[0]], s[1..], '.');
      HasDigitAppend([s[0]], s[1..]);
    }
  }

  lemma {:induction false} KeepAppend(a: string, b: string, keep: char -> bool)
    ensures KeepChars(a + b, keep) == KeepChars(a, keep) + KeepChars(b, keep)
    decreases |a|
  {
    if a == [] {
      assert a + b == b;
    } else {
      var h: string := if keep(a[0]) then [a[0]] else [];
      assert (a + b)[0] == a[0] && (a + b)[1..] == a[1..] + b;
      KeepAppend(a[1..], b, keep);
      calc {
        KeepChars(a + b, keep);
        h + KeepChars(a[1..] + b, keep);
        h + (KeepChars(a[1..], keep) + KeepChars(b, keep));
        (h + KeepChars(a[1..], keep)) + KeepChars(b, keep);
      }
    }
  }

  /** Keeping price characters and then dropping commas keeps the digits and dots. */
  lemma {:induction false} PriceDigitsKeep(s: string)
    ensures PriceDigits(s) == KeepChars(s, DigitOrDot)
    decreases |s|
  {
    if s != [] {
      PriceDigitsKeep(s[1..]);
      var rest := KeepChars(s[1..], IsPriceChar);
      if IsPriceChar(s[0]) {
        var x := [s[0]] + rest;
        assert KeepChars(s, IsPriceChar) == x;
        assert x[0] == s[0] && x[1..] == rest;
        assert RemoveChar(x, ',') == (if s[0] == ',' then [] else [s[0]]) + RemoveChar(rest, ',');
      } else {
        assert KeepChars(s, IsPriceChar) == rest;
      }
    }
  }

  lemma {:induction false} KeepWithoutCommas(s: string)
    ensures KeepChars(RemoveChar(s, ','), DigitOrDot) == KeepChars(s, DigitOrDot)
    decreases |s|
  {
    if s != [] {
      KeepWithoutCommas(s[1..]);
      var head := if s[0] == ',' then [] else [s[0]];
      assert RemoveChar(s, ',') == head + RemoveChar(s[1..], ',');
      KeepAppend(head, RemoveChar(s[1..], ','), DigitOrDot);
    }
  }

  lemma {:induction false} KeepPlain(s: string)
    requires AllDigitOrDot(s)
    ensures KeepChars(s, DigitOrDot) == s
    decreases |s|
  {
    if s != [] {
      assert DigitOrDot(s[0]);
      KeepPlain(s[1..]);
      assert s == [s[0]] + s[1..];
    }
  }

  /** One final newline makes no difference to `float()` on text with no whitespace at its ends. */
  lemma StripNewline(d: string)
    requires Stripped(d)
    ensures Strip(d + "\n") == d
  {
    var t := d + "\n";
    if d == [] {
      assert t == "\n" && TrimStart(t) == "";
    } else {
      assert TrimStart(t) == t;
      assert t[..|t| - 1] == d;
      assert TrimEnd(t) == TrimEnd(d);
    }
  }

  lemma AedPrefix(text: string)
    ensures PriceDigits("AED " + text) == KeepChars(RemoveChar(text, ','), DigitOrDot)
  {
    PriceDigitsKeep("AED " + text);
    KeepAppend("AED ", text, DigitOrDot);
    assert KeepChars("AED ", DigitOrDot) == "";
    KeepWithoutCommas(text);
  }

  lemma SameStripSameFloat(a: string, b: string)
    requires Strip(a) == Strip(b)
    ensures ParseFloat(a) == ParseFloat(b)
  {
    FloatOfStripped(a);
    FloatOfStripped(b);
  }

  /** `float()` after its own strip: the sign and the unsigned number. */
  function ParseSigned(t: string): Option<real> {
    if |t| > 0 && t[0] == '-' then
      match ParseUnsigned(t[1..])
      case Some(v) => Some(-v)
      case None => None
    else if |t| > 0 && t[0] == '+' then ParseUnsigned(t[1..])
    else ParseUnsigned(t)
  }

  lemma FloatOfStripped(s: string)
    ensures ParseFloat(s) == ParseSigned(Strip(s))
  {
  }

  lemma KeepNewline(d: string)
    requires AllDigitOrDot(d)
    ensures KeepChars(d + "\n", DigitOrDot) == d
  {
    KeepAppend(d, "\n", DigitOrDot);
    KeepPlain(d);
    assert KeepChars("\n", DigitOrDot) == "";
  }

  /** Decimal text, possibly followed by one newline, is read by `float()` as its digits and dot. */
  lemma DecimalTextValue(u: string)
    requires AllDigitOrDot(u) || (|u| > 0 && u[|u| - 1] == '\n' && AllDigitOrDot(u[..|u| - 1]))
    ensures ParseFloat(KeepChars(u, DigitOrDot)) == ParseFloat(u)
  {
    if AllDigitOrDot(u) {
      KeepPlain(u);
    } else {
      NewlineTextValue(u);
    }
  }

  lemma NewlineTextValue(u: string)
    requires |u| > 0 && u[|u| - 1] == '\n' && AllDigitOrDot(u[..|u| - 1])
    ensures ParseFloat(KeepChars(u, DigitOrDot)) == ParseFloat(u)
  {
    var d := u[..|u| - 1];
    assert u == d + "\n";
    KeepNewline(d);
    PlainIsBare(d);
    StripNewline(d);
    StripUnchanged(d);
    SameStripSameFloat(d, u);
  }

  /**
   * `extract_numeric_price`: the number in a price label such as "AED 1,299.00".
   * It is defined exactly when the label holds a digit and at most one dot,
   * and it is never negative.
   */
  function ExtractNumericPrice(s: string): (r: Option<real>)
    ensures r.Some? <==> HasDigit(s) && Count(s, '.') <= 1
    ensures r.Some? ==> r.value >= 0.0
  {
    var t := PriceDigits(s);
    KeepPriceChars(s);
    RemoveCommas(KeepChars(s, IsPriceChar));
    ParseFloatPlain(t);
    ParseUnsignedDefined(t);
    ParseFloat(t)
  }

  /**
   * A label "AED " + `text` whose comma-free text is a decimal number,
   * possibly followed by one newline, reads back through
   * `extract_numeric_price` as `float()` of the comma-free text.
   */
  lemma AedLabelValue(text: string)
    requires var u := RemoveChar(text, ',');
      AllDigitOrDot(u) || (|u| > 0 && u[|u| - 1] == '\n' && AllDigitOrDot(u[..|u| - 1]))
    ensures ExtractNumericPrice("AED " + text) == ParseFloat(RemoveChar(text, ','))
  {
    var u := RemoveChar(text, ',');
    AedPrefix(text);
    DecimalTextValue(u);
    assert ExtractNumericPrice("AED " + text) == ParseFloat(PriceDigits("AED " + text));
  }

  /**
   * The documented example "AED 1,299.00" reads as 1299.00: any label "AED " + text
   * whose text is "1299.00" once its commas are dropped, as "1,299.00" is
   * (`ExampleCommasDropped`), reads as 1299.0.
   */
  lemma AedLabelExample(text: string)
    requires RemoveChar(text, ',') == "1299.00"
    ensures ExtractNumericPrice("AED " + text) == Some(1299.0)
  {
    ExampleDigits();
    AedLabelValue(text);
    ExampleFloat();
  }

  /** The documented example itself: "AED 1,299.00" reads as 1299.0. */
  lemma AedExample()
    ensures ExtractNumericPrice("AED 1,299.00") == Some(1299.0)
  {
    var t := "1,299.00";
    ExampleCommasDropped();
    AedLabelExample(t);
    assert "AED " + t == "AED 1,299.00";
  }

  /** "1299.00" is made of digits and dots only. */
  lemma ExampleDigits()
    ensures AllDigitOrDot("1299.00")
  {
    var s := "1299.00";
    assert s[0] == '1' && s[1] == '2' && s[2] == '9' && s[3] == '9';
    assert s[4] == '.' && s[5] == '0' && s[6] == '0';
  }

  /** Dropping the comma from "1,299.00" leaves "1299.00". */
  lemma ExampleCommasDropped()
    ensures RemoveChar("1,299.00", ',') == "1299.00"
  {
    assert "1,299.00" == "1" + "," + "299.00";
    OneCommaDropped("1", "299.00");
    assert "1" + "299.00" == "1299.00";
  }

  /** Dropping the one comma between two comma-free texts joins them. */
  lemma OneCommaDropped(a: string, b: string)
    requires ',' !in a && ',' !in b
    ensures RemoveChar(a + "," + b, ',') == a + b
  {
    var x := a + ",";
    RemoveCharAppend(a, ",", ',');
    assert RemoveChar(",", ',') == "";
    RemoveAbsent(a, ',');
    assert RemoveChar(x, ',') == a;
    RemoveCharAppend(x, b, ',');
    RemoveAbsent(b, ',');
  }

  /** `s.replace(c, '')` works piece by piece. */
  lemma {:induction false} RemoveCharAppend(a: string, b: string, c: char)
    ensures RemoveChar(a + b, c) == RemoveChar(a, c) + RemoveChar(b, c)
    decreases |a|
  {
    if a == [] {
      assert a + b == b;
    } else {
      assert (a + b)[0] == a[0] && (a + b)[1..] == a[1..] + b;
      RemoveCharAppend(a[1..], b, c);
    }
  }

  /** `float("1299.00")` is 1299.0. */
  lemma ExampleFloat()
    ensures ParseFloat("1299.00") == Some(1299.0)
  {
    ParseFloatPlain("1299.00");
    ExampleUnsigned();
  }

  /** "1299.00" is the whole part "1299" and the fraction "00". */
  lemma ExampleUnsigned()
    ensures ParseUnsigned("1299.00") == Some(1299.0)
  {
    assert "1299.00" == "1299" + "." + "00";
    ParseDecimalParts("1299", "00");
    ExampleParts();
  }

  /** The whole part "1299" is worth 1299 and the fraction "00" adds nothing. */
  lemma ExampleParts()
    ensures DecimalValue("1299", "00") == 1299.0
  {
    assert "1299"[..3] == "129" && "129"[..2] == "12" && "12"[..1] == "1" && "1"[..0] == "";
    assert DigitsValue("1299") == 1299;
    assert "00"[..1] == "0" && "0"[..0] == "";
    assert DigitsValue("00") == 0;
    assert Shift(0.0, 2) == 0.0;
  }

  // ----- `str()` of a float read from decimal text -----

  /** `s` without its leading '0's. */
  function DropLeadingZeros(s: string): (r: string)
    ensures |r| <= |s| && r == s[|s| - |r|..]
    ensures forall i :: 0 <= i < |s| - |r| ==> s[i] == '0'
    ensures r == [] || r[0] != '0'
    decreases |s|
  {
    if |s| > 0 && s[0] == '0' then
      var r := DropLeadingZeros(s[1..]);
      assert s[1..][|s| - 1 - |r|..] == s[|s| - |r|..];
      r
    else s
  }

  /** `s` without its trailing '0's. */
  function DropTrailingZeros(s: string): (r: string)
    ensures |r| <= |s| && r == s[..|r|]
    ensures r == [] || r[|r| - 1] != '0'
    decreases |s|
  {
    if |s| > 0 && s[|s| - 1] == '0' then DropTrailingZeros(s[..|s| - 1]) else s
  }

  /** The integer digits without leading zeros and the fraction digits without trailing zeros, each at least "0", joined by '.'. */
  function ReprOf(ip: string, fp: string): string {
    var i := DropLeadingZeros(ip);
    var f := DropTrailingZeros(fp);
    (if i == "" then "0" else i) + "." + (if f == "" then "0" else f)
  }

  /** Where `g` splits into integer and fraction digits: its '.', or its end. */
  function DotIndex(g: string): (k: nat)
    ensures k <= |g|
  {
    if '.' in g then IndexOf(g, '.') else |g|
  }

  function FractionPart(g: string): string {
    var k := DotIndex(g);
    if k < |g| then g[k + 1..] else ""
  }

  /** `str(float(g))` for `g` made of digits and at most one '.', as Python prints a float in the range of a rating. */
  function FloatRepr(g: string): string {
    ReprOf(g[..DotIndex(g)], FractionPart(g))
  }

  lemma {:induction false} LeadingZeroValue(s: string)
    requires AllDigits(s) && |s| > 0 && s[0] == '0'
    ensures DigitsValue(s) == DigitsValue(s[1..])
    decreases |s|
  {
    if |s| > 1 {
      var front := s[..|s| - 1];
      LeadingZeroValue(front);
      assert s[1..][..|s| - 2] == front[1..];
    }
  }

  lemma {:induction false} LeadingZerosValue(s: string)
    requires AllDigits(s)
    ensures DigitsValue(DropLeadingZeros(s)) == DigitsValue(s)
    decreases |s|
  {
    if |s| > 0 && s[0] == '0' {
      LeadingZeroValue(s);
      LeadingZerosValue(s[1..]);
    }
  }

  lemma TrailingZeroValue(ip: string, f: string)
    requires AllDigits(ip) && AllDigits(f)
    ensures AllDigits(f + "0") && DecimalValue(ip, f + "0") == DecimalValue(ip, f)
  {
    var g := f + "0";
    assert g[..|g| - 1] == f;
    assert DigitsValue(g) == 10 * DigitsValue(f);
    ShiftTenfold(DigitsValue(f) as real, |f|);
  }

  lemma {:induction false} TrailingZerosValue(ip: string, fp: string)
    requires AllDigits(ip) && AllDigits(fp)
    ensures DecimalValue(ip, DropTrailingZeros(fp)) == DecimalValue(ip, fp)
    decreases |fp|
  {
    if |fp| > 0 && fp[|fp| - 1] == '0' {
      var f := fp[..|fp| - 1];
      assert fp == f + "0";
      TrailingZeroValue(ip, f);
      TrailingZerosValue(ip, f);
    }
  }

  /** The value of `ip.fp` read through `float()`, for non-empty digit runs. */
  lemma ParseDecimalParts(ip: string, fp: string)
    requires IsDigits(ip) && IsDigits(fp)
    ensures ParseUnsigned(ip + "." + fp) == Some(DecimalValue(ip, fp))
  {
    var t := ip + "." + fp;
    assert t[|ip|] == '.';
    var k := IndexOf(t, '.');
    assert t[..k] == ip && t[k + 1..] == fp;
  }

  lemma DroppedDigits(ip: string, fp: string)
    requires AllDigits(ip) && AllDigits(fp)
    ensures AllDigits(DropLeadingZeros(ip)) && AllDigits(DropTrailingZeros(fp))
  {
    var i := DropLeadingZeros(ip);
    var f := DropTrailingZeros(fp);
    SliceDigits(ip, |ip| - |i|, |ip|);
    SliceDigits(fp, 0, |f|);
  }

  lemma SliceDigits(s: string, a: nat, b: nat)
    requires a <= b <= |s| && AllDigits(s)
    ensures AllDigits(s[a..b])
  {
    forall k | 0 <= k < b - a ensures IsDigit(s[a..b][k]) { assert s[a..b][k] == s[a + k]; }
  }

  /** An empty digit run printed as "0" keeps its value. */
  lemma AtLeastZero(x: string)
    requires AllDigits(x)
    ensures IsDigits(if x == "" then "0" else x)
    ensures DigitsValue(if x == "" then "0" else x) == DigitsValue(x)
  {
    if x == "" {
      assert DigitsValue("0") == 10 * DigitsValue("") + DigitVal('0');
    }
  }

  lemma JoinedDigitOrDot(a: string, b: string)
    requires AllDigits(a) && AllDigits(b)
    ensures AllDigitOrDot(a + "." + b)
  {
    var t := a + "." + b;
    forall k | 0 <= k < |t| ensures DigitOrDot(t[k]) {
      if k < |a| { assert t[k] == a[k]; }
      else if k > |a| { assert t[k] == b[k - |a| - 1]; }
    }
  }

  lemma SameIntValue(a: string, b: string, f: string)
    requires AllDigits(a) && AllDigits(b) && AllDigits(f) && DigitsValue(a) == DigitsValue(b)
    ensures DecimalValue(a, f) == DecimalValue(b, f)
  {
  }

  lemma FracZero(x: string)
    requires AllDigits(x)
    ensures DecimalValue(x, "0") == DecimalValue(x, "")
  {
    assert DigitsValue("0") == 10 * DigitsValue("") + DigitVal('0');
  }

  /** The two digit runs `ReprOf` prints, and the value they keep. */
  lemma ReprParts(ip: string, fp: string) returns (i1: string, f1: string)
    requires AllDigits(ip) && AllDigits(fp)
    ensures ReprOf(ip, fp) == i1 + "." + f1 && IsDigits(i1) && IsDigits(f1)
    ensures DecimalValue(i1, f1) == DecimalValue(ip, fp)
  {
    var i := DropLeadingZeros(ip);
    var f := DropTrailingZeros(fp);
    DroppedDigits(ip, fp);
    i1 := if i == "" then "0" else i;
    f1 := if f == "" then "0" else f;
    AtLeastZero(i);
    AtLeastZero(f);
    LeadingZerosValue(ip);
    if f == "" { FracZero(i1); }
    TrailingZerosValue(i1, fp);
    SameIntValue(i1, ip, fp);
  }

  lemma ReprOfValue(ip: string, fp: string)
    requires AllDigits(ip) && AllDigits(fp)
    ensures AllDigitOrDot(ReprOf(ip, fp))
    ensures ParseUnsigned(ReprOf(ip, fp)) == Some(DecimalValue(ip, fp))
  {
    var i1, f1 := ReprParts(ip, fp);
    ParseDecimalParts(i1, f1);
    JoinedDigitOrDot(i1, f1);
  }

  /** Decimal text reads as the value of its integer and fraction digits. */
  lemma ParseUnsignedParts(g: string)
    requires AllDigitOrDot(g) && ParseUnsigned(g).Some?
    ensures AllDigits(g[..DotIndex(g)]) && AllDigits(FractionPart(g))
    ensures ParseUnsigned(g) == Some(DecimalValue(g[..DotIndex(g)], FractionPart(g)))
  {
    if '.' !in g {
      assert AllDigits(g) by {
        forall i | 0 <= i < |g| ensures IsDigit(g[i]) { assert g[i] in g; }
      }
      assert g[..|g|] == g;
    }
  }

  /** The text `str()` prints for a value read from decimal text reads back as the same value. */
  lemma FloatReprRoundTrip(g: string)
    requires AllDigitOrDot(g) && ParseUnsigned(g).Some?
    ensures ParseFloat(FloatRepr(g)) == ParseFloat(g)
  {
    ParseUnsignedParts(g);
    ReprOfValue(g[..DotIndex(g)], FractionPart(g));
    ParseFloatPlain(FloatRepr(g));
    ParseFloatPlain(g);
  }
}
