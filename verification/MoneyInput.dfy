/**
 The browser's money fields: a decimal typed by the user becomes a whole number
 of minor units, and back. Numbers that JavaScript represents exactly are the
 safe integers; converting a longer digit string gives an unsafe one.
 */
module MoneyInput {
  import opened Text

  const MAX_SAFE_INTEGER: nat := 0x1F_FFFF_FFFF_FFFF

  const ZERO_DECIMAL := {
    "BIF", "CLP", "DJF", "GNF", "JPY", "KMF", "KRW", "MGA",
    "PYG", "RWF", "UGX", "VND", "VUV", "XAF", "XOF", "XPF"}
  const THREE_DECIMAL := {"BHD", "JOD", "KWD", "OMR", "TND"}

  function CurrencyExponent(currency: string): (e: nat)
    ensures e in {0, 2, 3}
  {
    var code := Upper(currency);
    if code in ZERO_DECIMAL then 0 else if code in THREE_DECIMAL then 3 else 2
  }

  /** What String.prototype.trim removes. */
  predicate IsJsSpace(c: char) {
    c in "\t\n\r \U{0B}\U{0C}\U{A0}\U{1680}\U{2028}\U{2029}\U{202F}\U{205F}\U{3000}\U{FEFF}"
    || '\U{2000}' <= c <= '\U{200A}'
  }

  /** The digits before the first point. */
  function WholeLength(s: string): (n: nat)
    ensures n <= |s| && AllDigits(s[..n]) && (n < |s| ==> !IsDigit(s[n]))
  {
    if s == [] || !IsDigit(s[0]) then 0
    else
      var n := 1 + WholeLength(s[1..]);
      assert s[..n] == [s[0]] + s[1..][..n - 1];
      n
  }

  /** Matches \d+(\.\d+)?, giving the part before the point and the one after. */
  function Split(s: string): (r: Option<(string, string)>)
    ensures r.Some? ==> AllDigits(r.value.0) && AllDigits(r.value.1) && r.value.0 != []
  {
    var n := WholeLength(s);
    if n == 0 then None
    else if n == |s| then Some((s, ""))
    else if s[n] == '.' && n + 1 < |s| && AllDigits(s[n + 1..]) then Some((s[..n], s[n + 1..]))
    else None
  }

  function Zeros(n: nat): (s: string)
    ensures |s| == n && AllDigits(s)
  {
    if n == 0 then "" else Zeros(n - 1) + "0"
  }

  /** Without leading zeros, but for the last digit. */
  function StripZeros(s: string): (t: string)
    requires AllDigits(s)
    ensures AllDigits(t)
  {
    if |s| > 1 && s[0] == '0' then StripZeros(s[1..]) else s
  }

  /** parseMoneyInput, for a currency with e decimal places. */
  function ParseMinor(input: string, e: nat): Option<nat> {
    match Split(TrimBy(input, IsJsSpace))
    case None => None
    case Some((whole, fraction)) =>
      if |fraction| > e then None
      else
        var minor := Value(StripZeros(whole + (fraction + Zeros(e - |fraction|))));
        if minor <= MAX_SAFE_INTEGER then Some(minor) else None
  }

  function ParseMoneyInput(input: string, currency: string): Option<nat> {
    ParseMinor(input, CurrencyExponent(currency))
  }

  function PadStart(s: string, width: nat): (t: string)
    requires AllDigits(s)
    ensures AllDigits(t) && |t| == if |s| < width then width else |s|
  {
    if |s| >= width then s else Zeros(width - |s|) + s
  }

  /** Digits with a point e places from their end. */
  function PlacePoint(digits: string, e: nat): string
    requires |digits| > e
  {
    if e == 0 then digits else digits[..|digits| - e] + "." + digits[|digits| - e..]
  }

  /** minorToInputString, for a currency with e decimal places. */
  function PrintMinor(amountMinor: int, e: nat): string {
    var sign := if amountMinor < 0 then "-" else "";
    var digits := PadStart(Decimal(if amountMinor < 0 then -amountMinor else amountMinor), e + 1);
    sign + PlacePoint(digits, e)
  }

  function MinorToInputString(amountMinor: int, currency: string): string {
    PrintMinor(amountMinor, CurrencyExponent(currency))
  }

  // ---- Facts -------------------------------------------------------------

  lemma {:induction false} ZerosValue(n: nat)
    ensures Value(Zeros(n)) == 0
  {
    if n > 0 {
      assert Zeros(n)[..n - 1] == Zeros(n - 1);
      ZerosValue(n - 1);
    }
  }

  lemma {:induction false} StripZerosValue(s: string)
    requires AllDigits(s)
    ensures Value(StripZeros(s)) == Value(s)
  {
    if |s| > 1 && s[0] == '0' {
      assert s == "0" + s[1..];
      ValueConcat("0", s[1..]);
      StripZerosValue(s[1..]);
    }
  }

  lemma {:induction false} WholeLengthAt(a: string, b: string)
    requires AllDigits(a) && (b != [] ==> !IsDigit(b[0]))
    ensures WholeLength(a + b) == |a|
  {
    if a == [] {
      assert a + b == b;
    } else {
      assert (a + b)[1..] == a[1..] + b;
      WholeLengthAt(a[1..], b);
    }
  }

  lemma PadStartValue(s: string, width: nat)
    requires AllDigits(s)
    ensures Value(PadStart(s, width)) == Value(s)
  {
    if |s| < width {
      ZerosValue(width - |s|);
      ValueConcat(Zeros(width - |s|), s);
      assert 0 * Power10(|s|) == 0;
    }
  }

  lemma NotTrimmed(s: string)
    requires s != [] && IsDigit(s[0]) && IsDigit(s[|s| - 1])
    ensures TrimBy(s, IsJsSpace) == s
  {
    TrimUnchanged(s, IsJsSpace);
  }

  /** The printed form splits at the point. */
  lemma SplitPoint(whole: string, fraction: string)
    requires AllDigits(whole) && AllDigits(fraction) && whole != [] && fraction != []
    ensures Split(whole + "." + fraction) == Some((whole, fraction))
    ensures TrimBy(whole + "." + fraction, IsJsSpace) == whole + "." + fraction
  {
    var s := whole + "." + fraction;
    assert s == whole + ("." + fraction);
    WholeLengthAt(whole, "." + fraction);
    assert s[..|whole|] == whole && s[|whole| + 1..] == fraction;
    NotTrimmed(s);
  }

  lemma ParseMinorExact(input: string, e: nat)
    ensures match Split(TrimBy(input, IsJsSpace))
            case None => ParseMinor(input, e) == None
            case Some((whole, fraction)) =>
              if |fraction| > e then ParseMinor(input, e) == None
              else
                var minor := Value(whole + fraction) * Power10(e - |fraction|);
                ParseMinor(input, e) == if minor <= MAX_SAFE_INTEGER then Some(minor) else None
  {
    var split := Split(TrimBy(input, IsJsSpace));
    if split.Some? && |split.value.1| <= e {
      var (whole, fraction) := split.value;
      var z := Zeros(e - |fraction|);
      assert whole + (fraction + z) == (whole + fraction) + z;
      StripZerosValue(whole + (fraction + z));
      ValueConcat(whole + fraction, z);
      ZerosValue(e - |fraction|);
    }
  }

  /** An input is accepted exactly when it is a plain decimal with no more
      places than the currency has and within the safe range; it then denotes
      exactly its decimal value: the digits' value shifted to minor units. */
  lemma ParseIsExact(input: string, currency: string)
    ensures var split, e := Split(TrimBy(input, IsJsSpace)), CurrencyExponent(currency);
            match ParseMoneyInput(input, currency)
            case Some(n) =>
              split.Some? && |split.value.1| <= e && n <= MAX_SAFE_INTEGER
              && n == Value(split.value.0 + split.value.1) * Power10(e - |split.value.1|)
            case None =>
              split.None? || |split.value.1| > e
              || Value(split.value.0 + split.value.1) * Power10(e - |split.value.1|) > MAX_SAFE_INTEGER
  {
    ParseMinorExact(input, CurrencyExponent(currency));
  }

  /** An input that splits into just as many places as the currency has. */
  lemma ParseWhole(input: string, e: nat, whole: string, fraction: string)
    requires AllDigits(whole + fraction) && Value(whole + fraction) <= MAX_SAFE_INTEGER
    requires Split(TrimBy(input, IsJsSpace)) == Some((whole, fraction)) && |fraction| == e
    ensures ParseMinor(input, e) == Some(Value(whole + fraction))
  {
    ParseMinorExact(input, e);
    var v := Value(whole + fraction);
    assert Power10(e - |fraction|) == 1 && v * 1 == v;
  }

  /** Digits alone, for a currency without minor units. */
  lemma ParseDigits(digits: string)
    requires AllDigits(digits) && digits != [] && Value(digits) <= MAX_SAFE_INTEGER
    ensures ParseMinor(digits, 0) == Some(Value(digits))
  {
    assert digits + "" == digits;
    WholeLengthAt(digits, "");
    NotTrimmed(digits);
    ParseWhole(digits, 0, digits, "");
  }

  /** Digits on both sides of the point. */
  lemma ParsePoint(whole: string, fraction: string)
    requires AllDigits(whole) && AllDigits(fraction) && whole != [] && fraction != []
    requires AllDigits(whole + fraction) && Value(whole + fraction) <= MAX_SAFE_INTEGER
    ensures ParseMinor(whole + "." + fraction, |fraction|) == Some(Value(whole + fraction))
  {
    SplitPoint(whole, fraction);
    ParseWhole(whole + "." + fraction, |fraction|, whole, fraction);
  }

  lemma ParsePlaced(digits: string, e: nat)
    requires AllDigits(digits) && |digits| > e && Value(digits) <= MAX_SAFE_INTEGER
    ensures ParseMinor(PlacePoint(digits, e), e) == Some(Value(digits))
  {
    if e == 0 {
      ParseDigits(digits);
    } else {
      var whole, fraction := digits[..|digits| - e], digits[|digits| - e..];
      assert whole + fraction == digits;
      ParsePoint(whole, fraction);
    }
  }

  lemma RoundTripMinor(n: nat, e: nat)
    requires n <= MAX_SAFE_INTEGER
    ensures ParseMinor(PrintMinor(n, e), e) == Some(n)
  {
    var digits := PadStart(Decimal(n), e + 1);
    PadStartValue(Decimal(n), e + 1);
    ParsePlaced(digits, e);
    assert PrintMinor(n, e) == PlacePoint(digits, e);
  }

  /** Printing a safe amount and parsing it gives the amount back. */
  lemma RoundTrip(n: nat, currency: string)
    requires n <= MAX_SAFE_INTEGER
    ensures ParseMoneyInput(MinorToInputString(n, currency), currency) == Some(n)
  {
    RoundTripMinor(n, CurrencyExponent(currency));
  }

  /** The minor-unit places of ISO 4217 that the fields know. */
  function Places(code: string): nat {
    if code in {"BIF", "CLP", "DJF", "GNF", "JPY", "KMF", "KRW", "MGA",
                "PYG", "RWF", "UGX", "VND", "VUV", "XAF", "XOF", "XPF"} then 0
    else if code in {"BHD", "JOD", "KWD", "OMR", "TND"} then 3
    else 2
  }

  /** Digits, a point and more digits: accepted exactly with no more decimal
      places than the currency has and in range, and then worth exactly that. */
  lemma TypedAmountMeans(whole: string, fraction: string, currency: string)
    requires AllDigits(whole) && AllDigits(fraction) && whole != [] && fraction != []
    ensures var places := Places(Upper(currency));
            ParseMoneyInput(whole + "." + fraction, currency) ==
              if |fraction| <= places && Value(whole + fraction) * Power10(places - |fraction|) <= MAX_SAFE_INTEGER
              then Some(Value(whole + fraction) * Power10(places - |fraction|)) else None
  {
    SplitPoint(whole, fraction);
    ParsedWhen(whole + "." + fraction, whole, fraction, currency);
  }

  lemma ParsedWhen(input: string, whole: string, fraction: string, currency: string)
    requires Split(TrimBy(input, IsJsSpace)) == Some((whole, fraction))
    ensures var places := Places(Upper(currency));
            ParseMoneyInput(input, currency) ==
              if |fraction| <= places && Value(whole + fraction) * Power10(places - |fraction|) <= MAX_SAFE_INTEGER
              then Some(Value(whole + fraction) * Power10(places - |fraction|)) else None
  {
    PlacesAre(currency);
    ParseIsExact(input, currency);
  }

  lemma PlacesAre(currency: string)
    ensures CurrencyExponent(currency) == Places(Upper(currency))
  {
  }

  /** Digits alone, in whole units. */
  lemma TypedWholeMeans(whole: string, currency: string)
    requires AllDigits(whole) && whole != []
    ensures var places := Places(Upper(currency));
            ParseMoneyInput(whole, currency) ==
              if Value(whole) * Power10(places) <= MAX_SAFE_INTEGER then Some(Value(whole) * Power10(places)) else None
  {
    PlacesAre(currency);
    assert whole + "" == whole;
    WholeLengthAt(whole, "");
    NotTrimmed(whole);
    ParseIsExact(whole, currency);
  }

  /** The code points that String.prototype.trim removes. */
  lemma JsSpacesAre(c: char)
    ensures IsJsSpace(c) <==>
      var n := c as int;
      0x09 <= n <= 0x0D || n in {0x20, 0xA0, 0x1680, 0x2028, 0x2029, 0x202F, 0x205F, 0x3000, 0xFEFF}
      || 0x2000 <= n <= 0x200A
  {
  }

  /** A negative amount prints as its magnitude after a minus sign. */
  lemma NegativePrints(n: int, currency: string)
    requires n > 0
    ensures MinorToInputString(-n, currency) == ['-'] + MinorToInputString(n, currency)
  {
    var digits := PadStart(Decimal(n), CurrencyExponent(currency) + 1);
    assert "" + PlacePoint(digits, CurrencyExponent(currency)) == PlacePoint(digits, CurrencyExponent(currency));
  }
}
