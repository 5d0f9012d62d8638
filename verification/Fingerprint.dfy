/**
 The payment fingerprint: a request's canonical JSON encoding, which SHA-256
 then hashes. The hash is taken to be collision free, so the encoding stands
 for it. JSON string escaping follows encoding/json's Marshal (the escapes of
 section 7 of RFC 8259, plus the HTML and line-separator ones) on valid UTF-8,
 that is, on sequences of Unicode scalar values.
 */
module Fingerprint {
  import opened Text

  datatype YearMonthDay = YearMonthDay(year: nat, month: nat, day: nat)

  /** A calendar date that "YYYY-MM-DD" can express. */
  predicate ValidDate(d: YearMonthDay) {
    d.year <= 9999 && 1 <= d.month <= 12 && 1 <= d.day <= 31
  }

  type Date = d: YearMonthDay | ValidDate(d) witness YearMonthDay(1, 1, 1)

  lemma DatesAre(d: YearMonthDay)
    ensures ValidDate(d) <==> d.year < 10_000 && 0 < d.month < 13 && 0 < d.day < 32
  {
  }

  /** time.Time's zero value, which a request uses to say "no date given". */
  const ZERO_DATE: Date := YearMonthDay(1, 1, 1)

  datatype PaymentRequest = PaymentRequest(
    amount: int, paymentMethod: string, paymentDate: Date,
    reference: string, notes: string, idempotencyKey: string)

  /** paymentFingerprintV1. */
  datatype Canonical = Canonical(
    amount: int, paymentMethod: string, paymentDate: string, reference: string, notes: string)

  // ---- Encoding ----------------------------------------------------------

  function HexDigit(d: nat): char
    requires d < 16
  {
    if d < 10 then '0' + d as char else 'a' + (d - 10) as char
  }

  function EscapeChar(c: char): string {
    match c
    case '"' => "\\\""
    case '\\' => "\\\\"
    case '\U{08}' => "\\b"
    case '\U{0C}' => "\\f"
    case '\n' => "\\n"
    case '\r' => "\\r"
    case '\t' => "\\t"
    case '\U{2028}' => "\\u2028"
    case '\U{2029}' => "\\u2029"
    case _ =>
      if c < ' ' || c == '<' || c == '>' || c == '&' then
        "\\u00" + [HexDigit(c as int / 16), HexDigit(c as int % 16)]
      else
        [c]
  }

  function Escape(s: string): string {
    if s == [] then [] else EscapeChar(s[0]) + Escape(s[1..])
  }

  function Quote(s: string): string { "\"" + Escape(s) + "\"" }

  function EncodeInt(n: int): string {
    if n < 0 then "-" + Decimal(-n) else Decimal(n)
  }

  const HEADER := "payment.create.v1\0{\"amount\":"
  const LABELS := [",\"paymentMethod\":", ",\"paymentDate\":", ",\"reference\":", ",\"notes\":"]

  /** The string fields, each after its label, and the closing brace. */
  function EncodeFields(labels: seq<string>, values: seq<string>): string
    requires |labels| == |values|
  {
    if labels == [] then "}"
    else labels[0] + Quote(values[0]) + EncodeFields(labels[1..], values[1..])
  }

  function Strings(c: Canonical): seq<string> {
    [c.paymentMethod, c.paymentDate, c.reference, c.notes]
  }

  function Encode(c: Canonical): string {
    HEADER + (EncodeInt(c.amount) + EncodeFields(LABELS, Strings(c)))
  }

  /** Format(dateLayout): zero-padded to the given width. */
  function Pad(n: nat, width: nat): (s: string)
    ensures AllDigits(s) && |s| >= width
  {
    PadLeft(Decimal(n), width)
  }

  function PadLeft(s: string, width: nat): (t: string)
    requires AllDigits(s)
    ensures AllDigits(t) && |t| == if |s| < width then width else |s|
    decreases width - |s|
  {
    if |s| >= width then s else PadLeft("0" + s, width)
  }

  function FormatDate(d: Date): string {
    Pad(d.year, 4) + "-" + Pad(d.month, 2) + "-" + Pad(d.day, 2)
  }

  function Canonicalise(r: PaymentRequest): Canonical {
    Canonical(r.amount, r.paymentMethod,
              if r.paymentDate == ZERO_DATE then "" else FormatDate(r.paymentDate),
              Trim(r.reference), Trim(r.notes))
  }

  /** fingerprintPaymentRequest, up to the hash. */
  function FingerprintOf(r: PaymentRequest): string {
    Encode(Canonicalise(r))
  }

  // ---- Reading it back ---------------------------------------------------

  /** s without the given prefix. */
  function Expect(prefix: string, s: string): Option<string> {
    if prefix <= s then Some(s[|prefix|..]) else None
  }

  function HexValue(c: char): Option<nat> {
    if IsDigit(c) then Some(DigitValue(c))
    else if 'a' <= c <= 'f' then Some((c - 'a') as nat + 10)
    else None
  }

  /** Reads one possibly escaped character of a JSON string. */
  function ReadChar(s: string): Option<(char, string)>
    requires s != []
  {
    if s[0] != '\\' then Some((s[0], s[1..]))
    else if |s| < 2 then None
    else if s[1] == 'u' then
      if |s| < 6 then None
      else if s[2..6] == "2028" then Some(('\U{2028}', s[6..]))
      else if s[2..6] == "2029" then Some(('\U{2029}', s[6..]))
      else match (HexValue(s[4]), HexValue(s[5]))
        case (Some(h), Some(l)) =>
          if s[2..4] == "00" && 16 * h + l < 128 then Some(((16 * h + l) as char, s[6..])) else None
        case _ => None
    else match s[1]
      case 'b' => Some(('\U{08}', s[2..]))
      case 'f' => Some(('\U{0C}', s[2..]))
      case 'n' => Some(('\n', s[2..]))
      case 'r' => Some(('\r', s[2..]))
      case 't' => Some(('\t', s[2..]))
      case '"' => Some(('"', s[2..]))
      case '\\' => Some(('\\', s[2..]))
      case _ => None
  }

  lemma ReadCharShortens(s: string)
    requires s != [] && ReadChar(s).Some?
    ensures |ReadChar(s).value.1| < |s|
  {
  }

  /** Reads a JSON string up to its closing quote. */
  function ReadText(s: string): Option<(string, string)>
    decreases |s|
  {
    if s == [] then None
    else if s[0] == '"' then Some(("", s[1..]))
    else match ReadChar(s)
      case None => None
      case Some((c, rest)) =>
        ReadCharShortens(s);
        match ReadText(rest)
        case None => None
        case Some((t, rest')) => Some(([c] + t, rest'))
  }

  function ReadQuoted(s: string): Option<(string, string)> {
    if s != [] && s[0] == '"' then ReadText(s[1..]) else None
  }

  lemma {:induction false} ReadEscapedChar(c: char, tail: string)
    ensures var s := EscapeChar(c) + tail;
            s[0] != '"' && ReadChar(s) == Some((c, tail))
  {
    var e := EscapeChar(c);
    var s := e + tail;
    assert s[|e|..] == tail;
    if c < ' ' || c == '<' || c == '>' || c == '&' {
      if |e| == 6 {
        var h, l := c as int / 16, c as int % 16;
        assert e == "\\u00" + [HexDigit(h), HexDigit(l)];
        assert HexValue(HexDigit(h)) == Some(h) && HexValue(HexDigit(l)) == Some(l);
        assert s[4] == HexDigit(h) && s[5] == HexDigit(l);
        assert s[2..6][0] == '0' && s[2..4] == "00";
      }
    } else if |e| == 6 {
      assert s[2..6] == e[2..6];
    }
  }

  /** A quoted string is read back whole, whatever follows it. */
  lemma {:induction false} ReadEscaped(t: string, rest: string)
    ensures ReadText(Escape(t) + "\"" + rest) == Some((t, rest))
  {
    if t == [] {
      assert Escape(t) + "\"" + rest == "\"" + rest;
      assert ("\"" + rest)[1..] == rest;
    } else {
      var tail := Escape(t[1..]) + "\"" + rest;
      ReadEscapedChar(t[0], tail);
      ReadEscaped(t[1..], rest);
      ReadTextStep(EscapeChar(t[0]) + tail, t[0], tail);
      ConcatAssociative(EscapeChar(t[0]), Escape(t[1..]), "\"" + rest);
      ConcatAssociative(Escape(t[1..]), "\"", rest);
      ConcatAssociative(Escape(t), "\"", rest);
      assert t == [t[0]] + t[1..];
    }
  }

  lemma ConcatAssociative(a: string, b: string, c: string)
    ensures (a + b) + c == a + (b + c)
  {
  }

  lemma ReadTextStep(s: string, c: char, tail: string)
    requires s != [] && s[0] != '"' && ReadChar(s) == Some((c, tail))
    ensures ReadText(s) == match ReadText(tail)
                           case None => None
                           case Some((t, rest)) => Some(([c] + t, rest))
  {
  }

  lemma ReadQuote(t: string, rest: string)
    ensures ReadQuoted(Quote(t) + rest) == Some((t, rest))
  {
    assert (Quote(t) + rest)[1..] == Escape(t) + "\"" + rest;
    ReadEscaped(t, rest);
  }

  /** JSON string escaping is injective. */
  lemma QuoteInjective(a: string, b: string)
    ensures Quote(a) == Quote(b) <==> a == b
  {
    ReadQuote(a, "");
    ReadQuote(b, "");
    assert Quote(a) + "" == Quote(a) && Quote(b) + "" == Quote(b);
  }

  /** The leading digits of s. */
  function DigitsOf(s: string): (d: string)
    ensures AllDigits(d) && d <= s
  {
    if s != [] && IsDigit(s[0]) then [s[0]] + DigitsOf(s[1..]) else []
  }

  lemma {:induction false} DigitsStop(d: string, tail: string)
    requires AllDigits(d)
    requires tail != [] && !IsDigit(tail[0])
    ensures DigitsOf(d + tail) == d
  {
    if d == [] {
      assert d + tail == tail;
    } else {
      assert (d + tail)[1..] == d[1..] + tail;
      DigitsStop(d[1..], tail);
    }
  }

  function ReadNat(s: string): (nat, string) {
    var d := DigitsOf(s);
    (Value(d), s[|d|..])
  }

  lemma ReadDecimal(n: nat, tail: string)
    requires tail != [] && !IsDigit(tail[0])
    ensures ReadNat(Decimal(n) + tail) == (n, tail)
  {
    DigitsStop(Decimal(n), tail);
  }

  function ReadInt(s: string): (int, string) {
    if s != [] && s[0] == '-' then
      var (n, rest) := ReadNat(s[1..]);
      (-(n as int), rest)
    else
      ReadNat(s)
  }

  lemma ReadEncodedInt(n: int, tail: string)
    requires tail != [] && !IsDigit(tail[0])
    ensures ReadInt(EncodeInt(n) + tail) == (n, tail)
  {
    var digits := Decimal(if n < 0 then -n else n);
    ReadDecimal(if n < 0 then -n else n, tail);
    if n < 0 {
      assert EncodeInt(n) + tail == "-" + (digits + tail);
      assert ("-" + (digits + tail))[1..] == digits + tail;
    } else {
      assert (digits + tail)[0] == digits[0] && IsDigit(digits[0]);
    }
  }

  /** Reads `label` and then a quoted string. */
  function ReadField(labelled: string, s: string): Option<(string, string)> {
    match Expect(labelled, s)
    case None => None
    case Some(rest) => ReadQuoted(rest)
  }

  lemma ReadFieldQuote(labelled: string, t: string, rest: string)
    ensures ReadField(labelled, labelled + Quote(t) + rest) == Some((t, rest))
  {
    var s := labelled + Quote(t) + rest;
    assert s == labelled + (Quote(t) + rest);
    assert labelled <= s && s[|labelled|..] == Quote(t) + rest;
    ReadQuote(t, rest);
  }

  function DecodeFields(labels: seq<string>, s: string): Option<seq<string>> {
    if labels == [] then
      if s == "}" then Some([]) else None
    else match ReadField(labels[0], s)
      case None => None
      case Some((t, rest)) =>
        match DecodeFields(labels[1..], rest)
        case None => None
        case Some(ts) => Some([t] + ts)
  }

  function Decode(s: string): Option<Canonical> {
    match Expect(HEADER, s)
    case None => None
    case Some(rest) =>
      var (amount, rest') := ReadInt(rest);
      match DecodeFields(LABELS, rest')
      case None => None
      case Some(ts) => if |ts| == 4 then Some(Canonical(amount, ts[0], ts[1], ts[2], ts[3])) else None
  }

  lemma DecodeFieldsStep(labels: seq<string>, s: string, t: string, rest: string)
    requires labels != [] && ReadField(labels[0], s) == Some((t, rest))
    ensures DecodeFields(labels, s) == match DecodeFields(labels[1..], rest)
                                       case None => None
                                       case Some(ts) => Some([t] + ts)
  {
  }

  lemma {:induction false} DecodeEncodeFields(labels: seq<string>, values: seq<string>)
    requires |labels| == |values|
    ensures DecodeFields(labels, EncodeFields(labels, values)) == Some(values)
  {
    if labels != [] {
      var rest := EncodeFields(labels[1..], values[1..]);
      ReadFieldQuote(labels[0], values[0], rest);
      DecodeEncodeFields(labels[1..], values[1..]);
      DecodeFieldsStep(labels, labels[0] + Quote(values[0]) + rest, values[0], rest);
      assert values == [values[0]] + values[1..];
    }
  }

  /** The encoding can be decoded, so it loses nothing. */
  lemma DecodeEncode(c: Canonical)
    ensures Decode(Encode(c)) == Some(c)
  {
    DecodeEncodeBody(LABELS, c.amount, Strings(c));
    DropPrefix(HEADER, EncodeInt(c.amount) + EncodeFields(LABELS, Strings(c)));
  }

  lemma DropPrefix(prefix: string, rest: string)
    ensures Expect(prefix, prefix + rest) == Some(rest)
  {
    assert (prefix + rest)[|prefix|..] == rest;
  }

  lemma DecodeEncodeBody(labels: seq<string>, amount: int, values: seq<string>)
    requires |labels| == |values| != 0 && labels[0] != "" && !IsDigit(labels[0][0])
    ensures var fields := EncodeFields(labels, values);
            && ReadInt(EncodeInt(amount) + fields) == (amount, fields)
            && DecodeFields(labels, fields) == Some(values)
  {
    var fields := EncodeFields(labels, values);
    assert fields[0] == labels[0][0];
    ReadEncodedInt(amount, fields);
    DecodeEncodeFields(labels, values);
  }

  lemma EncodeInjective(a: Canonical, b: Canonical)
    requires Encode(a) == Encode(b)
    ensures a == b
  {
    DecodeEncode(a);
    DecodeEncode(b);
  }

  // ---- Dates -------------------------------------------------------------

  lemma {:induction false} PadValue(s: string, width: nat)
    requires AllDigits(s)
    ensures Value(PadLeft(s, width)) == Value(s)
    decreases width - |s|
  {
    if |s| < width {
      ValueConcat("0", s);
      PadValue("0" + s, width);
    }
  }

  lemma {:induction false} DecimalLength(n: nat, w: nat)
    requires n < Power10(w) && w > 0
    ensures |Decimal(n)| <= w
  {
    if n >= 10 {
      assert w > 1;
      assert n / 10 < Power10(w - 1);
      DecimalLength(n / 10, w - 1);
    }
  }

  lemma PadExact(n: nat, width: nat)
    requires width in {2, 4} && n < (if width == 2 then 100 else 10000)
    ensures |Pad(n, width)| == width && Value(Pad(n, width)) == n
  {
    assert Power10(2) == 100 && Power10(4) == 10000 by {
      assert Power10(1) == 10 && Power10(3) == 1000;
    }
    DecimalLength(n, width);
    PadValue(Decimal(n), width);
  }

  /** Year, month and day stand at fixed places. */
  lemma DateParts(d: Date)
    ensures |FormatDate(d)| == 10
    ensures FormatDate(d)[..4] == Pad(d.year, 4)
    ensures FormatDate(d)[5..7] == Pad(d.month, 2)
    ensures FormatDate(d)[8..] == Pad(d.day, 2)
    ensures FormatDate(d)[4] == FormatDate(d)[7] == '-'
  {
    PadExact(d.year, 4);
    PadExact(d.month, 2);
    PadExact(d.day, 2);
  }

  lemma FormatDateInjective(a: Date, b: Date)
    requires FormatDate(a) == FormatDate(b)
    ensures a == b
  {
    DateParts(a);
    DateParts(b);
    PadExact(a.year, 4); PadExact(a.month, 2); PadExact(a.day, 2);
    PadExact(b.year, 4); PadExact(b.month, 2); PadExact(b.day, 2);
  }

  // ---- Faithfulness ------------------------------------------------------

  /** The two requests would record the same payment: same amount, method and
      date (or both without one), and the same trimmed reference and notes. */
  predicate SamePayment(a: PaymentRequest, b: PaymentRequest) {
    && a.amount == b.amount
    && a.paymentMethod == b.paymentMethod
    && a.paymentDate == b.paymentDate
    && Trim(a.reference) == Trim(b.reference)
    && Trim(a.notes) == Trim(b.notes)
  }

  /** Two requests have the same fingerprint exactly when they agree. */
  lemma FingerprintFaithful(a: PaymentRequest, b: PaymentRequest)
    ensures FingerprintOf(a) == FingerprintOf(b) <==> SamePayment(a, b)
  {
    if FingerprintOf(a) == FingerprintOf(b) {
      EncodeInjective(Canonicalise(a), Canonicalise(b));
      if a.paymentDate != ZERO_DATE && b.paymentDate != ZERO_DATE {
        FormatDateInjective(a.paymentDate, b.paymentDate);
      }
    }
  }

  // ---- Idempotency keys --------------------------------------------------

  predicate IsKeyChar(c: char) {
    'A' <= c <= 'Z' || 'a' <= c <= 'z' || '0' <= c <= '9' || c in "._~:-"
  }

  predicate ValidKey(key: string) {
    16 <= |key| <= 128 && forall i :: 0 <= i < |key| ==> IsKeyChar(key[i])
  }

  /** The encoding, part by part. */
  lemma EncodeShows(c: Canonical)
    ensures Encode(c) ==
      "payment.create.v1" + [0 as char] + "{\"amount\":"
      + ((if c.amount < 0 then "-" + Decimal(-c.amount) else Decimal(c.amount))
         + (",\"paymentMethod\":" + Quote(c.paymentMethod)
            + (",\"paymentDate\":" + Quote(c.paymentDate)
               + (",\"reference\":" + Quote(c.reference)
                  + (",\"notes\":" + Quote(c.notes) + "}")))))
  {
    assert HEADER == "payment.create.v1" + [0 as char] + "{\"amount\":";
    OneField(",\"notes\":", c.notes, [], []);
    OneField(",\"reference\":", c.reference, [",\"notes\":"], [c.notes]);
    OneField(",\"paymentDate\":", c.paymentDate, [",\"reference\":", ",\"notes\":"], [c.reference, c.notes]);
    OneField(",\"paymentMethod\":", c.paymentMethod, [",\"paymentDate\":", ",\"reference\":", ",\"notes\":"],
             [c.paymentDate, c.reference, c.notes]);
  }

  lemma OneField(name: string, value: string, names: seq<string>, values: seq<string>)
    requires |names| == |values|
    ensures EncodeFields([name] + names, [value] + values) == name + Quote(value) + EncodeFields(names, values)
  {
    assert ([name] + names)[1..] == names && ([value] + values)[1..] == values;
  }

  /** Characters that may not stand for themselves in the encoding of a text. */
  predicate Special(c: char) {
    c < ' ' || c in {'"', '<', '>', '&'} || c as int in {0x2028, 0x2029}
  }

  predicate EscapedPlainly(out: string) {
    forall i :: 0 <= i < |out| && Special(out[i]) ==> i > 0 && out[i - 1] == '\\' && out[i] == '"'
  }

  lemma EscapeCharIsPlain(c: char)
    ensures EscapedPlainly(EscapeChar(c)) && EscapeChar(c) != []
    ensures !Special(c) && c != '\\' ==> EscapeChar(c) == [c]
  {
  }

  /** Escaping leaves no special character but an escaped quote, and ordinary
      characters as they are. */
  lemma {:induction false} EscapeIsPlain(s: string)
    ensures EscapedPlainly(Escape(s))
    ensures (forall i :: 0 <= i < |s| ==> !Special(s[i]) && s[i] != '\\') ==> Escape(s) == s
  {
    if s != [] {
      EscapeCharIsPlain(s[0]);
      EscapeIsPlain(s[1..]);
      var a, b := EscapeChar(s[0]), Escape(s[1..]);
      forall i | 0 <= i < |a + b| && Special((a + b)[i])
        ensures i > 0 && (a + b)[i - 1] == '\\' && (a + b)[i] == '"'
      {
        if i < |a| { assert Special(a[i]); } else { assert Special(b[i - |a|]); }
      }
      assert s == [s[0]] + s[1..];
    }
  }

  /** The keys a client may send: 16 to 128 of these characters. */
  lemma KeyCharsAre(c: char)
    ensures IsKeyChar(c) <==> 48 <= c as int <= 58 || 65 <= c as int <= 90 || 97 <= c as int <= 122
                              || c == '-' || c == '.' || c == '_' || c == '~'
  {
  }

  /** ValidateIdempotencyKey's scan. */
  method ValidateKey(key: string) returns (ok: bool)
    ensures ok == ValidKey(key)
  {
    if |key| < 16 || |key| > 128 { return false; }
    for i := 0 to |key|
      invariant forall k :: 0 <= k < i ==> IsKeyChar(key[k])
    {
      if !IsKeyChar(key[i]) { return false; }
    }
    return true;
  }
}
