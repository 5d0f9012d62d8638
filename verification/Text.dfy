/**
 Text helpers shared by the models: optional values, trimming of white space
 and the decimal notation of natural numbers, with the facts the printers and
 parsers rely on.
 */
module Text {
  datatype Option<+T> = None | Some(value: T)

  /** Identifiers are only ever compared. */
  type Uuid = nat

  /** The characters that strings.TrimSpace removes (unicode.IsSpace). */
  predicate IsSpace(c: char) {
    c in "\t\n\r \U{0B}\U{0C}\U{85}\U{A0}\U{1680}\U{2028}\U{2029}\U{202F}\U{205F}\U{3000}"
    || '\U{2000}' <= c <= '\U{200A}'
  }

  function TrimLeft(s: string, space: char -> bool): string {
    if s != [] && space(s[0]) then TrimLeft(s[1..], space) else s
  }

  function TrimRight(s: string, space: char -> bool): string {
    if s != [] && space(s[|s| - 1]) then TrimRight(s[..|s| - 1], space) else s
  }

  function TrimBy(s: string, space: char -> bool): string {
    TrimRight(TrimLeft(s, space), space)
  }

  function Trim(s: string): string {
    TrimBy(s, IsSpace)
  }

  /** nilIfEmpty: a blank value is stored as NULL, any other value trimmed. */
  function NilIfEmpty(s: string): Option<string> {
    var t := Trim(s);
    if t == "" then None else Some(t)
  }

  function OrEmpty(s: Option<string>): string {
    match s
    case None => ""
    case Some(t) => t
  }

  /** strings.TrimSpace of an optional column, "" for NULL. */
  function TrimmedOrEmpty(s: Option<string>): string {
    Trim(OrEmpty(s))
  }

  function UpperChar(c: char): char {
    if 'a' <= c <= 'z' then 'A' + (c - 'a') else c
  }

  /** Upper case, on the ASCII letters. */
  function Upper(s: string): string {
    if s == [] then [] else [UpperChar(s[0])] + Upper(s[1..])
  }

  lemma {:induction false} UpperUnchanged(s: string)
    requires forall i :: 0 <= i < |s| ==> UpperChar(s[i]) == s[i]
    ensures Upper(s) == s
  {
    if s != [] { UpperUnchanged(s[1..]); }
  }

  predicate IsDigit(c: char) { '0' <= c <= '9' }

  predicate AllDigits(s: string) {
    forall i :: 0 <= i < |s| ==> IsDigit(s[i])
  }

  function DigitValue(c: char): nat
    requires IsDigit(c)
  {
    (c - '0') as nat
  }

  function DigitChar(d: nat): (c: char)
    requires d < 10
    ensures IsDigit(c) && DigitValue(c) == d
  {
    '0' + d as char
  }

  /** The value of a string of decimal digits; "" has value 0. */
  function Value(s: string): nat
    requires AllDigits(s)
  {
    if s == [] then 0 else 10 * Value(s[..|s| - 1]) + DigitValue(s[|s| - 1])
  }

  /** strconv.Itoa on a natural number. */
  function Decimal(n: nat): (s: string)
    ensures s != [] && AllDigits(s)
    ensures Value(s) == n
    ensures s[0] == '0' ==> s == "0"
  {
    if n < 10 then
      assert [DigitChar(n)][..0] == [];
      [DigitChar(n)]
    else
      var head := Decimal(n / 10);
      var s := head + [DigitChar(n % 10)];
      assert s[..|s| - 1] == head;
      s
  }

  function Power10(e: nat): (p: nat)
    ensures p > 0
  {
    if e == 0 then 1 else 10 * Power10(e - 1)
  }

  lemma ShiftDigit(a: nat, p: nat, b: nat, d: nat)
    ensures 10 * (a * p + b) + d == a * (10 * p) + (10 * b + d)
  {
  }

  lemma {:induction false} ValueConcat(a: string, b: string)
    requires AllDigits(a) && AllDigits(b)
    ensures AllDigits(a + b)
    ensures Value(a + b) == Value(a) * Power10(|b|) + Value(b)
  {
    if b == [] {
      assert a + b == a;
    } else {
      var b' := b[..|b| - 1];
      var d := DigitValue(b[|b| - 1]);
      ValueConcat(a, b');
      assert (a + b)[..|a + b| - 1] == a + b' && (a + b)[|a + b| - 1] == b[|b| - 1];
      ShiftDigit(Value(a), Power10(|b'|), Value(b'), d);
    }
  }

  /** Decimal notation is injective. */
  lemma DecimalInjective(m: nat, n: nat)
    requires Decimal(m) == Decimal(n)
    ensures m == n
  {
    assert Value(Decimal(m)) == Value(Decimal(n));
  }

  /** Trimming neither keeps a space at an end nor trims twice. */
  lemma {:induction false} TrimEnds(s: string, space: char -> bool)
    ensures var t := TrimBy(s, space); t == [] || (!space(t[0]) && !space(t[|t| - 1]))
  {
    var l := TrimLeft(s, space);
    TrimLeftHead(s, space);
    TrimRightEnds(l, space);
  }

  lemma {:induction false} TrimLeftHead(s: string, space: char -> bool)
    ensures var l := TrimLeft(s, space); l == [] || !space(l[0])
  {
    if s != [] && space(s[0]) { TrimLeftHead(s[1..], space); }
  }

  lemma {:induction false} TrimRightEnds(s: string, space: char -> bool)
    ensures var r := TrimRight(s, space); r == [] || (r[0] == s[0] && !space(r[|r| - 1]))
  {
    if s != [] && space(s[|s| - 1]) { TrimRightEnds(s[..|s| - 1], space); }
  }

  lemma {:induction false} TrimIdempotent(s: string)
    ensures Trim(Trim(s)) == Trim(s)
  {
    TrimEnds(s, IsSpace);
  }

  /** A string without a space at either end is its own trimmed form. */
  lemma TrimUnchanged(s: string, space: char -> bool)
    requires s == [] || (!space(s[0]) && !space(s[|s| - 1]))
    ensures TrimBy(s, space) == s
  {
  }

  /** A name with something to print. */
  predicate Named(name: string) { Trim(name) != "" }

  /** How every service that takes a name takes it: trimmed, and not blank. */
  function AcceptName(given: string): Option<string> {
    if Trim(given) == "" then None else Some(Trim(given))
  }

  /** So what is stored has something to print, and nothing to trim. */
  lemma AcceptedIsNamed(given: string)
    requires AcceptName(given).Some?
    ensures Named(AcceptName(given).value) && Trim(AcceptName(given).value) == AcceptName(given).value
  {
    TrimIdempotent(given);
  }

  // ---- What the text functions compute ------------------------------------

  /** The code points of unicode.IsSpace. */
  lemma SpacesAre(c: char)
    ensures IsSpace(c) <==>
      var n := c as int;
      0x09 <= n <= 0x0D || n in {0x20, 0x85, 0xA0, 0x1680, 0x2028, 0x2029, 0x202F, 0x205F, 0x3000}
      || 0x2000 <= n <= 0x200A
  {
  }

  /** What is cut off is white space, and what is left neither begins nor ends
      with it. */
  lemma {:induction false} TrimIsInner(s: string) returns (i: nat, j: nat)
    ensures i <= j <= |s| && Trim(s) == s[i..j]
    ensures forall k :: 0 <= k < |s| && !(i <= k < j) ==> IsSpace(s[k])
    ensures i < j ==> !IsSpace(s[i]) && !IsSpace(s[j - 1])
  {
    i := TrimLeftCuts(s);
    var left := TrimLeft(s, IsSpace);
    var n := TrimRightCuts(left);
    j := i + n;
    assert Trim(s) == s[i..j] by { assert s[i..][..n] == s[i..j]; }
    forall k | j <= k < |s| ensures IsSpace(s[k]) { assert s[k] == left[k - i]; }
    if i < j {
      TrimEnds(s, IsSpace);
      assert Trim(s)[0] == s[i] && Trim(s)[j - i - 1] == s[j - 1];
    }
  }

  lemma {:induction false} TrimLeftCuts(s: string) returns (i: nat)
    ensures i <= |s| && TrimLeft(s, IsSpace) == s[i..]
    ensures forall k :: 0 <= k < i ==> IsSpace(s[k])
  {
    if s != [] && IsSpace(s[0]) {
      i := TrimLeftCuts(s[1..]);
      assert s[1..][i..] == s[i + 1..];
      forall k | 0 <= k < i + 1 ensures IsSpace(s[k]) { if k > 0 { assert s[k] == s[1..][k - 1]; } }
      i := i + 1;
    } else {
      i := 0;
    }
  }

  lemma {:induction false} TrimRightCuts(s: string) returns (n: nat)
    ensures n <= |s| && TrimRight(s, IsSpace) == s[..n]
    ensures forall k :: n <= k < |s| ==> IsSpace(s[k])
  {
    if s != [] && IsSpace(s[|s| - 1]) {
      n := TrimRightCuts(s[..|s| - 1]);
      assert s[..|s| - 1][..n] == s[..n];
      forall k | n <= k < |s| ensures IsSpace(s[k]) { if k < |s| - 1 { assert s[k] == s[..|s| - 1][k]; } }
    } else {
      n := |s|;
    }
  }

  /** Upper case, letter by letter. */
  lemma {:induction false} UpperAt(s: string)
    ensures |Upper(s)| == |s|
    ensures forall k :: 0 <= k < |s| ==>
      Upper(s)[k] == if 'a' <= s[k] <= 'z' then (s[k] as int - 32) as char else s[k]
  {
    if s != [] { UpperAt(s[1..]); }
  }

  /** How an optional text is stored: not at all if blank, else trimmed. */
  predicate KeptAs(given: string, column: Option<string>) {
    column == if Trim(given) == "" then None else Some(Trim(given))
  }

  /** How an optional column is printed: trimmed, nothing for NULL. */
  predicate PrintedAs(column: Option<string>, text: string) {
    text == if column.None? then "" else Trim(column.value)
  }
}
