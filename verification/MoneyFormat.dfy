/**
 The server's printer of money amounts, in machine integers: that no
 intermediate value leaves its type is part of what is verified here. Letter
 case is ASCII.
 */
module MoneyFormat {
  import opened Text

  newtype Int64 = n: int | -0x8000_0000_0000_0000 <= n < 0x8000_0000_0000_0000
  newtype Uint64 = n: int | 0 <= n < 0x1_0000_0000_0000_0000

  /** The magnitude of any int64, the minimum included. */
  function AbsUint64(n: Int64): (m: Uint64)
    ensures m as int == if n < 0 then -(n as int) else n as int
  {
    if n < 0 then (-(n + 1)) as Uint64 + 1 else n as Uint64
  }

  function Symbol(code: string): Option<string> {
    match code
    case "GBP" => Some("\U{A3}")
    case "EUR" => Some("\U{20AC}")
    case "USD" => Some("$")
    case _ => None
  }

  function TwoDigits(m: Uint64): (s: string)
    requires m < 100
    ensures |s| == 2 && AllDigits(s) && Value(s) == m as int
  {
    var s := [DigitChar((m / 10) as nat), DigitChar((m % 10) as nat)];
    assert s[..1] == [DigitChar((m / 10) as nat)] && s[..1][..0] == [];
    assert Value(s[..1]) == (m / 10) as int;
    assert m as int == 10 * (m / 10) as int + (m % 10) as int;
    s
  }

  function Amount(abs: Uint64): string {
    Decimal((abs / 100) as nat) + "." + TwoDigits(abs % 100)
  }

  /** The amount with the currency's symbol before it or its code after it. */
  function Body(abs: Uint64, code: string): string {
    match Symbol(code)
    case Some(symbol) => symbol + Amount(abs)
    case None => Amount(abs) + (" " + code)
  }

  function FormatCode(minorUnits: Int64, code: string): string {
    (if minorUnits < 0 then "-" else "") + Body(AbsUint64(minorUnits), code)
  }

  function FormatMoney(minorUnits: Int64, currency: string): string {
    FormatCode(minorUnits, Upper(Trim(currency)))
  }

  // ---- A reader ----------------------------------------------------------

  /** Reads "major.minor" back, in minor units. */
  function ReadAmount(s: string): Option<int> {
    if |s| < 4 || s[|s| - 3] != '.' || !AllDigits(s[..|s| - 3]) || !AllDigits(s[|s| - 2..]) then None
    else Some(100 * Value(s[..|s| - 3]) + Value(s[|s| - 2..]))
  }

  function ReadBody(body: string, code: string): Option<int> {
    match Symbol(code)
    case Some(symbol) => if symbol <= body then ReadAmount(body[|symbol|..]) else None
    case None =>
      var suffix := " " + code;
      if |suffix| <= |body| && body[|body| - |suffix|..] == suffix
      then ReadAmount(body[..|body| - |suffix|]) else None
  }

  function ReadCode(s: string, code: string): Option<int> {
    var negative := s != [] && s[0] == '-';
    match ReadBody(if negative then s[1..] else s, code)
    case None => None
    case Some(v) => Some(if negative then -v else v)
  }

  /** Reads a printed amount, knowing the currency it is in. */
  function ReadMoney(s: string, currency: string): Option<int> {
    ReadCode(s, Upper(Trim(currency)))
  }

  lemma ReadPrintedAmount(abs: Uint64)
    ensures ReadAmount(Amount(abs)) == Some(abs as int)
    ensures Amount(abs)[0] != '-'
  {
    var major, minor := Decimal((abs / 100) as nat), TwoDigits(abs % 100);
    var s := Amount(abs);
    assert s[..|s| - 3] == major && s[|s| - 2..] == minor;
    assert s[0] == major[0];
  }

  lemma ReadPrintedBody(abs: Uint64, code: string)
    ensures ReadBody(Body(abs, code), code) == Some(abs as int)
    ensures Body(abs, code) != [] && Body(abs, code)[0] != '-'
  {
    ReadPrintedAmount(abs);
    var amount, body := Amount(abs), Body(abs, code);
    if Symbol(code).Some? {
      assert body[|Symbol(code).value|..] == amount;
    } else {
      var suffix := " " + code;
      assert body[|body| - |suffix|..] == suffix && body[..|body| - |suffix|] == amount;
    }
  }

  lemma ReadPrintedCode(n: Int64, code: string)
    ensures ReadCode(FormatCode(n, code), code) == Some(n as int)
  {
    var body := Body(AbsUint64(n), code);
    ReadPrintedBody(AbsUint64(n), code);
    assert ("-" + body)[1..] == body && "" + body == body;
  }

  /** The printed text determines the amount, for every int64 amount and every
      currency: it is read back exactly, with two digits after the point. */
  lemma FormatMoneyExact(n: Int64, currency: string)
    ensures ReadMoney(FormatMoney(n, currency), currency) == Some(n as int)
  {
    ReadPrintedCode(n, Upper(Trim(currency)));
  }

  /** Different amounts are never printed alike. */
  lemma FormatMoneyInjective(m: Int64, n: Int64, currency: string)
    ensures FormatMoney(m, currency) == FormatMoney(n, currency) <==> m == n
  {
    FormatMoneyExact(m, currency);
    FormatMoneyExact(n, currency);
  }

  /** The printed form, part by part: the sign, the three known symbols before
      the number or any other code after it, whole units without leading zeros
      and two digits of the rest. */
  lemma FormatMoneyShows(n: Int64, currency: string)
    ensures var code, abs := Upper(Trim(currency)), (if n < 0 then -(n as int) else n as int);
            var sign := if n < 0 then "-" else "";
            exists cents ::
              |cents| == 2 && AllDigits(cents) && Value(cents) == abs % 100
              && FormatMoney(n, currency) == sign + WithCurrency(code, Decimal(abs / 100) + "." + cents)
  {
    var abs := AbsUint64(n);
    var code, cents := Upper(Trim(currency)), TwoDigits(abs % 100);
    CodeShows(n, code);
    assert |cents| == 2 && AllDigits(cents) && Value(cents) == abs as int % 100;
  }

  predicate IsPound(code: string) { code == ['G', 'B', 'P'] }

  predicate IsEuro(code: string) { code == ['E', 'U', 'R'] }

  predicate IsDollar(code: string) { code == ['U', 'S', 'D'] }

  function WithCurrency(code: string, number: string): string {
    if IsPound(code) then [0xA3 as char] + number
    else if IsEuro(code) then [0x20AC as char] + number
    else if IsDollar(code) then ['$'] + number
    else number + (" " + code)
  }

  lemma CodeShows(n: Int64, code: string)
    ensures var abs := AbsUint64(n);
            FormatCode(n, code) ==
              (if n < 0 then "-" else "") + WithCurrency(code, Decimal((abs / 100) as nat) + "." + TwoDigits(abs % 100))
  {
  }
}
