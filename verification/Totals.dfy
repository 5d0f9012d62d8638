/**
 Line amounts and invoice totals in exact arithmetic: quantities and VAT rates
 are rationals, money is whole minor units. How float64 approximates a product
 before it is rounded is not modelled.
 */
module Totals {
  import opened Text

  /** math.Round: to the nearest integer, halves away from zero. */
  function Round(x: real): int {
    if x >= 0.0 then (x + 0.5).Floor else -((-x + 0.5).Floor)
  }

  /** JavaScript's Math.round: halves upwards. */
  function JsRound(x: real): int { (x + 0.5).Floor }

  datatype LineInput = LineInput(quantity: real, unitPrice: int, vatRate: real)

  /** What validateLines lets through. */
  predicate ValidLine(l: LineInput) {
    l.quantity > 0.0 && l.unitPrice >= 0 && l.vatRate >= 0.0
  }

  datatype LineRequest = LineRequest(
    description: string, quantity: real, quantityUnit: string, unitPrice: int, vatRate: real)

  datatype LineRefusal =
    | DescriptionRequired | QuantityInvalid | QuantityUnitTooLong | UnitPriceNegative | VatRateNegative

  /** Why a requested line is refused, the first reason that applies. */
  function RefusalOf(r: LineRequest): Option<LineRefusal> {
    if Trim(r.description) == "" then Some(DescriptionRequired)
    else if !(r.quantity > 0.0) then Some(QuantityInvalid)
    else if |Trim(r.quantityUnit)| > 30 then Some(QuantityUnitTooLong)
    else if !(r.unitPrice >= 0) then Some(UnitPriceNegative)
    else if !(r.vatRate >= 0.0) then Some(VatRateNegative)
    else None
  }

  function LineOf(r: LineRequest): LineInput { LineInput(r.quantity, r.unitPrice, r.vatRate) }

  /** One turn of validateLines' loop. */
  method ValidateLine(r: LineRequest) returns (err: Option<LineRefusal>)
    ensures err == RefusalOf(r)
    ensures err.None? ==> ValidLine(LineOf(r))
  {
    if Trim(r.description) == "" { return Some(DescriptionRequired); }
    if r.quantity <= 0.0 { return Some(QuantityInvalid); }
    var unit := Trim(r.quantityUnit);
    if unit != "" && |unit| > 30 { return Some(QuantityUnitTooLong); }
    if r.unitPrice < 0 { return Some(UnitPriceNegative); }
    if r.vatRate < 0.0 { return Some(VatRateNegative); }
    return None;
  }

  /** A request that is let through. */
  predicate Passes(r: LineRequest, l: LineInput) {
    RefusalOf(r).None? && ValidLine(l) && l == LineInput(r.quantity, r.unitPrice, r.vatRate)
  }

  /** validateLines, which stops at the first line refused. */
  method ValidateLines(requests: seq<LineRequest>) returns (err: Option<LineRefusal>, lines: seq<LineInput>)
    ensures err.None? ==>
      |lines| == |requests| && forall k :: 0 <= k < |requests| ==> Passes(requests[k], lines[k])
    ensures err.Some? ==>
      exists k :: 0 <= k < |requests| && RefusalOf(requests[k]) == err
                  && forall i :: 0 <= i < k ==> RefusalOf(requests[i]).None?
  {
    lines := [];
    for k := 0 to |requests|
      invariant |lines| == k && forall i :: 0 <= i < k ==> Passes(requests[i], lines[i])
    {
      err := ValidateLine(requests[k]);
      if err.Some? { return err, []; }
      lines := lines + [LineOf(requests[k])];
    }
    err := None;
  }

  datatype Amounts = Amounts(vatAmount: int, total: int)

  /** Quantity times price. */
  function Gross(l: LineInput): real { l.quantity * l.unitPrice as real }

  function VatOf(subtotal: int, vatRate: real): int { Round(subtotal as real * vatRate / 100.0) }

  function CalculateLineAmounts(l: LineInput): Amounts {
    var subtotal := Round(Gross(l));
    var vat := VatOf(subtotal, l.vatRate);
    Amounts(vat, subtotal + vat)
  }

  function AllAmounts(lines: seq<LineInput>): (r: seq<Amounts>)
    ensures |r| == |lines|
  {
    if lines == [] then [] else AllAmounts(lines[..|lines| - 1]) + [CalculateLineAmounts(lines[|lines| - 1])]
  }

  datatype InvoiceTotals = InvoiceTotals(subtotal: int, vatTotal: int, total: int)

  function AddLine(t: InvoiceTotals, a: Amounts): InvoiceTotals {
    InvoiceTotals(t.subtotal + (a.total - a.vatAmount), t.vatTotal + a.vatAmount, t.total + a.total)
  }

  function Sum(lines: seq<Amounts>): InvoiceTotals {
    if lines == [] then InvoiceTotals(0, 0, 0) else AddLine(Sum(lines[..|lines| - 1]), lines[|lines| - 1])
  }

  method SumInvoiceTotals(lines: seq<Amounts>) returns (subtotal: int, vatTotal: int, total: int)
    ensures InvoiceTotals(subtotal, vatTotal, total) == Sum(lines)
    ensures subtotal + vatTotal == total
  {
    subtotal, vatTotal, total := 0, 0, 0;
    for i := 0 to |lines|
      invariant InvoiceTotals(subtotal, vatTotal, total) == Sum(lines[..i])
      invariant subtotal + vatTotal == total
    {
      assert lines[..i + 1][..i] == lines[..i];
      subtotal := subtotal + (lines[i].total - lines[i].vatAmount);
      vatTotal := vatTotal + lines[i].vatAmount;
      total := total + lines[i].total;
    }
    assert lines[..|lines|] == lines;
  }

  // ---- The order of lines does not matter --------------------------------

  lemma {:induction false} TakeOut(lines: seq<Amounts>, i: nat)
    requires i < |lines|
    ensures Sum(lines) == AddLine(Sum(lines[..i] + lines[i + 1..]), lines[i])
  {
    var last := |lines| - 1;
    if i == last {
      assert lines[..i] + lines[i + 1..] == lines[..i];
    } else {
      var front, without := lines[..last], lines[..i] + lines[i + 1..];
      TakeOut(front, i);
      assert without[..|without| - 1] == front[..i] + front[i + 1..];
      assert without[|without| - 1] == lines[last];
    }
  }

  lemma SameRest(a: seq<Amounts>, x: Amounts, b: seq<Amounts>, i: nat)
    requires multiset(a + [x]) == multiset(b) && i < |b| && b[i] == x
    ensures multiset(a) == multiset(b[..i] + b[i + 1..])
  {
    assert b == b[..i] + [x] + b[i + 1..];
    assert multiset(b) == multiset(b[..i]) + multiset{x} + multiset(b[i + 1..]);
    var rest := multiset(b[..i]) + multiset(b[i + 1..]);
    assert multiset(a) + multiset{x} == rest + multiset{x};
    assert (multiset(a) + multiset{x}) - multiset{x} == multiset(a);
    assert (rest + multiset{x}) - multiset{x} == rest;
  }

  /** The three totals depend on the lines, not on their order. */
  lemma {:induction false} OrderDoesNotMatter(a: seq<Amounts>, b: seq<Amounts>)
    requires multiset(a) == multiset(b)
    ensures Sum(a) == Sum(b)
    decreases |a|
  {
    if a == [] {
      assert |multiset(b)| == 0;
    } else {
      var x, front := a[|a| - 1], a[..|a| - 1];
      assert a == front + [x] && x in multiset(a);
      var i :| 0 <= i < |b| && b[i] == x;
      SameRest(front, x, b, i);
      OrderDoesNotMatter(front, b[..i] + b[i + 1..]);
      TakeOut(b, i);
    }
  }

  // ---- How far rounding can move a total ---------------------------------

  /** An amount together with its VAT. */
  function WithVat(amount: real, vatRate: real): real { amount * (1.0 + vatRate / 100.0) }

  /** The line's amount before any rounding. */
  function Exact(l: LineInput): real {
    WithVat(Gross(l), l.vatRate)
  }

  /** 1 + rate/100. */
  function Factor(l: LineInput): real { 1.0 + l.vatRate / 100.0 }

  function ExactSum(lines: seq<LineInput>): real {
    if lines == [] then 0.0 else ExactSum(lines[..|lines| - 1]) + Exact(lines[|lines| - 1])
  }

  /** Half a unit for each line's VAT, and half a unit and its VAT for each
      line's subtotal. */
  function Slack(lines: seq<LineInput>): real {
    if lines == [] then 0.0
    else Slack(lines[..|lines| - 1]) + 0.5 + WithVat(0.5, lines[|lines| - 1].vatRate)
  }

  function Abs(x: real): real { if x < 0.0 then -x else x }

  lemma RoundNear(x: real)
    ensures Abs(Round(x) as real - x) <= 0.5
    ensures x >= 0.0 ==> Round(x) >= 0 && JsRound(x) == Round(x)
  {
  }

  lemma Product(a: real, b: real)
    requires a >= 0.0 && b >= 0.0
    ensures a * b >= 0.0
  {
  }

  /** An error in an amount grows with its VAT. */
  lemma ScaledError(a: real, b: real, rate: real)
    requires rate >= 0.0 && Abs(a - b) <= 0.5
    ensures Abs(WithVat(a, rate) - WithVat(b, rate)) <= WithVat(0.5, rate)
  {
    var f := 1.0 + rate / 100.0;
    Product(0.5 - (a - b), f);
    Product(0.5 + (a - b), f);
    assert WithVat(a, rate) - WithVat(b, rate) == (a - b) * f;
  }

  lemma Triangle(a: real, b: real, c: real, e: real, f: real)
    requires Abs(a - b) <= e && Abs(b - c) <= f
    ensures Abs(a - c) <= e + f
  {
  }

  lemma VatShare(s: real, rate: real)
    ensures s + s * rate / 100.0 == WithVat(s, rate)
  {
  }

  lemma RoundingError(x: real, rate: real)
    requires x >= 0.0 && rate >= 0.0
    ensures Round(x) >= 0 && VatOf(Round(x), rate) >= 0
    ensures Abs((Round(x) + VatOf(Round(x), rate)) as real - WithVat(x, rate)) <= 0.5 + WithVat(0.5, rate)
  {
    RoundNear(x);
    var s := Round(x) as real;
    Product(s, rate);
    RoundNear(s * rate / 100.0);
    ScaledError(s, x, rate);
    VatShare(s, rate);
    var total := (Round(x) + VatOf(Round(x), rate)) as real;
    assert total == s + VatOf(Round(x), rate) as real;
    Triangle(total, WithVat(s, rate), WithVat(x, rate), 0.5, WithVat(0.5, rate));
  }

  lemma LineError(l: LineInput)
    requires ValidLine(l)
    ensures var a := CalculateLineAmounts(l);
            && 0 <= a.vatAmount <= a.total
            && Abs(a.total as real - Exact(l)) <= 0.5 + WithVat(0.5, l.vatRate)
  {
    Product(l.quantity, l.unitPrice as real);
    RoundingError(Gross(l), l.vatRate);
  }

  /** The stored total differs from the unrounded sum of the lines by at most
      half a unit a line plus half the sum of the factors 1 + rate/100. */
  lemma {:induction false} TotalError(lines: seq<LineInput>)
    requires forall l :: l in lines ==> ValidLine(l)
    ensures Abs(Sum(AllAmounts(lines)).total as real - ExactSum(lines)) <= Slack(lines)
  {
    if lines != [] {
      var front, last := lines[..|lines| - 1], lines[|lines| - 1];
      TotalError(front);
      LineError(last);
      assert AllAmounts(lines)[..|lines| - 1] == AllAmounts(front);
    }
  }

  /** The bound in closed form: n/2 and half the sum of the factors. */
  function FactorSum(lines: seq<LineInput>): real {
    if lines == [] then 0.0 else FactorSum(lines[..|lines| - 1]) + Factor(lines[|lines| - 1])
  }

  lemma {:induction false} SlackIs(lines: seq<LineInput>)
    ensures Slack(lines) == |lines| as real / 2.0 + FactorSum(lines) / 2.0
  {
    if lines != [] { SlackIs(lines[..|lines| - 1]); }
  }

  // ---- VAT registration ---------------------------------------------------

  /** Create's rule: without registration every rate must be zero. */
  predicate VatPermitted(vatRegistered: bool, lines: seq<LineInput>) {
    vatRegistered || forall l :: l in lines ==> l.vatRate == 0.0
  }

  /** Create refuses exactly a taxed line on the invoice of an organisation that
      is not registered. */
  lemma RefusedWhen(vatRegistered: bool, lines: seq<LineInput>)
    ensures !VatPermitted(vatRegistered, lines) <==>
      !vatRegistered && exists i :: 0 <= i < |lines| && lines[i].vatRate != 0.0
  {
    if i :| 0 <= i < |lines| && lines[i].vatRate != 0.0 { assert lines[i] in lines; }
  }

  lemma ZeroRate(l: LineInput)
    requires l.vatRate == 0.0
    ensures CalculateLineAmounts(l).vatAmount == 0
  {
    var s := Round(Gross(l)) as real;
    assert s * l.vatRate / 100.0 == 0.0;
  }

  /** An invoice created without VAT registration charges no VAT, on no line. */
  lemma {:induction false} NoVatWhenUnregistered(lines: seq<LineInput>)
    requires VatPermitted(false, lines)
    ensures forall a :: a in AllAmounts(lines) ==> a.vatAmount == 0
    ensures Sum(AllAmounts(lines)).vatTotal == 0
    ensures Sum(AllAmounts(lines)).total == Sum(AllAmounts(lines)).subtotal
  {
    if lines != [] {
      var front, last := lines[..|lines| - 1], lines[|lines| - 1];
      NoVatWhenUnregistered(front);
      ZeroRate(last);
      assert AllAmounts(lines)[..|lines| - 1] == AllAmounts(front);
    }
  }

  // ---- The running sums stay in range -------------------------------------

  lemma LineAddsUp(lines: seq<LineInput>)
    requires lines != [] && ValidLine(lines[|lines| - 1])
    ensures var front, last := lines[..|lines| - 1], CalculateLineAmounts(lines[|lines| - 1]);
            Sum(AllAmounts(lines)) == AddLine(Sum(AllAmounts(front)), last)
            && 0 <= last.vatAmount <= last.total
  {
    LineError(lines[|lines| - 1]);
    assert AllAmounts(lines)[..|lines| - 1] == AllAmounts(lines[..|lines| - 1]);
  }

  /** Every partial sum is between zero and the final total, so if the total
      fits a machine integer nothing overflows on the way. */
  lemma {:induction false} PartialSumsFit(lines: seq<LineInput>, k: nat)
    requires (forall l :: l in lines ==> ValidLine(l)) && k <= |lines|
    ensures var part, whole := Sum(AllAmounts(lines[..k])), Sum(AllAmounts(lines));
            && 0 <= part.subtotal <= part.total <= whole.total
            && 0 <= part.vatTotal <= part.total
    decreases |lines|
  {
    if k < |lines| {
      var front := lines[..|lines| - 1];
      PartialSumsFit(front, k);
      LineAddsUp(lines);
      assert lines[..k] == front[..k];
    } else if k > 0 {
      var front := lines[..|lines| - 1];
      PartialSumsFit(front, k - 1);
      LineAddsUp(lines);
      assert lines[..k] == lines && front[..k - 1] == front;
    }
  }

  // ---- The browser's preview ----------------------------------------------

  function PreviewLineSubtotal(quantity: real, unitPrice: int): int { JsRound(quantity * unitPrice as real) }

  function PreviewLineVat(subtotal: int, vatRate: real): int { JsRound(subtotal as real * (vatRate / 100.0)) }

  /** The reduce over the drafts, from the left. */
  function PreviewInvoiceTotals(lines: seq<LineInput>): InvoiceTotals {
    if lines == [] then InvoiceTotals(0, 0, 0)
    else
      var acc, l := PreviewInvoiceTotals(lines[..|lines| - 1]), lines[|lines| - 1];
      var subtotal := PreviewLineSubtotal(l.quantity, l.unitPrice);
      var vat := PreviewLineVat(subtotal, l.vatRate);
      InvoiceTotals(acc.subtotal + subtotal, acc.vatTotal + vat, acc.total + subtotal + vat)
  }

  lemma PreviewLineAgrees(l: LineInput)
    requires ValidLine(l)
    ensures var a, subtotal := CalculateLineAmounts(l), PreviewLineSubtotal(l.quantity, l.unitPrice);
            subtotal == a.total - a.vatAmount && PreviewLineVat(subtotal, l.vatRate) == a.vatAmount
  {
    Product(l.quantity, l.unitPrice as real);
    RoundNear(Gross(l));
    var s := Round(Gross(l)) as real;
    Product(s, l.vatRate);
    assert s * (l.vatRate / 100.0) == s * l.vatRate / 100.0;
    RoundNear(s * l.vatRate / 100.0);
  }

  /** The preview shows the three totals the server will store. */
  lemma {:induction false} PreviewAgrees(lines: seq<LineInput>)
    requires forall l :: l in lines ==> ValidLine(l)
    ensures PreviewInvoiceTotals(lines) == Sum(AllAmounts(lines))
  {
    if lines != [] {
      var front, last := lines[..|lines| - 1], lines[|lines| - 1];
      PreviewAgrees(front);
      PreviewLineAgrees(last);
      assert AllAmounts(lines)[..|lines| - 1] == AllAmounts(front);
    }
  }
}
