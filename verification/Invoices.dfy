/**
 The invoice lifecycle: the stored row, the party and template snapshots, and
 the Invoice object whose methods apply the guarded transitions in place.
 Times are nanoseconds since the epoch; dates are times at midnight UTC.
 */
module Invoices {
  import opened Text

  type Time = int

  const DAY: int := 86_400_000_000_000

  /** The persisted status values; Overdue is only ever derived. */
  datatype Status = Draft | Sent | Paid | Overdue | Cancelled

  datatype Line = Line(
    description: string, quantity: real, quantityUnit: Option<string>,
    unitPrice: int, vatRate: real, vatAmount: int, total: int)

  /** InvoicePartySnapshot: what Send captures. */
  datatype PartySnapshot = PartySnapshot(
    sellerName: string, sellerEmail: Option<string>, sellerPhone: Option<string>,
    sellerWebsite: Option<string>, sellerAddress: Option<string>, sellerCity: Option<string>,
    sellerState: Option<string>, sellerPostalCode: Option<string>, sellerCountry: Option<string>,
    sellerTaxId: Option<string>, sellerLogoId: Option<Uuid>,
    customerName: string, customerCompanyName: Option<string>, customerEmail: Option<string>,
    customerPhone: Option<string>, customerTaxId: Option<string>, customerAddress: Option<string>,
    customerCity: Option<string>, customerState: Option<string>, customerPostalCode: Option<string>,
    customerCountry: Option<string>,
    currency: string)

  /** The snapshot columns of an invoice row, all of them nullable. */
  datatype PartyColumns = PartyColumns(
    sellerName: Option<string>, sellerEmail: Option<string>, sellerPhone: Option<string>,
    sellerWebsite: Option<string>, sellerAddress: Option<string>, sellerCity: Option<string>,
    sellerState: Option<string>, sellerPostalCode: Option<string>, sellerCountry: Option<string>,
    sellerTaxId: Option<string>, sellerLogoId: Option<Uuid>,
    customerName: Option<string>, customerCompanyName: Option<string>, customerEmail: Option<string>,
    customerPhone: Option<string>, customerTaxId: Option<string>, customerAddress: Option<string>,
    customerCity: Option<string>, customerState: Option<string>, customerPostalCode: Option<string>,
    customerCountry: Option<string>,
    currency: Option<string>)

  const NO_PARTY := PartyColumns(
    None, None, None, None, None, None, None, None, None, None, None,
    None, None, None, None, None, None, None, None, None, None, None)

  datatype TemplateSnapshot = TemplateSnapshot(
    templateId: Uuid, name: string, definition: string, isSystem: bool)

  /** An invoices row together with its invoice_lines rows. */
  datatype InvoiceRow = InvoiceRow(
    organisationId: Uuid, customerId: Uuid, invoiceNumber: string,
    issueDate: Time, dueDate: Time,
    subtotal: int, vatTotal: int, total: int,
    status: Status, sentAt: Option<Time>, cancelledAt: Option<Time>,
    notes: Option<string>, vatRegistered: bool, lines: seq<Line>,
    party: PartyColumns, template: Option<TemplateSnapshot>)

  datatype Error =
    | InvoiceNotFound
    | AlreadySent
    | AlreadyCancelled
    | CannotBeCancelled
    | CannotAcceptPayment
    | PaymentAmountInvalid
    | PaymentExceedsOutstanding
    | IdempotencyKeyInvalid
    | IdempotencyKeyReused
    | SnapshotDataUnavailable
    | SettingsNotFound
    | SnapshotSellerNameRequired
    | SnapshotCustomerNameRequired
    | SnapshotCurrencyRequired
    | SnapshotCurrencyInvalid

  datatype Result<+T> = Ok(value: T) | Err(error: Error)

  predicate IsValidCurrencyCode(code: string) {
    |code| == 3 && forall i :: 0 <= i < 3 ==> 'A' <= code[i] <= 'Z'
  }

  function NormalizeCurrency(currency: string): string {
    Upper(Trim(currency))
  }

  /** InvoicePartySnapshot.Validate. */
  function ValidateSnapshot(s: PartySnapshot): Option<Error> {
    if s.sellerName == "" then Some(SnapshotSellerNameRequired)
    else if s.customerName == "" then Some(SnapshotCustomerNameRequired)
    else if s.currency == "" then Some(SnapshotCurrencyRequired)
    else if !IsValidCurrencyCode(s.currency) then Some(SnapshotCurrencyInvalid)
    else None
  }

  /** The columns a captured snapshot is written to. */
  function Columns(s: PartySnapshot): PartyColumns {
    PartyColumns(
      Some(s.sellerName), s.sellerEmail, s.sellerPhone, s.sellerWebsite, s.sellerAddress,
      s.sellerCity, s.sellerState, s.sellerPostalCode, s.sellerCountry, s.sellerTaxId, s.sellerLogoId,
      Some(s.customerName), s.customerCompanyName, s.customerEmail, s.customerPhone,
      s.customerTaxId, s.customerAddress, s.customerCity, s.customerState, s.customerPostalCode,
      s.customerCountry, Some(s.currency))
  }

  // ---- What the transitions do to a row ----------------------------------

  function SendRow(row: InvoiceRow, at: Time, s: PartySnapshot, t: TemplateSnapshot): Result<InvoiceRow> {
    if row.status != Draft then Err(AlreadySent)
    else match ValidateSnapshot(s)
      case Some(e) => Err(e)
      case None => Ok(row.(status := Sent, sentAt := Some(at), party := Columns(s), template := Some(t)))
  }

  function CheckCancellable(row: InvoiceRow, amountPaid: int): Option<Error> {
    match row.status
    case Cancelled => Some(AlreadyCancelled)
    case Draft => if amountPaid > 0 then Some(CannotBeCancelled) else None
    case Sent => if amountPaid > 0 then Some(CannotBeCancelled) else None
    case _ => Some(CannotBeCancelled)
  }

  function CancelRow(row: InvoiceRow, at: Time, amountPaid: int, s: PartySnapshot, t: TemplateSnapshot)
    : Result<InvoiceRow>
  {
    match CheckCancellable(row, amountPaid)
    case Some(e) => Err(e)
    case None =>
      if row.status != Draft then Ok(row.(status := Cancelled, cancelledAt := Some(at)))
      else match ValidateSnapshot(s)
        case Some(e) => Err(e)
        case None =>
          Ok(row.(status := Cancelled, cancelledAt := Some(at), party := Columns(s), template := Some(t)))
  }

  predicate CanAcceptPayment(row: InvoiceRow) { row.status == Sent }

  function AmountOutstanding(row: InvoiceRow, amountPaid: int): int {
    if row.status == Cancelled then 0 else row.total - amountPaid
  }

  /** Midnight UTC of the day that contains t. */
  function UtcDate(t: Time): Time { t - t % DAY }

  function EffectiveStatus(status: Status, dueDate: Time, now: Time): Status {
    if status != Sent then status
    else if UtcDate(now) > dueDate then Overdue
    else Sent
  }

  /** A Sent invoice is overdue from the first moment of the day after its due
      date; no other status is derived. */
  lemma OverdueFromTheNextDay(status: Status, dueDate: Time, now: Time)
    requires dueDate % DAY == 0
    ensures EffectiveStatus(status, dueDate, now)
         == if status == Sent && now >= dueDate + 24 * 60 * 60 * 1_000_000_000 then Overdue else status
  {
    var day, days := UtcDate(now) / DAY, dueDate / DAY;
    assert UtcDate(now) == day * DAY && dueDate == days * DAY;
    assert UtcDate(now) <= now < UtcDate(now) + DAY;
    if day > days { assert day * DAY >= (days + 1) * DAY; } else { assert day * DAY <= days * DAY; }
  }

  // ---- The lifecycle order -----------------------------------------------

  /** The status changes an invoice can ever make. */
  predicate Moves(a: Status, b: Status) {
    a == b || (a == Draft && b in {Sent, Paid, Cancelled}) || (a == Sent && b in {Paid, Cancelled})
  }

  /** b is the same document as a: whatever happened in between, the number,
      parties, dates, lines and totals agree; only the status, moving forward,
      and the cancellation time may differ. */
  predicate SameDocument(a: InvoiceRow, b: InvoiceRow) {
    b == a.(status := b.status, cancelledAt := b.cancelledAt) && Moves(a.status, b.status)
  }

  /** A Draft may still gain its snapshot; anything issued may not change. */
  predicate Evolves(a: InvoiceRow, b: InvoiceRow) {
    if a.status != Draft then SameDocument(a, b)
    else
      && Moves(a.status, b.status)
      && b == a.(status := b.status, sentAt := b.sentAt, cancelledAt := b.cancelledAt,
                 party := b.party, template := b.template)
      && (b.status == Draft ==> b == a)
  }

  lemma EvolvesTransitive(a: InvoiceRow, b: InvoiceRow, c: InvoiceRow)
    requires Evolves(a, b) && Evolves(b, c)
    ensures Evolves(a, c)
  {
    assert c == c.(status := c.status);
  }

  lemma TransitionsEvolve(row: InvoiceRow, at: Time, paid: int, s: PartySnapshot, t: TemplateSnapshot)
    ensures SendRow(row, at, s, t).Ok? ==> Evolves(row, SendRow(row, at, s, t).value)
    ensures CancelRow(row, at, paid, s, t).Ok? ==> Evolves(row, CancelRow(row, at, paid, s, t).value)
    ensures row.status == Sent ==> Evolves(row, row.(status := Paid))
  {
    assert row == row.(status := row.status);
  }

  // ---- The object --------------------------------------------------------

  /** The in-memory invoice a service loads, changes and writes back. */
  class Invoice {
    const organisationId: Uuid
    const customerId: Uuid
    const invoiceNumber: string
    const issueDate: Time
    const dueDate: Time
    const subtotal: int
    const vatTotal: int
    const total: int
    const notes: Option<string>
    const vatRegistered: bool
    const lines: seq<Line>
    var status: Status
    var sentAt: Option<Time>
    var cancelledAt: Option<Time>
    var party: PartyColumns
    var template: Option<TemplateSnapshot>

    /** Scans a row into an object. */
    constructor (row: InvoiceRow)
      ensures Row() == row
    {
      organisationId, customerId := row.organisationId, row.customerId;
      invoiceNumber, issueDate, dueDate := row.invoiceNumber, row.issueDate, row.dueDate;
      subtotal, vatTotal, total := row.subtotal, row.vatTotal, row.total;
      notes, vatRegistered, lines := row.notes, row.vatRegistered, row.lines;
      status, sentAt, cancelledAt := row.status, row.sentAt, row.cancelledAt;
      party, template := row.party, row.template;
    }

    function Row(): InvoiceRow
      reads this
    {
      InvoiceRow(organisationId, customerId, invoiceNumber, issueDate, dueDate,
                 subtotal, vatTotal, total, status, sentAt, cancelledAt, notes, vatRegistered, lines,
                 party, template)
    }

    /** Validates first, then copies every snapshot field. */
    method ApplySnapshots(s: PartySnapshot, t: TemplateSnapshot) returns (err: Option<Error>)
      modifies this`party, this`template
      ensures err == ValidateSnapshot(s)
      ensures err.Some? ==> Row() == old(Row())
      ensures err.None? ==> Row() == old(Row()).(party := Columns(s), template := Some(t))
    {
      err := ValidateSnapshot(s);
      if err.Some? { return; }
      party := party.(sellerName := Some(s.sellerName), sellerEmail := s.sellerEmail,
                      sellerPhone := s.sellerPhone, sellerWebsite := s.sellerWebsite,
                      sellerAddress := s.sellerAddress, sellerCity := s.sellerCity,
                      sellerState := s.sellerState, sellerPostalCode := s.sellerPostalCode,
                      sellerCountry := s.sellerCountry, sellerTaxId := s.sellerTaxId,
                      sellerLogoId := s.sellerLogoId);
      party := party.(customerName := Some(s.customerName), customerCompanyName := s.customerCompanyName,
                      customerEmail := s.customerEmail, customerPhone := s.customerPhone,
                      customerTaxId := s.customerTaxId, customerAddress := s.customerAddress,
                      customerCity := s.customerCity, customerState := s.customerState,
                      customerPostalCode := s.customerPostalCode, customerCountry := s.customerCountry);
      party := party.(currency := Some(s.currency));
      template := Some(t);
    }

    /** Draft -> Sent, all fields or none. */
    method MarkSent(at: Time, s: PartySnapshot, t: TemplateSnapshot) returns (err: Option<Error>)
      modifies this
      ensures match SendRow(old(Row()), at, s, t)
              case Ok(row) => err == None && Row() == row
              case Err(e) => err == Some(e) && Row() == old(Row())
    {
      if status != Draft { return Some(AlreadySent); }
      err := ApplySnapshots(s, t);
      if err.Some? { return; }
      status := Sent;
      sentAt := Some(at);
    }

    /** -> Cancelled, all fields or none; a Sent invoice keeps its snapshot. */
    method Cancel(at: Time, amountPaid: int, s: PartySnapshot, t: TemplateSnapshot) returns (err: Option<Error>)
      modifies this
      ensures match CancelRow(old(Row()), at, amountPaid, s, t)
              case Ok(row) => err == None && Row() == row
              case Err(e) => err == Some(e) && Row() == old(Row())
    {
      err := CheckCancellable(Row(), amountPaid);
      if err.Some? { return; }
      if status == Draft {
        err := ApplySnapshots(s, t);
        if err.Some? { return; }
      }
      status := Cancelled;
      cancelledAt := Some(at);
    }
  }
}
