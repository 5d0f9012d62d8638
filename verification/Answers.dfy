/**
 What CreatePayment, Send and Cancel answer and write when run alone, case by
 case, in terms of the stored rows, the request and the captured records. The
 members that compute it are not named here.
 */
module Answers {
  import opened Text
  import opened Invoices
  import opened Store
  import F = Fingerprint

  // ---- CreatePayment -----------------------------------------------------

  /** The row a recorded payment is, column by column. */
  predicate Records(p: Payment, op: Op)
    requires op.PayOp?
  {
    var r := op.request;
    && p.id == op.paymentId && p.invoiceId == op.invoiceId
    && p.amount == r.amount && p.paymentMethod == r.paymentMethod
    && p.paymentDate == (if r.paymentDate == F.ZERO_DATE then op.today else r.paymentDate)
    && KeptAs(r.reference, p.reference) && KeptAs(r.notes, p.notes)
    && p.idempotency == Some(Idempotency(r.idempotencyKey, F.FingerprintOf(r)))
  }

  /** The invoice the call is about, if its organisation has it. */
  predicate Has(db: Db, op: Op) {
    op.invoiceId in db.invoices && db.invoices[op.invoiceId].organisationId == op.org
  }

  /** Some payment of the invoice carries the key. */
  predicate Carries(p: Payment, op: Op)
    requires op.PayOp?
  {
    p.invoiceId == op.invoiceId && p.idempotency.Some? && p.idempotency.value.key == op.request.idempotencyKey
  }

  predicate Answers(db: Db, op: Op, c: Capture, now: Time, out: Outcome) {
    Serial(db, op, c, now) == (db, out)
  }

  /** Requests refused before any payment is looked at. */
  lemma PaymentRefusedAtOnce(db: Db, op: Op, c: Capture, now: Time)
    requires op.PayOp?
    ensures !F.ValidKey(op.request.idempotencyKey) ==> Answers(db, op, c, now, Refused(IdempotencyKeyInvalid))
    ensures F.ValidKey(op.request.idempotencyKey) && op.request.amount <= 0 ==>
              Answers(db, op, c, now, Refused(PaymentAmountInvalid))
    ensures F.ValidKey(op.request.idempotencyKey) && op.request.amount > 0 && !Has(db, op) ==>
              Answers(db, op, c, now, Refused(InvoiceNotFound))
  {
  }

  predicate WellAsked(db: Db, op: Op) {
    op.PayOp? && F.ValidKey(op.request.idempotencyKey) && op.request.amount > 0 && Has(db, op)
  }

  /** A key that is taken decides alone, whatever the invoice is by now. */
  lemma PaymentAnsweredByKey(db: Db, op: Op, c: Capture, now: Time, p: Payment)
    requires Safe(db) && WellAsked(db, op) && p in db.payments && Carries(p, op)
    ensures Answers(db, op, c, now,
              if p.idempotency.value.fingerprint == F.FingerprintOf(op.request) then Replayed(p)
              else Refused(IdempotencyKeyReused))
  {
    var found := FindKey(db.payments, op.invoiceId, op.request.idempotencyKey);
    FindKeyFinds(db.payments, op.invoiceId, op.request.idempotencyKey);
    assert HasKey(p, op.invoiceId, op.request.idempotencyKey);
    KeyIsUnique(db, p, found.value, op.invoiceId, op.request.idempotencyKey);
  }

  /** With a new key, status and balance decide; a payment that fits is
      appended as asked, and settles the invoice exactly when it pays the rest. */
  lemma PaymentAnsweredByBalance(db: Db, op: Op, c: Capture, now: Time)
    requires WellAsked(db, op) && forall p :: p in db.payments ==> !Carries(p, op)
    ensures var row, paid := db.invoices[op.invoiceId], SumPaid(db.payments, op.invoiceId);
            if row.status != Sent then Answers(db, op, c, now, Refused(CannotAcceptPayment))
            else if paid + op.request.amount > row.total
            then Answers(db, op, c, now, Refused(PaymentExceedsOutstanding))
            else PaidAsAsked(db, op, Serial(db, op, c, now), paid + op.request.amount == row.total)
  {
    FindKeyFinds(db.payments, op.invoiceId, op.request.idempotencyKey);
    assert forall p :: p in db.payments && HasKey(p, op.invoiceId, op.request.idempotencyKey) ==> Carries(p, op);
    RecordsNewPayment(op);
    assert db.invoices == db.invoices[op.invoiceId := db.invoices[op.invoiceId]];
  }

  predicate PaidAsAsked(db: Db, op: Op, result: (Db, Outcome), settled: bool)
    requires op.PayOp? && op.invoiceId in db.invoices
  {
    && result.1.Recorded? && Records(result.1.payment, op)
    && result.0.payments == db.payments + [result.1.payment]
    && result.0.invoices == db.invoices[op.invoiceId :=
         if settled then db.invoices[op.invoiceId].(status := Paid) else db.invoices[op.invoiceId]]
  }

  lemma RecordsNewPayment(op: Op)
    requires op.PayOp?
    ensures Records(NewPayment(op), op)
  {
  }

  // ---- Send and Cancel ---------------------------------------------------

  predicate ThreeCapitals(code: string) {
    |code| == 3 && 'A' <= code[0] <= 'Z' && 'A' <= code[1] <= 'Z' && 'A' <= code[2] <= 'Z'
  }

  /** Why what was captured cannot be frozen, if it cannot. */
  function Problem(c: Capture): Option<Error> {
    if c.organisation.None? || c.customer.None? then Some(SnapshotDataUnavailable)
    else if c.currency.None? then Some(SettingsNotFound)
    else if c.template.None? then Some(SnapshotDataUnavailable)
    else if c.organisation.value.name == "" then Some(SnapshotSellerNameRequired)
    else if c.customer.value.name == "" then Some(SnapshotCustomerNameRequired)
    else
      var code := Upper(Trim(c.currency.value));
      if code == "" then Some(SnapshotCurrencyRequired)
      else if ThreeCapitals(code) then None
      else Some(SnapshotCurrencyInvalid)
  }

  /** Every snapshot column, against the record it was captured from. */
  predicate Froze(party: PartyColumns, c: Capture)
    requires Problem(c).None?
  {
    && FrozeSeller(party, c.organisation.value) && FrozeCustomer(party, c.customer.value)
    && FrozeAddress(party, c.address)
    && party.currency == Some(Upper(Trim(c.currency.value)))
  }

  predicate FrozeSeller(party: PartyColumns, o: Organisation) {
    && party.sellerName == Some(o.name) && party.sellerEmail == o.email && party.sellerPhone == o.phone
    && party.sellerWebsite == o.website && party.sellerAddress == o.address && party.sellerCity == o.city
    && party.sellerState == o.state && party.sellerPostalCode == o.postalCode && party.sellerCountry == o.country
    && party.sellerTaxId == (if o.vatRegistered then o.taxId else None) && party.sellerLogoId == o.logoId
  }

  predicate FrozeCustomer(party: PartyColumns, k: Customer) {
    && party.customerName == Some(k.name) && party.customerCompanyName == k.companyName
    && party.customerEmail == k.email && party.customerPhone == k.phone && party.customerTaxId == k.taxId
  }

  predicate FrozeAddress(party: PartyColumns, address: Option<Address>) {
    match address
    case None =>
      && party.customerAddress.None? && party.customerCity.None? && party.customerState.None?
      && party.customerPostalCode.None? && party.customerCountry.None?
    case Some(a) =>
      && KeptAs(a.street, party.customerAddress) && KeptAs(a.city, party.customerCity)
      && KeptAs(a.state, party.customerState) && KeptAs(a.postalCode, party.customerPostalCode)
      && KeptAs(a.country, party.customerCountry)
  }

  lemma CurrencyProblem(currency: string)
    ensures IsValidCurrencyCode(NormalizeCurrency(currency)) == ThreeCapitals(Upper(Trim(currency)))
    ensures NormalizeCurrency(currency) == Upper(Trim(currency))
  {
  }

  lemma CaptureProblem(c: Capture)
    ensures Problem(c) == if CaptureError(c).Some? then CaptureError(c) else ValidateSnapshot(PartyOf(c))
  {
    if c.currency.Some? { CurrencyProblem(c.currency.value); }
  }

  lemma SellerFrozen(c: Capture)
    requires CaptureError(c).None?
    ensures FrozeSeller(Columns(PartyOf(c)), c.organisation.value)
  {
  }

  lemma CustomerFrozen(c: Capture)
    requires CaptureError(c).None?
    ensures FrozeCustomer(Columns(PartyOf(c)), c.customer.value)
  {
  }

  lemma AddressFrozen(c: Capture)
    requires CaptureError(c).None?
    ensures FrozeAddress(Columns(PartyOf(c)), c.address)
  {
  }

  lemma CaptureFrozen(c: Capture)
    requires Problem(c).None? && CaptureError(c).None?
    ensures Froze(Columns(PartyOf(c)), c)
  {
    SellerFrozen(c);
    CustomerFrozen(c);
    AddressFrozen(c);
    CurrencyProblem(c.currency.value);
  }

  /** The row `row` becomes when it is issued from the capture, with the status
      and times given. */
  predicate IssuedAs(row: InvoiceRow, row': InvoiceRow, c: Capture, status: Status,
                     sentAt: Option<Time>, cancelledAt: Option<Time>)
    requires Problem(c).None?
  {
    && row' == row.(status := status, sentAt := sentAt, cancelledAt := cancelledAt,
                    party := row'.party, template := c.template)
    && Froze(row'.party, c)
  }

  lemma SendRowIssues(row: InvoiceRow, c: Capture, now: Time, s: PartySnapshot, t: TemplateSnapshot)
    requires row.status == Draft && ValidateSnapshot(s).None?
    requires Problem(c).None? && c.template == Some(t) && Froze(Columns(s), c)
    ensures var r := SendRow(row, now, s, t); r.Ok? && IssuedAs(row, r.value, c, Sent, Some(now), row.cancelledAt)
    ensures forall paid :: paid <= 0 ==>
      var r := CancelRow(row, now, paid, s, t);
      r.Ok? && IssuedAs(row, r.value, c, Cancelled, row.sentAt, Some(now))
  {
  }

  lemma RowRefused(row: InvoiceRow, now: Time, s: PartySnapshot, t: TemplateSnapshot, e: Error)
    requires row.status == Draft && ValidateSnapshot(s) == Some(e)
    ensures SendRow(row, now, s, t) == Err(e)
    ensures forall paid :: paid <= 0 ==> CancelRow(row, now, paid, s, t) == Err(e)
  {
  }

  /** What becomes of a Draft's snapshot, either way. */
  lemma DraftRow(row: InvoiceRow, c: Capture, now: Time)
    requires row.status == Draft && CaptureError(c).None?
    ensures var r := SendRow(row, now, PartyOf(c), c.template.value);
            if Problem(c).Some? then r == Err(Problem(c).value)
            else r.Ok? && IssuedAs(row, r.value, c, Sent, Some(now), row.cancelledAt)
    ensures forall paid :: paid <= 0 ==>
      var r := CancelRow(row, now, paid, PartyOf(c), c.template.value);
      if Problem(c).Some? then r == Err(Problem(c).value)
      else r.Ok? && IssuedAs(row, r.value, c, Cancelled, row.sentAt, Some(now))
  {
    CaptureProblem(c);
    if Problem(c).None? {
      CaptureFrozen(c);
      SendRowIssues(row, c, now, PartyOf(c), c.template.value);
    } else {
      RowRefused(row, now, PartyOf(c), c.template.value, Problem(c).value);
    }
  }

  lemma SendDecision(row: InvoiceRow, c: Capture, now: Time)
    requires row.status == Draft
    ensures var d := DecideSend(row, c, now);
            if Problem(c).Some? then d == Decision(Refused(Problem(c).value), None, None)
            else
              && d.row.Some? && d == Decision(SentInvoice(d.row.value), d.row, None)
              && IssuedAs(row, d.row.value, c, Sent, Some(now), row.cancelledAt)
  {
    if CaptureError(c).Some? { CaptureProblem(c); } else { DraftRow(row, c, now); }
  }

  /** Send succeeds exactly for a Draft whose capture has no problem. */
  lemma SendAnswer(db: Db, op: Op, c: Capture, now: Time)
    requires op.SendOp?
    ensures var (db', out) := Serial(db, op, c, now);
            if !Has(db, op) then Answers(db, op, c, now, Refused(InvoiceNotFound))
            else
              var row := db.invoices[op.invoiceId];
              if row.status == Cancelled then Answers(db, op, c, now, Refused(AlreadyCancelled))
              else if row.status != Draft then Answers(db, op, c, now, Refused(AlreadySent))
              else if Problem(c).Some? then Answers(db, op, c, now, Refused(Problem(c).value))
              else
                && out.SentInvoice? && db' == db.(invoices := db.invoices[op.invoiceId := out.row])
                && IssuedAs(row, out.row, c, Sent, Some(now), row.cancelledAt)
  {
    if Has(db, op) {
      var row := db.invoices[op.invoiceId];
      assert Decide(db, op, c, now) == DecideSend(row, c, now);
      if row.status == Draft { SendDecision(row, c, now); }
    }
  }

  lemma CancelDecision(row: InvoiceRow, paid: int, c: Capture, now: Time)
    requires row.status in {Draft, Sent} && paid <= 0
    ensures var d := DecideCancel(row, paid, c, now);
            if row.status == Draft && Problem(c).Some? then d == Decision(Refused(Problem(c).value), None, None)
            else
              && d.row.Some? && d == Decision(CancelledInvoice(d.row.value), d.row, None)
              && (if row.status == Sent then d.row.value == row.(status := Cancelled, cancelledAt := Some(now))
                  else IssuedAs(row, d.row.value, c, Cancelled, row.sentAt, Some(now)))
  {
    if row.status == Draft {
      if CaptureError(c).Some? { CaptureProblem(c); } else { DraftRow(row, c, now); }
    }
  }

  lemma CancelRefusal(row: InvoiceRow, paid: int, c: Capture, now: Time)
    requires row.status !in {Draft, Sent} || paid > 0
    ensures DecideCancel(row, paid, c, now)
         == Decision(Refused(if row.status == Cancelled then AlreadyCancelled else CannotBeCancelled), None, None)
  {
  }

  /** Cancel succeeds exactly for a Draft or Sent invoice with nothing paid,
      and a Draft only if its capture has no problem. */
  lemma CancelAnswer(db: Db, op: Op, c: Capture, now: Time)
    requires op.CancelOp?
    ensures var (db', out) := Serial(db, op, c, now);
            if !Has(db, op) then Answers(db, op, c, now, Refused(InvoiceNotFound))
            else
              var row, paid := db.invoices[op.invoiceId], SumPaid(db.payments, op.invoiceId);
              if row.status == Cancelled then Answers(db, op, c, now, Refused(AlreadyCancelled))
              else if row.status !in {Draft, Sent} || paid > 0 then Answers(db, op, c, now, Refused(CannotBeCancelled))
              else if row.status == Draft && Problem(c).Some? then Answers(db, op, c, now, Refused(Problem(c).value))
              else
                && out.CancelledInvoice? && db' == db.(invoices := db.invoices[op.invoiceId := out.row])
                && (if row.status == Sent then out.row == row.(status := Cancelled, cancelledAt := Some(now))
                    else IssuedAs(row, out.row, c, Cancelled, row.sentAt, Some(now)))
  {
    if Has(db, op) {
      var row, paid := db.invoices[op.invoiceId], SumPaid(db.payments, op.invoiceId);
      assert Decide(db, op, c, now) == DecideCancel(row, paid, c, now);
      if row.status !in {Draft, Sent} || paid > 0 {
        CancelRefusal(row, paid, c, now);
      } else {
        CancelDecision(row, paid, c, now);
      }
    }
  }

  // ---- New records -------------------------------------------------------

  /** What is stored of a new organisation and of a new customer. */
  lemma NewRecordsShow(org: Uuid, name: string, email: string, phone: string, companyName: string, taxId: string)
    ensures match NewOrganisation(name)
            case None => Trim(name) == ""
            case Some(o) =>
              && Trim(name) != "" && o.name == Trim(name) && !o.vatRegistered && o.taxId.None? && o.logoId.None?
              && o.email.None? && o.phone.None? && o.website.None? && o.address.None? && o.city.None?
              && o.state.None? && o.postalCode.None? && o.country.None?
    ensures match NewCustomer(org, name, email, phone, companyName, taxId)
            case None => Trim(name) == ""
            case Some(k) =>
              && Trim(name) != "" && k.organisationId == org && k.name == Trim(name)
              && KeptAs(companyName, k.companyName) && KeptAs(email, k.email) && KeptAs(phone, k.phone)
              && KeptAs(taxId, k.taxId)
  {
  }
}
