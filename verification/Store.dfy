/**
 The committed database of the money path and the serial meaning of each call:
 what CreatePayment, Send and Cancel would do if each ran alone, in one step.
 Every row is scoped to an organisation; a row of another organisation is not
 found. No operation deletes an invoice or a payment.
 */
module Store {
  import opened Text
  import opened Invoices
  import F = Fingerprint

  // ---- Live records ------------------------------------------------------

  datatype Organisation = Organisation(
    name: string, email: Option<string>, phone: Option<string>, website: Option<string>,
    address: Option<string>, city: Option<string>, state: Option<string>,
    postalCode: Option<string>, country: Option<string>, taxId: Option<string>,
    vatRegistered: bool, logoId: Option<Uuid>)

  datatype Customer = Customer(
    organisationId: Uuid, name: string, companyName: Option<string>, email: Option<string>,
    phone: Option<string>, taxId: Option<string>)

  datatype Address = Address(
    street: string, city: string, state: string, postalCode: string, country: string)

  /** The records that may be edited at any time. `settings` holds an
      organisation's currency, `templates` its default template. */
  datatype Live = Live(
    organisations: map<Uuid, Organisation>, customers: map<Uuid, Customer>,
    addresses: map<Uuid, Address>, settings: map<Uuid, string>,
    templates: map<Uuid, TemplateSnapshot>)

  /** What registration stores for a new organisation's name. */
  function NewOrganisation(name: string): Option<Organisation> {
    match AcceptName(name)
    case None => None
    case Some(n) => Some(Organisation(n, None, None, None, None, None, None, None, None, None, false, None))
  }

  /** CustomerService.Create. */
  function NewCustomer(org: Uuid, name: string, email: string, phone: string, companyName: string, taxId: string)
    : Option<Customer>
  {
    match AcceptName(name)
    case None => None
    case Some(n) =>
      Some(Customer(org, n, NilIfEmpty(companyName), NilIfEmpty(email), NilIfEmpty(phone), NilIfEmpty(taxId)))
  }

  function Lookup<V>(m: map<Uuid, V>, id: Uuid): Option<V> {
    if id in m then Some(m[id]) else None
  }

  function FindCustomer(live: Live, org: Uuid, id: Uuid): Option<Customer> {
    if id in live.customers && live.customers[id].organisationId == org
    then Some(live.customers[id]) else None
  }

  /** A billing address is reached only through its customer's organisation. */
  function FindAddress(live: Live, org: Uuid, customerId: Uuid): Option<Address> {
    if FindCustomer(live, org, customerId).Some? then Lookup(live.addresses, customerId) else None
  }

  /** What the five reads of buildPartySnapshot and buildTemplateSnapshot
      returned, in their order; each read is a statement of its own. */
  datatype Capture = Capture(
    organisation: Option<Organisation>, customer: Option<Customer>, currency: Option<string>,
    address: Option<Address>, template: Option<TemplateSnapshot>)

  function CaptureAll(live: Live, org: Uuid, customerId: Uuid): Capture {
    Capture(Lookup(live.organisations, org), FindCustomer(live, org, customerId),
            Lookup(live.settings, org), FindAddress(live, org, customerId), Lookup(live.templates, org))
  }

  function CaptureError(c: Capture): Option<Error> {
    if c.organisation.None? || c.customer.None? then Some(SnapshotDataUnavailable)
    else if c.currency.None? then Some(SettingsNotFound)
    else if c.template.None? then Some(SnapshotDataUnavailable)
    else None
  }

  /** A non-registered organisation's VAT number never reaches an invoice. */
  function SellerVatNumber(o: Organisation): Option<string> {
    if o.vatRegistered then o.taxId else None
  }

  function AddressField(a: Option<Address>, field: Address -> string): Option<string> {
    match a
    case None => None
    case Some(address) => NilIfEmpty(field(address))
  }

  function PartyOf(c: Capture): PartySnapshot
    requires CaptureError(c).None?
  {
    var o, k := c.organisation.value, c.customer.value;
    PartySnapshot(
      o.name, o.email, o.phone, o.website, o.address, o.city, o.state, o.postalCode, o.country,
      SellerVatNumber(o), o.logoId,
      k.name, k.companyName, k.email, k.phone, k.taxId,
      AddressField(c.address, (a: Address) => a.street), AddressField(c.address, (a: Address) => a.city),
      AddressField(c.address, (a: Address) => a.state), AddressField(c.address, (a: Address) => a.postalCode),
      AddressField(c.address, (a: Address) => a.country),
      NormalizeCurrency(c.currency.value))
  }

  // ---- Payments ----------------------------------------------------------

  /** The key and the fingerprint written on the payment's own row. */
  datatype Idempotency = Idempotency(key: string, fingerprint: string)

  /** A payments row. Rows older than idempotency have no key. */
  datatype Payment = Payment(
    id: Uuid, invoiceId: Uuid, amount: int, paymentMethod: string, paymentDate: F.Date,
    reference: Option<string>, notes: Option<string>, idempotency: Option<Idempotency>)

  /** SUM(amount) over one invoice's payments. */
  function SumPaid(ps: seq<Payment>, invoiceId: Uuid): int {
    if ps == [] then 0
    else
      var p := ps[|ps| - 1];
      SumPaid(ps[..|ps| - 1], invoiceId) + if p.invoiceId == invoiceId then p.amount else 0
  }

  predicate HasKey(p: Payment, invoiceId: Uuid, key: string) {
    p.invoiceId == invoiceId && p.idempotency.Some? && p.idempotency.value.key == key
  }

  function FindKey(ps: seq<Payment>, invoiceId: Uuid, key: string): Option<Payment> {
    if ps == [] then None
    else if HasKey(ps[|ps| - 1], invoiceId, key) then Some(ps[|ps| - 1])
    else FindKey(ps[..|ps| - 1], invoiceId, key)
  }

  lemma SumPaidAppend(ps: seq<Payment>, p: Payment, invoiceId: Uuid)
    ensures SumPaid(ps + [p], invoiceId)
         == SumPaid(ps, invoiceId) + if p.invoiceId == invoiceId then p.amount else 0
  {
    assert (ps + [p])[..|ps|] == ps;
  }

  lemma {:induction false} FindKeyFinds(ps: seq<Payment>, invoiceId: Uuid, key: string)
    ensures match FindKey(ps, invoiceId, key)
            case Some(p) => p in ps && HasKey(p, invoiceId, key)
            case None => forall p :: p in ps ==> !HasKey(p, invoiceId, key)
  {
    if ps != [] {
      FindKeyFinds(ps[..|ps| - 1], invoiceId, key);
      assert ps == ps[..|ps| - 1] + [ps[|ps| - 1]];
    }
  }

  lemma {:induction false} SumPaidNonNegative(ps: seq<Payment>, invoiceId: Uuid)
    requires forall p :: p in ps ==> p.amount > 0
    ensures SumPaid(ps, invoiceId) >= 0
    ensures SumPaid(ps, invoiceId) == 0 <==> forall p :: p in ps ==> p.invoiceId != invoiceId
  {
    if ps != [] {
      var init, last := ps[..|ps| - 1], ps[|ps| - 1];
      assert ps == init + [last];
      SumPaidNonNegative(init, invoiceId);
      assert last in ps;
    }
  }

  // ---- The serial meaning of the calls -----------------------------------

  datatype Db = Db(invoices: map<Uuid, InvoiceRow>, payments: seq<Payment>)

  /** A call in flight. A payment's id and default date are chosen before its
      transaction begins. */
  datatype Op =
    | PayOp(org: Uuid, invoiceId: Uuid, request: F.PaymentRequest, paymentId: Uuid, today: F.Date)
    | SendOp(org: Uuid, invoiceId: Uuid)
    | CancelOp(org: Uuid, invoiceId: Uuid)

  /** What a caller is told. Failed: an error before COMMIT, rolled back.
      Unknown: COMMIT itself reported an error. */
  datatype Outcome =
    | Refused(error: Error)
    | Recorded(payment: Payment)
    | Replayed(payment: Payment)
    | SentInvoice(row: InvoiceRow)
    | CancelledInvoice(row: InvoiceRow)
    | Failed
    | Unknown

  predicate Visible(db: Db, org: Uuid, invoiceId: Uuid) {
    invoiceId in db.invoices && db.invoices[invoiceId].organisationId == org
  }

  function NewPayment(op: Op): Payment
    requires op.PayOp?
  {
    var r := op.request;
    Payment(op.paymentId, op.invoiceId, r.amount, r.paymentMethod,
            if r.paymentDate == F.ZERO_DATE then op.today else r.paymentDate,
            NilIfEmpty(r.reference), NilIfEmpty(r.notes),
            Some(Idempotency(r.idempotencyKey, F.FingerprintOf(r))))
  }

  /** The checks made before the transaction begins. */
  function Precheck(op: Op): Option<Error> {
    if !op.PayOp? then None
    else if !F.ValidKey(op.request.idempotencyKey) then Some(IdempotencyKeyInvalid)
    else if op.request.amount <= 0 then Some(PaymentAmountInvalid)
    else None
  }

  /** A call's answer and the rows it writes. */
  datatype Decision = Decision(outcome: Outcome, row: Option<InvoiceRow>, payment: Option<Payment>)

  function Refuse(e: Error): Decision { Decision(Refused(e), None, None) }

  /** A payment, given the locked row, the total paid and the payment that
      already has the request's key. */
  function DecidePayment(row: InvoiceRow, paid: int, found: Option<Payment>, op: Op): Decision
    requires op.PayOp?
  {
    match found
    case Some(p) =>
      if p.idempotency.Some? && p.idempotency.value.fingerprint == F.FingerprintOf(op.request)
      then Decision(Replayed(p), None, None) else Refuse(IdempotencyKeyReused)
    case None =>
      var outstanding := row.total - paid;
      if !CanAcceptPayment(row) then Refuse(CannotAcceptPayment)
      else if op.request.amount > outstanding then Refuse(PaymentExceedsOutstanding)
      else Decision(Recorded(NewPayment(op)), Settle(row, op.request.amount, outstanding), Some(NewPayment(op)))
  }

  /** The status update of a payment that exhausts the balance. */
  function Settle(row: InvoiceRow, amount: int, outstanding: int): Option<InvoiceRow> {
    if amount == outstanding then Some(row.(status := Paid)) else None
  }

  function DecideSend(row: InvoiceRow, c: Capture, now: Time): Decision {
    if row.status == Cancelled then Refuse(AlreadyCancelled)
    else if row.status != Draft then Refuse(AlreadySent)
    else match CaptureError(c)
      case Some(e) => Refuse(e)
      case None => match SendRow(row, now, PartyOf(c), c.template.value)
        case Err(e) => Refuse(e)
        case Ok(row') => Decision(SentInvoice(row'), Some(row'), None)
  }

  function DecideCancel(row: InvoiceRow, paid: int, c: Capture, now: Time): Decision {
    match CheckCancellable(row, paid)
    case Some(e) => Refuse(e)
    case None =>
      if row.status == Draft && CaptureError(c).Some? then Refuse(CaptureError(c).value)
      else match FinishCancel(row, now, paid, c)
        case Err(e) => Refuse(e)
        case Ok(row') => Decision(CancelledInvoice(row'), Some(row'), None)
  }

  /** Invoice.Cancel; an issued invoice ignores the snapshots it is passed. */
  function FinishCancel(row: InvoiceRow, now: Time, paid: int, c: Capture): Result<InvoiceRow>
    requires row.status == Draft ==> CaptureError(c).None?
  {
    if row.status == Draft then CancelRow(row, now, paid, PartyOf(c), c.template.value)
    else CancelRow(row, now, paid, NO_SNAPSHOT, NO_TEMPLATE)
  }

  const NO_SNAPSHOT := PartySnapshot(
    "", None, None, None, None, None, None, None, None, None, None,
    "", None, None, None, None, None, None, None, None, None, "")
  const NO_TEMPLATE := TemplateSnapshot(0, "", "", false)

  /** The call's decision on the committed database. `c` and `now` are what its
      reads of the live records and of the clock returned. */
  function Decide(db: Db, op: Op, c: Capture, now: Time): Decision {
    if Precheck(op).Some? then Refuse(Precheck(op).value)
    else if !Visible(db, op.org, op.invoiceId) then Refuse(InvoiceNotFound)
    else
      var row, paid := db.invoices[op.invoiceId], SumPaid(db.payments, op.invoiceId);
      match op
      case PayOp(_, id, r, _, _) => DecidePayment(row, paid, FindKey(db.payments, id, r.idempotencyKey), op)
      case SendOp(_, _) => DecideSend(row, c, now)
      case CancelOp(_, _) => DecideCancel(row, paid, c, now)
  }

  function Apply(db: Db, invoiceId: Uuid, d: Decision): Db {
    Db(if d.row.Some? then db.invoices[invoiceId := d.row.value] else db.invoices,
       if d.payment.Some? then db.payments + [d.payment.value] else db.payments)
  }

  /** The call, run alone: the database it leaves and what it answers. */
  function Serial(db: Db, op: Op, c: Capture, now: Time): (Db, Outcome) {
    var d := Decide(db, op, c, now);
    (Apply(db, op.invoiceId, d), d.outcome)
  }

  // ---- The money invariant -----------------------------------------------

  /** What is true of one invoice's status, total and payments. */
  predicate Balanced(row: InvoiceRow, paid: int) {
    && 0 <= row.total
    && 0 <= paid <= row.total
    && row.status != Overdue
    && (row.status == Draft || row.status == Cancelled ==> paid == 0)
    && (row.status == Paid <==> paid == row.total && row.total > 0)
  }

  /** The row records its request: its fingerprint is the one of a request
      with this row's own amount, method, date (or none) and texts. */
  predicate FingerprintMatches(p: Payment) {
    p.idempotency.Some? ==>
      var fp := p.idempotency.value.fingerprint;
      fp == F.Encode(CanonicalOf(p, "")) || fp == F.Encode(CanonicalOf(p, F.FormatDate(p.paymentDate)))
  }

  function CanonicalOf(p: Payment, date: string): F.Canonical {
    F.Canonical(p.amount, p.paymentMethod, date, OrEmpty(p.reference), OrEmpty(p.notes))
  }

  predicate SameKey(p: Payment, q: Payment) {
    p.idempotency.Some? && HasKey(q, p.invoiceId, p.idempotency.value.key)
  }

  /** No two payments of one invoice carry the same key. */
  ghost predicate DistinctKeys(ps: seq<Payment>) {
    forall i, j :: 0 <= i < j < |ps| ==> !SameKey(ps[i], ps[j])
  }

  predicate GoodPayment(db: Db, p: Payment) {
    p.amount > 0 && p.invoiceId in db.invoices && FingerprintMatches(p)
  }

  ghost predicate Safe(db: Db) {
    && (forall p :: p in db.payments ==> GoodPayment(db, p))
    && DistinctKeys(db.payments)
    && (forall id :: id in db.invoices ==> Balanced(db.invoices[id], SumPaid(db.payments, id)))
  }

  /** What a call may do to the database: payments are only appended, no
      invoice disappears, every invoice evolves. */
  ghost predicate Grows(a: Db, b: Db) {
    && a.payments <= b.payments
    && a.invoices.Keys <= b.invoices.Keys
    && forall id :: id in a.invoices ==> Evolves(a.invoices[id], b.invoices[id])
  }

  lemma GrowsTransitive(a: Db, b: Db, c: Db)
    requires Grows(a, b) && Grows(b, c)
    ensures Grows(a, c)
  {
    forall id | id in a.invoices ensures Evolves(a.invoices[id], c.invoices[id]) {
      EvolvesTransitive(a.invoices[id], b.invoices[id], c.invoices[id]);
    }
  }

  lemma GrowsReflexive(a: Db)
    ensures Grows(a, a)
  {
    forall id | id in a.invoices ensures Evolves(a.invoices[id], a.invoices[id]) {
      var r := a.invoices[id];
      assert r == r.(status := r.status);
    }
  }

  lemma NewPaymentMatches(op: Op)
    requires op.PayOp?
    ensures FingerprintMatches(NewPayment(op))
  {
    var r, p := op.request, NewPayment(op);
    assert OrEmpty(NilIfEmpty(r.reference)) == Trim(r.reference);
    assert OrEmpty(NilIfEmpty(r.notes)) == Trim(r.notes);
    if r.paymentDate == F.ZERO_DATE {
      assert F.Canonicalise(r) == CanonicalOf(p, "");
    } else {
      assert F.Canonicalise(r) == CanonicalOf(p, F.FormatDate(p.paymentDate));
    }
  }

  lemma AppendPayment(db: Db, p: Payment, row': InvoiceRow)
    requires Safe(db) && p.amount > 0 && FingerprintMatches(p) && p.invoiceId in db.invoices
    requires p.idempotency.Some? ==>
               FindKey(db.payments, p.invoiceId, p.idempotency.value.key) == None
    requires Evolves(db.invoices[p.invoiceId], row')
    requires Balanced(row', SumPaid(db.payments, p.invoiceId) + p.amount)
    ensures var db' := Db(db.invoices[p.invoiceId := row'], db.payments + [p]);
            Safe(db') && Grows(db, db')
  {
    var db' := Db(db.invoices[p.invoiceId := row'], db.payments + [p]);
    GrowsReflexive(db);
    if p.idempotency.Some? { FindKeyFinds(db.payments, p.invoiceId, p.idempotency.value.key); }
    forall q | q in db.payments ensures !SameKey(q, p) {
      if p.idempotency.Some? { assert !HasKey(q, p.invoiceId, p.idempotency.value.key); }
    }
    forall q | q in db'.payments ensures GoodPayment(db', q) {
      if q != p { assert q in db.payments && GoodPayment(db, q); }
    }
    forall id | id in db'.invoices ensures Balanced(db'.invoices[id], SumPaid(db'.payments, id)) {
      SumPaidAppend(db.payments, p, id);
      assert Balanced(db.invoices[id], SumPaid(db.payments, id));
    }
  }

  /** The row after a payment that fits, settled by it or not. */
  function PaidRow(row: InvoiceRow, amount: int, outstanding: int): InvoiceRow {
    match Settle(row, amount, outstanding)
    case Some(r) => r
    case None => row
  }

  lemma PaidRowBalances(row: InvoiceRow, paid: int, amount: int)
    requires Balanced(row, paid) && CanAcceptPayment(row) && 0 < amount <= row.total - paid
    ensures var row' := PaidRow(row, amount, row.total - paid);
            Evolves(row, row') && Balanced(row', paid + amount)
  {
    assert row == row.(status := row.status);
  }

  /** What a payment that is recorded found, and writes. */
  lemma RecordedFits(row: InvoiceRow, paid: int, found: Option<Payment>, op: Op)
    requires op.PayOp? && DecidePayment(row, paid, found, op).outcome.Recorded?
    ensures found.None? && CanAcceptPayment(row) && op.request.amount <= row.total - paid
    ensures var d := DecidePayment(row, paid, found, op);
            d.row == Settle(row, op.request.amount, row.total - paid) && d.payment == Some(NewPayment(op))
  {
  }

  lemma ApplyRecorded(db: Db, id: Uuid, d: Decision, amount: int, outstanding: int)
    requires id in db.invoices && d.payment.Some? && d.row == Settle(db.invoices[id], amount, outstanding)
    ensures Apply(db, id, d)
         == Db(db.invoices[id := PaidRow(db.invoices[id], amount, outstanding)], db.payments + [d.payment.value])
  {
    assert db.invoices == db.invoices[id := db.invoices[id]];
  }

  lemma RecordedKeepsSafe(db: Db, op: Op, d: Decision)
    requires op.PayOp? && Safe(db) && Precheck(op).None? && op.invoiceId in db.invoices
    requires d == DecidePayment(db.invoices[op.invoiceId], SumPaid(db.payments, op.invoiceId),
                                FindKey(db.payments, op.invoiceId, op.request.idempotencyKey), op)
    requires d.outcome.Recorded?
    ensures Safe(Apply(db, op.invoiceId, d)) && Grows(db, Apply(db, op.invoiceId, d))
  {
    var row, paid := db.invoices[op.invoiceId], SumPaid(db.payments, op.invoiceId);
    RecordedFits(row, paid, FindKey(db.payments, op.invoiceId, op.request.idempotencyKey), op);
    ApplyRecorded(db, op.invoiceId, d, op.request.amount, row.total - paid);
    assert Balanced(row, paid);
    PaidRowBalances(row, paid, op.request.amount);
    NewPaymentMatches(op);
    AppendPayment(db, NewPayment(op), PaidRow(row, op.request.amount, row.total - paid));
  }

  lemma PaymentKeepsSafe(db: Db, op: Op, c: Capture, now: Time)
    requires op.PayOp? && Safe(db)
    ensures Safe(Serial(db, op, c, now).0) && Grows(db, Serial(db, op, c, now).0)
  {
    GrowsReflexive(db);
    var d := Decide(db, op, c, now);
    if d.outcome.Recorded? {
      RecordedKeepsSafe(db, op, d);
    } else {
      assert d.row.None? && d.payment.None?;
    }
  }

  lemma OneRowKeepsSafe(db: Db, id: Uuid, row': InvoiceRow)
    requires Safe(db) && id in db.invoices
    requires Evolves(db.invoices[id], row') && Balanced(row', SumPaid(db.payments, id))
    ensures var db' := db.(invoices := db.invoices[id := row']); Safe(db') && Grows(db, db')
  {
    GrowsReflexive(db);
    var db' := db.(invoices := db.invoices[id := row']);
    forall q | q in db'.payments ensures GoodPayment(db', q) { assert GoodPayment(db, q); }
  }

  /** Every call, run alone, keeps the books and only lets them grow. */
  lemma SerialKeepsSafe(db: Db, op: Op, c: Capture, now: Time)
    requires Safe(db)
    ensures Safe(Serial(db, op, c, now).0)
    ensures Grows(db, Serial(db, op, c, now).0)
  {
    GrowsReflexive(db);
    var d := Decide(db, op, c, now);
    if op.PayOp? {
      PaymentKeepsSafe(db, op, c, now);
    } else if d.row.Some? {
      var row, paid := db.invoices[op.invoiceId], SumPaid(db.payments, op.invoiceId);
      assert Balanced(row, paid);
      if row.status == Draft {
        TransitionsEvolve(row, now, paid, PartyOf(c), c.template.value);
      } else {
        TransitionsEvolve(row, now, paid, NO_SNAPSHOT, NO_TEMPLATE);
      }
      OneRowKeepsSafe(db, op.invoiceId, d.row.value);
    }
  }

  /** At most one payment per invoice and key, and it is the one found. */
  lemma KeyIsUnique(db: Db, p: Payment, q: Payment, invoiceId: Uuid, key: string)
    requires Safe(db) && p in db.payments && q in db.payments
    requires HasKey(p, invoiceId, key) && HasKey(q, invoiceId, key)
    ensures p == q
  {
    var i :| 0 <= i < |db.payments| && db.payments[i] == p;
    var j :| 0 <= j < |db.payments| && db.payments[j] == q;
    assert i < j ==> !SameKey(p, q);
    assert j < i ==> !SameKey(q, p);
  }
}
