/**
 InvoiceService over its repositories, one call at a time: each method is the
 sequence of statements the service issues, any of which may fail, and leaves
 the database as the call's serial meaning says.
 */
module Service {
  import opened Text
  import opened Invoices
  import opened Store
  import F = Fingerprint

  class InvoiceService {
    var committed: Db
    var live: Live
    // The database as the open transaction sees it.
    var pending: Db

    constructor (db: Db, live: Live)
      ensures committed == db && this.live == live
    {
      committed, pending, this.live := db, db, live;
    }

    // ---- Repositories ----------------------------------------------------

    /** Selects and locks an invoice. */
    method GetForUpdate(org: Uuid, id: Uuid) returns (inv: Invoice?)
      ensures inv != null <==> Visible(pending, org, id)
      ensures inv != null ==> fresh(inv) && inv.Row() == pending.invoices[id]
    {
      inv := null;
      if Visible(pending, org, id) { inv := new Invoice(pending.invoices[id]); }
    }

    /** Inserts the payment only if its invoice is the organisation's. */
    method InsertPayment(org: Uuid, p: Payment) returns (found: bool)
      modifies this`pending
      ensures found == Visible(old(pending), org, p.invoiceId)
      ensures pending == if found then old(pending).(payments := old(pending).payments + [p]) else old(pending)
    {
      found := Visible(pending, org, p.invoiceId);
      if found { pending := pending.(payments := pending.payments + [p]); }
    }

    method UpdateStatus(org: Uuid, id: Uuid, status: Status) returns (found: bool)
      modifies this`pending
      ensures found == Visible(old(pending), org, id)
      ensures pending == if !found then old(pending) else
        old(pending).(invoices := old(pending).invoices[id := old(pending).invoices[id].(status := status)])
    {
      found := Visible(pending, org, id);
      if found {
        pending := pending.(invoices := pending.invoices[id := pending.invoices[id].(status := status)]);
      }
    }

    /** Writes status, sent_at and every snapshot column in one statement. */
    method MarkSentWithSnapshot(org: Uuid, id: Uuid, inv: Invoice) returns (found: bool)
      modifies this`pending
      ensures found == Visible(old(pending), org, id)
      ensures pending == if !found then old(pending) else
        old(pending).(invoices := old(pending).invoices[id := old(pending).invoices[id].(
          status := inv.status, sentAt := inv.sentAt, party := inv.party, template := inv.template)])
    {
      found := Visible(pending, org, id);
      if found {
        pending := pending.(invoices := pending.invoices[id := pending.invoices[id].(
          status := inv.status, sentAt := inv.sentAt, party := inv.party, template := inv.template)]);
      }
    }

    method MarkCancelled(org: Uuid, id: Uuid, inv: Invoice) returns (found: bool)
      modifies this`pending
      ensures found == Visible(old(pending), org, id)
      ensures pending == if !found then old(pending) else
        old(pending).(invoices := old(pending).invoices[id := old(pending).invoices[id].(
          status := inv.status, cancelledAt := inv.cancelledAt, party := inv.party, template := inv.template)])
    {
      found := Visible(pending, org, id);
      if found {
        pending := pending.(invoices := pending.invoices[id := pending.invoices[id].(
          status := inv.status, cancelledAt := inv.cancelledAt, party := inv.party, template := inv.template)]);
      }
    }

    /** COMMIT: done, not done, or an error that leaves the caller guessing. */
    method Commit() returns (ok: bool)
      modifies this`committed
      ensures ok ==> committed == pending
      ensures !ok ==> committed == pending || committed == old(committed)
    {
      var applied: bool := *;
      ok := *;
      if ok || applied { committed := pending; }
    }

    /** Whether the connection survives the next statement. */
    method Alive() returns (ok: bool) { ok := *; }

    // ---- The service -----------------------------------------------------

    /** How a finished call leaves the database. */
    twostate predicate Ended(op: Op, c: Capture, now: Time, out: Outcome)
      reads this
    {
      match out
      case Failed => committed == old(committed)
      case Unknown => committed in {old(committed), Serial(old(committed), op, c, now).0}
      case _ => Serial(old(committed), op, c, now) == (committed, out)
    }

    method CreatePayment(op: Op, ghost c: Capture, ghost now: Time) returns (out: Outcome)
      requires op.PayOp?
      modifies this
      ensures live == old(live)
      ensures Ended(op, c, now, out)
    {
      var PayOp(org, id, request, _, _) := op;
      if !F.ValidKey(request.idempotencyKey) { return Refused(IdempotencyKeyInvalid); }
      var payment := NewPayment(op);
      if payment.amount <= 0 { return Refused(PaymentAmountInvalid); }
      pending := committed;
      var ok := Alive();
      if !ok { return Failed; }
      var inv := GetForUpdate(org, id);
      if inv == null { return Refused(InvoiceNotFound); }
      var existing := FindKey(pending.payments, id, request.idempotencyKey);
      if existing.Some? {
        var stored := existing.value.idempotency;
        if stored.None? || stored.value.fingerprint != F.FingerprintOf(request) {
          return Refused(IdempotencyKeyReused);
        }
        return Replayed(existing.value);
      }
      if !CanAcceptPayment(inv.Row()) { return Refused(CannotAcceptPayment); }
      var outstanding := inv.total - SumPaid(pending.payments, id);
      if payment.amount > outstanding { return Refused(PaymentExceedsOutstanding); }
      var found := InsertPayment(org, payment);
      ok := Alive();
      if !ok { return Failed; }
      if payment.amount == outstanding {
        found := UpdateStatus(org, id, Paid);
        inv.status := Paid;
      }
      ok := Commit();
      out := if ok then Recorded(payment) else Unknown;
    }

    /** buildPartySnapshot and buildTemplateSnapshot, read by read. */
    method CaptureSnapshots(org: Uuid, customerId: Uuid) returns (c: Capture, err: Option<Error>)
      ensures err == CaptureError(CaptureAll(live, org, customerId))
      ensures err.None? ==> c == CaptureAll(live, org, customerId)
    {
      c, err := Capture(None, None, None, None, None), None;
      c := c.(organisation := Lookup(live.organisations, org));
      if c.organisation.None? { return c, Some(SnapshotDataUnavailable); }
      c := c.(customer := FindCustomer(live, org, customerId));
      if c.customer.None? { return c, Some(SnapshotDataUnavailable); }
      c := c.(currency := Lookup(live.settings, org));
      if c.currency.None? { return c, Some(SettingsNotFound); }
      c := c.(address := FindAddress(live, org, customerId));
      c := c.(template := Lookup(live.templates, org));
      if c.template.None? { return c, Some(SnapshotDataUnavailable); }
    }

    /** Alone, Send freezes the live records as they are. */
    method Send(op: Op, now: Time) returns (out: Outcome)
      requires op.SendOp?
      modifies this
      ensures live == old(live)
      ensures Ended(op, CaptureFor(old(committed), live, op), now, out)
    {
      var SendOp(org, id) := op;
      pending := committed;
      var ok := Alive();
      if !ok { return Failed; }
      var inv := GetForUpdate(org, id);
      if inv == null { return Refused(InvoiceNotFound); }
      if inv.status == Cancelled { return Refused(AlreadyCancelled); }
      if inv.status != Draft { return Refused(AlreadySent); }
      var c, missing := CaptureSnapshots(org, inv.customerId);
      if missing.Some? { return Refused(missing.value); }
      var err := inv.MarkSent(now, PartyOf(c), c.template.value);
      if err.Some? { return Refused(err.value); }
      var found := MarkSentWithSnapshot(org, id, inv);
      ok := Commit();
      out := if ok then SentInvoice(inv.Row()) else Unknown;
    }

    method Cancel(op: Op, now: Time) returns (out: Outcome)
      requires op.CancelOp?
      modifies this
      ensures live == old(live)
      ensures Ended(op, CaptureFor(old(committed), live, op), now, out)
    {
      var CancelOp(org, id) := op;
      pending := committed;
      var ok := Alive();
      if !ok { return Failed; }
      var inv := GetForUpdate(org, id);
      if inv == null { return Refused(InvoiceNotFound); }
      var amountPaid := SumPaid(pending.payments, id);
      var err := CheckCancellable(inv.Row(), amountPaid);
      if err.Some? { return Refused(err.value); }
      var snapshot, template := NO_SNAPSHOT, NO_TEMPLATE;
      if inv.status == Draft {
        var c, missing := CaptureSnapshots(org, inv.customerId);
        if missing.Some? { return Refused(missing.value); }
        snapshot, template := PartyOf(c), c.template.value;
      }
      err := inv.Cancel(now, amountPaid, snapshot, template);
      if err.Some? { return Refused(err.value); }
      var found := MarkCancelled(org, id, inv);
      ok := Commit();
      out := if ok then CancelledInvoice(inv.Row()) else Unknown;
    }
  }

  /** What a call that runs alone reads of the live records. */
  function CaptureFor(db: Db, live: Live, op: Op): Capture {
    if op.invoiceId in db.invoices then CaptureAll(live, op.org, db.invoices[op.invoiceId].customerId)
    else Capture(None, None, None, None, None)
  }
}
