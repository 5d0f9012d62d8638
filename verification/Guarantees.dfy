/**
 What holds of every run of the money path, over any interleaving of calls,
 failures, ambiguous commits, new invoices and edits of the live records.
 */
module Guarantees {
  import Runs
  import opened Text
  import opened Invoices
  import opened Store
  import opened Protocol
  import A = Answers
  import F = Fingerprint
  import O = Organisations
  import P = Pdf

  /** Never overpaid; Paid exactly when settled; nothing paid on a Draft or a
      Cancelled invoice; an open invoice with something to pay is not settled,
      and shows something outstanding. */
  lemma BooksBalance(s: Sys, actions: seq<Action>, id: Uuid)
    requires Inv(s) && id in Run(s, actions).db.invoices
    ensures var db := Run(s, actions).db;
            var row, paid := db.invoices[id], SumPaid(db.payments, id);
            && 0 <= paid <= row.total
            && (row.status == Paid <==> paid == row.total && row.total > 0)
            && (row.status in {Draft, Cancelled} ==> forall p :: p in db.payments ==> p.invoiceId != id)
            && (row.status == Sent && row.total > 0 ==> paid < row.total)
            && row.status != Overdue
            && (AmountOutstanding(row, paid) == 0 <==> row.status in {Paid, Cancelled} || row.total == 0)
            && (row.status != Cancelled ==> paid + AmountOutstanding(row, paid) == row.total)
  {
    RunKeepsInv(s, actions);
    var db := Run(s, actions).db;
    assert Balanced(db.invoices[id], SumPaid(db.payments, id));
    forall p | p in db.payments ensures p.amount > 0 { assert GoodPayment(db, p); }
    SumPaidNonNegative(db.payments, id);
  }

  /** Two transactions never both hold the same invoice. */
  lemma OneHolderPerInvoice(s: Sys, actions: seq<Action>, t: Uuid, u: Uuid)
    requires Inv(s)
    requires var e := Run(s, actions);
             t in e.txs && u in e.txs && HoldsLock(e.txs[t].phase) && HoldsLock(e.txs[u].phase)
             && e.txs[t].op.invoiceId == e.txs[u].op.invoiceId
    ensures t == u
  {
    RunKeepsInv(s, actions);
    assert TxOk(Run(s, actions), t) && TxOk(Run(s, actions), u);
  }

  /** Once a payment with this key is committed, it is the only one there will
      ever be, and every call that carries the key and reports success reports
      that very payment: the first attempt, its retries, concurrent or later,
      whatever the invoice has become. A call with another fingerprint never
      reports success. */
  lemma ExactlyOnce(s: Sys, actions: seq<Action>, p: Payment, tid: Uuid)
    requires Inv(s) && p in s.db.payments && p.idempotency.Some?
    ensures var e := Run(s, actions);
            && p in e.db.payments
            && (forall q :: q in e.db.payments && SameKey(p, q) ==> q == p)
            && (tid in e.txs && Reports(e.txs[tid], p.invoiceId, p.idempotency.value.key) ==>
                  e.txs[tid].phase.outcome.payment == p
                  && F.FingerprintOf(e.txs[tid].op.request) == p.idempotency.value.fingerprint)
  {
    RunKeepsInv(s, actions);
    var e := Run(s, actions);
    var key := p.idempotency.value.key;
    PaymentsStay(s, actions, p);
    forall q | q in e.db.payments && SameKey(p, q) ensures q == p {
      KeyIsUnique(e.db, p, q, p.invoiceId, key);
    }
    if tid in e.txs && Reports(e.txs[tid], p.invoiceId, key) {
      assert TxOk(e, tid);
      KeyIsUnique(e.db, p, e.txs[tid].phase.outcome.payment, p.invoiceId, key);
    }
  }

  /** A finished payment call for this invoice and key that succeeded. */
  predicate Reports(tx: Tx, invoiceId: Uuid, key: string) {
    Succeeded(tx) && tx.op.invoiceId == invoiceId && tx.op.request.idempotencyKey == key
  }

  predicate Succeeded(tx: Tx) {
    tx.op.PayOp? && tx.phase.Finished? && (tx.phase.outcome.Recorded? || tx.phase.outcome.Replayed?)
  }

  /** A success that was reported is a committed payment, for good: it carries
      the amount, method, texts and date (unless it was left out) asked for. The
      call that recorded it also chose its id, and its date if none was asked. */
  lemma ReportedPaymentIsTheOneAskedFor(s: Sys, actions: seq<Action>, tid: Uuid)
    requires Inv(s) && tid in s.txs && Succeeded(s.txs[tid])
    ensures var r, p := s.txs[tid].op.request, s.txs[tid].phase.outcome.payment;
            && p in Run(s, actions).db.payments
            && p.invoiceId == s.txs[tid].op.invoiceId
            && p.amount == r.amount && p.paymentMethod == r.paymentMethod
            && OrEmpty(p.reference) == Trim(r.reference) && OrEmpty(p.notes) == Trim(r.notes)
            && (r.paymentDate != F.ZERO_DATE ==> p.paymentDate == r.paymentDate)
            && (s.txs[tid].phase.outcome.Recorded? ==>
                  && p.id == s.txs[tid].op.paymentId
                  && (r.paymentDate == F.ZERO_DATE ==> p.paymentDate == s.txs[tid].op.today)
                  && A.Records(p, s.txs[tid].op))
  {
    assert TxOk(s, tid);
    var r, p := s.txs[tid].op.request, s.txs[tid].phase.outcome.payment;
    SuccessStands(s, tid);
    PaymentsStay(s, actions, p);
    FingerprintTellsRequest(p, r);
  }

  lemma SuccessStands(s: Sys, tid: Uuid)
    requires Inv(s) && tid in s.txs && Succeeded(s.txs[tid])
    ensures var op, p := s.txs[tid].op, s.txs[tid].phase.outcome.payment;
            && p in s.db.payments && FingerprintMatches(p) && p.invoiceId == op.invoiceId
            && p.idempotency.Some? && p.idempotency.value.fingerprint == F.FingerprintOf(op.request)
  {
    assert TxOk(s, tid) && GoodPayment(s.db, s.txs[tid].phase.outcome.payment);
  }

  lemma PaymentsStay(s: Sys, actions: seq<Action>, p: Payment)
    requires Inv(s) && p in s.db.payments
    ensures p in Run(s, actions).db.payments
  {
    RunKeepsInv(s, actions);
    var i :| 0 <= i < |s.db.payments| && s.db.payments[i] == p;
    assert Run(s, actions).db.payments[i] == p;
  }

  /** A row whose fingerprint is a request's is the row that request asks for. */
  lemma FingerprintTellsRequest(p: Payment, r: F.PaymentRequest)
    requires FingerprintMatches(p) && p.idempotency.Some?
    requires p.idempotency.value.fingerprint == F.FingerprintOf(r)
    ensures p.amount == r.amount && p.paymentMethod == r.paymentMethod
    ensures OrEmpty(p.reference) == Trim(r.reference) && OrEmpty(p.notes) == Trim(r.notes)
    ensures r.paymentDate != F.ZERO_DATE ==> p.paymentDate == r.paymentDate
  {
    var date := if p.idempotency.value.fingerprint == F.Encode(CanonicalOf(p, "")) then ""
                else F.FormatDate(p.paymentDate);
    F.EncodeInjective(F.Canonicalise(r), CanonicalOf(p, date));
    if r.paymentDate != F.ZERO_DATE {
      F.FormatDateInjective(r.paymentDate, p.paymentDate);
    }
  }

  lemma KeyIsFound(db: Db, p: Payment, op: Op)
    requires Safe(db) && p in db.payments && op.PayOp? && HasKey(p, op.invoiceId, op.request.idempotencyKey)
    ensures FindKey(db.payments, op.invoiceId, op.request.idempotencyKey) == Some(p)
  {
    var key := op.request.idempotencyKey;
    FindKeyFinds(db.payments, op.invoiceId, key);
    KeyIsUnique(db, p, FindKey(db.payments, op.invoiceId, key).value, op.invoiceId, key);
  }

  /** What the lookup of a key that is taken answers. */
  function LookupAnswer(p: Payment, op: Op): Outcome
    requires op.PayOp? && p.idempotency.Some?
  {
    if p.idempotency.value.fingerprint == F.FingerprintOf(op.request) then Replayed(p)
    else Refused(IdempotencyKeyReused)
  }

  /** The lookup of the key, by the transaction that holds the lock. */
  lemma LookupStep(s: Sys, p: Payment, op: Op, tid: Uuid, since: nat)
    requires op.PayOp? && op.invoiceId in s.db.invoices
    requires tid in s.txs && s.txs[tid] == Tx(op, Locked(s.db.invoices[op.invoiceId]), since)
    requires op.invoiceId in s.locks && s.locks[op.invoiceId] == tid
    requires FindKey(s.db.payments, op.invoiceId, op.request.idempotencyKey) == Some(p)
    requires p.idempotency.Some?
    ensures Next(s, Advance(tid)) == Finish(s, tid, LookupAnswer(p, op))
  {
    assert Statement(s.db, s.present, |s.past|, op, s.txs[tid].phase) == Finished(LookupAnswer(p, op));
  }

  /** A call on an invoice nobody holds gets its lock. */
  lemma TakesLock(s: Sys, tid: Uuid, op: Op)
    requires Precheck(op).None? && Visible(s.db, op.org, op.invoiceId)
    requires tid !in s.txs && op.invoiceId !in s.locks
    ensures Next(Next(s, Begin(tid, op)), Advance(tid))
         == s.(txs := s.txs[tid := Tx(op, Locked(s.db.invoices[op.invoiceId]), |s.past|)],
               locks := s.locks[op.invoiceId := tid])
  {
    var t, u := Tx(op, Begun, |s.past|), Tx(op, Locked(s.db.invoices[op.invoiceId]), |s.past|);
    assert Next(s, Begin(tid, op)) == s.(txs := s.txs[tid := t]);
    assert s.txs[tid := t][tid := u] == s.txs[tid := u];
  }

  lemma FinishUnlocks(s: Sys, tid: Uuid, out: Outcome, locks: map<Uuid, Uuid>)
    requires tid in s.txs && s.txs[tid].op.invoiceId !in locks
    requires s.locks == locks[s.txs[tid].op.invoiceId := tid]
    ensures var e := Finish(s, tid, out);
            tid in e.txs && e.txs[tid].phase == Finished(out) && e.db == s.db && e.locks == locks
  {
    assert locks[s.txs[tid].op.invoiceId := tid] - {s.txs[tid].op.invoiceId} == locks;
  }

  /** A request with a key that is taken, on an invoice nobody holds. */
  lemma TakenKeyIsAnswered(s: Sys, p: Payment, op: Op, tid: Uuid)
    requires Inv(s) && p in s.db.payments
    requires op.PayOp? && Precheck(op).None? && Visible(s.db, op.org, op.invoiceId)
    requires HasKey(p, op.invoiceId, op.request.idempotencyKey)
    requires tid !in s.txs && op.invoiceId !in s.locks
    ensures var e := Run(s, [Begin(tid, op), Advance(tid), Advance(tid)]);
            && tid in e.txs && e.txs[tid].phase == Finished(LookupAnswer(p, op))
            && e.db == s.db && e.locks == s.locks
  {
    KeyIsFound(s.db, p, op);
    TakesLock(s, tid, op);
    var s2 := s.(txs := s.txs[tid := Tx(op, Locked(s.db.invoices[op.invoiceId]), |s.past|)],
                 locks := s.locks[op.invoiceId := tid]);
    LookupStep(s2, p, op, tid, |s.past|);
    FinishUnlocks(s2, tid, LookupAnswer(p, op), s.locks);
    Runs.RunThree(Next, s, Begin(tid, op), Advance(tid), Advance(tid));
  }

  /** Retrying is always answered: on an invoice nobody holds, a repeated
      request returns its payment in three statements, whatever the invoice's
      status is by then, and changes nothing. */
  lemma RetryReplays(s: Sys, p: Payment, op: Op, tid: Uuid)
    requires Inv(s) && p in s.db.payments
    requires op.PayOp? && Precheck(op).None? && Visible(s.db, op.org, op.invoiceId)
    requires HasKey(p, op.invoiceId, op.request.idempotencyKey)
    requires p.idempotency.value.fingerprint == F.FingerprintOf(op.request)
    requires tid !in s.txs && op.invoiceId !in s.locks
    ensures var e := Run(s, [Begin(tid, op), Advance(tid), Advance(tid)]);
            && tid in e.txs && e.txs[tid].phase == Finished(Replayed(p))
            && e.db == s.db && e.locks == s.locks
  {
    TakenKeyIsAnswered(s, p, op, tid);
  }

  /** And a different request with a key that is taken is refused, likewise. */
  lemma ReusedKeyIsRefused(s: Sys, p: Payment, op: Op, tid: Uuid)
    requires Inv(s) && p in s.db.payments
    requires op.PayOp? && Precheck(op).None? && Visible(s.db, op.org, op.invoiceId)
    requires HasKey(p, op.invoiceId, op.request.idempotencyKey)
    requires p.idempotency.value.fingerprint != F.FingerprintOf(op.request)
    requires tid !in s.txs && op.invoiceId !in s.locks
    ensures var e := Run(s, [Begin(tid, op), Advance(tid), Advance(tid)]);
            && tid in e.txs && e.txs[tid].phase == Finished(Refused(IdempotencyKeyReused))
            && e.db == s.db && e.locks == s.locks
  {
    TakenKeyIsAnswered(s, p, op, tid);
  }

  /** The state in which `tid` holds its lock and has reached `ph`. */
  predicate At(s: Sys, db: Db, tid: Uuid, op: Op, ph: Phase) {
    s.db == db && tid in s.txs && s.txs[tid].op == op && s.txs[tid].phase == ph
  }

  lemma AttemptLocks(s: Sys, tid: Uuid, op: Op, retry: Uuid)
    requires Inv(s) && tid in s.txs && HoldsLock(s.txs[tid].phase) && retry !in s.txs
    requires op.invoiceId == s.txs[tid].op.invoiceId
    requires Precheck(op).None? && Visible(s.db, op.org, op.invoiceId)
    ensures At(Run(s, [Fail(tid), Begin(retry, op), Advance(retry)]), s.db, retry, op,
               Locked(s.db.invoices[op.invoiceId]))
  {
    assert TxOk(s, tid);
    FailFrees(s, tid);
    TakesLock(Next(s, Fail(tid)), retry, op);
    Runs.RunThree(Next, s, Fail(tid), Begin(retry, op), Advance(retry));
  }

  lemma FailFrees(s: Sys, tid: Uuid)
    requires tid in s.txs && HoldsLock(s.txs[tid].phase)
    requires s.txs[tid].op.invoiceId in s.locks && s.locks[s.txs[tid].op.invoiceId] == tid
    ensures var s' := Next(s, Fail(tid));
            s'.db == s.db && s'.txs.Keys == s.txs.Keys && s.txs[tid].op.invoiceId !in s'.locks
  {
  }

  /** One statement of an unfinished transaction. */
  lemma StepsTo(s: Sys, tid: Uuid, op: Op, ph: Phase, ph': Phase)
    requires At(s, s.db, tid, op, ph) && HoldsLock(ph) && !ph.Written?
    requires Statement(s.db, s.present, |s.past|, op, ph) == ph' && !ph'.Finished?
    ensures At(Next(s, Advance(tid)), s.db, tid, op, ph')
  {
  }

  lemma AttemptInserts(s: Sys, tid: Uuid, op: Op)
    requires op.PayOp? && op.invoiceId in s.db.invoices && Unused(s.db, op)
    requires At(s, s.db, tid, op, Locked(s.db.invoices[op.invoiceId]))
    requires var row := s.db.invoices[op.invoiceId];
             CanAcceptPayment(row) && op.request.amount <= row.total - SumPaid(s.db.payments, op.invoiceId)
    ensures var a := Advance(tid);
            At(Run(s, [a, a, a]), s.db, tid, op,
               Inserted(s.db.invoices[op.invoiceId], SumPaid(s.db.payments, op.invoiceId), NewPayment(op)))
  {
    var a := Advance(tid);
    var row, paid := s.db.invoices[op.invoiceId], SumPaid(s.db.payments, op.invoiceId);
    Runs.RunThree(Next, s, a, a, a);
    StepsTo(s, tid, op, Locked(row), KeyFree(row));
    StepsTo(Next(s, a), tid, op, KeyFree(row), Totalled(row, paid));
    StepsTo(Next(Next(s, a), a), tid, op, Totalled(row, paid), Inserted(row, paid, NewPayment(op)));
  }

  lemma AttemptCommits(s: Sys, tid: Uuid, op: Op, row: InvoiceRow, paid: int, p: Payment)
    requires At(s, s.db, tid, op, Inserted(row, paid, p))
    ensures var e := Run(s, [Advance(tid), Commit(tid)]);
            && tid in e.txs && e.txs[tid].phase == Finished(Recorded(p))
            && e.db.payments == s.db.payments + [p]
  {
    var a := Advance(tid);
    Runs.RunTwo(Next, s, a, Commit(tid));
    assert Next(s, a).txs[tid].phase.Written?;
  }

  /** Transaction tid recorded p, after the payments ps. */
  predicate DidRecord(s: Sys, tid: Uuid, ps: seq<Payment>, p: Payment) {
    tid in s.txs && s.txs[tid].phase == Finished(Recorded(p)) && s.db.payments == ps + [p]
  }

  predicate Payable(db: Db, op: Op) {
    && op.PayOp? && Precheck(op).None? && Visible(db, op.org, op.invoiceId) && Unused(db, op)
    && CanAcceptPayment(db.invoices[op.invoiceId])
    && op.request.amount <= db.invoices[op.invoiceId].total - SumPaid(db.payments, op.invoiceId)
  }

  lemma AttemptRecords(s: Sys, tid: Uuid, op: Op)
    requires Payable(s.db, op) && At(s, s.db, tid, op, Locked(s.db.invoices[op.invoiceId]))
    ensures var a := Advance(tid);
            DidRecord(Run(s, [a, a, a] + [a, Commit(tid)]), tid, s.db.payments, NewPayment(op))
  {
    var a := Advance(tid);
    AttemptInserts(s, tid, op);
    AttemptCommits(Run(s, [a, a, a]), tid, op, s.db.invoices[op.invoiceId],
                   SumPaid(s.db.payments, op.invoiceId), NewPayment(op));
    Runs.RunAppend(Next, s, [a, a, a], [a, Commit(tid)]);
  }

  /** An attempt that fails before COMMIT, at whatever statement, changes
      nothing and leaves its key free: a new attempt goes through. */
  lemma FailedAttemptLeavesKeyFree(s: Sys, tid: Uuid, op: Op, retry: Uuid)
    requires Inv(s) && tid in s.txs && HoldsLock(s.txs[tid].phase) && retry !in s.txs
    requires op.invoiceId == s.txs[tid].op.invoiceId && Payable(s.db, op)
    ensures var a := Advance(retry);
            DidRecord(Run(s, [Fail(tid), Begin(retry, op), a] + ([a, a, a] + [a, Commit(retry)])),
                      retry, s.db.payments, NewPayment(op))
  {
    var a := Advance(retry);
    AttemptLocks(s, tid, op, retry);
    AttemptRecords(Run(s, [Fail(tid), Begin(retry, op), a]), retry, op);
    Runs.RunAppend(Next, s, [Fail(tid), Begin(retry, op), a], [a, a, a] + [a, Commit(retry)]);
  }

  /** An invoice, once there, stays; its status only moves forward. */
  lemma LifecycleMovesForward(s: Sys, actions: seq<Action>, id: Uuid)
    requires Inv(s) && id in s.db.invoices
    ensures id in Run(s, actions).db.invoices
    ensures Evolves(s.db.invoices[id], Run(s, actions).db.invoices[id])
  {
    RunKeepsInv(s, actions);
  }

  /** An issued invoice is an immutable document: no run changes its number,
      dates, lines, totals, snapshot or template, and no edit of a live record
      (whatever reads of them return before and after) changes the parties,
      the currency or the layout its PDF shows. */
  lemma IssuedIsImmutable(s: Sys, actions: seq<Action>, id: Uuid, before: Capture, after: Capture)
    requires Inv(s) && id in s.db.invoices && s.db.invoices[id].status != Draft
    ensures var e := Run(s, actions);
            && id in e.db.invoices
            && SameDocument(s.db.invoices[id], e.db.invoices[id])
            && P.PartiesOf(e.db.invoices[id], after) == P.PartiesOf(s.db.invoices[id], before)
            && P.LayoutOf(e.db.invoices[id], after) == P.LayoutOf(s.db.invoices[id], before)
  {
    RunKeepsInv(s, actions);
  }

  /** The whole printed document of an issued invoice changes, over any run and
      any edits, at most in its status label and its payment summary. */
  lemma DocumentOnlyAges(s: Sys, actions: seq<Action>, id: Uuid, before: Capture, after: Capture,
                         paid: int, now: Time, paid': int, now': Time)
    requires Inv(s) && id in s.db.invoices && s.db.invoices[id].status != Draft
    ensures var e := Run(s, actions);
            id in e.db.invoices
            && OnlyAged(P.BuildData(s.db.invoices[id], before, paid, now),
                        P.BuildData(e.db.invoices[id], after, paid', now'))
  {
    IssuedIsImmutable(s, actions, id, before, after);
  }

  predicate OnlyAged(a: P.PdfResult<P.Document>, b: P.PdfResult<P.Document>) {
    match a
    case NotShown(e) => b == P.NotShown(e)
    case Shown(d) =>
      b.Shown? && b.value == d.(statusLabel := b.value.statusLabel, paymentSummary := b.value.paymentSummary)
  }

  // ---- What issuing freezes ----------------------------------------------

  /** row is the draft, sent or cancelled at time now, each snapshot column as
      captured in c and everything else as it was. */
  predicate IssuedFrom(draft: InvoiceRow, row: InvoiceRow, c: Capture, now: Time) {
    && CaptureError(c).None? && ValidateSnapshot(PartyOf(c)).None? && A.Problem(c).None?
    && row.party == Columns(PartyOf(c))
    && (if row.status == Sent then A.IssuedAs(draft, row, c, Sent, Some(now), draft.cancelledAt)
        else A.IssuedAs(draft, row, c, Cancelled, draft.sentAt, Some(now)))
  }

  /** A call that issues a Draft, run alone. */
  lemma SerialIssues(db: Db, op: Op, c: Capture, now: Time)
    requires op.invoiceId in db.invoices && db.invoices[op.invoiceId].status == Draft
    requires Serial(db, op, c, now).0.invoices[op.invoiceId].status != Draft
    requires SumPaid(db.payments, op.invoiceId) == 0
    ensures op.org == db.invoices[op.invoiceId].organisationId
    ensures IssuedFrom(db.invoices[op.invoiceId], Serial(db, op, c, now).0.invoices[op.invoiceId], c, now)
  {
    match op
    case PayOp(_, _, _, _, _) =>
    case SendOp(_, _) => A.SendAnswer(db, op, c, now);
    case CancelOp(_, _) => A.CancelAnswer(db, op, c, now);
    SerialIssuesParty(db, op, c, now);
  }

  lemma SerialIssuesParty(db: Db, op: Op, c: Capture, now: Time)
    requires op.invoiceId in db.invoices && db.invoices[op.invoiceId].status == Draft
    requires Serial(db, op, c, now).0.invoices[op.invoiceId].status != Draft
    ensures CaptureError(c).None? && ValidateSnapshot(PartyOf(c)).None?
    ensures Serial(db, op, c, now).0.invoices[op.invoiceId].party == Columns(PartyOf(c))
  {
    var row, d := db.invoices[op.invoiceId], Decide(db, op, c, now);
    assert d.row.Some?;
    match op
    case PayOp(_, _, _, _, _) =>
    case SendOp(_, _) => assert d == DecideSend(row, c, now);
    case CancelOp(_, _) => assert d == DecideCancel(row, SumPaid(db.payments, op.invoiceId), c, now);
  }

  /** A commit touches no other invoice. */
  lemma OthersKeepTheirRow(s: Sys, a: Action, id: Uuid)
    requires Inv(s) && id in s.db.invoices && Next(s, a).db.invoices[id] != s.db.invoices[id]
    ensures (a.Commit? || a.CommitError?) && Committing(s, a.tid) && s.txs[a.tid].op.invoiceId == id
    ensures Next(s, a).db == ApplyWrites(s, a.tid).db
  {
    OnlyEndingsWrite(s, a);
  }

  /** Only a COMMIT issues a Draft, and what it freezes is what its transaction
      read: each of the five records and the clock as they were at a moment
      since it took the invoice's lock, in that order. */
  lemma IssueIsJustified(s: Sys, a: Action, id: Uuid) returns (c: Capture, now: Time, at: seq<nat>)
    requires Inv(s) && id in s.db.invoices && s.db.invoices[id].status == Draft
    requires Next(s, a).db.invoices[id].status != Draft
    ensures (a.Commit? || a.CommitError?) && Committing(s, a.tid) && s.txs[a.tid].op.invoiceId == id
    ensures var draft, row := s.db.invoices[id], Next(s, a).db.invoices[id];
            && AsRead(Moments(s), s.txs[a.tid].since, draft.organisationId, draft.customerId, c, now, at)
            && IssuedFrom(draft, row, c, now)
  {
    OthersKeepTheirRow(s, a, id);
    var Tx(op, ph, since) := s.txs[a.tid];
    CommitRefines(s, a.tid);
    c, now, at :| AsRead(Moments(s), since, op.org, CustomerOf(s.db, op), c, now, at)
                  && Serial(s.db, op, c, now) == (ApplyWrites(s, a.tid).db, ph.d.outcome);
    assert Balanced(s.db.invoices[id], SumPaid(s.db.payments, id));
    SerialIssues(s.db, op, c, now);
  }

  /** For good, the PDF shows the preview of what was read, in its layout. */
  lemma IssueFreezesWhatWasRead(s: Sys, a: Action, id: Uuid, actions: seq<Action>, later: Capture)
    returns (c: Capture, now: Time, at: seq<nat>)
    requires Inv(s) && id in s.db.invoices && s.db.invoices[id].status == Draft
    requires Next(s, a).db.invoices[id].status != Draft
    ensures (a.Commit? || a.CommitError?) && Committing(s, a.tid)
    ensures var draft, e := s.db.invoices[id], Run(Next(s, a), actions);
            && AsRead(Moments(s), s.txs[a.tid].since, draft.organisationId, draft.customerId, c, now, at)
            && id in e.db.invoices
            && P.PartiesOf(e.db.invoices[id], later) == P.PartiesOf(draft, c)
            && P.LayoutOf(e.db.invoices[id], later) == P.LayoutOf(draft, c)
  {
    c, now, at := IssueIsJustified(s, a, id);
    IssuedShowsCapture(s.db.invoices[id], Next(s, a).db.invoices[id], c, now, later);
    NextKeepsInv(s, a);
    IssuedIsImmutable(Next(s, a), actions, id, later, later);
  }

  lemma IssuedShowsCapture(draft: InvoiceRow, row: InvoiceRow, c: Capture, now: Time, later: Capture)
    requires draft.status == Draft && IssuedFrom(draft, row, c, now)
    ensures P.PartiesOf(row, later) == P.PartiesOf(draft, c)
    ensures P.LayoutOf(row, later) == P.LayoutOf(draft, c)
  {
    P.PreviewParties(c);
  }

  /** If no live record was edited while the transaction held its lock, that
      is the preview of the Draft at the moment it was issued. */
  lemma IssueFreezesThePreview(s: Sys, a: Action, id: Uuid, actions: seq<Action>, later: Capture)
    requires Inv(s) && id in s.db.invoices && s.db.invoices[id].status == Draft
    requires Next(s, a).db.invoices[id].status != Draft
    requires a.Commit? || a.CommitError?
    requires Committing(s, a.tid) &&
             forall i :: s.txs[a.tid].since <= i < |Moments(s)| ==> Moments(s)[i].live == s.present.live
    ensures var draft, e := s.db.invoices[id], Run(Next(s, a), actions);
            var c := CaptureAll(s.present.live, draft.organisationId, draft.customerId);
            && id in e.db.invoices
            && P.PartiesOf(e.db.invoices[id], later) == P.PartiesOf(draft, c)
            && P.LayoutOf(e.db.invoices[id], later) == P.LayoutOf(draft, c)
  {
    var c, now, at := IssueFreezesWhatWasRead(s, a, id, actions, later);
    var draft := s.db.invoices[id];
    UneditedCapture(Moments(s), s.txs[a.tid].since, draft.organisationId, draft.customerId, c, now, at, s.present.live);
  }

  /** Every stored name has something to print. */
  ghost predicate AllNamed(live: Live) {
    && (forall o :: o in live.organisations ==> Named(live.organisations[o].name))
    && (forall k :: k in live.customers ==> Named(live.customers[k].name))
  }

  /** The patched columns of a live organisation. */
  function DetailsOf(o: Organisation): O.Details {
    O.Details(o.name, o.email, o.phone, o.website, o.address, o.city, o.state, o.postalCode, o.country,
              o.taxId, o.vatRegistered)
  }

  function WithDetails(o: Organisation, d: O.Details): Organisation {
    Organisation(d.name, d.email, d.phone, d.website, d.address, d.city, d.state, d.postalCode, d.country,
                 d.taxId, d.vatRegistered, o.logoId)
  }

  /** Every writer of a name does: registration, PATCH, and a new customer. */
  lemma WritersKeepNames(live: Live, id: Uuid, org: Uuid, name: string, email: string, phone: string,
                         companyName: string, taxId: string)
    requires AllNamed(live)
    ensures match NewOrganisation(name)
            case Some(o) => AllNamed(live.(organisations := live.organisations[id := o]))
            case None => Trim(name) == ""
    ensures match NewCustomer(org, name, email, phone, companyName, taxId)
            case Some(k) => AllNamed(live.(customers := live.customers[id := k]))
            case None => Trim(name) == ""
  {
    if AcceptName(name).Some? { AcceptedIsNamed(name); }
  }

  lemma PatchKeepsNames(live: Live, id: Uuid, validEmail: string -> bool, p: O.Patch)
    requires AllNamed(live) && id in live.organisations
    ensures var o := live.organisations[id];
            match O.MergeDetails(validEmail, DetailsOf(o), p)
            case Merged(d) => AllNamed(live.(organisations := live.organisations[id := WithDetails(o, d)]))
            case Rejected(_) => true
  {
    var o := live.organisations[id];
    if O.MergeDetails(validEmail, DetailsOf(o), p).Merged? { O.MergedIsNamed(validEmail, DetailsOf(o), p); }
  }

  ghost predicate AlwaysNamed(ms: seq<Moment>) {
    forall i :: 0 <= i < |ms| ==> AllNamed(ms[i].live)
  }

  /** As long as the writers of names see to that, every invoice that is ever
      issued can be shown. */
  lemma IssuedCanBeShown(s: Sys, a: Action, id: Uuid, actions: seq<Action>, later: Capture)
    requires Inv(s) && id in s.db.invoices && s.db.invoices[id].status == Draft
    requires Next(s, a).db.invoices[id].status != Draft
    requires AlwaysNamed(Moments(s))
    ensures var e := Run(Next(s, a), actions);
            id in e.db.invoices && P.PartiesOf(e.db.invoices[id], later).Shown?
  {
    var c, now, at := IssueIsJustified(s, a, id);
    var draft := s.db.invoices[id];
    ReadNamesAreNamed(Moments(s), s.txs[a.tid].since, draft.organisationId, draft.customerId, c, now, at);
    NextKeepsInv(s, a);
    IssuedIsImmutable(Next(s, a), actions, id, later, later);
    P.NamedSnapshotShown(Next(s, a).db.invoices[id], PartyOf(c), later);
  }

  lemma ReadNamesAreNamed(ms: seq<Moment>, since: nat, org: Uuid, k: Uuid, c: Capture, now: Time, at: seq<nat>)
    requires AsRead(ms, since, org, k, c, now, at) && CaptureError(c).None? && AlwaysNamed(ms)
    ensures Named(c.organisation.value.name) && Named(c.customer.value.name)
  {
    assert ReadIs(c, now, ms[at[0]], org, k, 0) && AllNamed(ms[at[0]].live);
    assert ReadIs(c, now, ms[at[1]], org, k, 1) && AllNamed(ms[at[1]].live);
  }

  /** The moments of a run are named when every edit on the way is. */
  lemma {:induction false} NamedEditsStayNamed(s: Sys, actions: seq<Action>)
    requires AlwaysNamed(Moments(s)) && forall a :: a in actions && a.EditLive? ==> AllNamed(a.live)
    ensures AlwaysNamed(Moments(Run(s, actions)))
    decreases |actions|
  {
    if actions != [] {
      assert actions[0] in actions;
      var s' := Next(s, actions[0]);
      assert AllNamed(Moments(s)[|s.past|].live);
      assert Moments(s') == Moments(s) || Moments(s') == Moments(s) + [s'.present];
      NamedEditsStayNamed(s', actions[1..]);
    }
  }

  /** A call told that it sent or cancelled an invoice was told the document
      that is there for good. */
  lemma ReportedDocumentStays(s: Sys, actions: seq<Action>, tid: Uuid)
    requires Inv(s) && tid in s.txs && s.txs[tid].phase.Finished?
    requires var out := s.txs[tid].phase.outcome; out.SentInvoice? || out.CancelledInvoice?
    ensures var id, row, e := s.txs[tid].op.invoiceId, s.txs[tid].phase.outcome.row, Run(s, actions);
            id in e.db.invoices && SameDocument(row, e.db.invoices[id])
  {
    RunKeepsInv(s, actions);
    assert TxOk(s, tid);
    var id, row := s.txs[tid].op.invoiceId, s.txs[tid].phase.outcome.row;
    EvolvesTransitive(row, s.db.invoices[id], Run(s, actions).db.invoices[id]);
  }

  /** A Sent invoice of total zero accepts no payment, so it can never become
      Paid: from then on it is Sent or Cancelled. */
  lemma ZeroTotalNeverPaid(s: Sys, actions: seq<Action>, id: Uuid)
    requires Inv(s) && id in s.db.invoices && s.db.invoices[id].total == 0
    ensures id in Run(s, actions).db.invoices && Run(s, actions).db.invoices[id].status != Paid
  {
    RunKeepsInv(s, actions);
    BooksBalance(s, actions, id);
  }

  // ---- A call that nothing comes between -----------------------------------

  /** What the call does if it runs alone at moment m. */
  function SerialAt(db: Db, op: Op, m: Moment): (Db, Outcome) {
    Serial(db, op, CaptureAll(m.live, op.org, CustomerOf(db, op)), m.now)
  }

  /** Only one moment since the lock: what was read is what is there. */
  lemma ReadAtOnce(ms: seq<Moment>, since: nat, org: Uuid, k: Uuid, c: Capture, now: Time, at: seq<nat>)
    requires since + 1 == |ms| && AsRead(ms, since, org, k, c, now, at)
    ensures c == CaptureAll(ms[since].live, org, k) && now == ms[since].now
  {
    UneditedCapture(ms, since, org, k, c, now, at, ms[since].live);
    assert ReadIs(c, now, ms[at[5]], org, k, 5);
  }

  lemma ExplainedAtOnce(db: Db, db': Db, ms: seq<Moment>, since: nat, op: Op, out: Outcome)
    requires since + 1 == |ms| && Explained(db, db', ms, since, op, out)
    ensures (db', out) == SerialAt(db, op, ms[since])
  {
    var k := CustomerOf(db, op);
    var c, now, at :| AsRead(ms, since, op.org, k, c, now, at) && Serial(db, op, c, now) == (db', out);
    ReadAtOnce(ms, since, op.org, k, c, now, at);
  }

  /** How many statements a transaction may still have to make. */
  function Remaining(ph: Phase): int {
    match ph
    case Begun => 10
    case Locked(_) => 9
    case KeyFree(_) => 8
    case Totalled(_, _) => 7
    case Capturing(_, _, _, at) => 6 - |at|
    case Inserted(_, _, _) => 1
    case _ => 0
  }

  /** tid has been running alone since the moment `here`. */
  predicate Solo(s: Sys, db: Db, m: Moment, here: nat, tid: Uuid, op: Op) {
    && s.db == db && s.present == m && |s.past| == here
    && tid in s.txs && s.txs[tid].op == op && s.txs[tid].since == here
    && (s.txs[tid].phase.Begun? ==> op.invoiceId !in s.locks)
    && (s.txs[tid].phase.Finished? ==> (db, s.txs[tid].phase.outcome) == SerialAt(db, op, m))
  }

  /** Any of its statements, but for the COMMIT. */
  lemma SoloStep(s: Sys, db: Db, m: Moment, here: nat, tid: Uuid, op: Op)
    requires Inv(s) && Solo(s, db, m, here, tid, op)
    ensures var s' := Next(s, Advance(tid));
            Inv(s') && Solo(s', db, m, here, tid, op) && Nearer(s.txs[tid].phase, s'.txs[tid].phase)
  {
    assert TxOk(s, tid);
    AdvanceKeepsInv(s, tid);
    SoloMoves(s, tid);
    var s' := DoAdvance(s, tid);
    if !s.txs[tid].phase.Finished? && s'.txs[tid].phase.Finished? {
      AdvanceLinearizable(s, tid);
      AdvanceNeverFails(s, tid);
      ExplainedAtOnce(db, db, Moments(s), here, op, s'.txs[tid].phase.outcome);
    }
  }

  /** One statement fewer to make, unless none was left. */
  predicate Nearer(ph: Phase, ph': Phase) {
    Remaining(ph') <= 0 || Remaining(ph') < Remaining(ph)
  }

  lemma SoloMoves(s: Sys, tid: Uuid)
    requires tid in s.txs && TxOk(s, tid) && s.txs[tid].since == |s.past|
    requires s.txs[tid].phase.Begun? ==> s.txs[tid].op.invoiceId !in s.locks
    ensures var t, s' := s.txs[tid], DoAdvance(s, tid);
            && tid in s'.txs && s'.txs[tid].op == t.op && s'.txs[tid].since == t.since
            && s'.present == s.present && s'.past == s.past
            && !s'.txs[tid].phase.Begun? && Nearer(t.phase, s'.txs[tid].phase)
            && (t.phase.Finished? ==> s'.txs[tid].phase == t.phase)
  {
    var Tx(op, ph, since) := s.txs[tid];
    if HoldsLock(ph) && !ph.Written? { StatementMoves(s.db, s.present, |s.past|, op, ph); }
  }

  lemma StatementMoves(db: Db, m: Moment, here: nat, op: Op, ph: Phase)
    requires HoldsLock(ph) && !ph.Written? && (ph.Capturing? ==> |ph.at| <= 5)
    ensures Nearer(ph, Statement(db, m, here, op, ph)) && !Statement(db, m, here, op, ph).Begun?
  {
  }

  lemma AdvanceNeverFails(s: Sys, tid: Uuid)
    requires tid in s.txs && TxOk(s, tid) && !s.txs[tid].phase.Finished?
    requires DoAdvance(s, tid).txs[tid].phase.Finished?
    ensures var out := DoAdvance(s, tid).txs[tid].phase.outcome; !out.Failed? && !out.Unknown?
  {
  }

  function Advances(tid: Uuid, n: nat): seq<Action> {
    if n == 0 then [] else [Advance(tid)] + Advances(tid, n - 1)
  }

  lemma {:induction false} SoloRun(s: Sys, db: Db, m: Moment, here: nat, tid: Uuid, op: Op, n: nat)
    requires Inv(s) && Solo(s, db, m, here, tid, op) && Remaining(s.txs[tid].phase) <= n
    ensures var e := Run(s, Advances(tid, n));
            Inv(e) && Solo(e, db, m, here, tid, op) && Remaining(e.txs[tid].phase) <= 0
    decreases n
  {
    if n > 0 {
      SoloStep(s, db, m, here, tid, op);
      assert Advances(tid, n)[1..] == Advances(tid, n - 1);
      SoloRun(Next(s, Advance(tid)), db, m, here, tid, op, n - 1);
    }
  }

  lemma SoloEnds(s: Sys, db: Db, m: Moment, here: nat, tid: Uuid, op: Op)
    requires Inv(s) && Solo(s, db, m, here, tid, op) && Remaining(s.txs[tid].phase) <= 0
    ensures var e := Next(s, Commit(tid));
            tid in e.txs && e.txs[tid].phase.Finished? && (e.db, e.txs[tid].phase.outcome) == SerialAt(db, op, m)
  {
    assert TxOk(s, tid);
    if s.txs[tid].phase.Written? {
      CommitRefines(s, tid);
      ExplainedAtOnce(db, ApplyWrites(s, tid).db, Moments(s), here, op, s.txs[tid].phase.d.outcome);
    }
  }

  /** The statements of a call with nothing in between; those left over once it
      has ended do nothing. */
  function Alone(tid: Uuid, op: Op): seq<Action> {
    [Begin(tid, op)] + (Advances(tid, 10) + [Commit(tid)])
  }

  /** Run with nothing in between on an invoice nobody holds, a call ends, and
      leaves and answers what the serial call does on the live records and the
      clock as they are: every serial call is a run of the transactions. */
  lemma AloneIsSerial(s: Sys, tid: Uuid, op: Op)
    requires Inv(s) && tid !in s.txs && op.invoiceId !in s.locks
    ensures var e := Run(s, Alone(tid, op));
            tid in e.txs && e.txs[tid].phase.Finished?
            && (e.db, e.txs[tid].phase.outcome) == SerialAt(s.db, op, s.present)
  {
    var s1 := Next(s, Begin(tid, op));
    var s2 := Run(s1, Advances(tid, 10));
    BeginKeepsInv(s, tid, op);
    BeginSolo(s, tid, op);
    SoloRun(s1, s.db, s.present, |s.past|, tid, op, 10);
    SoloEnds(s2, s.db, s.present, |s.past|, tid, op);
    Runs.RunAppend(Next, s1, Advances(tid, 10), [Commit(tid)]);
    Runs.RunOne(Next, s2, Commit(tid));
    Runs.RunAppend(Next, s, [Begin(tid, op)], Advances(tid, 10) + [Commit(tid)]);
    Runs.RunOne(Next, s, Begin(tid, op));
  }

  lemma BeginSolo(s: Sys, tid: Uuid, op: Op)
    requires Inv(s) && tid !in s.txs && op.invoiceId !in s.locks
    ensures Solo(Next(s, Begin(tid, op)), s.db, s.present, |s.past|, tid, op)
  {
    if Precheck(op).Some? {
      AloneExplained(s.db, Moments(s), |s.past|, op, Precheck(op).value);
      ExplainedAtOnce(s.db, s.db, Moments(s), |s.past|, op, Refused(Precheck(op).value));
    }
  }

  // ---- When a call succeeds ------------------------------------------------

  /** How the call ends, and the rows it leaves, if it runs alone from s. */
  function AloneFrom(s: Sys, tid: Uuid, op: Op): (Db, Phase) {
    var e := Run(s, Alone(tid, op));
    (e.db, if tid in e.txs then e.txs[tid].phase else Begun)
  }

  /** A payment with a new key is recorded exactly on a Sent invoice with that
      much outstanding, and settles it exactly when it pays the rest. */
  lemma PaymentSucceedsWhen(s: Sys, tid: Uuid, op: Op)
    requires Inv(s) && tid !in s.txs && op.invoiceId !in s.locks
    requires A.WellAsked(s.db, op) && forall p :: p in s.db.payments ==> !A.Carries(p, op)
    ensures var row, paid := s.db.invoices[op.invoiceId], SumPaid(s.db.payments, op.invoiceId);
            var (db, ph) := AloneFrom(s, tid, op);
            if row.status == Sent && paid + op.request.amount <= row.total then
              ph.Finished? && A.PaidAsAsked(s.db, op, (db, ph.outcome), paid + op.request.amount == row.total)
            else
              db == s.db
              && ph == Finished(Refused(if row.status != Sent then CannotAcceptPayment else PaymentExceedsOutstanding))
  {
    AloneIsSerial(s, tid, op);
    A.PaymentAnsweredByBalance(s.db, op, CaptureAll(s.present.live, op.org, CustomerOf(s.db, op)), s.present.now);
  }

  /** Send, run alone, succeeds exactly for a Draft of the organisation whose
      live records can be frozen, and freezes them as they are. */
  lemma SendSucceedsWhen(s: Sys, tid: Uuid, op: Op)
    requires Inv(s) && op.SendOp? && tid !in s.txs && op.invoiceId !in s.locks && A.Has(s.db, op)
    ensures var row := s.db.invoices[op.invoiceId];
            var c := CaptureAll(s.present.live, op.org, row.customerId);
            var (db, ph) := AloneFrom(s, tid, op);
            if row.status == Draft && A.Problem(c).None? then
              && ph.Finished? && ph.outcome.SentInvoice?
              && db == s.db.(invoices := s.db.invoices[op.invoiceId := ph.outcome.row])
              && A.IssuedAs(row, ph.outcome.row, c, Sent, Some(s.present.now), row.cancelledAt)
            else
              db == s.db && ph.Finished? && ph.outcome.Refused?
  {
    AloneIsSerial(s, tid, op);
    A.SendAnswer(s.db, op, CaptureAll(s.present.live, op.org, CustomerOf(s.db, op)), s.present.now);
  }

  /** Cancel, run alone, succeeds exactly for a Draft or Sent invoice of the
      organisation with nothing paid, a Draft only if it can be frozen. */
  lemma CancelSucceedsWhen(s: Sys, tid: Uuid, op: Op)
    requires Inv(s) && op.CancelOp? && tid !in s.txs && op.invoiceId !in s.locks && A.Has(s.db, op)
    ensures var row, paid := s.db.invoices[op.invoiceId], SumPaid(s.db.payments, op.invoiceId);
            var c := CaptureAll(s.present.live, op.org, row.customerId);
            var (db, ph) := AloneFrom(s, tid, op);
            if row.status in {Draft, Sent} && paid == 0 && (row.status == Draft ==> A.Problem(c).None?) then
              && ph.Finished? && ph.outcome.CancelledInvoice?
              && db == s.db.(invoices := s.db.invoices[op.invoiceId := ph.outcome.row])
              && (if row.status == Sent then
                    ph.outcome.row == row.(status := Cancelled, cancelledAt := Some(s.present.now))
                  else A.IssuedAs(row, ph.outcome.row, c, Cancelled, row.sentAt, Some(s.present.now)))
            else
              db == s.db && ph.Finished? && ph.outcome.Refused?
  {
    AloneIsSerial(s, tid, op);
    assert Balanced(s.db.invoices[op.invoiceId], SumPaid(s.db.payments, op.invoiceId));
    A.CancelAnswer(s.db, op, CaptureAll(s.present.live, op.org, CustomerOf(s.db, op)), s.present.now);
  }
}
