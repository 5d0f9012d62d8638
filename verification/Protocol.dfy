/**
 CreatePayment, Send and Cancel as concurrent PostgreSQL transactions.

 A system state is the committed database, the live records and the clock as
 they are and as they have been, the transactions in flight and the FOR UPDATE
 locks they hold. One action is one statement of one transaction (or an edit
 from outside, or the clock moving), so a sequence of actions is an
 interleaving and every interleaving is a sequence of actions; an action that
 is not enabled, such as taking a lock another transaction holds, changes
 nothing. Reads see the latest committed rows (READ COMMITTED); writes stay
 with their transaction until it commits.
 */
module Protocol {
  import Runs
  import opened Text
  import opened Invoices
  import opened Store
  import A = Answers
  import F = Fingerprint

  /** Where a transaction stands, with what it has read or decided so far.
      `at` is history: the moments at which the reads behind c were made. */
  datatype Phase =
    | Begun
    | Locked(row: InvoiceRow)
    | KeyFree(row: InvoiceRow)
    | Totalled(row: InvoiceRow, paid: int)
    | Capturing(row: InvoiceRow, paid: int, c: Capture, at: seq<nat>)
    | Inserted(row: InvoiceRow, paid: int, payment: Payment)
    | Written(d: Decision)
    | Finished(outcome: Outcome)

  /** `since` is history: the moment the transaction took its lock (or began,
      while it has none). */
  datatype Tx = Tx(op: Op, phase: Phase, since: nat)

  /** The live records and the clock between two changes of either. */
  datatype Moment = Moment(live: Live, now: Time)

  datatype Sys = Sys(db: Db, past: seq<Moment>, present: Moment, txs: map<Uuid, Tx>, locks: map<Uuid, Uuid>)

  /** Every moment so far, the present one last. */
  function Moments(s: Sys): seq<Moment> { s.past + [s.present] }

  datatype Action =
    | Begin(tid: Uuid, op: Op)
    | Advance(tid: Uuid)
    | Commit(tid: Uuid)
      // COMMIT reports an error; it may or may not have been applied.
    | CommitError(tid: Uuid, applied: bool)
      // Any statement fails, or the client goes away: rolled back.
    | Fail(tid: Uuid)
    | EditLive(live: Live)
    | SetClock(now: Time)
    | CreateInvoice(id: Uuid, row: InvoiceRow)

  const NO_CAPTURE := Capture(None, None, None, None, None)

  // ---- Steps -------------------------------------------------------------

  /** The next of the five reads behind a snapshot. */
  function ReadNext(live: Live, org: Uuid, customerId: Uuid, c: Capture, step: nat): Capture {
    match step
    case 0 => c.(organisation := Lookup(live.organisations, org))
    case 1 => c.(customer := FindCustomer(live, org, customerId))
    case 2 => c.(currency := Lookup(live.settings, org))
    case 3 => c.(address := FindAddress(live, org, customerId))
    case _ => c.(template := Lookup(live.templates, org))
  }

  /** The error of the read just made; a missing address is none. */
  function ReadError(c: Capture, step: nat): Option<Error> {
    match step
    case 0 => if c.organisation.None? then Some(SnapshotDataUnavailable) else None
    case 1 => if c.customer.None? then Some(SnapshotDataUnavailable) else None
    case 2 => if c.currency.None? then Some(SettingsNotFound) else None
    case 3 => None
    case _ => if c.template.None? then Some(SnapshotDataUnavailable) else None
  }

  /** All writes made, or refused on the spot. */
  function Conclude(d: Decision): Phase {
    if d.outcome.Refused? then Finished(d.outcome) else Written(d)
  }

  /** One statement of a transaction that holds its lock, made at moment m,
      the moment numbered `here`. */
  function Statement(db: Db, m: Moment, here: nat, op: Op, ph: Phase): Phase {
    match ph
    case Locked(row) =>
      (match op
       case PayOp(_, id, r, _, _) =>
         (match FindKey(db.payments, id, r.idempotencyKey)
          case Some(p) => Finished(DecidePayment(row, 0, Some(p), op).outcome)
          case None => KeyFree(row))
       case SendOp(_, _) =>
         if row.status == Cancelled then Finished(Refused(AlreadyCancelled))
         else if row.status != Draft then Finished(Refused(AlreadySent))
         else Capturing(row, 0, NO_CAPTURE, [])
       case CancelOp(_, id) => Totalled(row, SumPaid(db.payments, id)))
    case KeyFree(row) =>
      if !CanAcceptPayment(row) then Finished(Refused(CannotAcceptPayment))
      else Totalled(row, SumPaid(db.payments, op.invoiceId))
    case Totalled(row, paid) =>
      (match op
       case PayOp(_, _, r, _, _) =>
         if r.amount > row.total - paid then Finished(Refused(PaymentExceedsOutstanding))
         else Inserted(row, paid, NewPayment(op))
       case _ =>
         (match CheckCancellable(row, paid)
          case Some(e) => Finished(Refused(e))
          case None =>
            if row.status == Draft then Capturing(row, paid, NO_CAPTURE, [])
            else Conclude(DecideCancel(row, paid, NO_CAPTURE, m.now))))
    case Capturing(row, paid, c, at) =>
      if |at| < 5 then
        var c' := ReadNext(m.live, op.org, row.customerId, c, |at|);
        match ReadError(c', |at|)
        case Some(e) => Finished(Refused(e))
        case None => Capturing(row, paid, c', at + [here])
      else if op.SendOp? then Conclude(DecideSend(row, c, m.now))
      else Conclude(DecideCancel(row, paid, c, m.now))
    case Inserted(row, paid, p) =>
      Written(Decision(Recorded(p), Settle(row, p.amount, row.total - paid), Some(p)))
    case _ => ph
  }

  /** Ends a transaction and releases its lock. */
  function Finish(s: Sys, tid: Uuid, out: Outcome): Sys
    requires tid in s.txs
  {
    var op := s.txs[tid].op;
    s.(txs := s.txs[tid := s.txs[tid].(phase := Finished(out))],
       locks := if op.invoiceId in s.locks && s.locks[op.invoiceId] == tid then s.locks - {op.invoiceId} else s.locks)
  }

  function DoAdvance(s: Sys, tid: Uuid): Sys
    requires tid in s.txs
  {
    var Tx(op, ph, since) := s.txs[tid];
    if ph.Begun? then
      if !Visible(s.db, op.org, op.invoiceId) then Finish(s, tid, Refused(InvoiceNotFound))
      else if op.invoiceId in s.locks then s
      else s.(txs := s.txs[tid := Tx(op, Locked(s.db.invoices[op.invoiceId]), |s.past|)],
              locks := s.locks[op.invoiceId := tid])
    else if ph.Written? || ph.Finished? then s
    else
      var ph' := Statement(s.db, s.present, |s.past|, op, ph);
      if ph'.Finished? then Finish(s, tid, ph'.outcome)
      else s.(txs := s.txs[tid := Tx(op, ph', since)])
  }

  /** The present moment is over. */
  function Turn(s: Sys, m: Moment): Sys {
    s.(past := Moments(s), present := m)
  }

  /** Makes a transaction's writes the committed ones. */
  function ApplyWrites(s: Sys, tid: Uuid): Sys
    requires tid in s.txs && s.txs[tid].phase.Written?
  {
    s.(db := Apply(s.db, s.txs[tid].op.invoiceId, s.txs[tid].phase.d))
  }

  predicate Committing(s: Sys, tid: Uuid) { tid in s.txs && s.txs[tid].phase.Written? }

  predicate FreshDraft(row: InvoiceRow) {
    row.status == Draft && row.sentAt == None && row.cancelledAt == None
    && row.party == NO_PARTY && row.template == None && row.total >= 0
  }

  function Next(s: Sys, a: Action): Sys {
    match a
    case Begin(tid, op) =>
      if tid in s.txs then s
      else s.(txs := s.txs[tid := Tx(op, match Precheck(op)
                                         case None => Begun
                                         case Some(e) => Finished(Refused(e)), |s.past|)])
    case Advance(tid) => if tid in s.txs then DoAdvance(s, tid) else s
    case Commit(tid) =>
      if Committing(s, tid) then Finish(ApplyWrites(s, tid), tid, s.txs[tid].phase.d.outcome) else s
    case CommitError(tid, applied) =>
      if Committing(s, tid) then Finish(if applied then ApplyWrites(s, tid) else s, tid, Unknown) else s
    case Fail(tid) =>
      if tid in s.txs && !s.txs[tid].phase.Finished? then Finish(s, tid, Failed) else s
    case EditLive(live) => Turn(s, s.present.(live := live))
    case SetClock(now) => Turn(s, s.present.(now := now))
    case CreateInvoice(id, row) =>
      if id !in s.db.invoices && FreshDraft(row) then s.(db := s.db.(invoices := s.db.invoices[id := row])) else s
  }

  function Run(s: Sys, actions: seq<Action>): Sys { Runs.Run(Next, s, actions) }

  predicate HoldsLock(ph: Phase) { !ph.Begun? && !ph.Finished? }

  /** `since` is the moment at which a transaction that has its lock took it. */
  lemma SinceIsTheLock(s: Sys, a: Action, tid: Uuid)
    requires tid in s.txs
    ensures tid in Next(s, a).txs
    ensures s.txs[tid].phase.Begun? && HoldsLock(Next(s, a).txs[tid].phase) ==>
              Next(s, a).txs[tid].since == |s.past|
    ensures !s.txs[tid].phase.Begun? ==> Next(s, a).txs[tid].since == s.txs[tid].since
    ensures Moments(s) <= Moments(Next(s, a))
  {
  }

  // ---- What a transaction has read of the live records --------------------

  /** The i-th thing a Send or Cancel reads outside the invoice tables: the
      five records of a capture in their order, then the clock. */
  predicate ReadIs(c: Capture, now: Time, m: Moment, org: Uuid, customerId: Uuid, i: nat) {
    var live := m.live;
    var ours := customerId in live.customers && live.customers[customerId].organisationId == org;
    match i
    case 0 => c.organisation == if org in live.organisations then Some(live.organisations[org]) else None
    case 1 => c.customer == if ours then Some(live.customers[customerId]) else None
    case 2 => c.currency == if org in live.settings then Some(live.settings[org]) else None
    case 3 => c.address == if ours && customerId in live.addresses then Some(live.addresses[customerId]) else None
    case 4 => c.template == if org in live.templates then Some(live.templates[org]) else None
    case _ => now == m.now
  }

  /** The first |at| reads were made at the moments `at`, in that order, none
      of them before `since`. */
  ghost predicate Gathered(ms: seq<Moment>, since: nat, org: Uuid, customerId: Uuid,
                           c: Capture, now: Time, at: seq<nat>) {
    && (forall i :: 0 <= i < |at| ==> since <= at[i] < |ms| && ReadIs(c, now, ms[at[i]], org, customerId, i))
    && (forall i, j :: 0 <= i < j < |at| ==> at[i] <= at[j])
  }

  /** All six reads were. */
  ghost predicate AsRead(ms: seq<Moment>, since: nat, org: Uuid, customerId: Uuid,
                         c: Capture, now: Time, at: seq<nat>) {
    |at| == 6 && Gathered(ms, since, org, customerId, c, now, at)
  }

  /** The customer whose records a call on this invoice reads. */
  function CustomerOf(db: Db, op: Op): Uuid {
    if op.invoiceId in db.invoices then db.invoices[op.invoiceId].customerId else 0
  }

  /** The decision is the serial one on what was read since the lock. */
  ghost predicate Justified(db: Db, ms: seq<Moment>, since: nat, op: Op, d: Decision) {
    exists c, now, at :: AsRead(ms, since, op.org, CustomerOf(db, op), c, now, at) && Decide(db, op, c, now) == d
  }

  /** The call, run alone on what was read since the lock, leaves db' and
      answers `out`. */
  ghost predicate Explained(db: Db, db': Db, ms: seq<Moment>, since: nat, op: Op, out: Outcome) {
    exists c, now, at ::
      AsRead(ms, since, op.org, CustomerOf(db, op), c, now, at) && Serial(db, op, c, now) == (db', out)
  }

  lemma GatheredLater(ms: seq<Moment>, ms': seq<Moment>, since: nat, org: Uuid, customerId: Uuid,
                      c: Capture, now: Time, at: seq<nat>)
    requires ms <= ms' && Gathered(ms, since, org, customerId, c, now, at)
    ensures Gathered(ms', since, org, customerId, c, now, at)
  {
  }

  /** Without an edit since the lock, a capture is the live records as one. */
  lemma UneditedCapture(ms: seq<Moment>, since: nat, org: Uuid, customerId: Uuid,
                        c: Capture, now: Time, at: seq<nat>, live: Live)
    requires AsRead(ms, since, org, customerId, c, now, at)
    requires forall i :: since <= i < |ms| ==> ms[i].live == live
    ensures c == CaptureAll(live, org, customerId)
  {
    assert ReadIs(c, now, ms[at[0]], org, customerId, 0);
    assert ReadIs(c, now, ms[at[1]], org, customerId, 1);
    assert ReadIs(c, now, ms[at[2]], org, customerId, 2);
    assert ReadIs(c, now, ms[at[3]], org, customerId, 3);
    assert ReadIs(c, now, ms[at[4]], org, customerId, 4);
  }

  /** The first n reads as made, the rest as they would be at moment m. */
  function Fill(c: Capture, n: nat, m: Moment, org: Uuid, customerId: Uuid): Capture {
    Capture(if n > 0 then c.organisation else Lookup(m.live.organisations, org),
            if n > 1 then c.customer else FindCustomer(m.live, org, customerId),
            if n > 2 then c.currency else Lookup(m.live.settings, org),
            if n > 3 then c.address else FindAddress(m.live, org, customerId),
            if n > 4 then c.template else Lookup(m.live.templates, org))
  }

  lemma FillIsRead(ms: seq<Moment>, since: nat, org: Uuid, customerId: Uuid, c: Capture, at: seq<nat>)
    returns (at': seq<nat>)
    requires since < |ms| && |at| <= 5 && Gathered(ms, since, org, customerId, c, 0, at)
    ensures var m := ms[|ms| - 1];
            AsRead(ms, since, org, customerId, Fill(c, |at|, m, org, customerId), m.now, at')
  {
    var here: nat := |ms| - 1;
    at' := at + seq(6 - |at|, _ => here);
    var full := Fill(c, |at|, ms[here], org, customerId);
    forall i | 0 <= i < 6
      ensures since <= at'[i] < |ms| && ReadIs(full, ms[here].now, ms[at'[i]], org, customerId, i)
    {
      if i < |at| { assert ReadIs(c, 0, ms[at[i]], org, customerId, i); }
    }
  }

  // ---- The inductive invariant -------------------------------------------

  /** What a transaction has read is still what is committed, and what it has
      read of the live records is what they were at some moment since. */
  ghost predicate PhaseOk(db: Db, ms: seq<Moment>, since: nat, op: Op, ph: Phase)
    requires op.invoiceId in db.invoices
  {
    var row, paid := db.invoices[op.invoiceId], SumPaid(db.payments, op.invoiceId);
    match ph
    case Locked(r) => r == row
    case KeyFree(r) => r == row && Unused(db, op)
    case Totalled(r, n) =>
      r == row && n == paid && !op.SendOp? && (op.PayOp? ==> Unused(db, op) && CanAcceptPayment(r))
    case Capturing(r, n, c, at) =>
      && r == row && r.status == Draft && !op.PayOp? && |at| <= 5
      && (op.CancelOp? ==> n == paid && CheckCancellable(r, n).None?)
      && ReadSoFar(c, |at|)
      && Gathered(ms, since, op.org, row.customerId, c, 0, at)
    case Inserted(r, n, p) =>
      && r == row && n == paid && Unused(db, op) && CanAcceptPayment(r)
      && p == NewPayment(op) && p.amount <= r.total - n
    case Written(d) => Justified(db, ms, since, op, d)
    case _ => true
  }

  /** The required records among the first n were found. */
  predicate ReadSoFar(c: Capture, n: nat) {
    && (n > 0 ==> c.organisation.Some?) && (n > 1 ==> c.customer.Some?)
    && (n > 2 ==> c.currency.Some?) && (n > 4 ==> c.template.Some?)
  }

  /** A payment whose key no committed payment of the invoice carries. */
  predicate Unused(db: Db, op: Op) {
    op.PayOp? && FindKey(db.payments, op.invoiceId, op.request.idempotencyKey).None?
  }

  /** What a caller was told is still so. */
  predicate OutcomeOk(db: Db, op: Op, out: Outcome) {
    match out
    case Recorded(p) => PaymentStands(db, op, p) && A.Records(p, op)
    case Replayed(p) => PaymentStands(db, op, p)
    case SentInvoice(row) => StillIs(db, op, row)
    case CancelledInvoice(row) => StillIs(db, op, row)
    case _ => true
  }

  predicate PaymentStands(db: Db, op: Op, p: Payment) {
    && op.PayOp?
    && p in db.payments
    && HasKey(p, op.invoiceId, op.request.idempotencyKey)
    && p.idempotency.value.fingerprint == F.FingerprintOf(op.request)
  }

  predicate StillIs(db: Db, op: Op, row: InvoiceRow) {
    && row.status in {Sent, Cancelled}
    && op.invoiceId in db.invoices
    && SameDocument(row, db.invoices[op.invoiceId])
  }

  ghost predicate TxOk(s: Sys, tid: Uuid)
    requires tid in s.txs
  {
    var Tx(op, ph, since) := s.txs[tid];
    since <= |s.past| &&
    match ph
    case Begun => Precheck(op).None?
    case Finished(out) => OutcomeOk(s.db, op, out)
    case _ =>
      && Precheck(op).None?
      && Visible(s.db, op.org, op.invoiceId)
      && op.invoiceId in s.locks && s.locks[op.invoiceId] == tid
      && PhaseOk(s.db, Moments(s), since, op, ph)
  }

  predicate LockOk(s: Sys, id: Uuid)
    requires id in s.locks
  {
    var tid := s.locks[id];
    tid in s.txs && s.txs[tid].op.invoiceId == id && HoldsLock(s.txs[tid].phase)
  }

  ghost predicate Inv(s: Sys) {
    && Safe(s.db)
    && (forall id :: id in s.locks ==> LockOk(s, id))
    && (forall tid :: tid in s.txs ==> TxOk(s, tid))
  }

  /** A system with no transaction in flight starts well when its books do. */
  lemma QuietIsInv(s: Sys)
    requires Safe(s.db) && s.txs == map[] && s.locks == map[]
    ensures Inv(s)
  {
  }

  // ---- One transaction against the serial meaning ------------------------

  /** A read that finds nothing is the serial call's refusal. */
  lemma MissingRefuses(db: Db, op: Op, c: Capture, n: nat, now: Time)
    requires Precheck(op).None? && Visible(db, op.org, op.invoiceId) && !op.PayOp? && n < 5
    requires var row := db.invoices[op.invoiceId];
             row.status == Draft
             && (op.CancelOp? ==> CheckCancellable(row, SumPaid(db.payments, op.invoiceId)).None?)
    requires ReadSoFar(c, n) && ReadError(c, n).Some?
    ensures Serial(db, op, c, now) == (db, Refused(ReadError(c, n).value))
  {
    assert CaptureError(c) == ReadError(c, n);
    assert Decide(db, op, c, now) == Refuse(ReadError(c, n).value);
  }

  /** One read more. */
  lemma ReadMore(ms: seq<Moment>, since: nat, org: Uuid, k: Uuid, c: Capture, at: seq<nat>)
    requires since < |ms| && |at| < 5 && Gathered(ms, since, org, k, c, 0, at)
    ensures var here: nat := |ms| - 1;
            Gathered(ms, since, org, k, ReadNext(ms[here].live, org, k, c, |at|), 0, at + [here])
  {
    var here: nat := |ms| - 1;
    var c', at' := ReadNext(ms[here].live, org, k, c, |at|), at + [here];
    forall i | 0 <= i < |at'| ensures since <= at'[i] < |ms| && ReadIs(c', 0, ms[at'[i]], org, k, i) {
      if i < |at| { assert ReadIs(c, 0, ms[at[i]], org, k, i); }
    }
  }

  /** A statement that reads one of the five records. */
  lemma ReadRefines(db: Db, ms: seq<Moment>, since: nat, op: Op, ph: Phase)
    requires Precheck(op).None? && Visible(db, op.org, op.invoiceId) && since < |ms|
    requires PhaseOk(db, ms, since, op, ph) && ph.Capturing? && |ph.at| < 5
    ensures var ph' := Statement(db, ms[|ms| - 1], |ms| - 1, op, ph);
            if ph'.Finished? then Explained(db, db, ms, since, op, ph'.outcome)
            else ph'.Capturing? && PhaseOk(db, ms, since, op, ph')
  {
    var m, n := ms[|ms| - 1], |ph.at|;
    var k := db.invoices[op.invoiceId].customerId;
    var c := ReadNext(m.live, op.org, k, ph.c, n);
    ReadMore(ms, since, op.org, k, ph.c, ph.at);
    if ReadError(c, n).Some? {
      var full := Fill(c, n + 1, m, op.org, k);
      var at := FillIsRead(ms, since, op.org, k, c, ph.at + [|ms| - 1]);
      MissingRefuses(db, op, full, n, m.now);
      assert AsRead(ms, since, op.org, CustomerOf(db, op), full, m.now, at);
    }
  }

  /** The decision once all five are read. */
  lemma DecisionRefines(db: Db, ms: seq<Moment>, since: nat, op: Op, ph: Phase)
    requires Precheck(op).None? && Visible(db, op.org, op.invoiceId) && since < |ms|
    requires PhaseOk(db, ms, since, op, ph) && ph.Capturing? && |ph.at| == 5
    ensures var ph' := Statement(db, ms[|ms| - 1], |ms| - 1, op, ph);
            if ph'.Finished? then Explained(db, db, ms, since, op, ph'.outcome)
            else ph'.Written? && PhaseOk(db, ms, since, op, ph')
  {
    var m := ms[|ms| - 1];
    var k := db.invoices[op.invoiceId].customerId;
    var at := FillIsRead(ms, since, op.org, k, ph.c, ph.at);
    assert AsRead(ms, since, op.org, CustomerOf(db, op), ph.c, m.now, at);
    var d := Decide(db, op, ph.c, m.now);
    assert d.outcome.Refused? ==> Serial(db, op, ph.c, m.now) == (db, d.outcome);
  }

  /** What the live records hold matters to no other statement. */
  lemma PlainRefines(db: Db, ms: seq<Moment>, since: nat, op: Op, ph: Phase)
    requires Precheck(op).None? && Visible(db, op.org, op.invoiceId) && since < |ms|
    requires PhaseOk(db, ms, since, op, ph) && HoldsLock(ph) && !ph.Written? && !ph.Capturing?
    ensures var ph' := Statement(db, ms[|ms| - 1], |ms| - 1, op, ph);
            if ph'.Finished? then Explained(db, db, ms, since, op, ph'.outcome)
            else HoldsLock(ph') && PhaseOk(db, ms, since, op, ph')
  {
    var m := ms[|ms| - 1];
    var k := db.invoices[op.invoiceId].customerId;
    var at := FillIsRead(ms, since, op.org, k, NO_CAPTURE, []);
    var c := Fill(NO_CAPTURE, 0, m, op.org, k);
    assert AsRead(ms, since, op.org, CustomerOf(db, op), c, m.now, at);
    var ph' := Statement(db, m, |ms| - 1, op, ph);
    if ph'.Finished? {
      assert Decide(db, op, c, m.now) == Decision(ph'.outcome, None, None);
      assert Serial(db, op, c, m.now) == (db, ph'.outcome);
    } else if ph'.Written? {
      assert Decide(db, op, c, m.now) == ph'.d;
    }
  }

  /** A finished statement answers what the serial call answers on what was
      read since the lock, and writes nothing; an unfinished one keeps its
      reads true. */
  lemma StatementRefines(db: Db, ms: seq<Moment>, since: nat, op: Op, ph: Phase)
    requires Precheck(op).None? && Visible(db, op.org, op.invoiceId) && since < |ms|
    requires PhaseOk(db, ms, since, op, ph) && HoldsLock(ph) && !ph.Written?
    ensures var ph' := Statement(db, ms[|ms| - 1], |ms| - 1, op, ph);
            if ph'.Finished? then Explained(db, db, ms, since, op, ph'.outcome)
            else HoldsLock(ph') && PhaseOk(db, ms, since, op, ph')
  {
    if !ph.Capturing? {
      PlainRefines(db, ms, since, op, ph);
    } else if |ph.at| < 5 {
      ReadRefines(db, ms, since, op, ph);
    } else {
      DecisionRefines(db, ms, since, op, ph);
    }
  }

  // ---- Frames ------------------------------------------------------------

  lemma FindKeyAppend(ps: seq<Payment>, p: Payment, invoiceId: Uuid, key: string)
    ensures FindKey(ps + [p], invoiceId, key)
         == if HasKey(p, invoiceId, key) then Some(p) else FindKey(ps, invoiceId, key)
  {
    assert (ps + [p])[..|ps|] == ps;
  }

  /** The payment that carries the request's key. */
  function KeyHolder(db: Db, op: Op): Option<Payment>
    requires op.PayOp?
  {
    FindKey(db.payments, op.invoiceId, op.request.idempotencyKey)
  }

  /** The two databases look alike to a call. */
  predicate SameView(db: Db, db': Db, op: Op) {
    && op.invoiceId in db.invoices && op.invoiceId in db'.invoices
    && db'.invoices[op.invoiceId] == db.invoices[op.invoiceId]
    && SumPaid(db'.payments, op.invoiceId) == SumPaid(db.payments, op.invoiceId)
    && (op.PayOp? ==> KeyHolder(db', op) == KeyHolder(db, op))
  }

  lemma SameViewKeepsPhase(db: Db, db': Db, ms: seq<Moment>, since: nat, op: Op, ph: Phase)
    requires SameView(db, db', op) && PhaseOk(db, ms, since, op, ph)
    ensures PhaseOk(db', ms, since, op, ph)
  {
    if ph.Written? {
      var c, now, at :| AsRead(ms, since, op.org, CustomerOf(db, op), c, now, at) && Decide(db, op, c, now) == ph.d;
      assert Decide(db', op, c, now) == ph.d;
      assert AsRead(ms, since, op.org, CustomerOf(db', op), c, now, at);
    }
  }

  /** Writes to one invoice leave what others have read of theirs true. */
  lemma OtherInvoice(db: Db, id: Uuid, d: Decision, ms: seq<Moment>, since: nat, op: Op, ph: Phase)
    requires op.invoiceId != id && Visible(db, op.org, op.invoiceId) && PhaseOk(db, ms, since, op, ph)
    requires d.payment.Some? ==> d.payment.value.invoiceId == id
    ensures Visible(Apply(db, id, d), op.org, op.invoiceId) && PhaseOk(Apply(db, id, d), ms, since, op, ph)
  {
    if d.payment.Some? {
      SumPaidAppend(db.payments, d.payment.value, op.invoiceId);
      if op.PayOp? {
        FindKeyAppend(db.payments, d.payment.value, op.invoiceId, op.request.idempotencyKey);
      }
    }
    SameViewKeepsPhase(db, Apply(db, id, d), ms, since, op, ph);
  }

  /** So do edits of the live records and the clock moving. */
  lemma LaterKeepsPhase(db: Db, ms: seq<Moment>, ms': seq<Moment>, since: nat, op: Op, ph: Phase)
    requires op.invoiceId in db.invoices && ms <= ms' && PhaseOk(db, ms, since, op, ph)
    ensures PhaseOk(db, ms', since, op, ph)
  {
    var k := CustomerOf(db, op);
    if ph.Capturing? {
      GatheredLater(ms, ms', since, op.org, k, ph.c, 0, ph.at);
    } else if ph.Written? {
      var c, now, at :| AsRead(ms, since, op.org, k, c, now, at) && Decide(db, op, c, now) == ph.d;
      GatheredLater(ms, ms', since, op.org, k, c, now, at);
      assert AsRead(ms', since, op.org, k, c, now, at);
    }
  }

  /** What a caller was told outlives whatever happens next. */
  lemma OutcomeOutlives(a: Db, b: Db, op: Op, out: Outcome)
    requires Grows(a, b) && OutcomeOk(a, op, out)
    ensures OutcomeOk(b, op, out)
  {
    if out.SentInvoice? || out.CancelledInvoice? {
      EvolvesTransitive(out.row, a.invoices[op.invoiceId], b.invoices[op.invoiceId]);
    }
  }

  /** The answer a committed decision gives holds of the committed rows. */
  lemma DecisionStands(db: Db, op: Op, c: Capture, now: Time)
    requires Safe(db)
    ensures OutcomeOk(Serial(db, op, c, now).0, op, Serial(db, op, c, now).1)
  {
    var d := Decide(db, op, c, now);
    if op.PayOp? && Visible(db, op.org, op.invoiceId) {
      FindKeyFinds(db.payments, op.invoiceId, op.request.idempotencyKey);
    }
    if op.PayOp? { A.RecordsNewPayment(op); }
    if d.row.Some? { assert d.row.value == d.row.value.(status := d.row.value.status); }
  }

  // ---- Every step keeps the invariant ------------------------------------

  lemma FinishKeepsInv(s: Sys, tid: Uuid, out: Outcome)
    requires Inv(s) && tid in s.txs && OutcomeOk(s.db, s.txs[tid].op, out)
    ensures Inv(Finish(s, tid, out))
  {
    var s' := Finish(s, tid, out);
    assert TxOk(s, tid);
    forall id | id in s'.locks ensures LockOk(s', id) { assert LockOk(s, id); }
    forall t | t in s'.txs ensures TxOk(s', t) {
      assert TxOk(s, t);
      if t != tid { SameTxStaysOk(s, s', t); }
    }
  }

  /** A step that leaves a transaction, its lock and all it has read alone. */
  lemma SameTxStaysOk(s: Sys, s': Sys, t: Uuid)
    requires t in s.txs && TxOk(s, t) && s'.db == s.db && s'.past == s.past && s'.present == s.present
    requires t in s'.txs && s'.txs[t] == s.txs[t]
    requires var id := s.txs[t].op.invoiceId;
             id in s.locks && s.locks[id] == t ==> id in s'.locks && s'.locks[id] == t
    ensures TxOk(s', t)
  {
  }

  /** Taking the lock, or finding no such invoice. */
  lemma LockStepKeepsInv(s: Sys, tid: Uuid)
    requires Inv(s) && tid in s.txs && s.txs[tid].phase.Begun?
    ensures Inv(DoAdvance(s, tid)) && DoAdvance(s, tid).db == s.db
  {
    var op := s.txs[tid].op;
    assert TxOk(s, tid);
    if !Visible(s.db, op.org, op.invoiceId) {
      FinishKeepsInv(s, tid, Refused(InvoiceNotFound));
    } else if op.invoiceId !in s.locks {
      PhaseChangeKeepsInv(s, tid, Locked(s.db.invoices[op.invoiceId]), |s.past|, s.locks[op.invoiceId := tid]);
    }
  }

  /** A statement under the lock. */
  lemma StatementStepKeepsInv(s: Sys, tid: Uuid)
    requires Inv(s) && tid in s.txs && HoldsLock(s.txs[tid].phase) && !s.txs[tid].phase.Written?
    ensures Inv(DoAdvance(s, tid)) && DoAdvance(s, tid).db == s.db
  {
    var Tx(op, ph, since) := s.txs[tid];
    assert TxOk(s, tid);
    StatementRefines(s.db, Moments(s), since, op, ph);
    var ph' := Statement(s.db, s.present, |s.past|, op, ph);
    if ph'.Finished? {
      ExplainedStands(s.db, s.db, Moments(s), since, op, ph'.outcome);
      FinishKeepsInv(s, tid, ph'.outcome);
    } else {
      assert s.locks == s.locks[op.invoiceId := tid];
      PhaseChangeKeepsInv(s, tid, ph', since, s.locks);
    }
  }

  lemma AdvanceKeepsInv(s: Sys, tid: Uuid)
    requires Inv(s) && tid in s.txs
    ensures Inv(DoAdvance(s, tid)) && DoAdvance(s, tid).db == s.db
  {
    var ph := s.txs[tid].phase;
    if ph.Begun? {
      LockStepKeepsInv(s, tid);
    } else if !ph.Written? && !ph.Finished? {
      StatementStepKeepsInv(s, tid);
    }
  }

  lemma ExplainedStands(db: Db, db': Db, ms: seq<Moment>, since: nat, op: Op, out: Outcome)
    requires Safe(db) && Explained(db, db', ms, since, op, out)
    ensures OutcomeOk(db', op, out)
  {
    var c, now, at :|
      AsRead(ms, since, op.org, CustomerOf(db, op), c, now, at) && Serial(db, op, c, now) == (db', out);
    DecisionStands(db, op, c, now);
  }

  lemma PhaseChangeKeepsInv(s: Sys, tid: Uuid, ph: Phase, since: nat, locks: map<Uuid, Uuid>)
    requires Inv(s) && tid in s.txs && since <= |s.past|
    requires var op := s.txs[tid].op;
             && HoldsLock(ph) && Precheck(op).None?
             && Visible(s.db, op.org, op.invoiceId) && PhaseOk(s.db, Moments(s), since, op, ph)
             && (op.invoiceId in s.locks ==> s.locks[op.invoiceId] == tid)
             && locks == s.locks[op.invoiceId := tid]
    ensures Inv(s.(txs := s.txs[tid := Tx(s.txs[tid].op, ph, since)], locks := locks))
  {
    var s' := s.(txs := s.txs[tid := Tx(s.txs[tid].op, ph, since)], locks := locks);
    forall id | id in s'.locks ensures LockOk(s', id) {
      if id != s.txs[tid].op.invoiceId { assert LockOk(s, id); }
    }
    forall t | t in s'.txs ensures TxOk(s', t) {
      assert TxOk(s, t);
      if t != tid { SameTxStaysOk(s, s', t); }
    }
  }

  /** Committing transaction tid, seen from another transaction: first the
      writes, then the lock. */
  lemma WritesKeepOther(s: Sys, tid: Uuid, t: Uuid)
    requires Inv(s) && Committing(s, tid) && t in s.txs && t != tid
    requires Grows(s.db, ApplyWrites(s, tid).db)
    ensures TxOk(ApplyWrites(s, tid), t)
  {
    assert TxOk(s, tid) && TxOk(s, t);
    var Tx(op, ph, since) := s.txs[t];
    if ph.Finished? {
      OutcomeOutlives(s.db, ApplyWrites(s, tid).db, op, ph.outcome);
    } else if HoldsLock(ph) {
      WritesOwnInvoice(s, tid);
      OtherInvoice(s.db, s.txs[tid].op.invoiceId, s.txs[tid].phase.d, Moments(s), since, op, ph);
    }
  }

  lemma CommitKeepsOther(s: Sys, tid: Uuid, out: Outcome, t: Uuid)
    requires Inv(s) && Committing(s, tid) && t in s.txs && t != tid
    requires Grows(s.db, ApplyWrites(s, tid).db)
    ensures TxOk(Finish(ApplyWrites(s, tid), tid, out), t)
  {
    WritesKeepOther(s, tid, t);
    var s1 := ApplyWrites(s, tid);
    SameTxStaysOk(s1, Finish(s1, tid, out), t);
  }

  lemma WritesOwnInvoice(s: Sys, tid: Uuid)
    requires Inv(s) && Committing(s, tid)
    ensures var Tx(op, ph, _) := s.txs[tid];
            ph.d.payment.Some? ==> ph.d.payment.value.invoiceId == op.invoiceId
  {
    assert TxOk(s, tid);
    var Tx(op, ph, since) := s.txs[tid];
    var c, now, at :|
      AsRead(Moments(s), since, op.org, CustomerOf(s.db, op), c, now, at) && Decide(s.db, op, c, now) == ph.d;
    DecidesOwnInvoice(s.db, op, c, now);
  }

  lemma DecidesOwnInvoice(db: Db, op: Op, c: Capture, now: Time)
    ensures var d := Decide(db, op, c, now);
            d.payment.Some? ==> d.payment.value.invoiceId == op.invoiceId
  {
  }

  lemma CommitKeepsInv(s: Sys, tid: Uuid, out: Outcome)
    requires Inv(s) && Committing(s, tid)
    requires out == Unknown || out == s.txs[tid].phase.d.outcome
    ensures var s' := Finish(ApplyWrites(s, tid), tid, out);
            Inv(s') && Grows(s.db, s'.db)
  {
    var Tx(op, ph, since) := s.txs[tid];
    CommitRefines(s, tid);
    ExplainedKeepsSafe(s.db, ApplyWrites(s, tid).db, Moments(s), since, op, ph.d.outcome);
    ExplainedStands(s.db, ApplyWrites(s, tid).db, Moments(s), since, op, ph.d.outcome);
    var s' := Finish(ApplyWrites(s, tid), tid, out);
    forall id | id in s'.locks ensures LockOk(s', id) { assert LockOk(s, id); }
    forall t | t in s'.txs ensures TxOk(s', t) {
      assert TxOk(s, t);
      if t != tid { CommitKeepsOther(s, tid, out, t); }
    }
  }

  lemma ExplainedKeepsSafe(db: Db, db': Db, ms: seq<Moment>, since: nat, op: Op, out: Outcome)
    requires Safe(db) && Explained(db, db', ms, since, op, out)
    ensures Safe(db') && Grows(db, db')
  {
    var c, now, at :|
      AsRead(ms, since, op.org, CustomerOf(db, op), c, now, at) && Serial(db, op, c, now) == (db', out);
    SerialKeepsSafe(db, op, c, now);
  }

  /** What a transaction is about to commit is what its call, run alone on the
      rows committed now and on what it read since its lock, would do. */
  lemma CommitRefines(s: Sys, tid: Uuid)
    requires Inv(s) && Committing(s, tid)
    ensures var Tx(op, ph, since) := s.txs[tid];
            Explained(s.db, ApplyWrites(s, tid).db, Moments(s), since, op, ph.d.outcome)
  {
    assert TxOk(s, tid);
    var Tx(op, ph, since) := s.txs[tid];
    var c, now, at :|
      AsRead(Moments(s), since, op.org, CustomerOf(s.db, op), c, now, at) && Decide(s.db, op, c, now) == ph.d;
    assert Serial(s.db, op, c, now) == (ApplyWrites(s, tid).db, ph.d.outcome);
  }

  /** A new invoice is unpaid, and in nobody's way. */
  lemma CreateKeepsSafe(db: Db, id: Uuid, row: InvoiceRow)
    requires Safe(db) && id !in db.invoices && FreshDraft(row)
    ensures var db' := db.(invoices := db.invoices[id := row]); Safe(db') && Grows(db, db')
  {
    var db' := db.(invoices := db.invoices[id := row]);
    GrowsReflexive(db);
    forall p | p in db'.payments ensures GoodPayment(db', p) && p.invoiceId != id { assert GoodPayment(db, p); }
    SumPaidNonNegative(db.payments, id);
  }

  lemma CreateKeepsTx(s: Sys, id: Uuid, row: InvoiceRow, t: Uuid)
    requires Inv(s) && id !in s.db.invoices && t in s.txs
    requires Grows(s.db, s.db.(invoices := s.db.invoices[id := row]))
    ensures TxOk(s.(db := s.db.(invoices := s.db.invoices[id := row])), t)
  {
    assert TxOk(s, t);
    var Tx(op, ph, since) := s.txs[t];
    var db' := s.db.(invoices := s.db.invoices[id := row]);
    if ph.Finished? {
      OutcomeOutlives(s.db, db', op, ph.outcome);
    } else if HoldsLock(ph) {
      SameViewKeepsPhase(s.db, db', Moments(s), since, op, ph);
    }
  }

  lemma CreateKeepsInv(s: Sys, id: Uuid, row: InvoiceRow)
    requires Inv(s) && id !in s.db.invoices && FreshDraft(row)
    ensures var s' := Next(s, CreateInvoice(id, row));
            Inv(s') && Grows(s.db, s'.db)
  {
    var s' := Next(s, CreateInvoice(id, row));
    CreateKeepsSafe(s.db, id, row);
    forall t | t in s'.txs ensures TxOk(s', t) { CreateKeepsTx(s, id, row, t); }
    forall l | l in s'.locks ensures LockOk(s', l) { assert LockOk(s, l); }
  }

  lemma BeginKeepsInv(s: Sys, tid: Uuid, op: Op)
    requires Inv(s)
    ensures Inv(Next(s, Begin(tid, op))) && Next(s, Begin(tid, op)).db == s.db
  {
    var s' := Next(s, Begin(tid, op));
    forall t | t in s'.txs ensures TxOk(s', t) {
      if t in s.txs {
        assert TxOk(s, t);
        SameTxStaysOk(s, s', t);
      }
    }
    forall l | l in s'.locks ensures LockOk(s', l) { assert LockOk(s, l); }
  }

  lemma CommitStepKeepsInv(s: Sys, a: Action)
    requires Inv(s) && (a.Commit? || a.CommitError?)
    ensures Inv(Next(s, a)) && Grows(s.db, Next(s, a).db)
  {
    GrowsReflexive(s.db);
    if Committing(s, a.tid) {
      if a.Commit? {
        CommitKeepsInv(s, a.tid, s.txs[a.tid].phase.d.outcome);
      } else if a.applied {
        CommitKeepsInv(s, a.tid, Unknown);
      } else {
        FinishKeepsInv(s, a.tid, Unknown);
      }
    }
  }

  lemma TurnKeepsInv(s: Sys, m: Moment)
    requires Inv(s)
    ensures Inv(Turn(s, m)) && Moments(s) <= Moments(Turn(s, m))
  {
    var s' := Turn(s, m);
    forall t | t in s'.txs ensures TxOk(s', t) {
      assert TxOk(s, t);
      var Tx(op, ph, since) := s.txs[t];
      if HoldsLock(ph) { LaterKeepsPhase(s.db, Moments(s), Moments(s'), since, op, ph); }
    }
    forall l | l in s'.locks ensures LockOk(s', l) { assert LockOk(s, l); }
  }

  /** Every action keeps the invariant, and the database only grows. */
  lemma NextKeepsInv(s: Sys, a: Action)
    requires Inv(s)
    ensures Inv(Next(s, a)) && Grows(s.db, Next(s, a).db)
  {
    GrowsReflexive(s.db);
    match a
    case Begin(tid, op) => BeginKeepsInv(s, tid, op);
    case Advance(tid) => if tid in s.txs { AdvanceKeepsInv(s, tid); }
    case Commit(_) => CommitStepKeepsInv(s, a);
    case CommitError(_, _) => CommitStepKeepsInv(s, a);
    case Fail(tid) => if tid in s.txs { FinishKeepsInv(s, tid, Failed); }
    case EditLive(live) => TurnKeepsInv(s, s.present.(live := live));
    case SetClock(now) => TurnKeepsInv(s, s.present.(now := now));
    case CreateInvoice(id, row) => if id !in s.db.invoices && FreshDraft(row) { CreateKeepsInv(s, id, row); }
  }

  /** How a call that ends with `out` may have changed the database. A call
      that failed changed nothing; one whose COMMIT failed did all or nothing;
      any other did, and answered, what it would have done running alone on
      what it read since it took its lock. */
  ghost predicate TookEffect(db: Db, db': Db, ms: seq<Moment>, since: nat, op: Op, out: Outcome) {
    match out
    case Failed => db' == db
    case Unknown => db' == db || exists told :: Explained(db, db', ms, since, op, told)
    case _ => Explained(db, db', ms, since, op, out)
  }

  lemma AdvanceLinearizable(s: Sys, tid: Uuid)
    requires Inv(s) && tid in s.txs && !s.txs[tid].phase.Finished?
    requires DoAdvance(s, tid).txs[tid].phase.Finished?
    ensures var Tx(op, ph, since) := DoAdvance(s, tid).txs[tid];
            TookEffect(s.db, DoAdvance(s, tid).db, Moments(s), since, op, ph.outcome)
  {
    var Tx(op, ph, since) := s.txs[tid];
    assert TxOk(s, tid);
    if ph.Begun? {
      AloneExplained(s.db, Moments(s), since, op, InvoiceNotFound);
    } else {
      StatementRefines(s.db, Moments(s), since, op, ph);
    }
  }

  /** A refusal that depends on no live record. */
  lemma AloneExplained(db: Db, ms: seq<Moment>, since: nat, op: Op, e: Error)
    requires since < |ms|
    requires forall c, now :: Decide(db, op, c, now) == Refuse(e)
    ensures Explained(db, db, ms, since, op, Refused(e))
  {
    var m, k := ms[|ms| - 1], CustomerOf(db, op);
    var c := Fill(NO_CAPTURE, 0, m, op.org, k);
    var at := FillIsRead(ms, since, op.org, k, NO_CAPTURE, []);
    assert Decide(db, op, c, m.now) == Refuse(e);
    assert Serial(db, op, c, m.now) == (db, Refused(e));
  }

  /** A COMMIT ends the call, with what it decided or with an error. */
  lemma CommitEnds(s: Sys, a: Action)
    requires Inv(s) && (a.Commit? || a.CommitError?) && Committing(s, a.tid)
    ensures var Tx(op, ph, since) := Next(s, a).txs[a.tid];
            ph.Finished? && TookEffect(s.db, Next(s, a).db, Moments(s), since, op, ph.outcome)
  {
    CommitRefines(s, a.tid);
    var Tx(op, ph, since) := s.txs[a.tid];
    CommitLeaves(s, a);
    ExplainedIsEffect(s.db, ApplyWrites(s, a.tid).db, Moments(s), since, op, ph.d.outcome);
  }

  lemma CommitLeaves(s: Sys, a: Action)
    requires (a.Commit? || a.CommitError?) && Committing(s, a.tid)
    ensures var t := s.txs[a.tid];
            && Next(s, a).txs[a.tid] == t.(phase := Finished(if a.Commit? then t.phase.d.outcome else Unknown))
            && Next(s, a).db == (if a.Commit? || a.applied then ApplyWrites(s, a.tid).db else s.db)
  {
  }

  lemma ExplainedIsEffect(db: Db, db': Db, ms: seq<Moment>, since: nat, op: Op, out: Outcome)
    requires Explained(db, db', ms, since, op, out)
    ensures TookEffect(db, db', ms, since, op, Unknown) && TookEffect(db, db, ms, since, op, Unknown)
    ensures TookEffect(db, db', ms, since, op, out)
  {
    if out.Failed? { NeverFailsSerially(db, db', ms, since, op); }
  }

  lemma NeverFailsSerially(db: Db, db': Db, ms: seq<Moment>, since: nat, op: Op)
    requires Explained(db, db', ms, since, op, Failed)
    ensures db' == db
  {
    var c, now, at :|
      AsRead(ms, since, op.org, CustomerOf(db, op), c, now, at) && Serial(db, op, c, now) == (db', Failed);
  }

  /** Only its own statements end a call. */
  lemma OwnStepEnds(s: Sys, a: Action, tid: Uuid)
    requires tid in Next(s, a).txs && Next(s, a).txs[tid].phase.Finished?
    requires tid in s.txs ==> !s.txs[tid].phase.Finished?
    ensures (a.Begin? || a.Advance? || a.Commit? || a.CommitError? || a.Fail?) && a.tid == tid
    ensures a.Begin? <==> tid !in s.txs
    ensures a.Commit? || a.CommitError? ==> Committing(s, tid)
  {
  }

  /** The step at which a call ends is the moment it takes effect: it answers,
      and leaves the database, exactly as if it had run alone there, on live
      records and a clock it read, in order, since it took its lock. */
  lemma Linearizable(s: Sys, a: Action, tid: Uuid)
    requires Inv(s) && tid in Next(s, a).txs && Next(s, a).txs[tid].phase.Finished?
    requires tid in s.txs ==> !s.txs[tid].phase.Finished?
    ensures var Tx(op, ph, since) := Next(s, a).txs[tid];
            TookEffect(s.db, Next(s, a).db, Moments(s), since, op, ph.outcome)
  {
    OwnStepEnds(s, a, tid);
    if a.Begin? {
      AloneExplained(s.db, Moments(s), |s.past|, a.op, Precheck(a.op).value);
    } else if a.Advance? {
      AdvanceLinearizable(s, tid);
    } else if a.Commit? || a.CommitError? {
      CommitEnds(s, a);
    }
  }

  /** Only a call that ends, or a new invoice, changes the database. */
  lemma OnlyEndingsWrite(s: Sys, a: Action)
    requires Next(s, a).db != s.db
    ensures a.CreateInvoice?
         || ((a.Commit? || a.CommitError?) && Committing(s, a.tid) && Next(s, a).txs[a.tid].phase.Finished?)
  {
  }

  lemma {:induction false} RunKeepsInv(s: Sys, actions: seq<Action>)
    requires Inv(s)
    ensures Inv(Run(s, actions)) && Grows(s.db, Run(s, actions).db)
    decreases |actions|
  {
    GrowsReflexive(s.db);
    if actions != [] {
      NextKeepsInv(s, actions[0]);
      RunKeepsInv(Next(s, actions[0]), actions[1..]);
      GrowsTransitive(s.db, Next(s, actions[0]).db, Run(s, actions).db);
    }
  }
}
