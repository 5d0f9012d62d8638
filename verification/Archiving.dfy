/**
 Customer archiving beside the money path. Archiving is one UPDATE guarded by
 the customer's open invoices; creating an invoice checks that the customer is
 active before its transaction begins and inserts the row later, so the two can
 interleave. The money transactions run interleaved as in Protocol.
 */
module Archiving {
  import opened Text
  import opened Invoices
  import P = Protocol
  import Store

  datatype CustomerStatus = Active | Inactive | Archived

  datatype CustomerRow = CustomerRow(organisationId: Uuid, status: CustomerStatus)

  datatype CustomerError = CustomerNotFound | CustomerHasOpenInvoices

  /** A Create that has passed its check of the customer. */
  datatype Checked = Checked(org: Uuid, customerId: Uuid)

  datatype World = World(sys: P.Sys, customers: map<Uuid, CustomerRow>, creating: map<Uuid, Checked>)

  datatype Action =
    | Money(step: P.Action)
    | SetStatus(org: Uuid, customerId: Uuid, status: CustomerStatus)
    | CheckCustomer(call: Uuid, org: Uuid, customerId: Uuid)
    | CommitCreate(call: Uuid, id: Uuid, row: InvoiceRow)
      // Both halves of Create with nothing in between.
    | Create(id: Uuid, row: InvoiceRow)

  predicate IsOpen(row: InvoiceRow) { row.status in {Draft, Sent, Overdue} }

  predicate OpenFor(row: InvoiceRow, org: Uuid, customerId: Uuid) {
    row.organisationId == org && row.customerId == customerId && IsOpen(row)
  }

  /** The EXISTS subquery of the archiving UPDATE. */
  predicate HasOpenInvoice(invoices: map<Uuid, InvoiceRow>, org: Uuid, customerId: Uuid) {
    exists id :: id in invoices && OpenFor(invoices[id], org, customerId)
  }

  /** Some invoice of the customer is still to be sent or settled. */
  predicate Unsettled(invoices: map<Uuid, InvoiceRow>, org: Uuid, k: Uuid) {
    exists i :: i in invoices && invoices[i].organisationId == org && invoices[i].customerId == k
                && invoices[i].status in {Draft, Sent, Overdue}
  }

  predicate Known(customers: map<Uuid, CustomerRow>, org: Uuid, id: Uuid) {
    id in customers && customers[id].organisationId == org
  }

  predicate IsActive(customers: map<Uuid, CustomerRow>, org: Uuid, id: Uuid) {
    Known(customers, org, id) && customers[id].status == Active
  }

  predicate IsArchived(customers: map<Uuid, CustomerRow>, org: Uuid, id: Uuid) {
    Known(customers, org, id) && customers[id].status == Archived
  }

  /** The customers table, as CustomerService.SetStatus changes it. */
  class CustomerTable {
    var rows: map<Uuid, CustomerRow>

    /** One guarded UPDATE; a second lookup only names the error. */
    method UpdateStatus(invoices: map<Uuid, InvoiceRow>, org: Uuid, id: Uuid, status: CustomerStatus)
      returns (err: Option<CustomerError>)
      modifies this
      ensures err == Some(CustomerNotFound) <==> !(id in old(rows) && old(rows)[id].organisationId == org)
      ensures err == Some(CustomerHasOpenInvoices) <==>
                && id in old(rows) && old(rows)[id].organisationId == org
                && status == Archived && Unsettled(invoices, org, id)
      ensures rows == StatusAfter(old(rows), invoices, org, id, status)
      ensures rows == if err.None? then old(rows)[id := old(rows)[id].(status := status)] else old(rows)
    {
      var matches := id in rows && rows[id].organisationId == org
                     && (status != Archived || !HasOpenInvoice(invoices, org, id));
      if matches {
        rows := rows[id := rows[id].(status := status)];
        return None;
      }
      if !Known(rows, org, id) { return Some(CustomerNotFound); }
      return Some(CustomerHasOpenInvoices);
    }
  }

  function StatusAfter(customers: map<Uuid, CustomerRow>, invoices: map<Uuid, InvoiceRow>,
                       org: Uuid, id: Uuid, status: CustomerStatus): map<Uuid, CustomerRow>
  {
    if Known(customers, org, id) && (status == Archived ==> !HasOpenInvoice(invoices, org, id))
    then customers[id := customers[id].(status := status)]
    else customers
  }

  predicate MayCreate(w: World, call: Uuid, row: InvoiceRow) {
    call in w.creating && w.creating[call] == Checked(row.organisationId, row.customerId)
  }

  function Insert(w: World, id: Uuid, row: InvoiceRow): World {
    w.(sys := P.Next(w.sys, P.CreateInvoice(id, row)))
  }

  function Next(w: World, a: Action): World {
    match a
    case Money(step) => if step.CreateInvoice? then w else w.(sys := P.Next(w.sys, step))
    case SetStatus(org, id, status) =>
      w.(customers := StatusAfter(w.customers, w.sys.db.invoices, org, id, status))
    case CheckCustomer(call, org, id) =>
      if call !in w.creating && IsActive(w.customers, org, id)
      then w.(creating := w.creating[call := Checked(org, id)]) else w
    case CommitCreate(call, id, row) =>
      if MayCreate(w, call, row) then Insert(w.(creating := w.creating - {call}), id, row) else w
    case Create(id, row) =>
      if IsActive(w.customers, row.organisationId, row.customerId) then Insert(w, id, row) else w
  }

  /** All actions, the last one last. */
  function Run(w: World, actions: seq<Action>): World {
    if actions == [] then w else Next(Run(w, actions[..|actions| - 1]), actions[|actions| - 1])
  }

  predicate CustomerIsArchived(w: World, row: InvoiceRow) {
    IsArchived(w.customers, row.organisationId, row.customerId)
  }

  /** Every invoice of an archived customer is Paid or Cancelled. */
  ghost predicate ArchivedHaveNoneOpen(w: World) {
    forall id :: id in w.sys.db.invoices ==> ClosedIfArchived(w.customers, w.sys.db.invoices[id])
  }

  predicate ClosedIfArchived(customers: map<Uuid, CustomerRow>, row: InvoiceRow) {
    row.customerId in customers && customers[row.customerId] == CustomerRow(row.organisationId, Archived) ==>
      row.status in {Paid, Cancelled}
  }

  /** The one step that can break the rule: an insert for a customer archived
      since the check. */
  predicate InsertsForArchived(w: World, a: Action) {
    && a.CommitCreate?
    && MayCreate(w, a.call, a.row)
    && a.id !in w.sys.db.invoices && P.FreshDraft(a.row)
    && CustomerIsArchived(w, a.row)
  }

  /** No other step adds an invoice. */
  lemma MoneyAddsNoInvoice(s: P.Sys, step: P.Action)
    requires P.Inv(s) && !step.CreateInvoice?
    ensures P.Next(s, step).db.invoices.Keys == s.db.invoices.Keys
  {
    if (step.Commit? || step.CommitError?) && P.Committing(s, step.tid) { assert P.TxOk(s, step.tid); }
  }

  lemma MoneyKeepsNoneOpen(w: World, step: P.Action)
    requires P.Inv(w.sys) && ArchivedHaveNoneOpen(w) && !step.CreateInvoice?
    ensures ArchivedHaveNoneOpen(Next(w, Money(step)))
  {
    P.NextKeepsInv(w.sys, step);
    MoneyAddsNoInvoice(w.sys, step);
    var w' := Next(w, Money(step));
    forall id | id in w'.sys.db.invoices ensures ClosedIfArchived(w'.customers, w'.sys.db.invoices[id]) {
      assert ClosedIfArchived(w.customers, w.sys.db.invoices[id]);
      assert Evolves(w.sys.db.invoices[id], w'.sys.db.invoices[id]);
    }
  }

  lemma SetStatusKeepsNoneOpen(w: World, org: Uuid, customerId: Uuid, status: CustomerStatus)
    requires ArchivedHaveNoneOpen(w)
    ensures ArchivedHaveNoneOpen(Next(w, SetStatus(org, customerId, status)))
  {
    var w' := Next(w, SetStatus(org, customerId, status));
    forall id | id in w.sys.db.invoices ensures ClosedIfArchived(w'.customers, w.sys.db.invoices[id]) {
      var row := w.sys.db.invoices[id];
      assert ClosedIfArchived(w.customers, row);
      assert row.status.Paid? || row.status.Cancelled? || IsOpen(row) by {
        match row.status { case Draft => case Sent => case Paid => case Overdue => case Cancelled => }
      }
      if OpenFor(row, org, customerId) {
        assert HasOpenInvoice(w.sys.db.invoices, org, customerId);
      }
    }
  }

  lemma CommitCreateKeepsNoneOpen(w: World, call: Uuid, id: Uuid, row: InvoiceRow)
    requires ArchivedHaveNoneOpen(w)
    ensures ArchivedHaveNoneOpen(Next(w, CommitCreate(call, id, row)))
        <==> !InsertsForArchived(w, CommitCreate(call, id, row))
  {
    var w' := Next(w, CommitCreate(call, id, row));
    if InsertsForArchived(w, CommitCreate(call, id, row)) {
      assert w'.sys.db.invoices[id] == row && CustomerIsArchived(w', row);
    }
  }

  /** Exactly which step breaks the rule, in any interleaving. */
  lemma StepKeepsNoneOpen(w: World, a: Action)
    requires P.Inv(w.sys) && ArchivedHaveNoneOpen(w)
    ensures P.Inv(Next(w, a).sys)
    ensures ArchivedHaveNoneOpen(Next(w, a)) <==> !InsertsForArchived(w, a)
  {
    match a
    case Money(step) =>
      if !step.CreateInvoice? {
        P.NextKeepsInv(w.sys, step);
        MoneyKeepsNoneOpen(w, step);
      }
    case SetStatus(org, id, status) => SetStatusKeepsNoneOpen(w, org, id, status);
    case CheckCustomer(_, _, _) =>
    case CommitCreate(call, id, row) =>
      P.NextKeepsInv(w.sys, P.CreateInvoice(id, row));
      CommitCreateKeepsNoneOpen(w, call, id, row);
    case Create(id, row) => P.NextKeepsInv(w.sys, P.CreateInvoice(id, row));
  }

  /** Over any run in which no insert comes late, and so over every serial run,
      archived customers have nothing open. */
  lemma {:induction false} RunKeepsNoneOpen(w: World, actions: seq<Action>)
    requires P.Inv(w.sys) && ArchivedHaveNoneOpen(w)
    requires forall i :: 0 <= i < |actions| ==> !InsertsForArchived(Run(w, actions[..i]), actions[i])
    ensures P.Inv(Run(w, actions).sys) && ArchivedHaveNoneOpen(Run(w, actions))
  {
    if actions != [] {
      var before, a := actions[..|actions| - 1], actions[|actions| - 1];
      forall i | 0 <= i < |before| ensures !InsertsForArchived(Run(w, before[..i]), before[i]) {
        assert before[..i] == actions[..i] && before[i] == actions[i];
      }
      RunKeepsNoneOpen(w, before);
      assert !InsertsForArchived(Run(w, before), a);
      StepKeepsNoneOpen(Run(w, before), a);
    }
  }

  lemma SerialRunsKeepNoneOpen(w: World, actions: seq<Action>)
    requires P.Inv(w.sys) && ArchivedHaveNoneOpen(w)
    requires forall a :: a in actions ==> !a.CommitCreate?
    ensures ArchivedHaveNoneOpen(Run(w, actions))
  {
    forall i | 0 <= i < |actions| ensures !InsertsForArchived(Run(w, actions[..i]), actions[i]) {
      assert actions[i] in actions;
    }
    RunKeepsNoneOpen(w, actions);
  }

  /** An invoice that appears in a serial run was added by one step, while its
      customer was active. */
  lemma {:induction false} OnlyActiveCustomersGain(w: World, actions: seq<Action>, id: Uuid) returns (i: nat)
    requires P.Inv(w.sys)
    requires forall a :: a in actions ==> !a.CommitCreate?
    requires id !in w.sys.db.invoices && id in Run(w, actions).sys.db.invoices
    ensures P.Inv(Run(w, actions).sys)
    ensures i < |actions| && id !in Run(w, actions[..i]).sys.db.invoices
    ensures var e := Run(w, actions[..i]);
            var row := Run(w, actions).sys.db.invoices[id];
            IsActive(e.customers, row.organisationId, row.customerId)
  {
    var before, a := actions[..|actions| - 1], actions[|actions| - 1];
    RunKeepsProtocol(w, before);
    var e := Run(w, before);
    assert a in actions;
    if id in e.sys.db.invoices {
      i := OnlyActiveCustomersGain(w, before, id);
      assert actions[..i] == before[..i];
      StepEvolves(e, a, id);
    } else {
      i := |before|;
      if a.Money? && !a.step.CreateInvoice? { MoneyAddsNoInvoice(e.sys, a.step); }
    }
    RunKeepsProtocol(w, actions);
  }

  lemma StepEvolves(w: World, a: Action, id: Uuid)
    requires P.Inv(w.sys) && id in w.sys.db.invoices
    ensures id in Next(w, a).sys.db.invoices
    ensures Evolves(w.sys.db.invoices[id], Next(w, a).sys.db.invoices[id])
  {
    Store.GrowsReflexive(w.sys.db);
    P.NextKeepsInv(w.sys, StepOf(a));
    assert Next(w, a).sys == w.sys || Next(w, a).sys == P.Next(w.sys, StepOf(a));
  }

  /** The step of the money path an action may make. */
  function StepOf(a: Action): P.Action {
    match a
    case Money(step) => step
    case CommitCreate(_, id, row) => P.CreateInvoice(id, row)
    case Create(id, row) => P.CreateInvoice(id, row)
    case _ => P.Fail(0)
  }

  lemma {:induction false} RunKeepsProtocol(w: World, actions: seq<Action>)
    requires P.Inv(w.sys)
    ensures P.Inv(Run(w, actions).sys)
  {
    if actions != [] {
      var before, a := actions[..|actions| - 1], actions[|actions| - 1];
      RunKeepsProtocol(w, before);
      var s := Run(w, before).sys;
      match a
      case Money(step) => P.NextKeepsInv(s, step);
      case CommitCreate(_, id, row) => P.NextKeepsInv(s, P.CreateInvoice(id, row));
      case Create(id, row) => P.NextKeepsInv(s, P.CreateInvoice(id, row));
      case _ =>
    }
  }

  /** The check before the transaction is not enough: a customer archived in
      between ends up with a Draft. Whatever the world, three steps do it. */
  lemma LateInsertBreaksTheRule(w: World, call: Uuid, id: Uuid, row: InvoiceRow)
    requires P.FreshDraft(row) && id !in w.sys.db.invoices && call !in w.creating
    requires IsActive(w.customers, row.organisationId, row.customerId)
    requires !HasOpenInvoice(w.sys.db.invoices, row.organisationId, row.customerId)
    ensures var steps := [CheckCustomer(call, row.organisationId, row.customerId),
                          SetStatus(row.organisationId, row.customerId, Archived),
                          CommitCreate(call, id, row)];
            !ArchivedHaveNoneOpen(Run(w, steps))
  {
    var a, b, c := CheckCustomer(call, row.organisationId, row.customerId),
                   SetStatus(row.organisationId, row.customerId, Archived),
                   CommitCreate(call, id, row);
    RunThree(w, a, b, c);
    var e := Next(Next(Next(w, a), b), c);
    assert e.sys.db.invoices[id] == row && CustomerIsArchived(e, row);
  }

  lemma RunThree(w: World, a: Action, b: Action, c: Action)
    ensures Run(w, [a, b, c]) == Next(Next(Next(w, a), b), c)
  {
    assert [a, b, c][..2] == [a, b] && [a, b][..1] == [a] && [a][..0] == [];
    assert Run(w, [a]) == Next(w, a);
    assert Run(w, [a, b]) == Next(Next(w, a), b);
  }

  /** Create is its two halves with nothing in between, and inserts the invoice
      exactly for an active customer of the organisation. */
  lemma CreateIsBothHalves(w: World, call: Uuid, id: Uuid, row: InvoiceRow)
    requires call !in w.creating && id !in w.sys.db.invoices && row.status == Draft && row.total >= 0
    requires row.sentAt == None && row.cancelledAt == None && row.party == NO_PARTY && row.template == None
    ensures var k := row.customerId;
            var active := k in w.customers && w.customers[k] == CustomerRow(row.organisationId, Active);
            && Next(w, Create(id, row)).customers == w.customers
            && Next(w, Create(id, row)).sys.db.invoices
                 == (if active then w.sys.db.invoices[id := row] else w.sys.db.invoices)
            && (call in Next(w, CheckCustomer(call, row.organisationId, k)).creating <==> active)
            && (active ==> Next(Next(w, CheckCustomer(call, row.organisationId, k)), CommitCreate(call, id, row))
                             == Next(w, Create(id, row)))
  {
    assert forall c: Checked {:trigger w.creating[call := c]} :: w.creating[call := c] - {call} == w.creating;
  }

  /** A change of status is blocked only for archiving, and only by an open
      invoice; it changes nothing but that status. */
  lemma StatusChanges(w: World, org: Uuid, k: Uuid, status: CustomerStatus)
    ensures var w' := Next(w, SetStatus(org, k, status));
            && w'.sys == w.sys && w'.creating == w.creating
            && w'.customers ==
                 if k in w.customers && w.customers[k].organisationId == org
                    && !(status == Archived && Unsettled(w.sys.db.invoices, org, k))
                 then w.customers[k := w.customers[k].(status := status)] else w.customers
  {
  }
}
