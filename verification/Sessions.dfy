/**
 The session clean-up worker: bounded DELETE batches until a short batch, beside
 logins and logouts. Which eligible rows a batch takes is the database's choice,
 so it is left open.
 */
module Sessions {
  import opened Finite
  import opened Text
  import opened Invoices

  datatype Session = Session(expiresAt: Time, revokedAt: Option<Time>)

  type Table = map<Uuid, Session>

  predicate IsValid(s: Session, now: Time) { s.revokedAt.None? && now < s.expiresAt }

  /** The WHERE clause of DeleteExpired. */
  predicate Eligible(s: Session, now: Time) { s.expiresAt <= now || s.revokedAt.Some? }

  function EligibleIds(rows: Table, now: Time): set<Uuid> {
    set id | id in rows && Eligible(rows[id], now)
  }

  /** No reading from t on will accept the session. */
  ghost predicate NeverValidFrom(s: Session, t: Time) {
    forall u :: t <= u ==> !IsValid(s, u)
  }

  // ---- Runs of the table -------------------------------------------------

  datatype Event =
    | Login(id: Uuid, session: Session)
    | Logout(id: Uuid, at: Time)
    | Batch(now: Time, chosen: set<Uuid>)

  function Next(rows: Table, e: Event): Table {
    match e
    case Login(id, s) => if id in rows then rows else rows[id := s]
    case Logout(id, at) => if id in rows then rows[id := rows[id].(revokedAt := Some(at))] else rows
    case Batch(now, chosen) => rows - chosen
  }

  /** All events, the last one last. */
  function Run(rows: Table, events: seq<Event>): Table {
    if events == [] then rows else Next(Run(rows, events[..|events| - 1]), events[|events| - 1])
  }

  lemma {:induction false} RunAppend(rows: Table, xs: seq<Event>, ys: seq<Event>)
    ensures Run(rows, xs + ys) == Run(Run(rows, xs), ys)
  {
    if ys == [] {
      assert xs + ys == xs;
    } else {
      assert (xs + ys)[..|xs + ys| - 1] == xs + ys[..|ys| - 1];
      RunAppend(rows, xs, ys[..|ys| - 1]);
    }
  }

  /** Every batch is made at a reading in range and takes only rows eligible
      then. */
  ghost predicate Honest(rows: Table, events: seq<Event>, start: Time, last: Time) {
    forall i :: 0 <= i < |events| && events[i].Batch? ==>
      start <= events[i].now <= last && events[i].chosen <= EligibleIds(Run(rows, events[..i]), events[i].now)
  }

  lemma HonestAppend(rows: Table, events: seq<Event>, start: Time, last: Time, e: Event, now: Time)
    requires Honest(rows, events, start, last) && last <= now
    requires e.Batch? ==> start <= e.now <= now && e.chosen <= EligibleIds(Run(rows, events), e.now)
    ensures Honest(rows, events + [e], start, now)
    ensures Run(rows, events + [e]) == Next(Run(rows, events), e)
  {
    var all := events + [e];
    assert all[..|events|] == events;
    forall i | 0 <= i < |all| && all[i].Batch?
      ensures start <= all[i].now <= now && all[i].chosen <= EligibleIds(Run(rows, all[..i]), all[i].now)
    {
      if i < |events| { assert all[..i] == events[..i] && all[i] == events[i]; }
    }
  }

  /** What an event removes is a session that no later reading would accept. */
  lemma RemovedIsDead(rows: Table, events: seq<Event>, start: Time, last: Time, i: nat, id: Uuid)
    requires Honest(rows, events, start, last) && i < |events|
    requires id in Run(rows, events[..i]) && id !in Run(rows, events[..i + 1])
    ensures events[i].Batch? && NeverValidFrom(Run(rows, events[..i])[id], events[i].now)
  {
    assert events[..i + 1][..i] == events[..i] && events[..i + 1][i] == events[i];
    assert Run(rows, events[..i + 1]) == Next(Run(rows, events[..i]), events[i]);
    if events[i].Batch? { assert id in EligibleIds(Run(rows, events[..i]), events[i].now); }
  }

  predicate LoggedOut(events: seq<Event>, id: Uuid) {
    exists i :: 0 <= i < |events| && events[i].Logout? && events[i].id == id
  }

  /** However batches, logins and logouts interleave, a stored session that is
      still valid and was not logged out is kept as it was. */
  lemma {:induction false} ValidSessionsSurvive(rows: Table, events: seq<Event>, start: Time, last: Time, id: Uuid)
    requires Honest(rows, events, start, last)
    requires id in rows && IsValid(rows[id], last) && !LoggedOut(events, id)
    ensures id in Run(rows, events) && Run(rows, events)[id] == rows[id]
  {
    if events != [] {
      var n := |events| - 1;
      var front := events[..n];
      forall i | 0 <= i < n && front[i].Batch?
        ensures start <= front[i].now <= last && front[i].chosen <= EligibleIds(Run(rows, front[..i]), front[i].now)
      {
        assert events[i].Batch? && events[..i] == front[..i];
      }
      assert forall i :: 0 <= i < n ==> front[i] == events[i];
      ValidSessionsSurvive(rows, front, start, last, id);
    }
  }

  // ---- The table ---------------------------------------------------------

  class SessionTable {
    var rows: Table

    /** Removes as many eligible rows as there are, up to the limit. */
    method DeleteExpired(now: Time, limit: nat) returns (deleted: nat)
      modifies this
      ensures var chosen := old(rows).Keys - rows.Keys;
              && chosen <= EligibleIds(old(rows), now)
              && rows == old(rows) - chosen
              && deleted == |chosen| == Min(limit, |EligibleIds(old(rows), now)|)
    {
      var chosen := Take(EligibleIds(rows, now), limit);
      Removal(rows, chosen);
      rows := rows - chosen;
      deleted := |chosen|;
    }

    method Revoke(id: Uuid, now: Time) returns (found: bool)
      modifies this
      ensures found == (id in old(rows))
      ensures rows == Next(old(rows), Logout(id, now))
      ensures found ==> !IsValid(rows[id], now)
    {
      found := id in rows;
      if found { rows := rows[id := rows[id].(revokedAt := Some(now))]; }
    }

    /** Whatever else happens to the table: logouts, and some of the `logins`
        that are still to come. */
    method Others(logins: nat) returns (left: nat, events: seq<Event>)
      modifies this
      ensures rows == Run(old(rows), events) && Outside(events)
      ensures |rows| + left <= |old(rows)| + logins
    {
      events := *;
      if !Outside(events) || Logins(events) > logins { events := []; }
      left := logins - Logins(events);
      GrowsByLogins(rows, events);
      rows := Run(rows, events);
    }
  }

  lemma Removal(rows: Table, chosen: set<Uuid>)
    requires chosen <= rows.Keys
    ensures (rows - chosen).Keys == rows.Keys - chosen
    ensures rows.Keys - (rows - chosen).Keys == chosen
  {
  }

  /** LIMIT: some of the candidates, all of them if there are few enough. */
  method Take(candidates: set<Uuid>, limit: nat) returns (chosen: set<Uuid>)
    ensures chosen <= candidates && |chosen| == Min(limit, |candidates|)
  {
    chosen := {};
    SubsetSize(chosen, candidates);
    while |chosen| < limit && chosen != candidates
      invariant chosen <= candidates && |chosen| <= limit
      decreases |candidates| - |chosen|
    {
      assert candidates - chosen != {};
      var id :| id in candidates - chosen;
      chosen := chosen + {id};
      SubsetSize(chosen, candidates);
    }
    SubsetSize(chosen, candidates);
  }

  predicate Outside(events: seq<Event>) {
    forall i :: 0 <= i < |events| ==> !events[i].Batch?
  }

  function Logins(events: seq<Event>): nat {
    if events == [] then 0
    else Logins(events[..|events| - 1]) + if events[|events| - 1].Login? then 1 else 0
  }

  lemma {:induction false} GrowsByLogins(rows: Table, events: seq<Event>)
    requires Outside(events)
    ensures |Run(rows, events)| <= |rows| + Logins(events)
  {
    if events != [] {
      var n := |events| - 1;
      GrowsByLogins(rows, events[..n]);
      var before := Run(rows, events[..n]);
      match events[n]
      case Login(id, s) => if id !in before { assert before[id := s].Keys == before.Keys + {id}; }
      case Logout(id, at) =>
        assert Next(before, events[n]).Keys == before.Keys;
        SubmapSize(Next(before, events[n]), before);
      case Batch(_, _) => assert false;
    }
  }

  // ---- One iteration -----------------------------------------------------

  /** How an iteration ends. */
  datatype Exit = Drained | Cancelled | Failed

  /** runIteration. Every time.Now() is a new reading, never earlier than the
      last; a batch may fail and the context may be cancelled at any point.
      Logins, any number of them but not for ever, and logouts happen between
      the batches. `log` is what happened to the table, in order. */
  method RunIteration(table: SessionTable, batchSize: nat, start: Time, logins: nat)
    returns (exit: Exit, last: Time, ghost log: seq<Event>)
    requires batchSize > 0
    modifies table
    ensures last >= start
    ensures table.rows == Run(old(table.rows), log) && Honest(old(table.rows), log, start, last)
    ensures exit.Drained? ==> forall id :: id in table.rows ==> IsValid(table.rows[id], last)
  {
    ghost var rows := table.rows;
    var left := logins;
    last, log := start, [];
    while true
      invariant last >= start
      invariant table.rows == Run(rows, log) && Honest(rows, log, start, last)
      decreases |table.rows| + left
    {
      var now: Time :| now >= last;
      ghost var before := table.rows;
      HonestLater(rows, log, start, last, now);
      last := now;
      var fails: bool := *;
      if fails { return Failed, last, log; }
      var deleted := table.DeleteExpired(now, batchSize);
      ghost var chosen := before.Keys - table.rows.Keys;
      HonestAppend(rows, log, start, last, Batch(now, chosen), now);
      log := log + [Batch(now, chosen)];
      if deleted < batchSize {
        NoneLeft(before, table.rows, now, chosen);
        return Drained, last, log;
      }
      var cancelled: bool := *;
      if cancelled { return Exit.Cancelled, last, log; }
      Shrinks(before, table.rows, chosen);
      var events: seq<Event>;
      left, events := table.Others(left);
      HonestOutside(rows, log, start, last, events);
      log := log + events;
    }
  }

  lemma HonestLater(rows: Table, events: seq<Event>, start: Time, last: Time, now: Time)
    requires Honest(rows, events, start, last) && last <= now
    ensures Honest(rows, events, start, now)
  {
  }

  lemma HonestOutside(rows: Table, events: seq<Event>, start: Time, last: Time, more: seq<Event>)
    requires Honest(rows, events, start, last) && Outside(more)
    ensures Honest(rows, events + more, start, last)
    ensures Run(rows, events + more) == Run(Run(rows, events), more)
  {
    RunAppend(rows, events, more);
    var all := events + more;
    forall i | 0 <= i < |all| && all[i].Batch?
      ensures start <= all[i].now <= last && all[i].chosen <= EligibleIds(Run(rows, all[..i]), all[i].now)
    {
      assert i < |events| && all[..i] == events[..i] && all[i] == events[i];
    }
  }

  /** A batch that took every eligible row leaves only valid ones. */
  lemma NoneLeft(before: Table, after: Table, now: Time, chosen: set<Uuid>)
    requires chosen <= EligibleIds(before, now) && |chosen| == |EligibleIds(before, now)|
    requires after == before - chosen
    ensures forall id :: id in after ==> IsValid(after[id], now)
  {
    SubsetSize(chosen, EligibleIds(before, now));
  }

  lemma Shrinks(before: Table, after: Table, chosen: set<Uuid>)
    requires chosen <= before.Keys && chosen != {} && after == before - chosen
    ensures |after| < |before|
  {
    var x :| x in chosen;
    assert x in before.Keys && x !in after.Keys;
    SubmapSize(after, before);
  }
}
