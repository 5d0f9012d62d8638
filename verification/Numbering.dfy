/**
 Invoice numbers, allocated by concurrent Create transactions of one
 organisation under the settings row's FOR UPDATE lock, beside PATCHes of the
 same row. As in the money path, an action is one statement, an action that is
 not enabled changes nothing, and a sequence of actions is an interleaving.
 The database keeps printed numbers unique within the organisation.
 */
module Numbering {
  import Runs
  import opened Text
  import opened Versioned
  import S = Settings

  datatype Issued = Issued(counter: nat, prefix: string, printed: string)

  datatype Create =
    | Began
    | HasSettings(fields: S.Fields, number: nat)
    | CounterWritten(fields: S.Fields, number: nat)
    | InvoiceWritten(inv: Issued)
    | LinesWritten(inv: Issued)
    | Done(result: CreateResult)

  datatype CreateResult = Created(inv: Issued) | NumberTaken | Failed | Unknown

  type SharedSettings = Shared<S.Fields, nat, S.Patch>
  type SettingsRow = Row<S.Fields, nat>

  /** The settings row (its side column is the last allocated number), the
      Creates in flight, the holder of the row's lock and the committed
      invoices in commit order. */
  datatype State = State(shared: SharedSettings, creates: map<Uuid, Create>, lock: Option<Uuid>, issued: seq<Issued>)

  datatype Action =
    | ReadStep(client: Uuid, expected: int, patch: S.Patch)
    | SwapStep(client: Uuid)
    | Begin(tid: Uuid)
    | Advance(tid: Uuid)
    | Commit(tid: Uuid)
    | CommitError(tid: Uuid, applied: bool)
    | Fail(tid: Uuid)

  function Number(prefix: string, n: nat): Issued {
    Issued(n, prefix, prefix + Decimal(n))
  }

  predicate IsTaken(issued: seq<Issued>, printed: string) {
    exists i :: 0 <= i < |issued| && issued[i].printed == printed
  }

  function Finish(s: State, tid: Uuid, r: CreateResult): State {
    s.(creates := s.creates[tid := Done(r)], lock := if s.lock == Some(tid) then None else s.lock)
  }

  function DoAdvance(s: State, tid: Uuid): State
    requires tid in s.creates
  {
    match s.creates[tid]
    case Began =>
      if s.lock.Some? then s
      else s.(creates := s.creates[tid := HasSettings(s.shared.row.fields, s.shared.row.side)], lock := Some(tid))
    case HasSettings(f, n) => s.(creates := s.creates[tid := CounterWritten(f, n + 1)])
    case CounterWritten(f, n) =>
      var inv := Number(f.invoicePrefix, n);
      if IsTaken(s.issued, inv.printed) then Finish(s, tid, NumberTaken)
      else s.(creates := s.creates[tid := InvoiceWritten(inv)])
    case InvoiceWritten(inv) => s.(creates := s.creates[tid := LinesWritten(inv)])
    case _ => s
  }

  predicate Committing(s: State, tid: Uuid) { tid in s.creates && s.creates[tid].LinesWritten? }

  function ApplyCreate(s: State, tid: Uuid): State
    requires Committing(s, tid)
  {
    var inv := s.creates[tid].inv;
    s.(shared := WriteSide(s.shared, inv.counter), issued := s.issued + [inv])
  }

  function MergePatch(f: S.Fields, p: S.Patch): Merge<S.Fields> { S.MergeSettings(f, p) }

  function Next(s: State, a: Action): State {
    match a
    case ReadStep(c, expected, p) => s.(shared := ReadAndMerge(MergePatch, s.shared, c, expected, p))
    case SwapStep(c) => if s.lock.Some? then s else s.(shared := CompareAndSwap(s.shared, c))
    case Begin(tid) => if tid in s.creates then s else s.(creates := s.creates[tid := Began])
    case Advance(tid) => if tid in s.creates then DoAdvance(s, tid) else s
    case Commit(tid) =>
      if Committing(s, tid) then Finish(ApplyCreate(s, tid), tid, Created(s.creates[tid].inv)) else s
    case CommitError(tid, applied) =>
      if Committing(s, tid) then Finish(if applied then ApplyCreate(s, tid) else s, tid, Unknown) else s
    case Fail(tid) =>
      if tid in s.creates && !s.creates[tid].Done? then Finish(s, tid, Failed) else s
  }

  function Run(s: State, actions: seq<Action>): State { Runs.Run(Next, s, actions) }

  // ---- The invariant -----------------------------------------------------

  /** The k-th committed invoice carries the counter k. */
  predicate GapFree(issued: seq<Issued>) {
    forall i :: 0 <= i < |issued| ==> issued[i] == Number(issued[i].prefix, i + 1)
  }

  predicate PrintedDistinct(issued: seq<Issued>) {
    forall i, j :: 0 <= i < j < |issued| ==> issued[i].printed != issued[j].printed
  }

  predicate HoldsLock(c: Create) { !c.Began? && !c.Done? }

  /** The next number the organisation would allocate. */
  function NextNumber(s: State): Issued {
    Number(s.shared.row.fields.invoicePrefix, s.shared.row.side + 1)
  }

  predicate CreateOk(s: State, tid: Uuid, c: Create) {
    match c
    case Began => true
    case Done(Created(inv)) => inv in s.issued
    case Done(_) => true
    case _ =>
      s.lock == Some(tid) &&
      match c
      case HasSettings(f, n) => f == s.shared.row.fields && n == s.shared.row.side
      case CounterWritten(f, n) => f == s.shared.row.fields && n == s.shared.row.side + 1
      case InvoiceWritten(inv) => inv == NextNumber(s) && !IsTaken(s.issued, inv.printed)
      case LinesWritten(inv) => inv == NextNumber(s) && !IsTaken(s.issued, inv.printed)
      case _ => true
  }

  ghost predicate Inv(start: SettingsRow, s: State) {
    && NothingLost(MergePatch, start, s.shared)
    && s.shared.row.side == |s.issued|
    && GapFree(s.issued) && PrintedDistinct(s.issued)
    && (s.lock.Some? ==> s.lock.value in s.creates && HoldsLock(s.creates[s.lock.value]))
    && (forall t :: t in s.creates ==> CreateOk(s, t, s.creates[t]))
  }

  lemma FinishKeepsInv(start: SettingsRow, s: State, tid: Uuid, r: CreateResult)
    requires Inv(start, s) && tid in s.creates && (r.Created? ==> r.inv in s.issued)
    ensures Inv(start, Finish(s, tid, r))
  {
    var s' := Finish(s, tid, r);
    forall t | t in s'.creates ensures CreateOk(s', t, s'.creates[t]) {
      if t != tid { assert CreateOk(s, t, s.creates[t]); }
    }
  }

  lemma AdvanceKeepsInv(start: SettingsRow, s: State, tid: Uuid)
    requires Inv(start, s) && tid in s.creates
    ensures Inv(start, DoAdvance(s, tid))
  {
    assert CreateOk(s, tid, s.creates[tid]);
    var s' := DoAdvance(s, tid);
    if s.creates[tid].CounterWritten? && s'.creates[tid].Done? {
      FinishKeepsInv(start, s, tid, NumberTaken);
    } else {
      forall t | t in s'.creates ensures CreateOk(s', t, s'.creates[t]) {
        if t != tid { assert CreateOk(s, t, s.creates[t]); }
      }
    }
  }

  /** A commit extends the numbering by exactly the next number. */
  lemma CommitKeepsInv(start: SettingsRow, s: State, tid: Uuid, r: CreateResult)
    requires Inv(start, s) && Committing(s, tid) && (r == Unknown || r == Created(s.creates[tid].inv))
    ensures Inv(start, Finish(ApplyCreate(s, tid), tid, r))
  {
    var inv := s.creates[tid].inv;
    assert CreateOk(s, tid, s.creates[tid]);
    SideKeeps(MergePatch, start, s.shared, inv.counter);
    var s' := Finish(ApplyCreate(s, tid), tid, r);
    assert inv in s'.issued by { assert s'.issued[|s.issued|] == inv; }
    forall t | t in s'.creates ensures CreateOk(s', t, s'.creates[t]) {
      if t != tid { assert CreateOk(s, t, s.creates[t]); }
    }
  }

  /** An edit waits for the lock, so no Create in flight has read the row. */
  lemma SwapKeepsInv(start: SettingsRow, s: State, c: Uuid)
    requires Inv(start, s)
    ensures Inv(start, Next(s, SwapStep(c))) && Next(s, SwapStep(c)).issued == s.issued
  {
    SwapKeeps(MergePatch, start, s.shared, c);
    var s' := Next(s, SwapStep(c));
    forall t | t in s'.creates ensures CreateOk(s', t, s'.creates[t]) { assert CreateOk(s, t, s.creates[t]); }
  }

  lemma BeginKeepsInv(start: SettingsRow, s: State, tid: Uuid)
    requires Inv(start, s)
    ensures Inv(start, Next(s, Begin(tid))) && Next(s, Begin(tid)).issued == s.issued
  {
    var s' := Next(s, Begin(tid));
    forall t | t in s'.creates ensures CreateOk(s', t, s'.creates[t]) {
      if t in s.creates { assert CreateOk(s, t, s.creates[t]); }
    }
  }

  lemma NextKeepsInv(start: SettingsRow, s: State, a: Action)
    requires Inv(start, s)
    ensures Inv(start, Next(s, a)) && s.issued <= Next(s, a).issued
  {
    match a
    case ReadStep(c, expected, p) =>
      ReadKeeps(MergePatch, start, s.shared, c, expected, p);
      OnlyClientsChange(start, s, Next(s, a));
    case SwapStep(c) => SwapKeepsInv(start, s, c);
    case Begin(tid) => BeginKeepsInv(start, s, tid);
    case Advance(tid) => if tid in s.creates { AdvanceKeepsInv(start, s, tid); }
    case Commit(tid) => if Committing(s, tid) { CommitKeepsInv(start, s, tid, Created(s.creates[tid].inv)); }
    case CommitError(tid, applied) =>
      if Committing(s, tid) {
        if applied { CommitKeepsInv(start, s, tid, Unknown); } else { FinishKeepsInv(start, s, tid, Unknown); }
      }
    case Fail(tid) => if tid in s.creates { FinishKeepsInv(start, s, tid, Failed); }
  }

  lemma OnlyClientsChange(start: SettingsRow, s: State, s': State)
    requires Inv(start, s) && s' == s.(shared := s'.shared) && s'.shared.row == s.shared.row
    requires NothingLost(MergePatch, start, s'.shared)
    ensures Inv(start, s')
  {
    forall t | t in s'.creates ensures CreateOk(s', t, s'.creates[t]) { assert CreateOk(s, t, s.creates[t]); }
  }

  lemma {:induction false} RunKeepsInv(start: SettingsRow, s: State, actions: seq<Action>)
    requires Inv(start, s)
    ensures Inv(start, Run(s, actions)) && s.issued <= Run(s, actions).issued
    decreases |actions|
  {
    if actions != [] {
      NextKeepsInv(start, s, actions[0]);
      RunKeepsInv(start, Next(s, actions[0]), actions[1..]);
    }
  }

  // ---- What holds of every run -------------------------------------------

  /** In every interleaving, whatever fails and whatever is edited meanwhile,
      the committed invoices are numbered 1..N in commit order and the row says
      N; no two are printed alike, nothing committed is renumbered, and no edit
      is lost. */
  lemma NumbersHaveNoGaps(start: SettingsRow, s: State, actions: seq<Action>)
    requires Inv(start, s)
    ensures var e := Run(s, actions);
            && e.shared.row.side == |e.issued|
            && (forall i :: 0 <= i < |e.issued| ==>
                  e.issued[i].counter == i + 1 && e.issued[i].printed == e.issued[i].prefix + Decimal(i + 1))
            && PrintedDistinct(e.issued)
            && s.issued <= e.issued
            && e.shared.row.version == start.version + |e.shared.accepted|
            && Fold(MergePatch, start.fields, e.shared.accepted) == Merged(e.shared.row.fields)
  {
    RunKeepsInv(start, s, actions);
    var e := Run(s, actions);
    forall i | 0 <= i < |e.issued|
      ensures e.issued[i].counter == i + 1 && e.issued[i].printed == e.issued[i].prefix + Decimal(i + 1)
    {
      assert e.issued[i] == Number(e.issued[i].prefix, i + 1);
    }
  }

  lemma SamePrefix(prefix: string, m: nat, n: nat)
    requires prefix + Decimal(m) == prefix + Decimal(n)
    ensures m == n
  {
    assert (prefix + Decimal(m))[|prefix|..] == Decimal(m) && (prefix + Decimal(n))[|prefix|..] == Decimal(n);
    DecimalInjective(m, n);
  }

  /** While the prefix is the one every invoice so far was given, the next
      printed number is new: the unique constraint never refuses it. */
  lemma NextIsNewUnderOnePrefix(start: SettingsRow, s: State)
    requires Inv(start, s)
    requires forall i :: 0 <= i < |s.issued| ==> s.issued[i].prefix == s.shared.row.fields.invoicePrefix
    ensures !IsTaken(s.issued, NextNumber(s).printed)
  {
    var next, prefix := NextNumber(s), s.shared.row.fields.invoicePrefix;
    forall i | 0 <= i < |s.issued| ensures s.issued[i].printed != next.printed {
      assert s.issued[i] == Number(s.issued[i].prefix, i + 1);
      if s.issued[i].printed == next.printed { SamePrefix(prefix, i + 1, |s.issued| + 1); }
    }
  }

  // ---- Where numbering stops ---------------------------------------------

  /** The printed form of the next number is already in use. */
  predicate Stuck(s: State) { IsTaken(s.issued, NextNumber(s).printed) }

  /** A Create that runs alone is committed exactly when the printed form of
      the next number is free. */
  lemma CreateAlone(start: SettingsRow, s: State, tid: Uuid)
    requires Inv(start, s) && s.lock == None && tid !in s.creates
    ensures var e := Run(s, CreateActions(tid));
            && e.lock == None && tid in e.creates
            && e.shared.row.fields == s.shared.row.fields && e.shared.clients == s.shared.clients
            && (if Stuck(s) then e.creates[tid] == Done(NumberTaken) && e.issued == s.issued
                else e.creates[tid] == Done(Created(NextNumber(s))) && e.issued == s.issued + [NextNumber(s)])
  {
    var a := Advance(tid);
    var s1 := Next(Next(s, Begin(tid)), a);
    assert s1.creates[tid] == HasSettings(s.shared.row.fields, s.shared.row.side);
    var s2 := Next(s1, a);
    var s3 := Next(s2, a);
    Runs.RunThree(Next, s, Begin(tid), a, a);
    Runs.RunThree(Next, s2, a, a, Commit(tid));
    Runs.RunAppend(Next, s, [Begin(tid), a, a], [a, a, Commit(tid)]);
  }

  function CreateActions(tid: Uuid): seq<Action> {
    [Begin(tid), Advance(tid), Advance(tid)] + [Advance(tid), Advance(tid), Commit(tid)]
  }

  lemma StuckStopsCommits(start: SettingsRow, s: State, tid: Uuid)
    requires Inv(start, s) && Stuck(s)
    ensures !Committing(s, tid)
  {
    if tid in s.creates { assert CreateOk(s, tid, s.creates[tid]); }
  }

  /** Once the next printed number is taken, no Create succeeds: the counter
      cannot pass it, in any interleaving, until an edit changes the prefix. */
  lemma {:induction false} StuckUntilEdited(start: SettingsRow, s: State, actions: seq<Action>)
    requires Inv(start, s) && Stuck(s)
    requires forall a :: a in actions ==> !a.SwapStep?
    ensures Run(s, actions).issued == s.issued && Stuck(Run(s, actions))
    decreases |actions|
  {
    if actions != [] {
      var a := actions[0];
      NextKeepsInv(start, s, a);
      if a.Commit? || a.CommitError? { StuckStopsCommits(start, s, a.tid); }
      assert Next(s, a).issued == s.issued && Next(s, a).shared.row == s.shared.row;
      StuckUntilEdited(start, Next(s, a), actions[1..]);
    }
  }

  /** A new organisation whose invoices are numbered A11, A12 and so on. */
  const FRESH_ROW: SettingsRow := Row(S.Fields("A1", "GBP", 30, []), 0, 1)
  const FRESH := State(Shared(FRESH_ROW, map[], []), map[], None, [])
  const SHORTEN := S.Patch(None, None, Some("A"), None)

  /** A11 was issued under the prefix "A1"; the prefix is "A" since, and n
      numbers are allocated. */
  ghost predicate Shortened(s: State, n: nat) {
    && Inv(FRESH_ROW, s) && s.lock == None
    && s.shared.row.fields.invoicePrefix == "A" && |s.issued| == n >= 1
    && s.issued[0].prefix == "A1"
    && (forall i :: 1 <= i < n ==> s.issued[i].prefix == "A")
    && (forall t :: t in s.creates ==> t < n)
  }

  lemma ElevenTwice()
    ensures Number("A1", 1).printed == Number("A", 11).printed == "A11"
  {
    assert Decimal(1) == "1";
    assert Decimal(11) == "1" + "1";
  }

  /** Before the eleventh, every number is still free. */
  lemma FreeBeforeEleven(s: State, n: nat)
    requires Shortened(s, n)
    ensures Stuck(s) <==> n == 10
  {
    ElevenTwice();
    assert s.issued[0] == Number("A1", 1);
    if n != 10 {
      forall i | 0 <= i < n ensures s.issued[i].printed != NextNumber(s).printed {
        assert s.issued[i] == Number(s.issued[i].prefix, i + 1);
        var m := if i == 0 then 11 else i + 1;
        assert s.issued[i].printed == "A" + Decimal(m);
        if s.issued[i].printed == NextNumber(s).printed { SamePrefix("A", m, n + 1); }
      }
    }
  }

  lemma {:induction false} CountToTen(s: State, n: nat) returns (actions: seq<Action>)
    requires Shortened(s, n) && n <= 10
    ensures Shortened(Run(s, actions), 10)
    decreases 10 - n
  {
    actions := [];
    if n < 10 {
      FreeBeforeEleven(s, n);
      CreateAlone(FRESH_ROW, s, n);
      RunKeepsInv(FRESH_ROW, s, CreateActions(n));
      var s' := Run(s, CreateActions(n));
      OnlyCreateChanges(s, n);
      var rest := CountToTen(s', n + 1);
      Runs.RunAppend(Next, s, CreateActions(n), rest);
      actions := CreateActions(n) + rest;
    }
  }

  lemma {:induction false} OnlyOneCreate(s: State, tid: Uuid, actions: seq<Action>)
    requires forall a :: a in actions ==> !a.ReadStep? && !a.SwapStep? && a.tid == tid
    ensures Run(s, actions).creates.Keys <= s.creates.Keys + {tid}
    decreases |actions|
  {
    if actions != [] { OnlyOneCreate(Next(s, actions[0]), tid, actions[1..]); }
  }

  lemma OnlyCreateChanges(s: State, tid: Uuid)
    ensures Run(s, CreateActions(tid)).creates.Keys <= s.creates.Keys + {tid}
  {
    OnlyOneCreate(s, tid, CreateActions(tid));
  }

  const EDIT := [ReadStep(0, 1, SHORTEN), SwapStep(0)]

  lemma PrefixA()
    ensures S.MergeSettings(FRESH_ROW.fields, SHORTEN) == Merged(S.Fields("A", "GBP", 30, []))
  {
    TrimUnchanged("A", IsSpace);
  }

  lemma ShortenPrefix(s: State)
    requires Inv(FRESH_ROW, s) && s.lock == None && s.shared.clients == map[]
    requires s.shared.row == FRESH_ROW.(side := 1) && |s.issued| == 1 && s.issued[0].prefix == "A1"
    requires s.creates.Keys <= {0}
    ensures Shortened(Run(s, EDIT), 1)
  {
    PrefixA();
    var s2 := Next(s, EDIT[0]);
    assert s2.shared.clients[0] == Ready(SHORTEN, 1, S.Fields("A", "GBP", 30, []));
    assert EDIT[1..] == [SwapStep(0)] && [SwapStep(0)][1..] == [];
    assert Run(s2, [SwapStep(0)]) == Next(s2, SwapStep(0));
    RunKeepsInv(FRESH_ROW, s, EDIT);
  }

  lemma FirstCreate() returns (s: State)
    ensures s == Run(FRESH, CreateActions(0))
    ensures Inv(FRESH_ROW, s) && s.lock == None && s.shared.clients == map[] && s.creates.Keys <= {0}
    ensures s.shared.row == FRESH_ROW.(side := 1) && |s.issued| == 1 && s.issued[0].prefix == "A1"
  {
    s := Run(FRESH, CreateActions(0));
    CreateAlone(FRESH_ROW, FRESH, 0);
    RunKeepsInv(FRESH_ROW, FRESH, CreateActions(0));
    OnlyCreateChanges(FRESH, 0);
    CreateLeavesVersion(FRESH, 0, CreateActions(0));
  }

  lemma {:induction false} CreateLeavesVersion(s: State, tid: Uuid, actions: seq<Action>)
    requires forall a :: a in actions ==> !a.ReadStep? && !a.SwapStep? && a.tid == tid
    ensures Run(s, actions).shared.row.version == s.shared.row.version
    decreases |actions|
  {
    if actions != [] { CreateLeavesVersion(Next(s, actions[0]), tid, actions[1..]); }
  }

  /** Numbering can stop: a run of ordinary calls, one of them a PATCH that
      shortens the prefix, after which no Create can ever succeed until the
      prefix is edited again. */
  lemma NumberingCanStop() returns (actions: seq<Action>)
    ensures Inv(FRESH_ROW, Run(FRESH, actions)) && Stuck(Run(FRESH, actions))
  {
    var s1 := FirstCreate();
    ShortenPrefix(s1);
    var rest := CountToTen(Run(s1, EDIT), 1);
    Runs.RunAppend(Next, s1, EDIT, rest);
    Runs.RunAppend(Next, FRESH, CreateActions(0), EDIT + rest);
    actions := CreateActions(0) + (EDIT + rest);
    FreeBeforeEleven(Run(FRESH, actions), 10);
  }

  /** What a Create that runs alone answers, and the row it leaves: the next
      number under the prefix in force, unless a committed invoice is printed
      like it. */
  lemma CreateAnswers(start: SettingsRow, s: State, tid: Uuid)
    requires Inv(start, s) && s.lock == None && tid !in s.creates
    ensures var e, n, prefix := Run(s, CreateActions(tid)), s.shared.row.side + 1, s.shared.row.fields.invoicePrefix;
            tid in e.creates
            && if exists i :: 0 <= i < |s.issued| && s.issued[i].printed == prefix + Decimal(n) then
                 e.creates[tid] == Done(NumberTaken) && e.issued == s.issued && e.shared.row == s.shared.row
               else
                 && e.creates[tid] == Done(Created(Issued(n, prefix, prefix + Decimal(n))))
                 && e.issued == s.issued + [Issued(n, prefix, prefix + Decimal(n))]
                 && e.shared.row == s.shared.row.(side := n)
  {
    CreateAlone(start, s, tid);
    CreateLeavesVersion(s, tid, CreateActions(tid));
    RunKeepsInv(start, s, CreateActions(tid));
  }

  /** A PATCH of the settings that nothing comes between, while no Create holds
      the row: it takes effect exactly when its version is the current one and
      its merge is accepted. */
  lemma PatchAlone(s: State, c: Uuid, expected: int, p: S.Patch)
    requires s.lock == None && c !in s.shared.clients
    ensures var e := Next(Next(s, ReadStep(c, expected, p)), SwapStep(c));
            var row, row' := s.shared.row, e.shared.row;
            && row'.side == row.side && e.issued == s.issued && c in e.shared.clients
            && if expected == row.version && S.MergeSettings(row.fields, p).Merged? then
                 && e.shared.clients[c] == Answered(p, Accepted(expected + 1)) && row'.version == expected + 1
                 && S.PatchShows(row.fields, p, row'.fields)
               else row' == row && e.shared.clients[c].Answered? && !e.shared.clients[c].result.Accepted?
  {
    S.MergeShows(s.shared.row.fields, p);
  }

  /** In any interleaving, the swap that answers Accepted(v) makes version v,
      and changes exactly what its patch says. */
  lemma AcceptedSwapShows(start: SettingsRow, s: State, c: Uuid, v: int)
    requires Inv(start, s) && s.lock == None && c in s.shared.clients && s.shared.clients[c].Ready?
    requires Next(s, SwapStep(c)).shared.clients[c] == Answered(s.shared.clients[c].patch, Accepted(v))
    ensures var row, row' := s.shared.row, Next(s, SwapStep(c)).shared.row;
            && v == row.version + 1 == row'.version && row'.side == row.side
            && S.PatchShows(row.fields, s.shared.clients[c].patch, row'.fields)
  {
    SwapShows(MergePatch, start, s.shared, c);
    S.MergeShows(s.shared.row.fields, s.shared.clients[c].patch);
  }
}
