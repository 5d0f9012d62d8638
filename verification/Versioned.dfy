/**
 Optimistic concurrency on one versioned row: PATCH reads the row, merges its
 fields and writes them back only if the version is still the one it read, as
 two separate statements. Other writes touch a side column of the same row and
 leave the version alone. `F` is the type of the patched fields, `S` of the side
 column, `P` of a patch; `merge` applies a patch or rejects the result.
 */
module Versioned {
  import opened Text

  datatype Row<F, S> = Row(fields: F, side: S, version: int)

  datatype PatchError =
    | NameRequired | EmailInvalid | VatNumberRequired
    | CurrencyRequired | CurrencyInvalid | PaymentTermsInvalid | InvoicePrefixRequired
    | QuantityUnitInvalid | QuantityUnitDuplicate | QuantityUnitsTooMany

  datatype Merge<+F> = Merged(fields: F) | Rejected(error: PatchError)

  datatype PatchResult = Accepted(version: int) | Conflict | Invalid(error: PatchError)

  /** A PATCH between its two statements, or answered. */
  datatype Client<F, P> =
    | Ready(patch: P, expected: int, merged: F)
    | Answered(patch: P, result: PatchResult)

  /** The row, the patches in flight and, as history, the accepted patches. */
  datatype Shared<F, S, P> = Shared(row: Row<F, S>, clients: map<Uuid, Client<F, P>>, accepted: seq<P>)

  /** The first statement: read, compare the caller's version, merge. */
  function ReadAndMerge<F, S, P>(merge: (F, P) -> Merge<F>, s: Shared<F, S, P>, c: Uuid, expected: int, patch: P)
    : Shared<F, S, P>
  {
    if c in s.clients then s
    else
      s.(clients := s.clients[c :=
        if s.row.version != expected then Answered(patch, Conflict)
        else match merge(s.row.fields, patch)
          case Rejected(e) => Answered(patch, Invalid(e))
          case Merged(f) => Ready(patch, expected, f)])
  }

  /** The second: UPDATE ... WHERE version = expected. */
  function CompareAndSwap<F, S, P>(s: Shared<F, S, P>, c: Uuid): Shared<F, S, P> {
    if c !in s.clients || !s.clients[c].Ready? then s
    else
      var Ready(patch, expected, merged) := s.clients[c];
      if s.row.version != expected then s.(clients := s.clients[c := Answered(patch, Conflict)])
      else Shared(s.row.(fields := merged, version := expected + 1),
                  s.clients[c := Answered(patch, Accepted(expected + 1))],
                  s.accepted + [patch])
  }

  function WriteSide<F, S, P>(s: Shared<F, S, P>, side: S): Shared<F, S, P> {
    s.(row := s.row.(side := side))
  }

  /** The patches applied one after another. */
  function Fold<F, P>(merge: (F, P) -> Merge<F>, f: F, patches: seq<P>): Merge<F> {
    if patches == [] then Merged(f)
    else match Fold(merge, f, patches[..|patches| - 1])
      case Rejected(e) => Rejected(e)
      case Merged(g) => merge(g, patches[|patches| - 1])
  }

  lemma FoldAppend<F, P>(merge: (F, P) -> Merge<F>, f: F, patches: seq<P>, p: P)
    requires Fold(merge, f, patches).Merged?
    ensures Fold(merge, f, patches + [p]) == merge(Fold(merge, f, patches).fields, p)
  {
    assert (patches + [p])[..|patches|] == patches;
  }

  /** Since `start`, nothing was lost: the row is the fold of exactly the
      accepted patches in version order, one version each; a patch in flight
      was merged into the fields of the version it will insist on; and a patch
      that was told version v is the one that made it. */
  ghost predicate NothingLost<F, S, P>(merge: (F, P) -> Merge<F>, start: Row<F, S>, s: Shared<F, S, P>) {
    && s.row.version == start.version + |s.accepted|
    && Fold(merge, start.fields, s.accepted) == Merged(s.row.fields)
    && (forall c :: c in s.clients ==> ClientOk(merge, start.fields, start.version, s.accepted, s.clients[c]))
    && (forall c, d :: c in s.clients && d in s.clients && c != d ==> !SameVersion(s.clients[c], s.clients[d]))
  }

  predicate ClientOk<F(==), P(==)>(merge: (F, P) -> Merge<F>, f: F, version: int, accepted: seq<P>, c: Client<F, P>) {
    match c
    case Ready(patch, expected, merged) =>
      version <= expected <= version + |accepted| && MergedAt(merge, f, accepted[..expected - version], patch, merged)
    case Answered(patch, Accepted(v)) =>
      version < v <= version + |accepted| && accepted[v - version - 1] == patch
    case _ => true
  }

  /** Applying `patch` after `before` gives `merged`. */
  predicate MergedAt<F(==), P>(merge: (F, P) -> Merge<F>, f: F, before: seq<P>, patch: P, merged: F) {
    match Fold(merge, f, before)
    case Rejected(_) => false
    case Merged(g) => merge(g, patch) == Merged(merged)
  }

  predicate SameVersion<F, P>(c: Client<F, P>, d: Client<F, P>) {
    c.Answered? && d.Answered? && c.result.Accepted? && d.result.Accepted? && c.result.version == d.result.version
  }

  lemma ClientStaysOk<F, P>(merge: (F, P) -> Merge<F>, f: F, version: int, accepted: seq<P>, p: P, c: Client<F, P>)
    requires ClientOk(merge, f, version, accepted, c)
    ensures ClientOk(merge, f, version, accepted + [p], c)
  {
    if c.Ready? {
      var n := c.expected - version;
      assert (accepted + [p])[..n] == accepted[..n];
    }
  }

  lemma ReadKeeps<F, S, P>(merge: (F, P) -> Merge<F>, start: Row<F, S>, s: Shared<F, S, P>, c: Uuid, expected: int,
                           patch: P)
    requires NothingLost(merge, start, s)
    ensures var s' := ReadAndMerge(merge, s, c, expected, patch);
            NothingLost(merge, start, s') && s'.row == s.row && s'.accepted == s.accepted
  {
    assert s.accepted[..|s.accepted|] == s.accepted;
    var s' := ReadAndMerge(merge, s, c, expected, patch);
    if c !in s.clients {
      assert ClientOk(merge, start.fields, start.version, s.accepted, s'.clients[c]);
    }
  }

  /** The version in the UPDATE's WHERE clause is what loses no patch. */
  lemma SwapKeeps<F, S, P>(merge: (F, P) -> Merge<F>, start: Row<F, S>, s: Shared<F, S, P>, c: Uuid)
    requires NothingLost(merge, start, s)
    ensures var s' := CompareAndSwap(s, c);
            NothingLost(merge, start, s') && s'.row.side == s.row.side && s.accepted <= s'.accepted
  {
    if c in s.clients && s.clients[c].Ready? && s.row.version == s.clients[c].expected {
      AcceptKeeps(merge, start, s, c);
    }
  }

  lemma AcceptKeeps<F, S, P>(merge: (F, P) -> Merge<F>, start: Row<F, S>, s: Shared<F, S, P>, c: Uuid)
    requires NothingLost(merge, start, s)
    requires c in s.clients && s.clients[c].Ready? && s.row.version == s.clients[c].expected
    ensures NothingLost(merge, start, CompareAndSwap(s, c))
  {
    var s', p := CompareAndSwap(s, c), s.clients[c].patch;
    assert s.accepted[..|s.accepted|] == s.accepted;
    FoldAppend(merge, start.fields, s.accepted, p);
    forall d | d in s'.clients
      ensures ClientOk(merge, start.fields, start.version, s'.accepted, s'.clients[d])
    {
      if d != c { ClientStaysOk(merge, start.fields, start.version, s.accepted, p, s.clients[d]); }
    }
    forall d, e | d in s'.clients && e in s'.clients && d != e
      ensures !SameVersion(s'.clients[d], s'.clients[e])
    {
      assert !SameVersion(s.clients[d], s.clients[e]);
      assert ClientOk(merge, start.fields, start.version, s.accepted, s.clients[d]);
      assert ClientOk(merge, start.fields, start.version, s.accepted, s.clients[e]);
    }
  }

  lemma SideKeeps<F, S, P>(merge: (F, P) -> Merge<F>, start: Row<F, S>, s: Shared<F, S, P>, side: S)
    requires NothingLost(merge, start, s)
    ensures NothingLost(merge, start, WriteSide(s, side))
  {
  }

  /** A swap succeeds exactly when no patch was accepted since its read, and
      then writes the merge of its patch into the row it finds. */
  lemma SwapShows<F, S, P>(merge: (F, P) -> Merge<F>, start: Row<F, S>, s: Shared<F, S, P>, c: Uuid)
    requires NothingLost(merge, start, s) && c in s.clients && s.clients[c].Ready?
    ensures var e, k := CompareAndSwap(s, c), s.clients[c];
            && c in e.clients && e.row.side == s.row.side
            && if s.row.version == k.expected then
                 && e.clients[c] == Answered(k.patch, Accepted(s.row.version + 1))
                 && e.row.version == s.row.version + 1 && merge(s.row.fields, k.patch) == Merged(e.row.fields)
               else e.clients[c] == Answered(k.patch, Conflict) && e.row == s.row
  {
    assert ClientOk(merge, start.fields, start.version, s.accepted, s.clients[c]);
    assert s.accepted[..|s.accepted|] == s.accepted;
  }

  /** Every accepted patch had its own version to be accepted into. */
  lemma {:induction false} PrefixMerges<F, P>(merge: (F, P) -> Merge<F>, f: F, patches: seq<P>, n: nat)
    requires n <= |patches| && Fold(merge, f, patches).Merged?
    ensures Fold(merge, f, patches[..n]).Merged?
  {
    if n < |patches| {
      PrefixMerges(merge, f, patches[..|patches| - 1], n);
      assert patches[..|patches| - 1][..n] == patches[..n];
    } else {
      assert patches[..n] == patches;
    }
  }

  lemma VersionShows<F, S, P>(merge: (F, P) -> Merge<F>, start: Row<F, S>, s: Shared<F, S, P>, c: Uuid, v: int)
    returns (before: F, after: F)
    requires NothingLost(merge, start, s) && c in s.clients
    requires s.clients[c].Answered? && s.clients[c].result == Accepted(v)
    ensures start.version < v <= start.version + |s.accepted|
    ensures Fold(merge, start.fields, s.accepted[..v - start.version - 1]) == Merged(before)
    ensures Fold(merge, start.fields, s.accepted[..v - start.version]) == Merged(after)
    ensures merge(before, s.clients[c].patch) == Merged(after)
    ensures v == s.row.version ==> after == s.row.fields
  {
    assert ClientOk(merge, start.fields, start.version, s.accepted, s.clients[c]);
    var n := v - start.version;
    PrefixMerges(merge, start.fields, s.accepted, n - 1);
    PrefixMerges(merge, start.fields, s.accepted, n);
    before := Fold(merge, start.fields, s.accepted[..n - 1]).fields;
    after := Fold(merge, start.fields, s.accepted[..n]).fields;
    assert s.accepted[..n] == s.accepted[..n - 1] + [s.accepted[n - 1]];
    FoldAppend(merge, start.fields, s.accepted[..n - 1], s.accepted[n - 1]);
    if v == s.row.version { assert s.accepted[..n] == s.accepted; }
  }
}
