/**
 Template calls interleaved. SetDefault is three statements, each committed on
 its own: the check, the UPDATE that unsets, the UPDATE that sets. Delete reads
 the row at one moment and commits its writes at a later one; Update checks and
 then writes. The partial unique index guards every write.
 */
module TemplateRaces {
  import opened Text
  import opened Templates

  /** A call between two of its statements. */
  datatype InFlight =
    | Choosing(org: Uuid, id: Uuid)
    | Between(org: Uuid, id: Uuid)
    | Deleting(org: Uuid, id: Uuid, sawDefault: bool)
    | Editing(org: Uuid, id: Uuid, name: string, definition: string, version: nat)

  datatype World = World(t: Table, calls: map<Uuid, InFlight>)

  datatype Action =
    | Create(id: Uuid, org: Uuid, name: string, definition: string)
    | UpdateCheck(c: Uuid, org: Uuid, id: Uuid, name: string, definition: string, version: nat)
    | UpdateWrite(c: Uuid)
    | DefaultCheck(c: Uuid, org: Uuid, id: Uuid)
    | DefaultUnset(c: Uuid)
    | DefaultSet(c: Uuid)
    | DeleteRead(c: Uuid, org: Uuid, id: Uuid)
    | DeleteCommit(c: Uuid, system: Uuid)
      // A statement fails or the client goes away.
    | Abandon(c: Uuid)

  function End(w: World, c: Uuid, t: Table): World { World(t, w.calls - {c}) }

  function Next(w: World, a: Action): World {
    match a
    case Create(id, org, name, definition) => w.(t := CreateSerial(w.t, id, org, name, definition))
    case UpdateCheck(c, org, id, name, definition, version) =>
      if c !in w.calls && Validate(name, definition).None? && Live(w.t, org, id) && !w.t[id].isSystem
      then w.(calls := w.calls[c := Editing(org, id, Trim(name), definition, version)]) else w
    case UpdateWrite(c) =>
      if c in w.calls && w.calls[c].Editing? then
        var e := w.calls[c];
        End(w, c, WriteEdit(w.t, e.org, e.id, e.name, e.definition, e.version))
      else w
    case DefaultCheck(c, org, id) =>
      if c !in w.calls && Live(w.t, org, id) then w.(calls := w.calls[c := Choosing(org, id)]) else w
    case DefaultUnset(c) =>
      if c in w.calls && w.calls[c].Choosing? then
        World(Unset(w.t, w.calls[c].org), w.calls[c := Between(w.calls[c].org, w.calls[c].id)])
      else w
    case DefaultSet(c) =>
      if c in w.calls && w.calls[c].Between? then End(w, c, Set(w.t, w.calls[c].org, w.calls[c].id)) else w
    case DeleteRead(c, org, id) =>
      if c !in w.calls && Live(w.t, org, id) && !w.t[id].isSystem
      then w.(calls := w.calls[c := Deleting(org, id, w.t[id].isDefault)]) else w
    case DeleteCommit(c, system) =>
      if c in w.calls && w.calls[c].Deleting? then
        var k := w.calls[c];
        End(w, c, DeleteWrites(w.t, k.org, k.id, k.sawDefault, system))
      else w
    case Abandon(c) => if c in w.calls then End(w, c, w.t) else w
  }

  function Run(w: World, actions: seq<Action>): World
    decreases |actions|
  {
    if actions == [] then w else Run(Next(w, actions[0]), actions[1..])
  }

  /** The system template is the one live one, no call is about to delete or
      edit it, and at most one live template is the default. */
  ghost predicate Inv(w: World, org: Uuid, s: Uuid) {
    && SystemIs(w.t, org, s)
    && AtMostOneDefault(w.t, org)
    && forall c :: c in w.calls ==> Spares(w.calls[c], org, s)
  }

  predicate Spares(k: InFlight, org: Uuid, s: Uuid) {
    k.org == org && (k.Deleting? || k.Editing?) ==> k.id != s
  }

  lemma CallGone(calls: map<Uuid, InFlight>, c: Uuid, k: InFlight)
    requires c !in calls
    ensures calls[c := k] - {c} == calls
  {
  }

  /** A call whose statements nothing else comes between is the serial call. */
  lemma SetDefaultAlone(w: World, c: Uuid, org: Uuid, id: Uuid)
    requires c !in w.calls
    ensures Next(Next(Next(w, DefaultCheck(c, org, id)), DefaultUnset(c)), DefaultSet(c))
         == w.(t := SetDefaultSerial(w.t, org, id))
  {
    if Live(w.t, org, id) {
      var w1 := Next(w, DefaultCheck(c, org, id));
      var w2 := Next(w1, DefaultUnset(c));
      assert w2 == World(Unset(w.t, org), w.calls[c := Between(org, id)]);
      CallGone(w.calls, c, Between(org, id));
    }
  }

  lemma DeleteAlone(w: World, c: Uuid, org: Uuid, id: Uuid, system: Uuid)
    requires c !in w.calls
    ensures Next(Next(w, DeleteRead(c, org, id)), DeleteCommit(c, system))
         == w.(t := DeleteSerial(w.t, org, id, system))
  {
    if Live(w.t, org, id) && !w.t[id].isSystem { CallGone(w.calls, c, Deleting(org, id, w.t[id].isDefault)); }
  }

  lemma UpdateAlone(w: World, c: Uuid, org: Uuid, id: Uuid, name: string, definition: string, version: nat)
    requires c !in w.calls
    ensures Next(Next(w, UpdateCheck(c, org, id, name, definition, version)), UpdateWrite(c))
         == w.(t := UpdateSerial(w.t, org, id, name, definition, version))
  {
    if Validate(name, definition).None? && Live(w.t, org, id) && !w.t[id].isSystem {
      CallGone(w.calls, c, Editing(org, id, Trim(name), definition, version));
    }
  }

  // ---- What every interleaving keeps -------------------------------------

  /** What one statement does to an organisation's rows when it keeps the
      rules: live rows stay unless deleted, the system template is untouched. */
  ghost predicate Keeps(t: Table, t': Table, org: Uuid, s: Uuid) {
    SystemIs(t', org, s) && AtMostOneDefault(t', org) && SameSystem(t, t', s)
  }

  lemma UntouchedKeeps(t: Table, t': Table, org: Uuid, s: Uuid)
    requires SystemIs(t, org, s) && AtMostOneDefault(t, org) && SameRows(t, t', org)
    ensures Keeps(t, t', org, s)
  {
    assert IsSystem(t, org, s);
    SameRowsAgree(t, t', org);
  }

  lemma UnsetKeeps(t: Table, org: Uuid, s: Uuid, o: Uuid)
    requires SystemIs(t, org, s) && AtMostOneDefault(t, org)
    ensures Keeps(t, Unset(t, o), org, s)
  {
    assert IsSystem(t, org, s);
    if o == org {
      UnsetLeavesNone(t, org);
    } else {
      OtherStatement(t, org, o, s);
      UntouchedKeeps(t, Unset(t, o), org, s);
    }
  }

  lemma SetKeeps(t: Table, org: Uuid, s: Uuid, o: Uuid, id: Uuid)
    requires SystemIs(t, org, s) && AtMostOneDefault(t, org)
    ensures Keeps(t, Set(t, o, id), org, s)
  {
    assert IsSystem(t, org, s);
    if o == org { SetFacts(t, org, id); } else { OtherSet(t, org, o, id); UntouchedKeeps(t, Set(t, o, id), org, s); }
  }

  lemma EditKeeps(t: Table, org: Uuid, s: Uuid, e: InFlight)
    requires SystemIs(t, org, s) && AtMostOneDefault(t, org) && e.Editing? && Spares(e, org, s)
    ensures var t' := WriteEdit(t, e.org, e.id, e.name, e.definition, e.version);
            && Keeps(t, t', org, s)
            && (forall x :: IsDefault(t', org, x) <==> IsDefault(t, org, x))
            && (forall x :: Live(t', org, x) <==> Live(t, org, x))
  {
    assert IsSystem(t, org, s);
    var t' := WriteEdit(t, e.org, e.id, e.name, e.definition, e.version);
    forall x ensures IsSystem(t', org, x) <==> IsSystem(t, org, x) { }
    forall x ensures IsDefault(t', org, x) <==> IsDefault(t, org, x) { }
  }

  lemma DeleteKeepsRules(t: Table, org: Uuid, s: Uuid, k: InFlight, system: Uuid)
    requires SystemIs(t, org, s) && AtMostOneDefault(t, org) && k.Deleting? && Spares(k, org, s)
    ensures Keeps(t, DeleteWrites(t, k.org, k.id, k.sawDefault, system), org, s)
  {
    assert IsSystem(t, org, s);
    var t' := DeleteWrites(t, k.org, k.id, k.sawDefault, system);
    if k.org != org {
      OthersUntouched(t, org, k.org, k.id, k.sawDefault, system);
      UntouchedKeeps(t, t', org, s);
    } else if Live(t, org, k.id) {
      SoftDeleteFacts(t, org, k.id);
      var gone := SoftDelete(t, org, k.id);
      assert Keeps(t, gone, org, s);
      UnsetKeeps(gone, org, s, org);
      SetKeeps(Unset(gone, org), org, s, org, system);
    }
  }

  /** Every step keeps one system template, unedited, and at most one default. */
  lemma StepKeepsInv(w: World, a: Action, org: Uuid, s: Uuid)
    requires Inv(w, org, s)
    ensures Inv(Next(w, a), org, s) && SameSystem(w.t, Next(w, a).t, s)
  {
    assert IsSystem(w.t, org, s);
    match a
    case Create(id, o, name, definition) => EditsKeepRules(w.t, org, o, id, name, definition, 0, s);
    case UpdateCheck(c, o, id, _, _, _) => assert IsSystem(w.t, org, id) <==> id == s;
    case UpdateWrite(c) => if c in w.calls && w.calls[c].Editing? { EditKeeps(w.t, org, s, w.calls[c]); }
    case DefaultCheck(_, _, _) =>
    case DefaultUnset(c) => if c in w.calls && w.calls[c].Choosing? { UnsetKeeps(w.t, org, s, w.calls[c].org); }
    case DefaultSet(c) =>
      if c in w.calls && w.calls[c].Between? { SetKeeps(w.t, org, s, w.calls[c].org, w.calls[c].id); }
    case DeleteRead(c, o, id) => assert IsSystem(w.t, org, id) <==> id == s;
    case DeleteCommit(c, system) =>
      if c in w.calls && w.calls[c].Deleting? { DeleteKeepsRules(w.t, org, s, w.calls[c], system); }
    case Abandon(_) =>
  }

  /** Over every interleaving. */
  lemma {:induction false} AtMostOneDefaultEver(w: World, org: Uuid, s: Uuid, actions: seq<Action>)
    requires Inv(w, org, s)
    ensures Inv(Run(w, actions), org, s) && SameSystem(w.t, Run(w, actions).t, s)
    decreases |actions|
  {
    if actions == [] {
      assert IsSystem(w.t, org, s);
    } else {
      StepKeepsInv(w, actions[0], org, s);
      AtMostOneDefaultEver(Next(w, actions[0]), org, s, actions[1..]);
    }
  }

  // ---- When the default is lost ------------------------------------------

  /** A SetDefault that has unset and can still set. */
  predicate Pending(w: World, org: Uuid, c: Uuid) {
    c in w.calls && w.calls[c].Between? && w.calls[c].org == org && Live(w.t, org, w.calls[c].id)
  }

  /** There is a default, or one is on its way. */
  ghost predicate Assured(w: World, org: Uuid) {
    HasDefault(w.t, org) || exists c :: Pending(w, org, c)
  }

  /** The steps that lose it: a SetDefault that unsets for a template deleted
      since its check, a Delete of a template that is the default, or the only
      one about to be, but was not when Delete read it, and a SetDefault that
      dies between its two UPDATEs. */
  ghost predicate Loses(w: World, a: Action, org: Uuid) {
    match a
    case DefaultUnset(c) =>
      && c in w.calls && w.calls[c].Choosing? && w.calls[c].org == org
      && !Live(w.t, org, w.calls[c].id)
      && forall o :: !Pending(w, org, o)
    case DeleteCommit(c, _) =>
      && c in w.calls && w.calls[c].Deleting? && w.calls[c].org == org
      && Live(w.t, org, w.calls[c].id) && !w.calls[c].sawDefault
      && !OtherDefault(w.t, org, w.calls[c].id)
      && forall o :: Pending(w, org, o) ==> w.calls[o].id == w.calls[c].id
    case Abandon(c) =>
      && Pending(w, org, c) && !HasDefault(w.t, org)
      && forall o :: Pending(w, org, o) ==> o == c
    case _ => false
  }

  /** A step that only adds or edits rows, or touches no default. */
  lemma GrowingStaysAssured(w: World, w': World, org: Uuid)
    requires Assured(w, org)
    requires forall x :: Live(w.t, org, x) ==> Live(w'.t, org, x)
    requires forall x :: IsDefault(w.t, org, x) ==> IsDefault(w'.t, org, x)
    requires forall c :: Pending(w, org, c) ==> c in w'.calls && w'.calls[c] == w.calls[c]
    ensures Assured(w', org)
  {
    if HasDefault(w.t, org) {
      var d :| d in w.t && IsDefault(w.t, org, d);
      assert IsDefault(w'.t, org, d) && d in w'.t;
    } else {
      var c :| Pending(w, org, c);
      assert Pending(w', org, c);
    }
  }

  lemma UnsetAssured(w: World, c: Uuid, org: Uuid)
    requires Assured(w, org) && c in w.calls && w.calls[c].Choosing?
    ensures Assured(Next(w, DefaultUnset(c)), org) <==> !Loses(w, DefaultUnset(c), org)
  {
    var w' := Next(w, DefaultUnset(c));
    var k := w.calls[c];
    if k.org != org {
      OtherStatement(w.t, org, k.org, k.id);
      SameRowsAgree(w.t, w'.t, org);
      GrowingStaysAssured(w, w', org);
    } else {
      UnsetLeavesNone(w.t, org);
      assert forall o :: o != c ==> (Pending(w', org, o) <==> Pending(w, org, o));
      assert Pending(w', org, c) <==> Live(w.t, org, k.id);
      assert !Pending(w, org, c);
    }
  }

  lemma SetAssured(w: World, c: Uuid, org: Uuid)
    requires Assured(w, org) && c in w.calls && w.calls[c].Between?
    ensures Assured(Next(w, DefaultSet(c)), org)
  {
    var w' := Next(w, DefaultSet(c));
    var k := w.calls[c];
    if k.org != org {
      OtherSet(w.t, org, k.org, k.id);
      SameRowsAgree(w.t, w'.t, org);
      GrowingStaysAssured(w, w', org);
    } else {
      SetFacts(w.t, org, k.id);
      if !HasDefault(w.t, org) && !Live(w.t, org, k.id) {
        var o :| Pending(w, org, o);
        assert Pending(w', org, o);
      }
    }
  }

  lemma AbandonAssured(w: World, c: Uuid, org: Uuid)
    requires Assured(w, org) && c in w.calls
    ensures Assured(Next(w, Abandon(c)), org) <==> !Loses(w, Abandon(c), org)
  {
    var w' := Next(w, Abandon(c));
    assert forall o :: Pending(w', org, o) <==> Pending(w, org, o) && o != c;
  }

  lemma DeleteAssured(w: World, c: Uuid, system: Uuid, org: Uuid, s: Uuid)
    requires Inv(w, org, s) && Assured(w, org) && c in w.calls && w.calls[c].Deleting?
    ensures Assured(Next(w, DeleteCommit(c, system)), org) <==> !Loses(w, DeleteCommit(c, system), org)
  {
    var w' := Next(w, DeleteCommit(c, system));
    var k := w.calls[c];
    assert Spares(k, org, s);
    if k.org != org {
      OthersUntouched(w.t, org, k.org, k.id, k.sawDefault, system);
      SameRowsAgree(w.t, w'.t, org);
      GrowingStaysAssured(w, w', org);
    } else if !Live(w.t, org, k.id) {
      GrowingStaysAssured(w, w', org);
    } else {
      SoftDeleteFacts(w.t, org, k.id);
      var gone := SoftDelete(w.t, org, k.id);
      if !k.sawDefault {
        assert forall o :: Pending(w', org, o) <==> Pending(w, org, o) && w.calls[o].id != k.id;
        assert HasDefault(w'.t, org) <==> OtherDefault(w.t, org, k.id);
      } else if IsSystem(gone, org, system) {
        UnsetLeavesNone(gone, org);
        SetFacts(Unset(gone, org), org, system);
      } else {
        GrowingStaysAssured(w, w', org);
      }
    }
  }

  /** Exactly which steps lose the default, in any interleaving. */
  lemma StepStaysAssured(w: World, a: Action, org: Uuid, s: Uuid)
    requires Inv(w, org, s) && Assured(w, org)
    ensures Assured(Next(w, a), org) <==> !Loses(w, a, org)
  {
    match a
    case Create(id, o, name, definition) =>
      EditsKeepRules(w.t, org, o, id, name, definition, 0, s);
      GrowingStaysAssured(w, Next(w, a), org);
    case UpdateWrite(c) =>
      if c in w.calls && w.calls[c].Editing? { EditKeeps(w.t, org, s, w.calls[c]); }
      GrowingStaysAssured(w, Next(w, a), org);
    case DefaultUnset(c) => if c in w.calls && w.calls[c].Choosing? { UnsetAssured(w, c, org); }
    case DefaultSet(c) => if c in w.calls && w.calls[c].Between? { SetAssured(w, c, org); }
    case DeleteCommit(c, system) => if c in w.calls && w.calls[c].Deleting? { DeleteAssured(w, c, system, org, s); }
    case Abandon(c) => if c in w.calls { AbandonAssured(w, c, org); }
    case _ => GrowingStaysAssured(w, Next(w, a), org);
  }

  /** A run none of whose steps loses the default ends, once no SetDefault is
      half done, with exactly one. */
  lemma {:induction false} QuietRunsKeepOneDefault(w: World, org: Uuid, s: Uuid, actions: seq<Action>)
    requires Inv(w, org, s) && Assured(w, org)
    requires forall i :: 0 <= i < |actions| ==> !Loses(Run(w, actions[..i]), actions[i], org)
    requires forall c :: !Pending(Run(w, actions), org, c)
    ensures WellKept(Run(w, actions).t, org, s)
    decreases |actions|
  {
    if actions == [] {
      assert Run(w, actions) == w;
      DefaultIsOnly(w.t, org);
    } else {
      assert actions[..0] == [] && Run(w, actions[..0]) == w;
      StepKeepsInv(w, actions[0], org, s);
      StepStaysAssured(w, actions[0], org, s);
      var w', rest := Next(w, actions[0]), actions[1..];
      forall i | 0 <= i < |rest| ensures !Loses(Run(w', rest[..i]), rest[i], org) {
        assert actions[..i + 1] == [actions[0]] + rest[..i];
        assert Run(w, actions[..i + 1]) == Run(w', rest[..i]) by { assert actions[..i + 1][1..] == rest[..i]; }
        assert rest[i] == actions[i + 1];
      }
      assert Run(w, actions) == Run(w', rest);
      forall c ensures !Pending(Run(w', rest), org, c) { assert !Pending(Run(w, actions), org, c); }
      QuietRunsKeepOneDefault(w', org, s, rest);
    }
  }

  // ---- Two races that lose it --------------------------------------------

  /** A table in which x may be deleted and is not the default. */
  predicate Candidate(t: Table, org: Uuid, x: Uuid) {
    Live(t, org, x) && !t[x].isSystem && !t[x].isDefault
  }

  /** Delete reads x, SetDefault makes x the default, Delete commits. */
  function StaleDelete(w: World, org: Uuid, x: Uuid, deleter: Uuid, chooser: Uuid, system: Uuid): World {
    var read := Next(w, DeleteRead(deleter, org, x));
    var chosen := Next(Next(Next(read, DefaultCheck(chooser, org, x)), DefaultUnset(chooser)), DefaultSet(chooser));
    Next(chosen, DeleteCommit(deleter, system))
  }

  /** SetDefault unsets for x, all of Delete runs, SetDefault finds no row. */
  function LateSet(w: World, org: Uuid, x: Uuid, deleter: Uuid, chooser: Uuid, system: Uuid): World {
    var unset := Next(Next(w, DefaultCheck(chooser, org, x)), DefaultUnset(chooser));
    Next(Next(Next(unset, DeleteRead(deleter, org, x)), DeleteCommit(deleter, system)), DefaultSet(chooser))
  }

  lemma StaleDeleteLosesDefault(w: World, org: Uuid, x: Uuid, deleter: Uuid, chooser: Uuid, system: Uuid)
    requires w.calls == map[] && deleter != chooser && Candidate(w.t, org, x)
    ensures var e := StaleDelete(w, org, x, deleter, chooser, system);
            !HasDefault(e.t, org) && e.calls == map[]
  {
    var w1 := Next(w, DeleteRead(deleter, org, x));
    var w2 := Next(w1, DefaultCheck(chooser, org, x));
    var w3 := Next(w2, DefaultUnset(chooser));
    var w4 := Next(w3, DefaultSet(chooser));
    UnsetLeavesNone(w.t, org);
    SetAlone(w3.t, org, x);
    SetFacts(w3.t, org, x);
    assert w4.t == Set(w3.t, org, x) && w4.calls == map[deleter := Deleting(org, x, false)];
    SoftDeleteFacts(w4.t, org, x);
    var e := Next(w4, DeleteCommit(deleter, system));
    assert e.t == SoftDelete(w4.t, org, x);
  }

  lemma LateSetLosesDefault(w: World, org: Uuid, x: Uuid, deleter: Uuid, chooser: Uuid, system: Uuid)
    requires w.calls == map[] && deleter != chooser && Candidate(w.t, org, x)
    ensures var e := LateSet(w, org, x, deleter, chooser, system);
            !HasDefault(e.t, org) && e.calls == map[]
  {
    var w1 := Next(w, DefaultCheck(chooser, org, x));
    var w2 := Next(w1, DefaultUnset(chooser));
    UnsetLeavesNone(w.t, org);
    assert w2.t == Unset(w.t, org) && !w2.t[x].isDefault;
    var w3 := Next(w2, DeleteRead(deleter, org, x));
    assert w3.calls[deleter] == Deleting(org, x, false);
    var w4 := Next(w3, DeleteCommit(deleter, system));
    SoftDeleteFacts(w2.t, org, x);
    assert w4.t == SoftDelete(w2.t, org, x) && w4.calls == map[chooser := Between(org, x)];
    var e := Next(w4, DefaultSet(chooser));
    assert e.t == w4.t;
  }
}
