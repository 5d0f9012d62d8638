/**
 Invoice templates: one permanent system template per organisation and the
 default that new invoices are laid out with. Delete runs in a transaction;
 SetDefault runs its two UPDATEs outside one, so others can run in between.
 */
module Templates {
  import opened Text

  /** An invoice_templates row. */
  datatype Template = Template(
    organisationId: Uuid, name: string, definition: string,
    isDefault: bool, isSystem: bool, deleted: bool, version: nat)

  type Table = map<Uuid, Template>

  datatype Error =
    | NameRequired
    | DefinitionTooLarge
    | NotFound
    | SystemTemplate
    | VersionConflict
    | DefaultTaken

  const MAX_DEFINITION: nat := 200 * 1024

  const CLASSIC := "{\"system\":\"classic\"}"

  predicate Live(t: Table, org: Uuid, id: Uuid) {
    id in t && t[id].organisationId == org && !t[id].deleted
  }

  predicate IsDefault(t: Table, org: Uuid, id: Uuid) { Live(t, org, id) && t[id].isDefault }

  predicate IsSystem(t: Table, org: Uuid, id: Uuid) { Live(t, org, id) && t[id].isSystem }

  /** An edit a request may ask for at all. */
  function Validate(name: string, definition: string): Option<Error> {
    if Trim(name) == "" then Some(NameRequired)
    else if |definition| > MAX_DEFINITION then Some(DefinitionTooLarge)
    else None
  }

  // ---- The statements ----------------------------------------------------

  function Insert(t: Table, id: Uuid, org: Uuid, name: string, definition: string, system: bool): Table {
    t[id := Template(org, name, definition, system, system, false, 1)]
  }

  /** The compare-and-swap UPDATE of name and definition. */
  function WriteEdit(t: Table, org: Uuid, id: Uuid, name: string, definition: string, version: nat): Table {
    if Live(t, org, id) && t[id].version == version
    then t[id := t[id].(name := name, definition := definition, version := version + 1)] else t
  }

  function SoftDelete(t: Table, org: Uuid, id: Uuid): Table {
    if Live(t, org, id) then t[id := t[id].(deleted := true)] else t
  }

  /** SetDefault's first UPDATE. */
  function Unset(t: Table, org: Uuid): Table {
    map id | id in t :: if IsDefault(t, org, id) then t[id].(isDefault := false) else t[id]
  }

  /** SetDefault's second UPDATE: refused by the partial unique index when
      another live default is there, and touching no row when the target is
      not live. */
  function Set(t: Table, org: Uuid, id: Uuid): Table {
    if Live(t, org, id) && !OtherDefault(t, org, id) then t[id := t[id].(isDefault := true)] else t
  }

  predicate OtherDefault(t: Table, org: Uuid, id: Uuid) {
    exists other :: other in t && other != id && IsDefault(t, org, other)
  }

  // ---- The rules ---------------------------------------------------------

  /** s is the organisation's one live system template. */
  ghost predicate SystemIs(t: Table, org: Uuid, s: Uuid) {
    forall id :: IsSystem(t, org, id) <==> id == s
  }

  /** d is the organisation's one live default. */
  ghost predicate DefaultIs(t: Table, org: Uuid, d: Uuid) {
    forall id :: IsDefault(t, org, id) <==> id == d
  }

  ghost predicate AtMostOneDefault(t: Table, org: Uuid) {
    forall a, b :: IsDefault(t, org, a) && IsDefault(t, org, b) ==> a == b
  }

  predicate HasDefault(t: Table, org: Uuid) { exists id :: id in t && IsDefault(t, org, id) }

  predicate HasSystem(t: Table, org: Uuid) { exists id :: id in t && IsSystem(t, org, id) }

  /** Nothing but its default flag has changed on template s. */
  predicate SameSystem(a: Table, b: Table, s: Uuid) {
    s in a && s in b && b[s] == a[s].(isDefault := b[s].isDefault)
  }

  /** One live system template, and one live default. */
  ghost predicate WellKept(t: Table, org: Uuid, s: Uuid) {
    SystemIs(t, org, s) && exists d :: DefaultIs(t, org, d)
  }

  // ---- The statements keep the rules -------------------------------------

  lemma UnsetLeavesNone(t: Table, org: Uuid)
    ensures Unset(t, org).Keys == t.Keys
    ensures forall id :: !IsDefault(Unset(t, org), org, id)
    ensures forall id :: Live(Unset(t, org), org, id) <==> Live(t, org, id)
    ensures forall id :: IsSystem(Unset(t, org), org, id) <==> IsSystem(t, org, id)
    ensures forall id :: id in t ==> Unset(t, org)[id] == t[id].(isDefault := Unset(t, org)[id].isDefault)
  {
  }

  lemma SetFacts(t: Table, org: Uuid, id: Uuid)
    ensures Set(t, org, id).Keys == t.Keys
    ensures forall x :: Live(Set(t, org, id), org, x) <==> Live(t, org, x)
    ensures forall x :: IsSystem(Set(t, org, id), org, x) <==> IsSystem(t, org, x)
    ensures forall x :: x in t ==> Set(t, org, id)[x] == t[x].(isDefault := Set(t, org, id)[x].isDefault)
    ensures AtMostOneDefault(t, org) ==> AtMostOneDefault(Set(t, org, id), org)
    ensures Live(t, org, id) ==> HasDefault(Set(t, org, id), org)
    ensures HasDefault(t, org) ==> HasDefault(Set(t, org, id), org)
  {
    var t' := Set(t, org, id);
    if t' != t {
      forall x | IsDefault(t', org, x) ensures x == id {
        if x != id { assert IsDefault(t, org, x); }
      }
      assert IsDefault(t', org, id);
    } else if Live(t, org, id) {
      if OtherDefault(t, org, id) {
        var other :| other in t && other != id && IsDefault(t, org, other);
      } else {
        assert t[id] == t'[id];
        assert IsDefault(t', org, id);
      }
    }
  }

  lemma SetAlone(t: Table, org: Uuid, id: Uuid)
    requires forall x :: !IsDefault(t, org, x)
    requires Live(t, org, id)
    ensures DefaultIs(Set(t, org, id), org, id)
  {
    SetFacts(t, org, id);
    var t' := Set(t, org, id);
    assert !OtherDefault(t, org, id);
    forall x | IsDefault(t', org, x) ensures x == id {
      assert x != id ==> IsDefault(t, org, x);
    }
  }

  lemma DefaultIsOnly(t: Table, org: Uuid)
    requires AtMostOneDefault(t, org) && HasDefault(t, org)
    ensures exists d :: DefaultIs(t, org, d)
  {
    var d :| d in t && IsDefault(t, org, d);
    assert DefaultIs(t, org, d);
  }

  // ---- The calls, each run alone -----------------------------------------

  function SetDefaultSerial(t: Table, org: Uuid, id: Uuid): Table {
    if Live(t, org, id) then Set(Unset(t, org), org, id) else t
  }

  /** Delete's writes, after a read that saw the row's default flag and, when
      it was set, another that found the system template. */
  function DeleteWrites(t: Table, org: Uuid, id: Uuid, sawDefault: bool, system: Uuid): Table {
    if !Live(t, org, id) then t
    else if !sawDefault then SoftDelete(t, org, id)
    else if !IsSystem(SoftDelete(t, org, id), org, system) then t
    else Set(Unset(SoftDelete(t, org, id), org), org, system)
  }

  function DeleteSerial(t: Table, org: Uuid, id: Uuid, system: Uuid): Table {
    if Live(t, org, id) && !t[id].isSystem then DeleteWrites(t, org, id, t[id].isDefault, system) else t
  }

  function UpdateSerial(t: Table, org: Uuid, id: Uuid, name: string, definition: string, version: nat): Table {
    if Validate(name, definition).None? && Live(t, org, id) && !t[id].isSystem
    then WriteEdit(t, org, id, Trim(name), definition, version) else t
  }

  function CreateSerial(t: Table, id: Uuid, org: Uuid, name: string, definition: string): Table {
    if Validate(name, definition).None? && id !in t then Insert(t, id, org, Trim(name), definition, false) else t
  }

  /** After SetDefault the chosen template, and nothing else, is the default. */
  lemma SetDefaultChooses(t: Table, org: Uuid, id: Uuid, s: Uuid)
    requires SystemIs(t, org, s) && Live(t, org, id)
    ensures var t' := SetDefaultSerial(t, org, id);
            SystemIs(t', org, s) && SameSystem(t, t', s) && DefaultIs(t', org, id)
  {
    UnsetLeavesNone(t, org);
    var u := Unset(t, org);
    SetFacts(u, org, id);
    SetAlone(u, org, id);
    assert IsSystem(t, org, s);
  }

  lemma SoftDeleteFacts(t: Table, org: Uuid, id: Uuid)
    requires Live(t, org, id)
    ensures forall x :: Live(SoftDelete(t, org, id), org, x) <==> Live(t, org, x) && x != id
    ensures forall x :: IsSystem(SoftDelete(t, org, id), org, x) <==> IsSystem(t, org, x) && x != id
    ensures forall x :: IsDefault(SoftDelete(t, org, id), org, x) <==> IsDefault(t, org, x) && x != id
    ensures forall x :: x in t && x != id ==> SoftDelete(t, org, id)[x] == t[x]
  {
  }

  /** Deleting a template removes it; the default falls back to the system
      template if it was the one deleted, and stays where it is otherwise. */
  lemma DeleteFallsBack(t: Table, org: Uuid, id: Uuid, s: Uuid, d: Uuid)
    requires SystemIs(t, org, s) && DefaultIs(t, org, d) && Live(t, org, id) && id != s
    ensures var t' := DeleteSerial(t, org, id, s);
            && SystemIs(t', org, s) && SameSystem(t, t', s) && !Live(t', org, id)
            && DefaultIs(t', org, if id == d then s else d)
  {
    assert IsSystem(t, org, s) && !IsSystem(t, org, id);
    assert IsDefault(t, org, id) <==> id == d;
    SoftDeleteFacts(t, org, id);
    var gone := SoftDelete(t, org, id);
    assert IsSystem(gone, org, s);
    if id == d { SetDefaultChooses(gone, org, s, s); UnsetLeavesNone(gone, org); SetFacts(Unset(gone, org), org, s); }
  }

  lemma EditsKeepRules(t: Table, org: Uuid, org': Uuid, id: Uuid, name: string, definition: string, version: nat,
                       s: Uuid)
    requires SystemIs(t, org, s)
    ensures var u := UpdateSerial(t, org', id, name, definition, version);
            SystemIs(u, org, s) && SameSystem(t, u, s) && forall x :: IsDefault(u, org, x) <==> IsDefault(t, org, x)
    ensures var c := CreateSerial(t, id, org', name, definition);
            SystemIs(c, org, s) && SameSystem(t, c, s) && forall x :: IsDefault(c, org, x) <==> IsDefault(t, org, x)
  {
    assert IsSystem(t, org, s) && (IsSystem(t, org, id) <==> id == s);
    var u := UpdateSerial(t, org', id, name, definition, version);
    var c := CreateSerial(t, id, org', name, definition);
    forall x ensures IsSystem(u, org, x) <==> IsSystem(t, org, x) { }
    forall x ensures IsSystem(c, org, x) <==> IsSystem(t, org, x) { }
  }

  /** The rows of one organisation, unchanged. */
  ghost predicate SameRows(a: Table, b: Table, org: Uuid) {
    forall id :: Belongs(a, org, id) || Belongs(b, org, id) ==>
      Belongs(a, org, id) && Belongs(b, org, id) && a[id] == b[id]
  }

  predicate Belongs(t: Table, org: Uuid, id: Uuid) { id in t && t[id].organisationId == org }

  lemma SameRowsAgree(a: Table, b: Table, org: Uuid)
    requires SameRows(a, b, org)
    ensures forall id :: Live(b, org, id) <==> Live(a, org, id)
    ensures forall id :: IsSystem(b, org, id) <==> IsSystem(a, org, id)
    ensures forall id :: IsDefault(b, org, id) <==> IsDefault(a, org, id)
    ensures HasDefault(a, org) <==> HasDefault(b, org)
    ensures forall id :: Live(a, org, id) ==> a[id] == b[id]
  {
    forall id ensures Live(b, org, id) <==> Live(a, org, id) {
      assert Belongs(a, org, id) || Belongs(b, org, id) ==> a[id] == b[id];
    }
    forall id | Live(a, org, id) ensures a[id] == b[id] { assert Belongs(a, org, id); }
  }

  lemma SameRowsTransitive(a: Table, b: Table, c: Table, org: Uuid)
    requires SameRows(a, b, org) && SameRows(b, c, org)
    ensures SameRows(a, c, org)
  {
  }

  /** Statements of another organisation. */
  lemma OtherStatement(t: Table, org: Uuid, other: Uuid, id: Uuid)
    requires org != other
    ensures SameRows(t, Unset(t, other), org)
    ensures SameRows(t, SoftDelete(t, other, id), org)
  {
  }

  lemma OtherSet(t: Table, org: Uuid, other: Uuid, id: Uuid)
    requires org != other
    ensures SameRows(t, Set(t, other, id), org)
  {
  }

  lemma OthersUntouched(t: Table, org: Uuid, other: Uuid, id: Uuid, sawDefault: bool, system: Uuid)
    requires org != other
    ensures SameRows(t, SetDefaultSerial(t, other, id), org)
    ensures SameRows(t, DeleteWrites(t, other, id, sawDefault, system), org)
  {
    var u, gone := Unset(t, other), SoftDelete(t, other, id);
    OtherStatement(t, org, other, id);
    OtherSet(u, org, other, id);
    SameRowsTransitive(t, u, Set(u, other, id), org);
    OtherStatement(gone, org, other, id);
    OtherSet(Unset(gone, other), org, other, system);
    SameRowsTransitive(t, gone, Unset(gone, other), org);
    SameRowsTransitive(t, Unset(gone, other), Set(Unset(gone, other), other, system), org);
  }

  // ---- Serial runs -------------------------------------------------------

  /** A service call. Delete carries what GetSystemTemplate finds. */
  datatype Call =
    | Create(id: Uuid, org: Uuid, name: string, definition: string)
    | Update(org: Uuid, id: Uuid, name: string, definition: string, version: nat)
    | Delete(org: Uuid, id: Uuid, system: Uuid)
    | SetDefault(org: Uuid, id: Uuid)

  function Serial(t: Table, call: Call): Table {
    match call
    case Create(id, org, name, definition) => CreateSerial(t, id, org, name, definition)
    case Update(org, id, name, definition, version) => UpdateSerial(t, org, id, name, definition, version)
    case Delete(org, id, system) => DeleteSerial(t, org, id, system)
    case SetDefault(org, id) => SetDefaultSerial(t, org, id)
  }

  function SerialRun(t: Table, calls: seq<Call>): Table
    decreases |calls|
  {
    if calls == [] then t else SerialRun(Serial(t, calls[0]), calls[1..])
  }

  lemma SerialKeeps(t: Table, org: Uuid, s: Uuid, call: Call)
    requires WellKept(t, org, s)
    ensures WellKept(Serial(t, call), org, s) && SameSystem(t, Serial(t, call), s)
  {
    var d :| DefaultIs(t, org, d);
    assert IsSystem(t, org, s) && IsDefault(t, org, d);
    var t' := Serial(t, call);
    match call
    case Create(id, o, name, definition) =>
      EditsKeepRules(t, org, o, id, name, definition, 0, s);
      assert DefaultIs(t', org, d);
    case Update(o, id, name, definition, v) =>
      EditsKeepRules(t, org, o, id, name, definition, v, s);
      assert DefaultIs(t', org, d);
    case Delete(o, id, system) =>
      if o != org {
        OthersUntouched(t, org, o, id, id in t && t[id].isDefault, system);
        SameRowsAgree(t, t', org);
        assert DefaultIs(t', org, d);
      } else if Live(t, org, id) && !t[id].isSystem {
        DeleteKeeps(t, org, id, system, s, d);
      }
    case SetDefault(o, id) =>
      if o != org {
        OthersUntouched(t, org, o, id, false, 0);
        SameRowsAgree(t, t', org);
        assert DefaultIs(t', org, d);
      } else if Live(t, org, id) {
        SetDefaultChooses(t, org, id, s);
      }
  }

  /** Whatever GetSystemTemplate is taken to find. */
  lemma DeleteKeeps(t: Table, org: Uuid, id: Uuid, system: Uuid, s: Uuid, d: Uuid)
    requires SystemIs(t, org, s) && DefaultIs(t, org, d) && Live(t, org, id) && !t[id].isSystem
    ensures WellKept(DeleteSerial(t, org, id, system), org, s)
    ensures SameSystem(t, DeleteSerial(t, org, id, system), s)
  {
    assert IsSystem(t, org, s) && IsDefault(t, org, d) && (IsDefault(t, org, id) <==> id == d);
    SoftDeleteFacts(t, org, id);
    if id != d || system == s {
      DeleteFallsBack(t, org, id, s, d);
      assert DeleteSerial(t, org, id, system) == DeleteSerial(t, org, id, s);
    } else {
      assert IsSystem(SoftDelete(t, org, id), org, system) <==> system == s;
    }
  }

  /** Any sequence of calls, of any organisations, leaves each organisation
      its one system template, unedited, and exactly one default. */
  lemma {:induction false} SerialRunKeeps(t: Table, org: Uuid, s: Uuid, calls: seq<Call>)
    requires WellKept(t, org, s)
    ensures WellKept(SerialRun(t, calls), org, s) && SameSystem(t, SerialRun(t, calls), s)
    decreases |calls|
  {
    if calls == [] {
      assert IsSystem(t, org, s);
    } else {
      SerialKeeps(t, org, s, calls[0]);
      SerialRunKeeps(Serial(t, calls[0]), org, s, calls[1..]);
    }
  }

  /** Registration gives a new organisation its Classic template. */
  lemma RegistrationStartsWell(t: Table, org: Uuid, id: Uuid)
    requires id !in t && forall x :: x in t ==> t[x].organisationId != org
    ensures WellKept(Insert(t, id, org, "Classic", CLASSIC, true), org, id)
  {
    var t' := Insert(t, id, org, "Classic", CLASSIC, true);
    assert SystemIs(t', org, id);
    assert DefaultIs(t', org, id);
  }

  // ---- What the calls answer -----------------------------------------------

  /** A row of the organisation that is not deleted. */
  predicate Stored(t: Table, org: Uuid, id: Uuid) {
    id in t && t[id].organisationId == org && t[id].deleted == false
  }

  /** A request refused for what it asks to store. */
  function Refusal(name: string, definition: string): Option<Error> {
    if Trim(name) == "" then Some(NameRequired)
    else if |definition| > 204_800 then Some(DefinitionTooLarge)
    else None
  }

  /** Nothing but default flags of the organisation's rows differs. */
  predicate OnlyFlagsMoved(a: Table, b: Table, org: Uuid) {
    && a.Keys == b.Keys
    && forall x :: x in a ==>
         b[x] == if a[x].organisationId == org then a[x].(isDefault := b[x].isDefault) else a[x]
  }

  lemma FlagsMoved(t: Table, org: Uuid, id: Uuid)
    ensures OnlyFlagsMoved(t, Set(Unset(t, org), org, id), org)
  {
    UnsetLeavesNone(t, org);
    SetFacts(Unset(t, org), org, id);
    forall x | x in t && t[x].organisationId != org ensures Set(Unset(t, org), org, id)[x] == t[x] {
      assert !IsDefault(t, org, x);
    }
  }

  /** Which error an Update gives, the first that applies. */
  function UpdateError(t: Table, org: Uuid, id: Uuid, name: string, definition: string, version: nat): Option<Error> {
    if Refusal(name, definition).Some? then Refusal(name, definition)
    else if !Stored(t, org, id) then Some(NotFound)
    else if t[id].isSystem then Some(SystemTemplate)
    else if t[id].version != version then Some(VersionConflict)
    else None
  }

  /** And a Delete; without a system template to fall back to it finds none. */
  function DeleteError(t: Table, org: Uuid, id: Uuid): Option<Error> {
    if !Stored(t, org, id) then Some(NotFound)
    else if t[id].isSystem then Some(SystemTemplate)
    else if t[id].isDefault && forall x :: x in t ==> !(Stored(t, org, x) && t[x].isSystem) then Some(NotFound)
    else None
  }

  // ---- The service -------------------------------------------------------

  /** TemplateService over its table; each method is one call, run alone. */
  class TemplateService {
    var rows: Table

    method Create(id: Uuid, org: Uuid, name: string, definition: string) returns (err: Option<Error>)
      requires id !in rows
      modifies this
      ensures err == Refusal(name, definition)
      ensures rows == CreateSerial(old(rows), id, org, name, definition)
      ensures rows == if err.Some? then old(rows)
                      else old(rows)[id := Template(org, Trim(name), definition, false, false, false, 1)]
    {
      err := Validate(name, definition);
      if err.None? { rows := Insert(rows, id, org, Trim(name), definition, false); }
    }

    method Update(org: Uuid, id: Uuid, name: string, definition: string, version: nat) returns (err: Option<Error>)
      modifies this
      ensures rows == UpdateSerial(old(rows), org, id, name, definition, version)
      ensures err == UpdateError(old(rows), org, id, name, definition, version)
      ensures rows == if err.Some? then old(rows) else
        old(rows)[id := old(rows)[id].(name := Trim(name), definition := definition, version := version + 1)]
    {
      err := Validate(name, definition);
      if err.Some? { return; }
      if !Live(rows, org, id) { return Some(NotFound); }
      if rows[id].isSystem { return Some(SystemTemplate); }
      if rows[id].version != version { return Some(VersionConflict); }
      rows := WriteEdit(rows, org, id, Trim(name), definition, version);
    }

    /** Works on `tx`, the transaction's own view, and commits it at the end;
        `system` is what GetSystemTemplate found, if it was asked. */
    method Delete(org: Uuid, id: Uuid) returns (err: Option<Error>, ghost system: Uuid)
      modifies this
      ensures rows == DeleteSerial(old(rows), org, id, system)
      ensures err == DeleteError(old(rows), org, id)
      ensures err.Some? ==> rows == old(rows)
      ensures err.None? ==> id in rows && rows[id].deleted
      ensures err.None? && !old(rows)[id].isDefault ==> rows == old(rows)[id := old(rows)[id].(deleted := true)]
      ensures err.None? && old(rows)[id].isDefault ==>
        DefaultIs(rows, org, system) && OnlyFlagsMoved(old(rows)[id := old(rows)[id].(deleted := true)], rows, org)
    {
      system := id;
      if !Live(rows, org, id) { return Some(NotFound), system; }
      if rows[id].isSystem { return Some(SystemTemplate), system; }
      var wasDefault := rows[id].isDefault;
      SoftDeleteFacts(rows, org, id);
      var tx := SoftDelete(rows, org, id);
      if wasDefault {
        if !HasSystem(tx, org) { return Some(NotFound), system; }
        var found :| found in tx && IsSystem(tx, org, found);
        system := found;
        UnsetLeavesNone(tx, org);
        SetFacts(Unset(tx, org), org, found);
        SetAlone(Unset(tx, org), org, found);
        FlagsMoved(tx, org, found);
        tx := Unset(tx, org);
        tx := Set(tx, org, found);
      }
      rows := tx;
      assert rows[id].deleted;
      return None, system;
    }

    method SetDefault(org: Uuid, id: Uuid) returns (err: Option<Error>)
      modifies this
      ensures err == if Stored(old(rows), org, id) then None else Some(NotFound)
      ensures rows == SetDefaultSerial(old(rows), org, id)
      ensures if err.Some? then rows == old(rows) else OnlyFlagsMoved(old(rows), rows, org)
      ensures err.None? ==> DefaultIs(rows, org, id)
    {
      if !Live(rows, org, id) { return Some(NotFound); }
      UnsetLeavesNone(rows, org);
      FlagsMoved(rows, org, id);
      rows := Unset(rows, org);
      SetAlone(rows, org, id);
      rows := Set(rows, org, id);
      return None;
    }
  }
}
