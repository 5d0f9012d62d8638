/**
 PATCH of an organisation beside logo uploads. net/mail's address syntax is a
 parameter. The stored logo images are never changed, only pointed at.
 */
module Organisations {
  import opened Text
  import opened Versioned

  datatype Details = Details(
    name: string, email: Option<string>, phone: Option<string>, website: Option<string>,
    address: Option<string>, city: Option<string>, state: Option<string>,
    postalCode: Option<string>, country: Option<string>, taxId: Option<string>, vatRegistered: bool)

  /** A field that is None is left as it is. */
  datatype Patch = Patch(
    name: Option<string>, email: Option<string>, phone: Option<string>, website: Option<string>,
    address: Option<string>, city: Option<string>, state: Option<string>,
    postalCode: Option<string>, country: Option<string>, taxId: Option<string>, vatRegistered: Option<bool>)

  function Replace(current: Option<string>, given: Option<string>): Option<string> {
    match given
    case None => current
    case Some(s) => NilIfEmpty(s)
  }

  function MergeDetails(validEmail: string -> bool, d: Details, p: Patch): Merge<Details> {
    if p.name.Some? && AcceptName(p.name.value).None? then Rejected(NameRequired)
    else if p.email.Some? && Trim(p.email.value) != "" && !validEmail(Trim(p.email.value)) then Rejected(EmailInvalid)
    else
      var merged := Details(
        if p.name.Some? then AcceptName(p.name.value).value else d.name,
        if p.email.Some? then NilIfEmpty(Trim(p.email.value)) else d.email,
        Replace(d.phone, p.phone), Replace(d.website, p.website), Replace(d.address, p.address),
        Replace(d.city, p.city), Replace(d.state, p.state), Replace(d.postalCode, p.postalCode),
        Replace(d.country, p.country), Replace(d.taxId, p.taxId),
        if p.vatRegistered.Some? then p.vatRegistered.value else d.vatRegistered);
      if merged.vatRegistered && merged.taxId.None? then Rejected(VatNumberRequired) else Merged(merged)
  }

  /** What a patch does to an optional column: nothing if the field is absent,
      clears it if the field is blank, stores the trimmed text otherwise. */
  predicate Patched(before: Option<string>, given: Option<string>, after: Option<string>) {
    match given
    case None => after == before
    case Some(s) => KeptAs(s, after)
  }

  /** The whole effect of a patch, column by column. */
  predicate PatchShows(d: Details, p: Patch, m: Details) {
    && m.name == (if p.name.Some? then Trim(p.name.value) else d.name)
    && Patched(d.email, p.email, m.email) && Patched(d.phone, p.phone, m.phone)
    && Patched(d.website, p.website, m.website) && Patched(d.address, p.address, m.address)
    && Patched(d.city, p.city, m.city) && Patched(d.state, p.state, m.state)
    && Patched(d.postalCode, p.postalCode, m.postalCode) && Patched(d.country, p.country, m.country)
    && Patched(d.taxId, p.taxId, m.taxId)
    && m.vatRegistered == (if p.vatRegistered.Some? then p.vatRegistered.value else d.vatRegistered)
  }

  /** Whether the result of a patch is VAT registered, and has a VAT number. */
  predicate LacksVatNumber(d: Details, p: Patch) {
    && (if p.vatRegistered.Some? then p.vatRegistered.value else d.vatRegistered)
    && (if p.taxId.Some? then Trim(p.taxId.value) == "" else d.taxId.None?)
  }

  /** When a patch is accepted, why not otherwise, and what it changes. */
  lemma MergeShows(validEmail: string -> bool, d: Details, p: Patch)
    ensures match MergeDetails(validEmail, d, p)
            case Rejected(e) =>
              e == (if p.name.Some? && Trim(p.name.value) == "" then NameRequired
                    else if p.email.Some? && Trim(p.email.value) != "" && !validEmail(Trim(p.email.value))
                    then EmailInvalid else VatNumberRequired)
              && (e == VatNumberRequired ==> LacksVatNumber(d, p))
            case Merged(m) =>
              && !(p.name.Some? && Trim(p.name.value) == "")
              && !(p.email.Some? && Trim(p.email.value) != "" && !validEmail(Trim(p.email.value)))
              && !LacksVatNumber(d, p)
              && PatchShows(d, p, m)
  {
    if p.email.Some? { TrimIdempotent(p.email.value); }
  }

  /** A merge never blanks the name. */
  lemma MergedIsNamed(validEmail: string -> bool, d: Details, p: Patch)
    requires Named(d.name) && MergeDetails(validEmail, d, p).Merged?
    ensures Named(MergeDetails(validEmail, d, p).fields.name)
  {
    if p.name.Some? { AcceptedIsNamed(p.name.value); }
  }

  /** The loaded organisation, which PATCH changes field by field. */
  class Organisation {
    var name: string
    var email: Option<string>
    var phone: Option<string>
    var website: Option<string>
    var address: Option<string>
    var city: Option<string>
    var state: Option<string>
    var postalCode: Option<string>
    var country: Option<string>
    var taxId: Option<string>
    var vatRegistered: bool

    constructor (d: Details)
      ensures View() == d
    {
      name, email, phone, website, address := d.name, d.email, d.phone, d.website, d.address;
      city, state, postalCode, country := d.city, d.state, d.postalCode, d.country;
      taxId, vatRegistered := d.taxId, d.vatRegistered;
    }

    function View(): Details
      reads this
    {
      Details(name, email, phone, website, address, city, state, postalCode, country, taxId, vatRegistered)
    }

    /** The fields that a blank value clears and nothing validates. */
    method ApplyOptional(p: Patch)
      modifies this
      ensures View() == old(View()).(
        phone := Replace(old(phone), p.phone), website := Replace(old(website), p.website),
        address := Replace(old(address), p.address), city := Replace(old(city), p.city),
        state := Replace(old(state), p.state), postalCode := Replace(old(postalCode), p.postalCode),
        country := Replace(old(country), p.country), taxId := Replace(old(taxId), p.taxId))
    {
      phone := Replace(phone, p.phone);
      website := Replace(website, p.website);
      address := Replace(address, p.address);
      city := Replace(city, p.city);
      state := Replace(state, p.state);
      postalCode := Replace(postalCode, p.postalCode);
      country := Replace(country, p.country);
      taxId := Replace(taxId, p.taxId);
    }

    /** After an error the object is abandoned, whatever it holds by then. */
    method ApplyPatch(validEmail: string -> bool, p: Patch) returns (err: Option<PatchError>)
      modifies this
      ensures match MergeDetails(validEmail, old(View()), p)
              case Merged(d) => err == None && View() == d
              case Rejected(e) => err == Some(e)
    {
      if p.name.Some? {
        var given := Trim(p.name.value);
        if given == "" { return Some(NameRequired); }
        name := given;
      }
      if p.email.Some? {
        var given := Trim(p.email.value);
        if given != "" && !validEmail(given) { return Some(EmailInvalid); }
        email := NilIfEmpty(given);
      }
      ApplyOptional(p);
      if p.vatRegistered.Some? { vatRegistered := p.vatRegistered.value; }
      if vatRegistered && taxId.None? { return Some(VatNumberRequired); }
      err := None;
    }
  }

  // ---- PATCH and logo changes, interleaved --------------------------------

  type State = Shared<Details, Option<Uuid>, Patch>
  type OrganisationRow = Row<Details, Option<Uuid>>

  datatype Action =
    | ReadStep(client: Uuid, expected: int, patch: Patch)
    | SwapStep(client: Uuid)
    | SetLogo(logo: Option<Uuid>)   // SaveLogo, or ClearLogo with None

  function Next(validEmail: string -> bool, s: State, a: Action): State {
    match a
    case ReadStep(c, expected, p) => ReadAndMerge((d, q) => MergeDetails(validEmail, d, q), s, c, expected, p)
    case SwapStep(c) => CompareAndSwap(s, c)
    case SetLogo(logo) => WriteSide(s, logo)
  }

  function Run(validEmail: string -> bool, s: State, actions: seq<Action>): State
    decreases |actions|
  {
    if actions == [] then s else Run(validEmail, Next(validEmail, s, actions[0]), actions[1..])
  }

  /** The logo last set, in an order that knows nothing of patches. */
  function LastLogo(logo: Option<Uuid>, actions: seq<Action>): Option<Uuid>
    decreases |actions|
  {
    if actions == [] then logo
    else LastLogo(if actions[0].SetLogo? then actions[0].logo else logo, actions[1..])
  }

  /** A VAT-registered organisation has a VAT number. */
  predicate VatRule(d: Details) {
    d.vatRegistered ==> d.taxId.Some?
  }

  /** What every stored organisation keeps: that, and a name that is not blank. */
  predicate Rules(d: Details) { VatRule(d) && Named(d.name) }

  ghost predicate Inv(validEmail: string -> bool, start: OrganisationRow, s: State) {
    && NothingLost((d, q) => MergeDetails(validEmail, d, q), start, s)
    && Rules(s.row.fields)
    && (forall c :: c in s.clients && s.clients[c].Ready? ==> Rules(s.clients[c].merged))
  }

  lemma NextKeepsInv(validEmail: string -> bool, start: OrganisationRow, s: State, a: Action)
    requires Inv(validEmail, start, s)
    ensures Inv(validEmail, start, Next(validEmail, s, a))
  {
    var merge := (d: Details, q: Patch) => MergeDetails(validEmail, d, q);
    match a
    case ReadStep(c, expected, p) =>
      ReadKeeps(merge, start, s, c, expected, p);
      if MergeDetails(validEmail, s.row.fields, p).Merged? { MergedIsNamed(validEmail, s.row.fields, p); }
    case SwapStep(c) => SwapKeeps(merge, start, s, c);
    case SetLogo(logo) => SideKeeps(merge, start, s, logo);
  }

  /** In every interleaving the row is the fold of exactly the accepted patches
      in version order, the logo is the one last set, neither kind of write
      disturbs the other, the VAT rule holds throughout and the name is never
      blank. */
  lemma {:induction false} PatchesAndLogos(validEmail: string -> bool, start: OrganisationRow, s: State,
                                           actions: seq<Action>)
    requires Inv(validEmail, start, s)
    ensures var e := Run(validEmail, s, actions);
            && Inv(validEmail, start, e)
            && e.row.version == start.version + |e.accepted|
            && Fold((d, q) => MergeDetails(validEmail, d, q), start.fields, e.accepted) == Merged(e.row.fields)
            && e.row.side == LastLogo(s.row.side, actions)
            && VatRule(e.row.fields) && Named(e.row.fields.name)
    decreases |actions|
  {
    if actions != [] {
      NextKeepsInv(validEmail, start, s, actions[0]);
      PatchesAndLogos(validEmail, start, Next(validEmail, s, actions[0]), actions[1..]);
    }
  }

  /** A PATCH that reads and writes with nothing in between takes effect exactly
      when its version is the current one and its merge is accepted. */
  lemma PatchAlone(validEmail: string -> bool, s: State, c: Uuid, expected: int, p: Patch)
    requires c !in s.clients
    ensures var e := Next(validEmail, Next(validEmail, s, ReadStep(c, expected, p)), SwapStep(c));
            && e.row.side == s.row.side && c in e.clients
            && if expected == s.row.version && MergeDetails(validEmail, s.row.fields, p).Merged? then
                 && e.clients[c] == Answered(p, Accepted(expected + 1)) && e.row.version == expected + 1
                 && PatchShows(s.row.fields, p, e.row.fields)
               else e.row == s.row && e.clients[c].Answered? && !e.clients[c].result.Accepted?
  {
    MergeShows(validEmail, s.row.fields, p);
  }

  /** In any interleaving, the swap that answers Accepted(v) makes version v,
      and changes exactly what its patch says. */
  lemma AcceptedSwapShows(validEmail: string -> bool, start: OrganisationRow, s: State, c: Uuid, v: int)
    requires Inv(validEmail, start, s) && c in s.clients && s.clients[c].Ready?
    requires Next(validEmail, s, SwapStep(c)).clients[c] == Answered(s.clients[c].patch, Accepted(v))
    ensures var e := Next(validEmail, s, SwapStep(c));
            && v == s.row.version + 1 == e.row.version
            && PatchShows(s.row.fields, s.clients[c].patch, e.row.fields)
  {
    var merge := (d: Details, q: Patch) => MergeDetails(validEmail, d, q);
    SwapShows(merge, start, s, c);
    MergeShows(validEmail, s.row.fields, s.clients[c].patch);
  }

  /** Whatever happens since, the row of version v differs from the one before
      it by exactly the patch that was answered Accepted(v). */
  lemma AcceptedPatchIsInItsVersion(validEmail: string -> bool, start: OrganisationRow, s: State, c: Uuid, v: int)
    returns (before: Details, after: Details)
    requires Inv(validEmail, start, s) && c in s.clients
    requires s.clients[c].Answered? && s.clients[c].result == Accepted(v)
    ensures start.version < v <= s.row.version
    ensures var merge := (d: Details, q: Patch) => MergeDetails(validEmail, d, q);
            && Fold(merge, start.fields, s.accepted[..v - start.version - 1]) == Merged(before)
            && Fold(merge, start.fields, s.accepted[..v - start.version]) == Merged(after)
    ensures PatchShows(before, s.clients[c].patch, after)
    ensures v == s.row.version ==> after == s.row.fields
  {
    var merge := (d: Details, q: Patch) => MergeDetails(validEmail, d, q);
    before, after := VersionShows(merge, start, s, c, v);
    MergeShows(validEmail, before, s.clients[c].patch);
  }
}
