/**
 Settings: the PATCH merge, the list of quantity units and the invoice counter.
 Letter case is ASCII.
 */
module Settings {
  import opened Text
  import opened Versioned

  const MAX_QUANTITY_UNITS := 50
  const MAX_QUANTITY_UNIT_LENGTH := 30

  datatype Fields = Fields(invoicePrefix: string, currency: string, paymentTerms: int, quantityUnits: seq<string>)

  datatype Patch = Patch(
    currency: Option<string>, paymentTerms: Option<int>, invoicePrefix: Option<string>,
    quantityUnits: Option<seq<string>>)

  predicate IsCurrencyCode(code: string) {
    |code| == 3 && forall i :: 0 <= i < 3 ==> 'A' <= code[i] <= 'Z'
  }

  /** The key under which two units count as the same. */
  function UnitKey(unit: string): string { Upper(Trim(unit)) }

  predicate UnitOk(unit: string) { 0 < |Trim(unit)| <= MAX_QUANTITY_UNIT_LENGTH }

  function TrimAll(units: seq<string>): (r: seq<string>)
    ensures |r| == |units|
  {
    seq(|units|, k requires 0 <= k < |units| => Trim(units[k]))
  }

  function SetOf(s: seq<string>): set<string> { set x | x in s }

  function UnitKeys(units: seq<string>): (keys: seq<string>)
    ensures |keys| == |units|
  {
    seq(|units|, k requires 0 <= k < |units| => UnitKey(units[k]))
  }

  /** Whether key k repeats an earlier one. */
  predicate Repeats(keys: seq<string>, k: nat)
    requires k < |keys|
  {
    exists i :: 0 <= i < k && keys[i] == keys[k]
  }

  /** Why unit k is refused, if it is. */
  function UnitError(units: seq<string>, k: nat): Option<PatchError>
    requires k < |units|
  {
    if !UnitOk(units[k]) then Some(QuantityUnitInvalid)
    else if Repeats(UnitKeys(units), k) then Some(QuantityUnitDuplicate)
    else None
  }

  function UnitErrors(units: seq<string>): seq<Option<PatchError>> {
    seq(|units|, k requires 0 <= k < |units| => UnitError(units, k))
  }

  /** The first error from k on. */
  function FirstError(errors: seq<Option<PatchError>>, k: nat): Option<PatchError>
    requires k <= |errors|
    decreases |errors| - k
  {
    if k == |errors| then None
    else if errors[k].Some? then errors[k]
    else FirstError(errors, k + 1)
  }

  function NormalizeUnits(units: seq<string>): Merge<seq<string>> {
    if |units| > MAX_QUANTITY_UNITS then Rejected(QuantityUnitsTooMany)
    else match FirstError(UnitErrors(units), 0)
      case Some(e) => Rejected(e)
      case None => Merged(TrimAll(units))
  }

  lemma {:induction false} FirstErrorFinds(errors: seq<Option<PatchError>>, k: nat)
    requires k <= |errors|
    ensures FirstError(errors, k).None? <==> forall j :: k <= j < |errors| ==> errors[j].None?
    decreases |errors| - k
  {
    if k < |errors| { FirstErrorFinds(errors, k + 1); }
  }

  lemma RepeatsWhenSeen(keys: seq<string>, k: nat)
    requires k < |keys|
    ensures Repeats(keys, k) <==> keys[k] in SetOf(keys[..k])
    ensures SetOf(keys[..k]) + {keys[k]} == SetOf(keys[..k + 1])
  {
    assert keys[..k + 1] == keys[..k] + [keys[k]];
  }

  /** The error list from k on, in the terms the loop computes with. */
  lemma UnitStep(units: seq<string>, k: nat, unit: string, key: string)
    requires k < |units| && unit == Trim(units[k]) && key == Upper(unit)
    ensures var keys := UnitKeys(units);
            && FirstError(UnitErrors(units), k)
                 == (if unit == "" || |unit| > MAX_QUANTITY_UNIT_LENGTH then Some(QuantityUnitInvalid)
                     else if key in SetOf(keys[..k]) then Some(QuantityUnitDuplicate)
                     else FirstError(UnitErrors(units), k + 1))
            && SetOf(keys[..k]) + {key} == SetOf(keys[..k + 1])
            && TrimAll(units)[..k] + [unit] == TrimAll(units)[..k + 1]
  {
    RepeatsWhenSeen(UnitKeys(units), k);
    assert UnitErrors(units)[k] == UnitError(units, k);
  }

  /** normalizeQuantityUnits, with its set of keys seen. */
  method NormalizeQuantityUnits(units: seq<string>) returns (r: Merge<seq<string>>)
    ensures r == NormalizeUnits(units)
  {
    if |units| > MAX_QUANTITY_UNITS { return Rejected(QuantityUnitsTooMany); }
    ghost var keys, errors, trimmed := UnitKeys(units), UnitErrors(units), TrimAll(units);
    var normalized: seq<string> := [];
    var seen: set<string> := {};
    for k := 0 to |units|
      invariant FirstError(errors, 0) == FirstError(errors, k)
      invariant normalized == trimmed[..k]
      invariant seen == SetOf(keys[..k])
    {
      var unit := Trim(units[k]);
      var key := Upper(unit);
      UnitStep(units, k, unit, key);
      if unit == "" || |unit| > MAX_QUANTITY_UNIT_LENGTH { return Rejected(QuantityUnitInvalid); }
      if key in seen { return Rejected(QuantityUnitDuplicate); }
      seen := seen + {key};
      normalized := normalized + [unit];
    }
    assert trimmed[..|units|] == trimmed;
    r := Merged(normalized);
  }

  function MergeCurrency(f: Fields, given: Option<string>): Merge<Fields> {
    if given.None? then Merged(f)
    else
      var code := Upper(Trim(given.value));
      if code == "" then Rejected(CurrencyRequired)
      else if !IsCurrencyCode(code) then Rejected(CurrencyInvalid)
      else Merged(f.(currency := code))
  }

  function MergeTerms(f: Fields, given: Option<int>): Merge<Fields> {
    if given.None? then Merged(f)
    else if given.value < 0 then Rejected(PaymentTermsInvalid)
    else Merged(f.(paymentTerms := given.value))
  }

  function MergePrefix(f: Fields, given: Option<string>): Merge<Fields> {
    if given.None? then Merged(f)
    else if Trim(given.value) == "" then Rejected(InvoicePrefixRequired)
    else Merged(f.(invoicePrefix := Trim(given.value)))
  }

  function MergeUnits(f: Fields, given: Option<seq<string>>): Merge<Fields> {
    if given.None? then Merged(f)
    else match NormalizeUnits(given.value)
      case Rejected(e) => Rejected(e)
      case Merged(units) => Merged(f.(quantityUnits := units))
  }

  function MergeSettings(f: Fields, p: Patch): Merge<Fields> {
    match MergeCurrency(f, p.currency)
    case Rejected(e) => Rejected(e)
    case Merged(f1) => match MergeTerms(f1, p.paymentTerms)
      case Rejected(e) => Rejected(e)
      case Merged(f2) => match MergePrefix(f2, p.invoicePrefix)
        case Rejected(e) => Rejected(e)
        case Merged(f3) => MergeUnits(f3, p.quantityUnits)
  }

  // ---- What a merge computes ------------------------------------------------

  predicate LengthOk(unit: string) { 1 <= |Trim(unit)| <= 30 }

  /** Unit k is like an earlier one, in either case. */
  predicate LikeEarlier(units: seq<string>, k: nat)
    requires k < |units|
  {
    exists i :: 0 <= i < k && Upper(Trim(units[i])) == Upper(Trim(units[k]))
  }

  predicate Acceptable(units: seq<string>, k: nat)
    requires k < |units|
  {
    LengthOk(units[k]) && !LikeEarlier(units, k)
  }

  lemma UnitErrorShows(units: seq<string>, k: nat)
    requires k < |units|
    ensures UnitError(units, k)
         == if !LengthOk(units[k]) then Some(QuantityUnitInvalid)
            else if LikeEarlier(units, k) then Some(QuantityUnitDuplicate) else None
  {
    var keys := UnitKeys(units);
    assert forall i :: 0 <= i < |units| ==> keys[i] == Upper(Trim(units[i]));
  }

  lemma {:induction false} FirstErrorIsFirst(errors: seq<Option<PatchError>>, k: nat) returns (j: nat)
    requires k <= |errors| && FirstError(errors, k).Some?
    ensures k <= j < |errors| && errors[j] == FirstError(errors, k)
    ensures forall i :: k <= i < j ==> errors[i].None?
    decreases |errors| - k
  {
    if errors[k].Some? { j := k; } else { j := FirstErrorIsFirst(errors, k + 1); }
  }

  /** An accepted list is the given one, trimmed; it has at most 50 units, each
      1 to 30 characters long and none like an earlier one. */
  lemma UnitsAcceptedWhen(units: seq<string>)
    ensures NormalizeUnits(units).Merged? <==>
              |units| <= 50 && forall k :: 0 <= k < |units| ==> Acceptable(units, k)
    ensures match NormalizeUnits(units)
            case Merged(r) => |r| == |units| && forall k :: 0 <= k < |units| ==> r[k] == Trim(units[k])
            case Rejected(e) => e == QuantityUnitsTooMany <==> |units| > 50
  {
    FirstErrorFinds(UnitErrors(units), 0);
    forall k | 0 <= k < |units| ensures UnitErrors(units)[k].None? <==> Acceptable(units, k) {
      UnitErrorShows(units, k);
    }
    if FirstError(UnitErrors(units), 0).Some? {
      var j := FirstErrorIsFirst(UnitErrors(units), 0);
      UnitErrorShows(units, j);
    }
  }

  /** A refused list is refused for its first unit that is not acceptable. */
  lemma UnitsRefusedFor(units: seq<string>) returns (j: nat)
    requires |units| <= 50 && NormalizeUnits(units).Rejected?
    ensures j < |units| && !Acceptable(units, j) && forall i :: 0 <= i < j ==> Acceptable(units, i)
    ensures NormalizeUnits(units).error == if LengthOk(units[j]) then QuantityUnitDuplicate else QuantityUnitInvalid
  {
    j := FirstErrorIsFirst(UnitErrors(units), 0);
    UnitErrorShows(units, j);
    forall i | 0 <= i < j ensures Acceptable(units, i) {
      assert UnitErrors(units)[i].None?;
      UnitErrorShows(units, i);
    }
  }

  /** The whole effect of a patch, field by field; a field left out stays. */
  predicate PatchShows(f: Fields, p: Patch, m: Fields) {
    && m.currency == (if p.currency.Some? then Upper(Trim(p.currency.value)) else f.currency)
    && m.paymentTerms == (if p.paymentTerms.Some? then p.paymentTerms.value else f.paymentTerms)
    && m.invoicePrefix == (if p.invoicePrefix.Some? then Trim(p.invoicePrefix.value) else f.invoicePrefix)
    && (match p.quantityUnits
        case None => m.quantityUnits == f.quantityUnits
        case Some(units) =>
          |m.quantityUnits| == |units| && forall k :: 0 <= k < |units| ==> m.quantityUnits[k] == Trim(units[k]))
  }

  predicate ThreeCapitals(code: string) {
    |code| == 3 && 'A' <= code[0] <= 'Z' && 'A' <= code[1] <= 'Z' && 'A' <= code[2] <= 'Z'
  }

  /** The error of the first given field that is not acceptable. */
  function PatchProblem(p: Patch): Option<PatchError> {
    if p.currency.Some? && Upper(Trim(p.currency.value)) == "" then Some(CurrencyRequired)
    else if p.currency.Some? && !ThreeCapitals(Upper(Trim(p.currency.value))) then Some(CurrencyInvalid)
    else if p.paymentTerms.Some? && p.paymentTerms.value < 0 then Some(PaymentTermsInvalid)
    else if p.invoicePrefix.Some? && Trim(p.invoicePrefix.value) == "" then Some(InvoicePrefixRequired)
    else if p.quantityUnits.Some? && NormalizeUnits(p.quantityUnits.value).Rejected?
    then Some(NormalizeUnits(p.quantityUnits.value).error)
    else None
  }

  /** When a patch is accepted, why not otherwise, and what it changes. */
  lemma MergeShows(f: Fields, p: Patch)
    ensures match MergeSettings(f, p)
            case Rejected(e) => PatchProblem(p) == Some(e)
            case Merged(m) => PatchProblem(p) == None && PatchShows(f, p, m)
  {
    if p.currency.Some? { CodeShows(Upper(Trim(p.currency.value))); }
    if p.quantityUnits.Some? { UnitsAcceptedWhen(p.quantityUnits.value); }
  }

  lemma CodeShows(code: string)
    ensures IsCurrencyCode(code) == ThreeCapitals(code)
  {
  }

  /** The loaded settings. */
  class SettingsObject {
    var fields: Fields
    var invoiceNumber: int

    constructor (f: Fields, n: int)
      ensures fields == f && invoiceNumber == n
    {
      fields, invoiceNumber := f, n;
    }

    /** The last allocated number goes up by one and is returned. */
    method NextInvoiceNumber() returns (n: int)
      modifies this`invoiceNumber
      ensures n == invoiceNumber == old(invoiceNumber) + 1
    {
      invoiceNumber := invoiceNumber + 1;
      n := invoiceNumber;
    }

    /** PATCH, never touching the counter. After an error the object is
        abandoned, whatever it holds by then. */
    method ApplyPatch(p: Patch) returns (err: Option<PatchError>)
      modifies this`fields
      ensures match MergeSettings(old(fields), p)
              case Merged(f) => err == None && fields == f
              case Rejected(e) => err == Some(e)
    {
      if p.currency.Some? {
        var currency := Upper(Trim(p.currency.value));
        if currency == "" { return Some(CurrencyRequired); }
        if !IsCurrencyCode(currency) { return Some(CurrencyInvalid); }
        fields := fields.(currency := currency);
      }
      if p.paymentTerms.Some? {
        if p.paymentTerms.value < 0 { return Some(PaymentTermsInvalid); }
        fields := fields.(paymentTerms := p.paymentTerms.value);
      }
      if p.invoicePrefix.Some? {
        var prefix := Trim(p.invoicePrefix.value);
        if prefix == "" { return Some(InvoicePrefixRequired); }
        fields := fields.(invoicePrefix := prefix);
      }
      if p.quantityUnits.Some? {
        var units := NormalizeQuantityUnits(p.quantityUnits.value);
        if units.Rejected? { return Some(units.error); }
        fields := fields.(quantityUnits := units.fields);
      }
      err := None;
    }
  }
}
