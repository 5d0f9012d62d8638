/**
 The data behind an invoice's PDF: a Draft previews the live records, an issued
 invoice shows only what was captured on it. Amounts and dates are kept as
 values; their printed form is a function of the value and the currency.
 */
module Pdf {
  import opened Text
  import opened Invoices
  import opened Store
  import A = Answers

  datatype PdfError = DataUnavailable | SellerNameMissing | CustomerNameMissing | CurrencyMissing | CurrencyInvalid

  datatype PdfResult<+T> = Shown(value: T) | NotShown(error: PdfError)

  datatype Seller = Seller(
    name: string, addressLines: seq<string>, email: string, phone: string,
    website: string, taxId: string, logoId: Option<Uuid>)

  datatype Buyer = Buyer(displayName: string, addressLines: seq<string>, email: string, taxId: string)

  datatype Parties = Parties(seller: Seller, buyer: Buyer, currency: string)

  /** resolveTemplate: the definition matters only for a custom layout. */
  datatype Layout = Layout(name: string, definition: string, isSystem: bool)

  datatype Document = Document(
    invoiceNumber: string, issueDate: Time, dueDate: Time, statusLabel: string,
    parties: Parties, lines: seq<Line>, vatRegistered: bool,
    subtotal: int, vatTotal: int, total: int,
    paymentSummary: Option<(int, int)>, notes: string)

  /** One printed line, or none for a blank component. */
  function LineOf(s: string): seq<string> { if s == "" then [] else [s] }

  function Join(a: string, separator: string, b: string): string {
    if b == "" then a else if a == "" then b else a + separator + b
  }

  function AddressLines(street: Option<string>, city: Option<string>, state: Option<string>,
                        postalCode: Option<string>, country: Option<string>): seq<string>
  {
    var cityLine := Join(Join(TrimmedOrEmpty(city), ", ", TrimmedOrEmpty(state)), " ", TrimmedOrEmpty(postalCode));
    LineOf(TrimmedOrEmpty(street)) + LineOf(cityLine) + LineOf(TrimmedOrEmpty(country))
  }

  /** The city line, grown part by part. */
  method CityLine(city: string, state: string, postalCode: string) returns (line: string)
    ensures line == Join(Join(city, ", ", state), " ", postalCode)
  {
    line := city;
    if state != "" {
      if line != "" { line := line + ", " + state; } else { line := state; }
    }
    if postalCode != "" {
      if line != "" { line := line + " " + postalCode; } else { line := postalCode; }
    }
  }

  /** buildAddressLines, which appends what is there. */
  method BuildAddressLines(street: Option<string>, city: Option<string>, state: Option<string>,
                           postalCode: Option<string>, country: Option<string>) returns (lines: seq<string>)
    ensures lines == AddressLines(street, city, state, postalCode, country)
  {
    lines := [];
    var s, c := TrimmedOrEmpty(street), TrimmedOrEmpty(country);
    if s != "" { lines := lines + [s]; }
    var cityLine := CityLine(TrimmedOrEmpty(city), TrimmedOrEmpty(state), TrimmedOrEmpty(postalCode));
    if cityLine != "" { lines := lines + [cityLine]; }
    if c != "" { lines := lines + [c]; }
  }

  function DisplayName(name: string, companyName: string): string {
    var n, k := Trim(name), Trim(companyName);
    if k == "" || Upper(k) == Upper(n) then n else k + " \U{2014} " + n
  }

  /** strPtrIfNotEmpty: blank is absent, anything else kept as it is. */
  function NotBlank(s: string): Option<string> { if Trim(s) == "" then None else Some(s) }

  function LiveParties(c: Capture): PdfResult<Parties> {
    if c.organisation.None? then NotShown(DataUnavailable)
    else if Trim(c.organisation.value.name) == "" then NotShown(SellerNameMissing)
    else if c.customer.None? then NotShown(DataUnavailable)
    else if Trim(c.customer.value.name) == "" then NotShown(CustomerNameMissing)
    else if c.currency.None? then NotShown(CurrencyMissing)
    else if !IsValidCurrencyCode(NormalizeCurrency(c.currency.value)) then NotShown(CurrencyInvalid)
    else
      var o, k := c.organisation.value, c.customer.value;
      var lines := match c.address
        case None => []
        case Some(a) => AddressLines(NotBlank(a.street), NotBlank(a.city), NotBlank(a.state),
                                     NotBlank(a.postalCode), NotBlank(a.country));
      Shown(Parties(
        Seller(o.name, AddressLines(o.address, o.city, o.state, o.postalCode, o.country),
               TrimmedOrEmpty(o.email), TrimmedOrEmpty(o.phone), TrimmedOrEmpty(o.website),
               TrimmedOrEmpty(SellerVatNumber(o)), o.logoId),
        Buyer(DisplayName(k.name, TrimmedOrEmpty(k.companyName)), lines,
              TrimmedOrEmpty(k.email), TrimmedOrEmpty(k.taxId)),
        NormalizeCurrency(c.currency.value)))
  }

  function SnapshotParties(p: PartyColumns): PdfResult<Parties> {
    if TrimmedOrEmpty(p.sellerName) == "" then NotShown(SellerNameMissing)
    else if TrimmedOrEmpty(p.customerName) == "" then NotShown(CustomerNameMissing)
    else if TrimmedOrEmpty(p.currency) == "" then NotShown(CurrencyMissing)
    else if !IsValidCurrencyCode(NormalizeCurrency(OrEmpty(p.currency))) then NotShown(CurrencyInvalid)
    else
      Shown(Parties(
        Seller(OrEmpty(p.sellerName),
               AddressLines(p.sellerAddress, p.sellerCity, p.sellerState, p.sellerPostalCode, p.sellerCountry),
               TrimmedOrEmpty(p.sellerEmail), TrimmedOrEmpty(p.sellerPhone), TrimmedOrEmpty(p.sellerWebsite),
               TrimmedOrEmpty(p.sellerTaxId), p.sellerLogoId),
        Buyer(DisplayName(OrEmpty(p.customerName), TrimmedOrEmpty(p.customerCompanyName)),
              AddressLines(p.customerAddress, p.customerCity, p.customerState, p.customerPostalCode, p.customerCountry),
              TrimmedOrEmpty(p.customerEmail), TrimmedOrEmpty(p.customerTaxId)),
        NormalizeCurrency(OrEmpty(p.currency))))
  }

  /** BuildData's choice of source; `c` is what reads of the live records
      return at the time. */
  function PartiesOf(row: InvoiceRow, c: Capture): PdfResult<Parties> {
    if row.status == Draft then LiveParties(c) else SnapshotParties(row.party)
  }

  /** resolveTemplate; an invoice issued before snapshots existed is Classic. */
  function LayoutOf(row: InvoiceRow, c: Capture): PdfResult<Layout> {
    if row.status == Draft then
      match c.template
      case None => NotShown(DataUnavailable)
      case Some(t) => Shown(Layout(t.name, t.definition, t.isSystem))
    else match row.template
      case None => Shown(Layout("", "", true))
      case Some(t) => Shown(Layout(t.name, t.definition, t.isSystem))
  }

  function StatusLabel(effective: Status): string {
    match effective
    case Draft => "DRAFT"
    case Overdue => "OVERDUE"
    case Paid => "PAID"
    case Cancelled => "CANCELLED"
    case Sent => ""
  }

  /** buildInvoicePDFData. */
  function Assemble(row: InvoiceRow, parties: Parties, paid: int, now: Time): Document {
    Document(
      row.invoiceNumber, row.issueDate, row.dueDate,
      StatusLabel(EffectiveStatus(row.status, row.dueDate, now)),
      parties, row.lines, row.vatRegistered, row.subtotal, row.vatTotal, row.total,
      if 0 < paid < row.total then Some((paid, row.total - paid)) else None,
      TrimmedOrEmpty(row.notes))
  }

  function BuildData(row: InvoiceRow, c: Capture, paid: int, now: Time): PdfResult<Document> {
    match PartiesOf(row, c)
    case NotShown(e) => NotShown(e)
    case Shown(parties) => Shown(Assemble(row, parties, paid, now))
  }

  // ---- A preview shows what will be issued -------------------------------

  lemma SameTrimmed(s: string)
    ensures TrimmedOrEmpty(NotBlank(s)) == TrimmedOrEmpty(NilIfEmpty(s))
  {
    TrimIdempotent(s);
  }

  lemma CurrencyIsNormal(code: string)
    requires IsValidCurrencyCode(code)
    ensures NormalizeCurrency(code) == code && Trim(code) == code
  {
    assert !IsSpace(code[0]) && !IsSpace(code[2]);
    TrimUnchanged(code, IsSpace);
    UpperUnchanged(code);
  }

  lemma SameAddress(a: Address)
    ensures AddressLines(NotBlank(a.street), NotBlank(a.city), NotBlank(a.state),
                         NotBlank(a.postalCode), NotBlank(a.country))
         == AddressLines(NilIfEmpty(a.street), NilIfEmpty(a.city), NilIfEmpty(a.state),
                         NilIfEmpty(a.postalCode), NilIfEmpty(a.country))
  {
    SameTrimmed(a.street); SameTrimmed(a.city); SameTrimmed(a.state);
    SameTrimmed(a.postalCode); SameTrimmed(a.country);
  }

  lemma PreviewParties(c: Capture)
    requires CaptureError(c).None? && ValidateSnapshot(PartyOf(c)).None?
    ensures SnapshotParties(Columns(PartyOf(c))) == LiveParties(c)
  {
    CurrencyIsNormal(PartyOf(c).currency);
    if c.address.Some? {
      SameAddress(c.address.value);
    } else {
      assert AddressLines(None, None, None, None, None) == [];
    }
  }

  /** Sending a Draft freezes exactly what its preview shows at that moment,
      and the layout it would be drawn with. */
  lemma PreviewIsIssued(row: InvoiceRow, c: Capture, now: Time, later: Capture)
    requires row.status == Draft && CaptureError(c).None?
    requires SendRow(row, now, PartyOf(c), c.template.value).Ok?
    ensures var issued := SendRow(row, now, PartyOf(c), c.template.value).value;
            && PartiesOf(issued, later) == PartiesOf(row, c)
            && LayoutOf(issued, later) == LayoutOf(row, c)
  {
    PreviewParties(c);
  }

  /** Send refuses an empty name, the PDF a blank one: a captured snapshot can
      be shown exactly when both names have something to print. */
  lemma AcceptedSnapshotShown(row: InvoiceRow, s: PartySnapshot, c: Capture)
    requires row.status != Draft && row.party == Columns(s) && ValidateSnapshot(s).None?
    ensures PartiesOf(row, c).Shown? <==> Named(s.sellerName) && Named(s.customerName)
  {
    CurrencyIsNormal(s.currency);
  }

  /** Stored names do, so every snapshot that Send accepts can be shown. */
  lemma NamedSnapshotShown(row: InvoiceRow, s: PartySnapshot, c: Capture)
    requires row.status != Draft && row.party == Columns(s) && ValidateSnapshot(s).None?
    requires Named(s.sellerName) && Named(s.customerName)
    ensures PartiesOf(row, c).Shown?
  {
    AcceptedSnapshotShown(row, s, c);
  }

  // ---- What the document shows ---------------------------------------------

  /** The buyer's name, with a company of another name before it. */
  predicate NameShows(name: string, companyName: Option<string>, shown: string) {
    var company := if companyName.None? then "" else Trim(companyName.value);
    shown == if company == "" || Upper(company) == Upper(Trim(name)) then Trim(name)
             else company + " \U{2014} " + Trim(name)
  }

  /** Every printed party field, against the snapshot column it comes from. */
  predicate PartiesShow(p: PartyColumns, q: Parties) {
    && p.sellerName == Some(q.seller.name)
    && PrintedAs(p.sellerEmail, q.seller.email) && PrintedAs(p.sellerPhone, q.seller.phone)
    && PrintedAs(p.sellerWebsite, q.seller.website) && PrintedAs(p.sellerTaxId, q.seller.taxId)
    && q.seller.logoId == p.sellerLogoId
    && q.seller.addressLines
         == AddressLines(p.sellerAddress, p.sellerCity, p.sellerState, p.sellerPostalCode, p.sellerCountry)
    && p.customerName.Some? && NameShows(p.customerName.value, p.customerCompanyName, q.buyer.displayName)
    && PrintedAs(p.customerEmail, q.buyer.email) && PrintedAs(p.customerTaxId, q.buyer.taxId)
    && q.buyer.addressLines
         == AddressLines(p.customerAddress, p.customerCity, p.customerState, p.customerPostalCode, p.customerCountry)
    && p.currency.Some? && q.currency == Upper(Trim(p.currency.value))
  }

  /** What is missing from a snapshot that cannot be shown. */
  function Missing(p: PartyColumns): Option<PdfError> {
    if p.sellerName.None? || Trim(p.sellerName.value) == "" then Some(SellerNameMissing)
    else if p.customerName.None? || Trim(p.customerName.value) == "" then Some(CustomerNameMissing)
    else if p.currency.None? || Trim(p.currency.value) == "" then Some(CurrencyMissing)
    else if !A.ThreeCapitals(Upper(Trim(p.currency.value))) then Some(CurrencyInvalid)
    else None
  }

  lemma PrintedIs(column: Option<string>)
    ensures PrintedAs(column, TrimmedOrEmpty(column))
  {
    if column.None? { assert TrimmedOrEmpty(column) == Trim(""); }
  }

  lemma NameIsShown(name: string, companyName: Option<string>)
    ensures NameShows(name, companyName, DisplayName(name, TrimmedOrEmpty(companyName)))
  {
    PrintedIs(companyName);
    TrimIdempotent(OrEmpty(companyName));
  }

  lemma MissingIs(p: PartyColumns)
    ensures SnapshotParties(p).NotShown? ==> Missing(p) == Some(SnapshotParties(p).error)
    ensures SnapshotParties(p).Shown? ==> Missing(p) == None
  {
    PrintedIs(p.sellerName);
    PrintedIs(p.customerName);
    PrintedIs(p.currency);
    if p.currency.Some? { A.CurrencyProblem(p.currency.value); }
  }

  /** Whether an issued invoice can be shown, and its parties if so. */
  lemma SnapshotShows(p: PartyColumns)
    ensures match SnapshotParties(p)
            case NotShown(e) => Missing(p) == Some(e)
            case Shown(q) => Missing(p) == None && PartiesShow(p, q)
  {
    MissingIs(p);
    if Missing(p).None? {
      PrintedIs(p.sellerEmail); PrintedIs(p.sellerPhone); PrintedIs(p.sellerWebsite); PrintedIs(p.sellerTaxId);
      PrintedIs(p.customerEmail); PrintedIs(p.customerTaxId);
      NameIsShown(p.customerName.value, p.customerCompanyName);
      A.CurrencyProblem(p.currency.value);
    }
  }

  /** What is missing from the live records of a Draft that cannot be shown. */
  function LiveMissing(c: Capture): Option<PdfError> {
    if c.organisation.None? then Some(DataUnavailable)
    else if Trim(c.organisation.value.name) == "" then Some(SellerNameMissing)
    else if c.customer.None? then Some(DataUnavailable)
    else if Trim(c.customer.value.name) == "" then Some(CustomerNameMissing)
    else if c.currency.None? then Some(CurrencyMissing)
    else if !A.ThreeCapitals(Upper(Trim(c.currency.value))) then Some(CurrencyInvalid)
    else None
  }

  /** Whether a Draft can be previewed. */
  lemma PreviewShownWhen(c: Capture)
    ensures match LiveParties(c)
            case NotShown(e) => LiveMissing(c) == Some(e)
            case Shown(_) => LiveMissing(c) == None
  {
    if c.currency.Some? { A.CurrencyProblem(c.currency.value); }
  }

  /** A preview shows the columns the live records would be frozen to. */
  lemma PreviewShows(c: Capture, t: TemplateSnapshot)
    requires LiveMissing(c).None?
    ensures var full := c.(template := Some(t));
            && A.Problem(full).None? && CaptureError(full).None? && A.Froze(Columns(PartyOf(full)), full)
            && LiveParties(c).Shown? && PartiesShow(Columns(PartyOf(full)), LiveParties(c).value)
  {
    var full := c.(template := Some(t));
    PreviewIsAccepted(c, t);
    PreviewParties(full);
    SnapshotShows(Columns(PartyOf(full)));
    assert LiveParties(full) == LiveParties(c);
  }

  lemma PreviewIsAccepted(c: Capture, t: TemplateSnapshot)
    requires LiveMissing(c).None?
    ensures var full := c.(template := Some(t));
            && LiveParties(c).Shown? && A.Problem(full).None?
            && CaptureError(full).None? && ValidateSnapshot(PartyOf(full)).None?
            && A.Froze(Columns(PartyOf(full)), full)
  {
    var full := c.(template := Some(t));
    PreviewShownWhen(c);
    A.CaptureProblem(full);
    A.CaptureFrozen(full);
  }

  lemma LabelShows(row: InvoiceRow, now: Time)
    requires row.dueDate % DAY == 0
    ensures StatusLabel(EffectiveStatus(row.status, row.dueDate, now))
         == match row.status
            case Draft => "DRAFT"
            case Paid => "PAID"
            case Cancelled => "CANCELLED"
            case Overdue => "OVERDUE"
            case Sent => if now >= row.dueDate + DAY then "OVERDUE" else ""
  {
    OverdueFromTheNextDay(row.status, row.dueDate, now);
  }

  /** The rest of the document, against the invoice row. */
  predicate RowShows(row: InvoiceRow, paid: int, now: Time, d: Document) {
    && d.invoiceNumber == row.invoiceNumber && d.issueDate == row.issueDate && d.dueDate == row.dueDate
    && d.lines == row.lines && d.vatRegistered == row.vatRegistered
    && d.subtotal == row.subtotal && d.vatTotal == row.vatTotal && d.total == row.total
    && PrintedAs(row.notes, d.notes)
    && d.statusLabel == StatusLabel(EffectiveStatus(row.status, row.dueDate, now))
    && d.paymentSummary == (if 0 < paid < row.total then Some((paid, row.total - paid)) else None)
  }

  lemma RowIsShown(row: InvoiceRow, parties: Parties, paid: int, now: Time)
    ensures RowShows(row, paid, now, Assemble(row, parties, paid, now))
    ensures Assemble(row, parties, paid, now).parties == parties
  {
    PrintedIs(row.notes);
  }

  lemma DocumentShows(row: InvoiceRow, c: Capture, paid: int, now: Time)
    ensures var parties := if row.status == Draft then LiveParties(c) else SnapshotParties(row.party);
            match BuildData(row, c, paid, now)
            case NotShown(e) => parties == NotShown(e)
            case Shown(d) => parties == Shown(d.parties) && RowShows(row, paid, now, d)
  {
    assert PartiesOf(row, c) == if row.status == Draft then LiveParties(c) else SnapshotParties(row.party);
    if PartiesOf(row, c).Shown? { RowIsShown(row, PartiesOf(row, c).value, paid, now); }
  }

  /** A Draft is laid out with the default template, an issued invoice with the
      one frozen on it, or the classic one if it has none. */
  lemma LayoutShows(row: InvoiceRow, c: Capture)
    ensures var t := if row.status == Draft then c.template else row.template;
            LayoutOf(row, c) == match t
              case Some(t) => Shown(Layout(t.name, t.definition, t.isSystem))
              case None => if row.status == Draft then NotShown(DataUnavailable) else Shown(Layout("", "", true))
  {
  }
}
