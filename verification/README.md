# A model of the invoicing server's money path

This project models, in Dafny, how the invoicing server keeps its books, and
proves what it keeps. Amounts are integer minor units; times are integer
nanoseconds; a database state is a value.

**The money path as concurrent transactions.** `Store` gives each call
(CreatePayment, Send, Cancel) its serial meaning: what it would do if it ran
alone, in one step. `Protocol` runs the same calls as PostgreSQL transactions,
statement by statement: begin, `FOR UPDATE` (blocked while another transaction
holds the row), each read of the latest committed rows, pending writes, COMMIT,
rollback at any statement, and a COMMIT that was applied although the client saw
an error. A run is any sequence of such steps of any number of transactions, so
every interleaving is a run. Its inductive invariant says that what a
transaction has read under its lock is still what is committed; from it follows
that each call takes effect, and answers, exactly as if alone at the step that
ends it, on the live records and the clock as it read them under its lock
(`Linearizable`); and a call that nothing comes between is the serial call
(`AloneIsSerial`). `Guarantees` states the results over whole runs: the
books balance, a payment key is used exactly once, what issuing an invoice
freezes is what its transaction read under its lock, and an issued invoice is an
immutable document. `Answers` says case by case what
each call answers and writes, in terms of the stored rows, the request and the
captured records alone. `Service` and `Invoices.Invoice` are the same code as
classes whose methods change fields in place, proved against the serial meaning.

**Settings, organisations and numbering.** `Versioned` is PATCH as two
statements, read-and-merge and compare-and-swap on `version`, beside writers that
do not touch the version; `Organisations` (with logo changes) and `Settings`
instantiate it, and `Numbering` interleaves it with Create transactions that
allocate invoice numbers under the settings lock.

**The rate limiter.** `RateLimit` is the keyed token bucket in exact integer
nanoseconds, with idle sweeping, a bounded map and the shared overflow bucket; it
refines one never-dropped bucket per key. `LimiterObjects` is the object code.

**Exact arithmetic and printers.** `Totals`, `MoneyFormat`, `MoneyInput`, and
`Fingerprint` (the canonical JSON of a payment request, with a decoder).

**Smaller state machines.** `Listing` (filters, order, pages, grouped totals),
`Templates` and `TemplateRaces`, `Archiving`, `Sessions`, `Pdf`. `Text`,
`Runs` and `Finite` hold what the others share.

## Findings

Some promises turn out false of the code. Where it and its documentation differ,
the model follows the code; each item names a lemma with the failing case and one
that says exactly when the promise holds.

- Invoice numbering can stop. Printed numbers are unique per organisation, so a
  prefix shortened from `A1` to `A` makes the eleventh number print like the
  first; every Create then fails until the prefix is edited again
  (`NumberingCanStop`, `StuckUntilEdited`). A Create that runs alone succeeds
  exactly when the next printed number is free (`CreateAlone`).
- An organisation can be left without a default template, although the service
  says it never is: SetDefault's statements interleave with a Delete
  (`StaleDeleteLosesDefault`, `LateSetLosesDefault`). `StepStaysAssured` says
  exactly which steps lose it.
- An archived customer can have a Draft, although archiving leaves "no window":
  Create checks the customer before its transaction begins
  (`LateInsertBreaksTheRule`). `StepKeepsNoneOpen` says exactly which step does it.
- A Sent invoice with total 0 can never become Paid (`ZeroTotalNeverPaid`); every
  other one is Paid exactly when it is settled (`BooksBalance`).

## Model

| member | source | states |
|---|---|---|
| Guarantees.BooksBalance | internal/invoice/invoice_service.go:993-1072 | after any run: payments of an invoice sum to at most its total; Paid exactly when they equal a positive total; none on a Draft or Cancelled invoice; a Sent one with a positive total is not settled; paid and outstanding add up to the total unless Cancelled, and outstanding is zero exactly when Paid, Cancelled or of total zero |
| Guarantees.OneHolderPerInvoice | internal/invoice/invoice_repository_postgres.go:272-357 | in any run at most one transaction is past its `FOR UPDATE` on an invoice |
| Guarantees.ExactlyOnce | internal/invoice/invoice_service.go:1014-1029 | a committed payment is for good the only one with its invoice and key, and every call with that key that reports success reports it and carries its fingerprint |
| Guarantees.ReportedPaymentIsTheOneAskedFor | internal/invoice/invoice_service.go:953-1077 | a reported payment stays committed and has the amount, method, texts and (if given) date of the request; one that was recorded also has the id chosen for it, the current date if none was given, and the key |
| Guarantees.RetryReplays | internal/invoice/invoice_service.go:1014-1029 | a repeated request is answered with its payment whatever the invoice's status by then, and changes nothing |
| Guarantees.ReusedKeyIsRefused | internal/invoice/invoice_service.go:1014-1024 | a different request with a used key is refused with that error and changes nothing |
| Guarantees.FailedAttemptLeavesKeyFree | internal/invoice/invoice_service.go:1000-1072 | an attempt rolled back at any statement leaves its key free: the next attempt commits |
| Guarantees.LifecycleMovesForward | internal/invoice/invoice.go:182-299 | over any run an invoice stays and its status only moves Draft, Sent, Paid or Cancelled |
| Guarantees.IssuedIsImmutable | internal/invoice/invoice_pdf_service.go:238-281 | over any run an issued invoice keeps number, dates, lines, totals, snapshot and template, and its PDF's parties, currency and layout do not depend on what the live records say |
| Guarantees.DocumentOnlyAges | internal/invoice/invoice_pdf_service.go:502-551 | the whole document of an issued invoice changes, over any run and any edits, at most in its status label and payment summary |
| Guarantees.IssueIsJustified | internal/invoice/invoice_service.go:765-861 | only a COMMIT issues a Draft; the time and each of the 22 snapshot columns it writes are what its transaction read, in order, since it took its lock, and nothing else in the row changes |
| Guarantees.IssueFreezesWhatWasRead | internal/invoice/invoice.go:182-242 | after any later run the PDF shows the preview of what was read then, in its layout |
| Guarantees.IssueFreezesThePreview | internal/invoice/invoice_pdf_service.go:238-281 | if no live record was edited meanwhile, that is the preview of the Draft at the moment it was issued |
| Guarantees.IssuedCanBeShown | internal/invoice/invoice_pdf_service.go:375-411 | while stored names are never blank, every invoice that is ever issued can be shown after any later run |
| Guarantees.NamedEditsStayNamed | internal/invoice/invoice_pdf_service.go:375-411 | names stay so over a run whose edits keep them so |
| Guarantees.WritersKeepNames | internal/customer/customer_service.go:55-85 | registration and a new customer do, refusing exactly the blank names |
| Guarantees.PatchKeepsNames | internal/administration/organisation_service.go:163-169 | so does every accepted PATCH of an organisation |
| Guarantees.ReportedDocumentStays | internal/invoice/invoice_service.go:627-748 | what a Send or Cancel reported is the document that is there after any later run |
| Guarantees.ZeroTotalNeverPaid | internal/invoice/invoice_service.go:1046-1063 | an invoice of total zero is never Paid |
| Guarantees.AloneIsSerial | internal/invoice/invoice_service.go:627-1072 | a call of any kind whose statements nothing comes between, on an invoice nobody holds, ends and leaves and answers exactly what the serial call does on the live records and the clock as they are |
| Guarantees.PaymentSucceedsWhen | internal/invoice/invoice_service.go:1043-1063 | run alone with a new key, a payment is recorded column by column as asked exactly on a Sent invoice with that much outstanding, and settles it exactly when it pays the rest; otherwise which error |
| Guarantees.SendSucceedsWhen | internal/invoice/invoice_service.go:627-678 | run alone, Send succeeds exactly for a Draft whose live records can be frozen, and freezes every column as it is |
| Guarantees.CancelSucceedsWhen | internal/invoice/invoice_service.go:692-748 | run alone, Cancel succeeds exactly for a Draft or Sent invoice with nothing paid (a Draft only if it can be frozen); a Sent row changes only in status and cancellation time |
| Answers.PaymentRefusedAtOnce | internal/invoice/invoice_service.go:953-1012 | a bad key, a bad amount and an unknown invoice are refused in that order, and nothing changes |
| Answers.PaymentAnsweredByKey | internal/invoice/invoice_service.go:1014-1029 | a taken key is answered with its payment or refused, by the fingerprint alone |
| Answers.PaymentAnsweredByBalance | internal/invoice/invoice_service.go:1043-1063 | with a new key, status and balance decide the answer and the rows written |
| Answers.RecordsNewPayment | internal/invoice/invoice_service.go:963-985 | the stored payment, column by column, the default date included |
| Answers.SendAnswer | internal/invoice/invoice_service.go:627-678 | every answer of Send, and the row it writes |
| Answers.CancelAnswer | internal/invoice/invoice.go:248-286 | every answer of Cancel, and the row it writes |
| Answers.CaptureProblem | internal/invoice/invoice_party_snapshot.go:86-130 | which error a capture that cannot be frozen gives, from the records read |
| Answers.CaptureFrozen | internal/invoice/invoice_service.go:765-828 | each of the 22 snapshot columns against the record it was captured from |
| Answers.NewRecordsShow | internal/customer/customer_service.go:55-85 | what is stored of a new organisation and a new customer, or that the name is refused |
| Protocol.StatementRefines | internal/invoice/invoice_service.go:1008-1058 | one statement under the lock keeps what was read true, or ends with no change and the serial call's answer on live records and a clock as they were since the lock |
| Protocol.CommitRefines | internal/invoice/invoice_service.go:1065-1072 | what a transaction is about to commit is what its call would do alone on the rows committed now and on what it read, in order, since it took its lock |
| Protocol.NextKeepsInv | internal/invoice/invoice_service.go:921-952 | every step of any transaction, failure, ambiguous commit, new invoice, live edit or clock change keeps the invariant, and the database only grows |
| Protocol.RunKeepsInv | internal/invoice/invoice_service.go:921-952 | the same over every run |
| Protocol.QuietIsInv | internal/invoice/invoice_service.go:921-952 | a system with no transaction in flight and its books in order satisfies the invariant, so every run from one does |
| Protocol.Linearizable | internal/invoice/invoice_service.go:627-1072 | the step at which a call ends leaves the database, and answers, as if it had run alone there on live records and a clock it read since it took its lock; a failed call changed nothing; an unknown one did all or nothing of that |
| Protocol.OnlyEndingsWrite | internal/invoice/invoice_service.go:1065-1072 | only a COMMIT or a new invoice changes the committed database |
| Protocol.UneditedCapture | internal/invoice/invoice_service.go:765-861 | if no live record was edited since the lock, the five reads are the live records as one |
| Protocol.SinceIsTheLock | internal/invoice/invoice_service.go:921-952 | the moment from which reads are taken is the one at which the transaction took its lock, and no later step changes it |
| Protocol.OtherInvoice | internal/invoice/invoice_repository_postgres.go:369-533 | writes to one invoice leave what transactions on other invoices have read true |
| Store.SerialKeepsSafe | internal/invoice/invoice_service.go:627-1072 | each call, alone, keeps every invoice's balance, the uniqueness of keys and the fingerprints, and only lets the database grow |
| Store.AppendPayment | internal/invoice/payment_repository_postgres.go:74-124 | adding a payment with an unused key that fits the balance keeps all of that |
| Store.FindKeyFinds | internal/invoice/payment_repository_postgres.go:198-249 | the lookup returns a payment of that invoice and key, or none exists |
| Store.SumPaidNonNegative | internal/invoice/payment_repository_postgres.go:258-278 | the sum of positive payments is zero exactly when the invoice has none |
| Store.KeyIsUnique | internal/database/migrations/000015_add_payments_idempotency.up.sql:33-35 | two payments of an invoice with the same key are the same payment |
| Store.NewPaymentMatches | internal/invoice/invoice_service.go:963-985 | a payment row's own fields reproduce the fingerprint stored on it |
| Service.InvoiceService.CreatePayment | internal/invoice/invoice_service.go:953-1077 | the call's new state and answer are the serial ones; nothing on failure; all or nothing when COMMIT errs |
| Service.InvoiceService.Send | internal/invoice/invoice_service.go:627-678 | likewise |
| Service.InvoiceService.Cancel | internal/invoice/invoice_service.go:692-748 | likewise |
| Service.InvoiceService.CaptureSnapshots | internal/invoice/invoice_service.go:765-861 | the five reads succeed with the captured records or give their first error |
| Service.InvoiceService.GetForUpdate | internal/invoice/invoice_repository_postgres.go:272-357 | the row read, or none outside the organisation |
| Service.InvoiceService.InsertPayment | internal/invoice/payment_repository_postgres.go:74-124 | the row appended when the invoice is visible, nothing otherwise |
| Service.InvoiceService.UpdateStatus | internal/invoice/invoice_repository_postgres.go:369-394 | only the status of the one row changes |
| Service.InvoiceService.MarkSentWithSnapshot | internal/invoice/invoice_repository_postgres.go:417-468 | status, sent time, snapshot and template of the one row change together |
| Service.InvoiceService.MarkCancelled | internal/invoice/invoice_repository_postgres.go:477-533 | status, cancellation time, snapshot and template of the one row change together |
| Invoices.Invoice.MarkSent | internal/invoice/invoice.go:182-195 | Draft to Sent with every field, or an error and no change |
| Invoices.Invoice.ApplySnapshots | internal/invoice/invoice.go:201-242 | every snapshot column set, or an error and no change |
| Invoices.Invoice.Cancel | internal/invoice/invoice.go:271-286 | to Cancelled with every field, a Sent invoice keeping its snapshot, or an error and no change |
| Invoices.TransitionsEvolve | internal/invoice/invoice.go:182-299 | every transition moves the status forward and changes nothing else but, on a Draft, the snapshot |
| Invoices.EvolvesTransitive | internal/invoice/invoice.go:182-299 | histories of an invoice compose |
| Invoices.OverdueFromTheNextDay | internal/invoice/invoice.go:332-362 | a Sent invoice is overdue exactly from the first moment of the day after its due date; no other status is derived |
| Pdf.PreviewIsIssued | internal/invoice/invoice_pdf_service.go:292-411 | sending a Draft freezes the parties, currency and layout its preview shows at that moment |
| Pdf.AcceptedSnapshotShown | internal/invoice/invoice_party_snapshot.go:86-104 | a snapshot that passes validation can be shown exactly when neither name is blank: validation compares with the empty string, the PDF with a trimmed one |
| Pdf.NamedSnapshotShown | internal/invoice/invoice_pdf_service.go:375-411 | so it can be shown whenever the names are stored ones |
| Pdf.SameAddress | internal/invoice/invoice_pdf_service.go:417-476 | an address prints alike live and from the snapshot |
| Pdf.CurrencyIsNormal | internal/invoice/invoice_party_snapshot.go:110-130 | a valid currency code is its own normal form |
| Pdf.SnapshotShows | internal/invoice/invoice_pdf_service.go:375-411 | whether an issued invoice can be shown, with which error not, and each printed party field against its column |
| Pdf.PreviewShownWhen | internal/invoice/invoice_pdf_service.go:292-364 | whether a Draft can be previewed, and with which error not |
| Pdf.PreviewShows | internal/invoice/invoice_pdf_service.go:292-364 | a preview shows the columns the live records would be frozen to |
| Pdf.DocumentShows | internal/invoice/invoice_pdf_service.go:502-551 | the amounts, dates, lines, notes and payment summary against the invoice row |
| Pdf.LabelShows | internal/invoice/invoice_pdf_service.go:557-570 | which label which status is marked with |
| Pdf.LayoutShows | internal/invoice/invoice_pdf_service.go:199-228 | a Draft takes the default template, an issued invoice its own or the classic one |
| Pdf.BuildAddressLines | internal/invoice/invoice_pdf_service.go:445-476 | appending the parts that are there gives the address lines |
| Pdf.NameIsShown | internal/invoice/invoice_pdf_service.go:484-493 | the buyer is shown by name, with a different company name before it |
| Fingerprint.FingerprintFaithful | internal/invoice/payment_idempotency.go:92-127 | two requests have equal canonical encodings exactly when they agree on amount, method, date or its absence, and trimmed texts |
| Fingerprint.DecodeEncode | internal/invoice/payment_idempotency.go:106-127 | a decoder recovers every field from the encoding |
| Fingerprint.EncodeInjective | internal/invoice/payment_idempotency.go:106-127 | different canonical requests are encoded differently |
| Fingerprint.QuoteInjective | internal/invoice/payment_idempotency.go:106-127 | JSON string escaping (section 7 of RFC 8259) is injective |
| Fingerprint.ReadEscaped | internal/invoice/payment_idempotency.go:106-127 | an escaped string is read back up to its closing quote |
| Fingerprint.FormatDateInjective | internal/invoice/payment_idempotency.go:106-127 | different dates are written differently |
| Fingerprint.EncodeShows | internal/invoice/payment_idempotency.go:92-127 | the encoding field by field, names and order included |
| Fingerprint.EscapeIsPlain | internal/invoice/payment_idempotency.go:106-127 | escaping leaves no control, markup or line-separator character and changes nothing else |
| Fingerprint.KeyCharsAre | internal/invoice/payment_idempotency.go:63-72 | which characters a key may have |
| Fingerprint.ValidateKey | internal/invoice/payment_idempotency.go:49-61 | the scan accepts exactly keys of 16 to 128 such characters |
| Versioned.ReadKeeps | internal/administration/settings_service.go:72-126 | reading and merging, in any state, keeps the history and every client's answer true |
| Versioned.SwapKeeps | internal/administration/settings_repository_postgres.go:211-250 | the compare-and-swap keeps the row the fold of exactly the accepted patches, one version each |
| Versioned.SideKeeps | internal/administration/settings_repository_postgres.go:278-301 | a writer that leaves `version` alone disturbs no patch |
| Versioned.SwapShows | internal/administration/settings_repository_postgres.go:211-250 | a swap succeeds exactly when no patch was accepted since its read, and writes the merge into the row it finds |
| Versioned.VersionShows | internal/administration/settings_repository_postgres.go:211-250 | the patch answered with version v is what turns version v-1 into version v |
| Organisations.PatchesAndLogos | internal/administration/organisation_repository_postgres.go:187-316 | in every interleaving the row is the fold of the accepted patches, version counts them, the logo is the one last set, VAT registration implies a VAT number and the name is never blank |
| Organisations.NextKeepsInv | internal/administration/organisation_service.go:151-232 | each step keeps that |
| Organisations.MergedIsNamed | internal/administration/organisation_service.go:163-169 | a merge never blanks the name |
| Organisations.MergeShows | internal/administration/organisation_service.go:151-232 | when a patch is accepted, which error not, and for every column: left out it stays, blank it is cleared, otherwise stored trimmed |
| Organisations.PatchAlone | internal/administration/organisation_repository_postgres.go:187-241 | an uninterrupted PATCH takes effect exactly when its version is current and its merge accepted |
| Organisations.AcceptedSwapShows | internal/administration/organisation_repository_postgres.go:187-241 | in any interleaving the accepted swap makes the next version and changes exactly what its patch says |
| Organisations.AcceptedPatchIsInItsVersion | internal/administration/organisation_repository_postgres.go:187-241 | whatever happens since, version v differs from the one before by exactly the patch answered with v |
| Organisations.Organisation.ApplyPatch | internal/administration/organisation_service.go:151-232 | field by field, the loaded object becomes the merged details, or the error is the merge's |
| Organisations.Organisation.ApplyOptional | internal/administration/organisation_service.go:180-214 | only supplied fields change, blank ones to none |
| Settings.UnitsAcceptedWhen | internal/administration/settings_service.go:131-154 | a unit list is accepted, trimmed, exactly when it has at most 50 units, each of 1 to 30 characters and none like an earlier one |
| Settings.UnitsRefusedFor | internal/administration/settings_service.go:131-154 | a refused list is refused for its first unit that is not acceptable, with the error for that |
| Settings.MergeShows | internal/administration/settings_service.go:72-126 | when a settings patch is accepted, which error not, and its effect field by field |
| Settings.NormalizeQuantityUnits | internal/administration/settings_service.go:131-154 | the loop with its set of seen keys computes the trimmed units or the first error |
| Settings.SettingsObject.ApplyPatch | internal/administration/settings_service.go:72-126 | the loaded settings become the merged ones, the counter untouched |
| Settings.SettingsObject.NextInvoiceNumber | internal/administration/settings.go:51-54 | the counter goes up by one and is returned |
| Numbering.NumbersHaveNoGaps | internal/invoice/invoice_service.go:303-365 | in every interleaving the committed invoices carry 1..N in commit order, each printed as its prefix and its number, the row says N, no two print alike, and no edit is lost |
| Numbering.NextKeepsInv | internal/administration/settings_repository_postgres.go:138-162 | each step of Create, PATCH, failure or ambiguous COMMIT keeps that |
| Numbering.NextIsNewUnderOnePrefix | internal/administration/settings.go:51-54 | while the prefix is unchanged the next printed number is new |
| Numbering.CreateAlone | internal/invoice/invoice_service.go:303-365 | a Create that runs alone commits the next number exactly when its printed form is free |
| Numbering.CreateAnswers | internal/invoice/invoice_service.go:303-365 | what such a Create answers and writes, under the prefix in force |
| Numbering.PatchAlone | internal/administration/settings_service.go:72-126 | an uninterrupted PATCH of the settings takes effect exactly when its version is current and its merge accepted |
| Numbering.AcceptedSwapShows | internal/administration/settings_repository_postgres.go:211-250 | in any interleaving the accepted swap makes the next version and changes exactly what its patch says |
| Numbering.StuckUntilEdited | internal/database/migrations/000007_create_invoices.up.sql:33-34 | once it is taken no Create succeeds, in any interleaving, until the settings are edited |
| Numbering.NumberingCanStop | internal/administration/settings_service.go:72-126 | a run of ordinary calls that reaches such a state |
| RateLimit.DenialIsNeutral | internal/ratelimit/ratelimit.go:86-97 | a denied request leaves its bucket's credit at every later time as if only time had passed |
| RateLimit.CreditNeverFalls | internal/ratelimit/ratelimit.go:86-97 | credit never falls by waiting and never exceeds the burst |
| RateLimit.RetryAfterTight | internal/ratelimit/ratelimit.go:86-97 | a later request is admitted exactly from the true delay on, and retryAfter exceeds it by less than a second |
| RateLimit.RetryAfterIsHonoured | internal/ratelimit/ratelimit.go:76-98 | a client refused by its own bucket and returning after retryAfter is admitted, whatever other keys did |
| RateLimit.SweepForgetsNothing | internal/ratelimit/ratelimit.go:128-135 | sweeping changes no key's credit |
| RateLimit.BucketForForgetsNothing | internal/ratelimit/ratelimit.go:102-124 | finding or making a bucket changes no key's credit |
| RateLimit.AllowBalance | internal/ratelimit/ratelimit.go:76-98 | a request spends from its own bucket or the shared one and from no other |
| RateLimit.MemoryBounded | internal/ratelimit/ratelimit.go:102-124 | after any run the map holds at most maxKeys buckets |
| RateLimit.Refines | internal/ratelimit/ratelimit.go:53-71 | every decision of a key's own bucket is that of one never-dropped bucket per key |
| RateLimit.FreshLimiterRefines | internal/ratelimit/ratelimit.go:53-71 | so from a new limiter, over any run |
| RateLimit.OwnExactlyWhen | internal/ratelimit/ratelimit.go:76-124 | exactly when a request is answered by its key's own bucket: it has one, or there is room, if need be after a due sweep |
| RateLimit.OwnWhenRoom | internal/ratelimit/ratelimit.go:102-124 | in particular whenever the key has a bucket or the map has room |
| RateLimit.FewKeysNeverShare | internal/ratelimit/ratelimit.go:53-71 | while at most maxKeys keys ever ask, every answer is the simple limiter's, without exception |
| RateLimit.BurstIsAdmitted | internal/ratelimit/ratelimit.go:53-71 | of requests a new key makes at once exactly the first `burst` are admitted |
| RateLimit.OwnCreditPays | internal/ratelimit/ratelimit.go:76-98 | what a key's own bucket admits is paid out of its credit and the time that passed |
| RateLimit.OverflowCreditPays | internal/ratelimit/ratelimit.go:102-124 | likewise all overflow keys together |
| RateLimit.WindowBound | internal/ratelimit/ratelimit.go:76-124 | in any window of length w a key's own bucket, and the overflow bucket, each admit at most burst + w/every, and one key at most twice that |
| RateLimit.OthersDoNotMatter | internal/ratelimit/ratelimit.go:102-124 | requests for other keys leave a key's credit to time alone |
| LimiterObjects.Limiter.Allow | internal/ratelimit/ratelimit.go:76-98 | the object's answer and new state are those of the abstract limiter |
| LimiterObjects.Limiter.BucketFor | internal/ratelimit/ratelimit.go:102-124 | the object found, made or shared is the abstract one's |
| LimiterObjects.Limiter.Sweep | internal/ratelimit/ratelimit.go:128-135 | the deleting loop drops exactly the buckets idle for the whole time to live |
| LimiterObjects.Bucket.TryNow | internal/ratelimit/ratelimit.go:86-97 | reserve, and cancel when the reservation must wait |
| Totals.ValidateLines | internal/invoice/invoice_service.go:1110-1162 | the loop lets lines through unchanged, or refuses for the first line not acceptable, with the first reason that applies |
| Totals.SumInvoiceTotals | internal/invoice/invoice_calculation.go:40-48 | the loop computes the three sums, and subtotal plus VAT is the total |
| Totals.OrderDoesNotMatter | internal/invoice/invoice_calculation.go:40-48 | the totals depend on the lines, not on their order |
| Totals.LineError | internal/invoice/invoice_calculation.go:22-35 | a line's total differs from its unrounded amount by at most 1/2 + (1 + rate/100)/2, and VAT lies between 0 and the total |
| Totals.TotalError | internal/invoice/invoice_calculation.go:22-48 | the invoice's total is within the sum of these bounds of the unrounded sum |
| Totals.SlackIs | internal/invoice/invoice_calculation.go:22-48 | that sum is n/2 plus half the sum of the factors 1 + rate/100 |
| Totals.NoVatWhenUnregistered | internal/invoice/invoice_service.go:255-297 | an invoice created without VAT registration has no VAT on any line |
| Totals.RefusedWhen | internal/invoice/invoice_service.go:255-261 | Create refuses exactly a taxed line of an organisation that is not registered |
| Totals.PartialSumsFit | internal/invoice/invoice_calculation.go:40-48 | every running sum lies between 0 and the final total |
| Totals.PreviewAgrees | web/src/lib/invoiceLineDraft.ts:94-112 | the browser's fold gives the same three totals |
| MoneyFormat.FormatMoneyExact | internal/invoice/pdf_format.go:40-75 | for every int64 and currency a reader recovers the amount from the printed text, and no intermediate value leaves its type |
| MoneyFormat.FormatMoneyInjective | internal/invoice/pdf_format.go:40-75 | amounts print alike exactly when they are equal |
| MoneyFormat.FormatMoneyShows | internal/invoice/pdf_format.go:40-59 | the printed form part by part: sign, symbol or code, whole units, two digits |
| MoneyFormat.AbsUint64 | internal/invoice/pdf_format.go:69-75 | the magnitude of every int64, the minimum included |
| MoneyInput.RoundTrip | web/src/lib/money.ts:64-89 | parsing the printed form of any safe amount gives the amount, for every currency |
| MoneyInput.NegativePrints | web/src/lib/money.ts:81-89 | a negative amount prints as its magnitude after a minus sign |
| MoneyInput.ParseIsExact | web/src/lib/money.ts:64-76 | an input is accepted exactly when it is a plain decimal with no excess places and in range, and then denotes its exact value in minor units |
| MoneyInput.TypedAmountMeans | web/src/lib/money.ts:25-76 | what a typed amount with a point is worth in each currency, or that it is refused |
| MoneyInput.TypedWholeMeans | web/src/lib/money.ts:25-76 | what a typed whole amount is worth, likewise |
| Listing.FilterIsEffectiveStatus | internal/invoice/invoice_repository_postgres.go:648-661 | filter and derived status agree on a row exactly unless it is stored, and asked for, as Overdue |
| Listing.FiltersPartition | internal/invoice/invoice.go:332-362 | after any run each invoice is selected by exactly one of the five filters, its effective status |
| Listing.BuildWhere | internal/invoice/invoice_repository_postgres.go:645-690 | the appended conditions, with their numbered arguments, select exactly the intended rows |
| Listing.PlainSearchIsContainment | internal/invoice/invoice_repository_postgres.go:668-671 | a search text without wildcards matches exactly the numbers containing it, in either case |
| Listing.WildcardsMatch | internal/invoice/invoice_repository_postgres.go:636-638 | an underscore in the search matches any one character, and a backslash takes the next literally |
| Listing.ListingIsUnique | internal/invoice/invoice_repository_postgres.go:717-734 | the order with its id tie-break determines the list |
| Listing.ListingExists | internal/invoice/invoice_repository_postgres.go:717-734 | and a list in that order always exists |
| Listing.OrderIs | internal/invoice/invoice_repository_postgres.go:615-622 | the order per sort field and direction, with its defaults |
| Listing.PagesTile | internal/invoice/invoice_repository_postgres.go:732-740 | consecutive pages, each queried on its own, make up the front of the list |
| Listing.BrowsingShowsEachRowOnce | internal/invoice/invoice_repository_postgres.go:639-740 | paging until the reported count shows exactly the selected rows, each once, in the order asked for |
| Listing.GroupsAreSums | internal/invoice/payment_repository_postgres.go:285-329 | the grouped totals, 0 when missing, are the per-invoice sums |
| Listing.GetTotalPaidByInvoiceIds | internal/invoice/payment_repository_postgres.go:285-329 | the loop fills the map with the sums of the organisation's own invoices among those asked for, in whatever order they arrive |
| Listing.List | internal/invoice/invoice_service.go:513-586 | one item per row with its sum and its currency, the live one for a Draft and the row's own otherwise, or the right error: a bad filter first, then any row without a currency |
| Templates.SerialRunKeeps | internal/template/template_service.go:62-193 | any sequence of calls, each atomic, leaves every organisation one system template, unedited, and exactly one default |
| Templates.SetDefaultChooses | internal/template/template_repository_postgres.go:251-275 | the chosen template, and no other, is the default |
| Templates.DeleteFallsBack | internal/template/template_service.go:141-177 | the template is gone; the default falls back to the system template if it was the one deleted and stays otherwise |
| Templates.RegistrationStartsWell | internal/template/template_repository_postgres.go:44-56 | a new organisation starts with both |
| Templates.TemplateService.Update | internal/template/template_service.go:101-129 | exactly name, definition and version of the one row change, or exactly which error: validation, a missing row, the system template, a stale version, in that order |
| Templates.TemplateService.Delete | internal/template/template_service.go:141-177 | the row is marked deleted, and if it was the default the system template becomes it; nothing else changes; or exactly which error |
| Templates.TemplateService.SetDefault | internal/template/template_service.go:183-193 | the chosen template is the one default and nothing but default flags of its organisation changes, or the error |
| Templates.TemplateService.Create | internal/template/template_service.go:62-82 | the new row, column by column, or the error and no change |
| TemplateRaces.AtMostOneDefaultEver | internal/template/template.go:62-71 | with SetDefault's statements apart, every interleaving keeps one system template, unedited, and at most one default |
| TemplateRaces.StepStaysAssured | internal/template/template_service.go:133-193 | exactly which steps leave no default and none on its way |
| TemplateRaces.QuietRunsKeepOneDefault | internal/template/template_service.go:133-193 | a run without such a step ends, once no SetDefault is half done, with exactly one default |
| TemplateRaces.StaleDeleteLosesDefault | internal/template/template_service.go:141-177 | a Delete that read the row before it became the default leaves none |
| TemplateRaces.LateSetLosesDefault | internal/template/template_service.go:183-193 | a SetDefault whose target is deleted between its UPDATEs leaves none |
| TemplateRaces.SetDefaultAlone | internal/template/template_repository_postgres.go:251-275 | uninterrupted, the three statements are the serial call |
| TemplateRaces.DeleteAlone | internal/template/template_service.go:141-177 | likewise |
| TemplateRaces.UpdateAlone | internal/template/template_service.go:101-129 | likewise |
| Archiving.StepKeepsNoneOpen | internal/customer/customer_repository_postgres.go:289-334 | in any interleaving with the money path, a step leaves every invoice of an archived customer Paid or Cancelled exactly unless it inserts for a customer archived since the check |
| Archiving.RunKeepsNoneOpen | internal/customer/customer_repository_postgres.go:289-334 | so over any run without such an insert |
| Archiving.SerialRunsKeepNoneOpen | internal/customer/customer_service.go:117-133 | and over every run in which Create is not interrupted |
| Archiving.OnlyActiveCustomersGain | internal/invoice/invoice_service.go:242-244 | in such a run a new invoice was added while its customer was active |
| Archiving.LateInsertBreaksTheRule | internal/invoice/invoice_service.go:234-303 | check, archive, insert leaves an archived customer with a Draft |
| Archiving.CreateIsBothHalves | internal/invoice/invoice_service.go:234-303 | Create is its check and its insert with nothing in between, and inserts exactly for an active customer of the organisation |
| Archiving.StatusChanges | internal/customer/customer_repository_postgres.go:289-334 | a status change is blocked only for archiving and only by a Draft, Sent or overdue invoice, and changes nothing else |
| Archiving.CustomerTable.UpdateStatus | internal/customer/customer_repository_postgres.go:289-334 | the guarded UPDATE, with exactly when each error is given |
| Sessions.RunIteration | internal/administration/session_cleanup_worker.go:97-126 | with logouts and any finite number of logins between the batches it ends; every batch took only sessions eligible at its reading; a drained exit leaves only sessions valid at the last reading |
| Sessions.SessionTable.DeleteExpired | internal/administration/session_repository_postgres.go:127-149 | exactly min(limit, eligible) eligible rows go |
| Sessions.SessionTable.Revoke | internal/administration/session_repository_postgres.go:160-177 | only the one row's revocation time changes |
| Sessions.ValidSessionsSurvive | internal/administration/session.go:40-46 | in any such history a session still valid and not logged out is kept as it was |
| Sessions.RemovedIsDead | internal/administration/session_repository_postgres.go:127-149 | whatever is removed was removed by a batch, and no reading from that batch on would accept it |
| Text.DecimalInjective | internal/invoice/invoice_service.go:340-340 | different numbers print differently |
| Text.TrimIdempotent | internal/invoice/invoice_service.go:1198-1205 | trimming twice is trimming once |
| Text.TrimIsInner | internal/invoice/invoice_service.go:1198-1205 | trimming cuts off white space at both ends and nothing else |
| Text.AcceptedIsNamed | internal/administration/registration_service.go:112-115 | a name that is accepted is stored trimmed and not blank |

## Left out

- HTTP handlers, routing, JSON decoding, authentication, logging, metrics, configuration, the React UI, the Node renderer and the drawing of PDFs.
- SQL text and pgx: a statement is its effect on rows, with its WHERE clause as guard. PostgreSQL's row locks, statement snapshots, unique indexes and foreign keys are trusted.
- Concurrency is modelled on values, as sequences of statements; the classes of `Service`, `Templates`, `Settings` and `Organisations` run one call at a time. A COMMIT is one step, and so are all the writes of one transaction, Delete's in `Templates` included.
- Lock time-outs, deadlocks and cancelled statements are all a failure that rolls back.
- The five reads behind a snapshot are separate statements, as in the source, so a snapshot can mix live records from before and after an edit made while the transaction held its lock.
- Service.InvoiceService.GetForUpdate: does not model the row lock, because the class runs one call at a time; `Protocol` has the lock.
- Sessions.RunIteration: logins that never stop are left out, since with them the source's loop need not end.
- Floating point: quantities and VAT rates are reals, and line arithmetic is exact before each rounding.
- Overflow of int64 sums: amounts are integers; `Totals.PartialSumsFit` gives the bound under which the server's sums fit.
- The internals of golang.org/x/time/rate: replaced by an exact bucket in integer nanoseconds, under the assumption that `NewLimiter`, `ReserveN` and `CancelAt` at one instant behave like it; times passed in never go back.
- SHA-256: taken as collision-free, so a fingerprint is its canonical encoding. Texts are sequences of characters, valid UTF-8 in the source's terms.
- Case mapping and white space beyond the ASCII letters and the Unicode spaces that the trim functions name.
- UUIDs are numbers, and the generated ones are parameters; clocks, defaults for today's date and e-mail syntax are parameters too.
- Request validation before the transactions (dates, product ids and lookups) apart from the rules named above; Create is modelled from its customer check, its VAT rule, its arithmetic and its numbering transaction.
- Invoice lines are part of the invoice row; nothing updates or soft-deletes either.
- Amounts and dates inside `Pdf` documents are values; their printed forms are functions of the value and the currency.
- Listing.List: the page, its count and the totals are read at one moment, while the source runs three statements.
- Listing.ListingIsUnique: the database's collation is any strict weak order on strings.
- The React form around the money fields.
- Aliasing through `WithTx` and the wiring of repositories.
- Product, customer and address editing, user management, migrations, release tooling and sample data.
