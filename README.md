# A verified model of a multi-tenant ERP backend

This project is a Dafny model of the core of a Django ERP backend for small
companies. Each organization (tenant) keeps customers and suppliers, sells
through quotes, invoices and delivery notes, buys through purchase orders and
supplier invoices, and keeps stock per product and warehouse. The model covers
the parts of the backend that hold real logic:

- **Tenant layer** (`core.dfy`): the organization named by the `/t/<slug>/`
  segment of a request path, the slug rule, the seven-day trial window and
  memberships.
- **Money** (`money.dfy`, `sales_pricing.dfy`, `purchase_amounts.dfy`):
  exact decimal amounts as integers at the database column's scale (cents,
  thousandths of a unit, hundredths of a percent) and rounding to the cent with
  ties to even. Sales round every line base, group the bases by tax rate and
  round the tax once over the whole sum. Purchases round base and tax on every
  line and then add the lines up.
- **Numbering** (`sales_numbering.dfy`): one counter row per
  (organization, series, year) that hands out consecutive invoice numbers.
- **Stock** (`stock_ledger.dfy`, `inventory_models.dfy`, `inventory_views.dfy`):
  balances `(on_hand, reserved)` per (organization, product, warehouse) and an
  append-only move log. The services are receive, reserve, release, confirm
  outgoing and transfer, plus the endpoints that forward to them. Every
  service is all-or-nothing and keeps `0 <= reserved <= on_hand`.
- **Sales documents** (`sales_models.dfy`, `sales_invoice.dfy`,
  `sales_quote.dfy`, `sales_delivery.dfy`): draft invoices get lines, are
  posted with a number, and take payments that derive the payment status.
  Quotes change status freely and an accepted one converts into a draft
  invoice. Confirming a delivery note ships its lines out of stock in one
  transaction.
- **Purchases** (`purchase_models.dfy`, `purchase_serializers.dfy`,
  `purchase_views.dfy`): order and supplier-invoice status rules, the
  supplier check, and the stock moves written when a supplier invoice is
  posted. Supplier payments are checked against over-payment with a one-cent
  tolerance.
- **Reports** (`analytics_series.dfy`, `analytics_reports.dfy`): the yearly
  income and expenses summary, the sales, expenses and VAT series per month,
  quarter or year, receivables, top customers, and quoted against invoiced
  amounts. Every database query is an input sequence of rows.
- **Contacts** (`contacts_*.dfy`): the record shapes, display name, upload
  paths and constraints, the four field validators, the CSV import job, the
  month handling of the employee financials view, and two serializers with
  cross-field checks.
- **Accounts** (`accounts_utils.dfy`): the verification and password-reset
  links, and the token tables in which only the newest token of a user is live.
- **Agenda** (`agenda_*.dfy`): the event and note filters, the alerts banner
  and the unpaid-invoice markers.
- **Billing** (`billing_*.dfy`): the plan table, the limit gate in front of
  create views, and the Stripe webhook's updates to the subscription row.

`common.dfy`, `text.dfy` and `dates.dfy` hold the shared vocabulary: options
and results, sums over sequences, Python's string primitives over ASCII, and
proleptic Gregorian dates.

Code that changes records in place is modelled as classes whose methods state
the whole new state (`Organization`, `Ledger`, `InvoiceSequences`, `Invoice`, `Quote`,
`DeliveryNote`, `PurchaseOrder`, `SupplierInvoice`, `TokenTables`,
`ContactTable`, `WarehouseTable` and `SubscriptionTable`). Pure code is modelled as functions and lemmas.
Wherever the source loops, the model has a method with a loop, proved equal
to a recursive specification function. An example is
`SalesPricing.ComputeInvoiceTotals` against `SalesPricing.InvoiceTotals`.

Four behaviours of the code are easy to get wrong, and the model keeps each
as written:

- Sales tax is rounded once over the sum of all rate buckets, not once per
  bucket (sales/pricing.py:24-26).
- A negative sales quantity gives a negative base; nothing clamps it
  (sales/pricing.py:15-20).
- Posting a sales invoice does not check that it has lines
  (sales/services_invoice.py:48-69).
- Sales payments are not checked against the invoice total
  (sales/services_payment.py:11-34).

Amounts are integers at the scale of their database column. A unit price,
for instance, is a whole number of cents, because the `unit_price` column has
two decimals.

## Model

| member | source | states |
|---|---|---|
| Core.NonEmptyParts | core/middleware.py:11 | the kept parts are non-empty and no more than the parts split |
| Core.NonEmptyPartsAppend | core/middleware.py:11 | filtering out empty parts distributes over concatenation |
| Core.FirstT | core/middleware.py:13 | `parts.index("t")`: none exactly when no part is "t", and otherwise the index of the first "t" |
| Core.ResolveOrgFromPath | core/middleware.py:9-16 | a slug is found exactly when some segment is "t" and another segment follows the first one; it is that following segment, non-empty and without '/' |
| Core.SegmentsHaveNoSlash | core/middleware.py:11 | no path segment contains a slash |
| Core.LeadingSlash | core/middleware.py:11 | a leading slash does not change the segments |
| Core.TrailingSlash | core/middleware.py:11 | a trailing slash does not change the segments |
| Core.RepeatedSlash | core/middleware.py:11 | doubling a slash does not change the segments |
| Core.ResolveIgnoresSlashes | core/middleware.py:9-16 | the resolved slug is the same with a leading, a trailing or a doubled slash |
| Core.RequestOrg | core/middleware.py:19-29 | `request.org` is set exactly when the path names a slug some organization has, and is then that organization |
| Core.ValidSlugMatchesPattern | core/models.py:6-9 | the slug check accepts exactly the strings `^[a-z0-9]+(?:-[a-z0-9]+)*$` matches |
| Core.JoinedRunsShape | core/models.py:7 | runs of [a-z0-9] joined by single hyphens never start or end with a hyphen nor have two in a row |
| Core.ShapeIsValid | core/models.py:7 | non-empty [a-z0-9-] text without a leading, trailing or doubled hyphen passes the check |
| Core.ValidSlugShape | core/models.py:6-9 | a slug is valid exactly when it is non-empty [a-z0-9-] text with no hyphen at either end and none doubled |
| Core.Organization.constructor | core/models.py:17-24 | a new organization keeps its name and slug, starts its trial now, and has the given (possibly unset) trial end |
| Core.Organization.Save | core/models.py:26-29 | saving sets a missing trial end to the save time plus seven days and keeps one already set; nothing else changes |
| Core.TrialEndAfterSave | core/models.py:27-28 | a stored trial end is kept; a missing one becomes exactly 7 × 24 × 3600 seconds after the save |
| Core.FreshTrialWindow | core/models.py:31-33 | a trial saved without an end is active at a later time exactly when less than 604800 seconds have passed |
| Core.SaveNewOrganization | core/models.py:23-33 | a new organization saved without a trial end has the seven-day end and its trial is active at the time of saving |
| Core.ParseRole | core/models.py:38-44 | a stored role code reads back as the role whose code it is, and an unknown code as none of the five |
| Core.RoleRoundTrip | core/models.py:38-44 | every role's code parses back to that role |
| Core.AddMembership | core/models.py:46-52 | a second membership of the same user in the same organization is refused; otherwise the membership, with role "member" by default, is appended and the pairs stay unique |
| Money.RoundHalfEven | sales/pricing.py:4-7 | `quantize(..., ROUND_HALF_EVEN)` of `n / d`: the result is within half a step of the exact value, and on an exact tie it is even |
| Money.RoundHalfEvenUnique | sales/pricing.py:4-7 | the two conditions of half-even rounding admit a single integer, so the rounding is fully determined |
| Money.Quantize | sales/pricing.py:4-7 | `money` of a value with k decimals is the cent amount within half a cent of it, even on a tie |
| Money.QuantizeCents | sales/pricing.py:4-7 | a value that already has two decimals is returned unchanged (the extra `money` on sums is the identity) |
| Money.QuantizeNonPositive | purchases/views.py:39-55 | a value that is not positive never rounds to a positive amount |
| Money.QuantizeNonNegative | purchases/views.py:39-55 | a value that is not negative never rounds to a negative amount |
| SalesPricing.LineBase | sales/pricing.py:15-20 | a line base is the cent amount nearest to `qty*unit*(1-disc/100)`, ties to the even cent; a missing discount counts as 0 |
| SalesPricing.AddToBucket | sales/pricing.py:21 | adding a line base to the rate dictionary adds it to that rate's entry, or makes a new entry, and leaves other rates alone |
| SalesPricing.Buckets | sales/pricing.py:13-21 | the dictionary built by the loop has one entry per distinct rate |
| SalesPricing.InvoiceTotals | sales/pricing.py:9-28 | `total_base` is the exact sum of the rounded line bases; `total_tax` is the single half-even rounding of the exact tax sum; `total == total_base + total_tax` |
| SalesPricing.BucketSums | sales/pricing.py:21-24 | summing the dictionary gives the same base and tax as summing over the lines |
| SalesPricing.BucketHoldsItsLines | sales/pricing.py:21 | a rate's entry is the sum of the bases of exactly the lines carrying that rate |
| SalesPricing.BucketPerRate | sales/pricing.py:13-21 | there is an entry for a rate iff some line carries that rate |
| SalesPricing.TotalsIgnoreLineOrder | sales/pricing.py:9-28 | any permutation of the lines gives the same totals |
| SalesPricing.NoLinesNoTotals | sales/pricing.py:13-28 | no lines give (0.00, 0.00, 0.00) |
| SalesPricing.NegativeQtyBase | sales/pricing.py:15-20 | a negative quantity is not clamped: at a non-negative price the base is not positive |
| SalesPricing.HalfEvenExample | sales/pricing.py:19-27 | 3.500 x 10.55 = 36.925 gives base 36.92 (the even cent), tax 7.75, total 44.67 |
| SalesPricing.NegativeQtyExample | sales/pricing.py:19-20 | quantity -1.000 at 10.00 gives base -10.00 |
| SalesPricing.TaxRoundedOnceExample | sales/pricing.py:24-26 | 0.10 at 5% plus 0.10 at 25% gives tax 0.03, rounded once over the sum, where rounding each bucket would give 0.02 |
| SalesPricing.ComputeInvoiceTotals | sales/pricing.py:9-28 | the loop over the lines into `bases_por_iva`, then the sums, returns exactly `InvoiceTotals` |
| SalesPricing.SumDictionary | sales/pricing.py:23-24 | the two sums over the dictionary's values and items |
| SalesNumbering.FirstNumberIsOne | sales/services_numbering.py:14-22 | the first number for a (org, series, year) with no row is 1 |
| SalesNumbering.IssueIncrements | sales/services_numbering.py:20-22 | each call returns the stored `last_number` plus one and stores exactly what it returns |
| SalesNumbering.IssueLeavesOtherKeys | sales/services_numbering.py:14-21 | rows of every other (org, series, year) keep their number and their existence |
| SalesNumbering.RunIsConsecutive | sales/services_numbering.py:14-22 | successive calls return consecutive integers after the stored one |
| SalesNumbering.FreshRunCountsFromOne | sales/services_numbering.py:14-22 | for a fresh key, `count` calls return exactly 1, 2, ..., count |
| SalesNumbering.InvoiceSequences.NextInvoiceNumber | sales/services_numbering.py:9-22 | the year returned is the current year given to the call; the table and the number are those of one `Issue` on (org, series, year) |
| StockLedger.ItemAtValid | inventory/services.py:7-12 | in a consistent table, the item a service reads (or the zero item `get_or_create` would insert) has `0 <= reserved <= on_hand` |
| StockLedger.ReceiveKeepsValid | inventory/services.py:15-26 | receiving a non-negative quantity keeps `0 <= reserved <= on_hand` for every item |
| StockLedger.ReserveOutcome | inventory/services.py:29-37 | a reservation fails iff the row cannot exist or `on_hand - reserved < qty`; on success on-hand is unchanged, the available quantity drops by `qty` and no move is logged |
| StockLedger.ReserveKeepsValid | inventory/services.py:29-37 | reserving a non-negative quantity keeps every balance consistent |
| StockLedger.ReleaseClamps | inventory/services.py:40-48 | a release lowers the reservation to `max(reserved - qty, 0)`, leaves on-hand alone and logs no move |
| StockLedger.ReleaseKeepsValid | inventory/services.py:40-48 | releasing a non-negative quantity keeps every balance consistent |
| StockLedger.ConfirmOutcome | inventory/services.py:51-70 | shipping fails iff the row cannot exist or `on_hand < qty`; otherwise on-hand drops by `qty`, the reservation by `min(reserved, qty)`, and one `-qty` move from the warehouse is appended |
| StockLedger.ConfirmKeepsValid | inventory/services.py:51-70 | shipping a non-negative quantity keeps every balance consistent |
| StockLedger.TransferKeepsValid | inventory/services.py:73-77 | a transfer of a non-negative quantity keeps every balance consistent |
| StockLedger.TransferConserves | inventory/services.py:73-77 | a transfer fails iff the warehouses coincide, a row cannot exist or the source is short; otherwise the two warehouses' combined on-hand is unchanged, the source drops by `qty`, every other item is untouched and exactly two "transfer" moves are appended |
| StockLedger.MovesBalanceSnoc | inventory/services.py:21-25 | appending a move adds its signed quantity to the balance of the item it touches |
| StockLedger.EmptyIsBalanced | inventory/models.py:86-87 | empty tables agree with an empty move log |
| StockLedger.ReceiveKeepsBalanced | inventory/services.py:15-26 | after a receipt, every on-hand quantity is still the signed sum of the moves logged for its item |
| StockLedger.ConfirmKeepsBalanced | inventory/services.py:51-70 | after a shipment, every on-hand quantity is still the signed sum of its logged moves |
| StockLedger.ReservationsKeepBalanced | inventory/services.py:29-48 | reserving and releasing change no on-hand quantity and log nothing |
| StockLedger.TransferKeepsBalanced | inventory/services.py:73-77 | both halves of a transfer are logged, so on-hand still equals the move sums |
| StockLedger.NegativeReceiptBreaksBalance | inventory/services.py:15-18 | `receive_stock` does not check the sign: receiving -5.000 into an empty item succeeds and leaves on-hand below the reservation |
| StockLedger.Ledger.ItemForUpdate | inventory/services.py:7-12 | returns the stored item, or inserts and returns a zero item; fails with no change when the product or warehouse row is missing |
| StockLedger.Ledger.ReceiveStock | inventory/services.py:14-26 | the tables become `Receive` of the old tables on success and stay as they were on failure; returns the refreshed item |
| StockLedger.Ledger.ReserveStock | inventory/services.py:28-37 | the tables become `Reserve` of the old tables, or stay unchanged on failure |
| StockLedger.Ledger.ReleaseReservation | inventory/services.py:39-48 | the tables become `Release` of the old tables |
| StockLedger.Ledger.ConfirmOutgoingStock | inventory/services.py:50-70 | the tables become `ConfirmOutgoing` of the old tables, or stay unchanged on failure |
| StockLedger.Ledger.TransferBetween | inventory/services.py:72-77 | both halves of the transfer commit together or the tables stay as they were |
| InventoryModels.ParseReason | inventory/models.py:93-99 | a stored reason code names one of the five choices, and an unknown code names none |
| InventoryModels.ReasonCodeRoundTrip | inventory/models.py:93-99 | every reason parses back from its own code |
| InventoryViews.AdjustOutcome | inventory/views.py:93-105 | an adjustment of `qty >= 0` (0 included) adds it to on-hand; a negative one ships `abs(qty)` and fails iff fewer units are on hand; either way one move of the signed quantity with reason "adjustment" is logged |
| InventoryViews.AdjustKeepsValid | inventory/views.py:93-105 | an adjustment of either sign keeps `0 <= reserved <= on_hand` |
| InventoryViews.NegativeReceiveBreaksBalance | inventory/views.py:84-91 | the receive endpoint passes a negative quantity through, which leaves an item with on-hand below its reservation |
| InventoryViews.ReceiveAction | inventory/views.py:84-91 | the tables become `receive_stock` with reason "purchase" and no reference, or stay as they were on failure |
| InventoryViews.AdjustAction | inventory/views.py:93-105 | the tables become the receipt or shipment with reason "adjustment" that the sign selects |
| InventoryViews.TransferAction | inventory/views.py:107-117 | the request's product, source, destination and quantity are passed to `transfer_stock` unchanged |
| InventoryViews.WarehouseTable.PerformUpdate | inventory/views.py:54-60 | the row is saved first; deactivating a warehouse that still has an item with on-hand > 0 then fails, after the change is stored; a code already used in the org is refused before anything is stored; the organization is never changed, as the serializer has no org field |
| InventoryViews.ProductQuery | inventory/views.py:25-48 | a product is listed iff it is in the org and passes every filter the parameters switch on (text, category, is_service "0"/"1", tax rate, `in_stock` in the given or any warehouse); each appears once |
| InventoryViews.WarehouseNarrowsInStock | inventory/views.py:43-47 | naming a warehouse can only narrow the `in_stock` filter |
| InventoryViews.NoFiltersListsOrg | inventory/views.py:25-48 | with no parameter set, every product of the org is listed |
| SalesModels.ParseInvoiceStatus | sales/models.py:89-97 | a stored invoice status reads back as the choice whose code it is, and an unknown code as none of the three |
| SalesModels.ParsePaymentStatus | sales/models.py:98-102 | a payment status code reads back as its choice ("unpaid", "partial", "paid") or as none |
| SalesModels.ParsePaymentMethod | sales/models.py:178-190 | a payment method code reads back as "transfer", "card" or "cash", or as none |
| SalesModels.ParseQuoteStatus | sales/models.py:194-207 | a quote status code reads back as one of the five quote choices, or as none |
| SalesModels.ParseDeliveryStatus | sales/models.py:41-45 | a delivery note status reads back as "draft" or "done", or as none |
| SalesModels.StatusCodesRoundTrip | sales/models.py:41-45 | every choice's stored code parses back to that same choice, for all five choice sets |
| SalesModels.LineDescription | sales/services_invoice.py:28 | an explicit description is kept; an empty one falls back to the product's name, or to "" without a product |
| SalesModels.NewLine | sales/services_invoice.py:25-34 | the created line keeps the product id, the quantity, unit, price, tax rate and discount as given, with the fallback description |
| SalesModels.Pricing | sales/services_invoice.py:39 | the priced rows are the document's lines, one for one and in order, reduced to quantity, price, discount and tax rate |
| SalesModels.SumsOverPricing | sales/services_invoice.py:39-40 | summing bases or tax units over the priced rows equals summing them over the lines themselves |
| SalesModels.DocumentTotalsIgnoreOrder | sales/services_invoice.py:38-45 | the stored totals depend only on the multiset of lines, not on the order the database returns them in |
| SalesModels.LineFromInput | sales/services_quote.py:152-162 | an absent key takes its default (description "", qty 0, uom "unidad", price 0.00, tax 21.00, discount 0.00), a present key is copied |
| SalesInvoice.PaymentStatusMeaning | sales/services_payment.py:25-31 | the status is "unpaid" exactly when nothing is paid, "paid" exactly when a non-zero sum reaches the total, and "partial" otherwise |
| SalesInvoice.PaymentStatusMonotone | sales/services_payment.py:25-31 | adding a non-negative payment never moves the status back from paid to partial or from partial to unpaid |
| SalesInvoice.OverpaymentIsPaid | sales/services_payment.py:12-31 | no check rejects an amount above the total: an over-paid invoice is simply "paid" |
| SalesInvoice.EmptyInvoiceAnyPaymentPaid | sales/services_payment.py:25-31 | an invoice posted without lines has a zero total, so any positive payment marks it paid |
| SalesInvoice.PostNumberNeverCollides | sales/services_invoice.py:53-57 | with the year in the unique key and the index in step with the sequencer, posting always succeeds, keeps them in step and takes the sequence's next number |
| SalesInvoice.NewYearCollidesAsWritten | sales/models.py:141-142 | under the key `(org, series, number)` the first invoice of a new year draws number 1 again and collides with last year's number 1 |
| SalesInvoice.NewYearRestartsCorrected | sales/services_numbering.py:9-22 | with the year in the key the same two posts both succeed, each as number 1 of its year |
| SalesInvoice.InvoiceNumberIndex.constructor | sales/models.py:141-142 | the index of `(org, series, number)` keys held by stored invoices starts empty |
| SalesInvoice.OwnKey | sales/models.py:141-142 | an invoice holds one key in the unique index exactly when it has a number, and none otherwise |
| SalesInvoice.Invoice.constructor | sales/models.py:83-118 | a created draft carries the number it was created with, since the NOT NULL column needs one; it is unpaid, with zero totals and no lines or payments, and keeps the given series, date, customer, address and currency |
| SalesInvoice.Invoice.Unnumbered | sales/services_quote.py:102-111 | the draft of the corrected quote conversion: like a created draft, but without a number until it is posted |
| SalesInvoice.Invoice.CopyLines | sales/services_quote.py:113-123 | copying appends the given lines, field for field and in order, and changes nothing else on the invoice |
| SalesInvoice.Invoice.AddLine | sales/services_invoice.py:12-34 | a non-draft invoice refuses the line with a validation error and keeps its lines; a draft one appends exactly the new line; the header (series, number, date, customer, address, currency), status, payment status, payments and totals stay |
| SalesInvoice.Invoice.RecomputeTotals | sales/services_invoice.py:38-45 | the stored base, tax and total become the invoice totals of the current lines; the header, status, payments and lines stay |
| SalesInvoice.Invoice.Post | sales/services_invoice.py:48-69 | a non-draft invoice is refused unchanged; a draft takes its series or the default and the sequencer's next number for the year; if another invoice already holds that `(org, series, number)` (the year is not in the key) it fails with an integrity error and everything, the counter included, is rolled back; otherwise it gets fresh totals and status "posted", and date, customer, address, currency, lines and payments stay |
| SalesInvoice.Invoice.RegisterPayment | sales/services_payment.py:11-34 | only a posted invoice takes a payment; the payment is appended and the status becomes the one derived from the new sum against the stored total; the header, status, lines and totals stay |
| SalesQuote.LinesFromInputs | sales/services_quote.py:152-162 | the rows created are one per input, in order, each the input with its defaults |
| SalesQuote.ConversionFailsAsWritten | sales/services_quote.py:102-111 | converting an accepted, unlinked quote inserts an invoice without a number, which the NOT NULL column rejects |
| SalesQuote.CreateInvoiceFrom | sales/services_quote.py:102-129 | the new invoice is a fresh unpaid draft of series "A" with the quote's date, customer, address and currency, a copy of its lines and those lines' totals |
| SalesQuote.Quote.constructor | sales/models.py:193-221 | a new quote is a draft in EUR with no address, expiry date, lines, invoice link or totals |
| SalesQuote.Quote.AddLine | sales/services_quote.py:11-34 | a quote that is neither draft nor sent refuses the line; otherwise exactly the new line is appended; the header (number, date, expiry, customer, address, currency), status, totals and link stay |
| SalesQuote.Quote.RecomputeTotals | sales/services_quote.py:68-76 | the stored totals become the totals of the quote's lines; the header, lines, status and link stay |
| SalesQuote.Quote.ReplaceLines | sales/services_quote.py:136-165 | a quote that is neither draft nor sent is refused unchanged; otherwise its lines become exactly the inputs with defaults, in order, and the totals are theirs; the header, status and link stay |
| SalesQuote.Quote.ChangeStatus | sales/services_quote.py:79-86 | an unknown code is refused unchanged; a known one becomes the status; the code of any of the five statuses is accepted and set, whatever the current status (accepted may go back to draft); the header, lines, totals and link stay |
| SalesQuote.Quote.ConvertToInvoice | sales/services_quote.py:89-134 | a quote that is not accepted is refused; a linked one returns its invoice unchanged; otherwise a fresh unnumbered draft invoice copying the quote is created and linked (the corrected conversion); the quote's header, lines, status and totals stay |
| SalesDelivery.ShippedQtyNonNegative | sales/services_delivery.py:41-52 | with non-negative line quantities, the quantity shipped of any product is non-negative |
| SalesDelivery.ShippedQtyOfAbsent | sales/services_delivery.py:41-52 | a product no line names ships nothing |
| SalesDelivery.ProductlessLinesSkipped | sales/services_delivery.py:42 | lines without a product are skipped: with none having a product, the stock stays as it was |
| SalesDelivery.ConfirmLinesEffect | sales/services_delivery.py:41-52 | a successful confirmation lowers on-hand in the note's warehouse by the quantity shipped of each product, leaves other items alone, and appends one "sale"/"DN" move per product line |
| SalesDelivery.ConfirmLinesSucceeds | sales/services_delivery.py:41-52 | confirmation succeeds exactly when every product's item exists and the warehouse holds at least the total the note ships of each product |
| SalesDelivery.ConfirmLinesKeepsValid | sales/services_delivery.py:41-52 | shipping non-negative quantities keeps every balance within its bounds |
| SalesDelivery.ConfirmLinesKeepsBalanced | sales/services_delivery.py:41-52 | every shipment is logged, so the move log still explains every on-hand balance |
| SalesDelivery.DeliveryNote.constructor | sales/models.py:35-45 | a new delivery note is a draft with no lines and the given header |
| SalesDelivery.DeliveryNote.AddLine | sales/services_delivery.py:11-33 | a confirmed note refuses the line; a draft appends exactly the new line; number, date, customer, warehouse and status stay |
| SalesDelivery.DeliveryNote.Confirm | sales/services_delivery.py:36-55 | a confirmed note is refused; a draft ships its lines as one transaction, committing the whole result and becoming "done" on success, or rolling everything back and staying a draft |
| PurchaseModels.ParseOrderStatus | purchases/models.py:32-38 | a stored order status reads back as the choice whose code it is, and an unknown code as none of the five |
| PurchaseModels.OrderStatusRoundTrip | purchases/models.py:32-38 | every order status's code parses back to that status |
| PurchaseAmounts.CalcLineAmounts | purchases/views.py:39-55 | a quantity that is not positive has base 0.00; otherwise the base is within half a cent of `qty * price * (1 - disc/100)`, even on a tie; the tax is the base's tax rounded on its own; the total is base plus tax |
| PurchaseAmounts.ZeroQtyCostsNothing | purchases/views.py:48-49 | a line with no positive quantity stores base, tax and total 0.00 whatever its price |
| PurchaseAmounts.PositiveQtyBaseAsSales | purchases/views.py:50-52 | for a positive quantity the stored base is the base the sales pricing gives the same line |
| PurchaseAmounts.PerLineTaxDiffersFromSales | purchases/views.py:53 | two lines of 0.10 at 5% and at 25% give 0.02 of tax when rounded per line, while the sales totals round the sum once to 0.03 |
| PurchaseAmounts.PurchaseTotals | purchases/views.py:58-79 | the document total is the sum of the lines' stored bases plus the sum of their stored taxes |
| PurchaseAmounts.PurchaseTotalsSnoc | purchases/views.py:61-63 | appending a line adds exactly its own base and tax to the totals |
| PurchaseAmounts.PurchaseTotalsIgnoreOrder | purchases/views.py:61-63 | the totals do not depend on the order the lines are read in |
| PurchaseAmounts.NonPositiveLinesTotalZero | purchases/views.py:48-49 | priced lines that all have no positive quantity add up to zero totals |
| PurchaseAmounts.SumLineAmounts | purchases/views.py:58-79 | the loop of both recalculations yields the base sum, the tax sum and their sum |
| PurchaseAmounts.PurchasePaymentStatusMeaning | purchases/views.py:82-96 | "unpaid" exactly when the total or the paid sum is not positive, "partial" exactly when a positive sum is more than a cent short, "paid" otherwise |
| PurchaseAmounts.ToleranceDiffersFromSales | purchases/views.py:90 | one cent short is "paid" for a supplier invoice while the sales rule says "partial" |
| PurchaseAmounts.NegativeSumDiffersFromSales | purchases/views.py:88-89 | a negative paid sum is "unpaid" for a supplier invoice while the sales rule says "partial" |
| PurchaseAmounts.CheckPayment | purchases/views.py:347-351 | a payment is admitted exactly when the total is positive and the payments, counting this one, exceed it by at most one cent; both refusals are validation errors |
| PurchaseAmounts.AdmittedPaymentStatus | purchases/views.py:350-354 | after an admitted positive payment sum the invoice is never "unpaid", and is "paid" exactly when the sum is within a cent of the total |
| PurchaseSerializers.ValidateSupplier | purchases/serializers.py:78-84 | a supplier is accepted unchanged exactly when it belongs to the context org and is of type "supplier"; a foreign one gets the org message first |
| PurchaseSerializers.NoOrgRejectsEverySupplier | purchases/serializers.py:79-81 | without an org in the context no supplier is accepted |
| PurchaseSerializers.Writable | purchases/serializers.py:138 | the kept request fields are exactly the sent fields that are not read-only, with their sent values |
| PurchaseSerializers.InvoiceStatusNotWritable | purchases/serializers.py:138 | a request can never set a supplier invoice's status, payment status or total |
| PurchaseViews.ResolveProduct | purchases/views.py:151-154 | no product (or id 0) resolves to none; a named product resolves exactly when it exists in the org, to its id and name, and is otherwise a 404 |
| PurchaseViews.RequestLine | purchases/views.py:156-177 | the stored line takes each request value or its default, the product-name fallback description, and the amounts `_calc_line_amounts` gives for those values |
| PurchaseViews.AppendPriced | purchases/views.py:161-177 | appending a priced line keeps every line's stored amounts consistent with its inputs |
| PurchaseViews.PurchaseOrder.constructor | purchases/models.py:27-84 | a new order is a draft in EUR with no lines and zero totals |
| PurchaseViews.PurchaseOrder.RecalcTotals | purchases/views.py:58-67 | the order's totals become the sums of its lines' stored amounts; number, supplier, warehouse, currency, lines and status stay |
| PurchaseViews.PurchaseOrder.AddLine | purchases/views.py:146-182 | an unknown product is a 404 and changes nothing; otherwise the request line is appended and the totals recomputed, whatever the order's status; the header and status stay |
| PurchaseViews.PurchaseOrder.Send | purchases/views.py:184-194 | only a draft becomes "sent"; any other status is refused and kept; the header, lines and totals stay |
| PurchaseViews.PurchaseOrder.Receive | purchases/views.py:196-207 | draft, sent or partially received become "received"; received or cancelled orders are refused; the header, lines and totals stay |
| PurchaseViews.PurchaseMoves | purchases/views.py:99-120 | every move written is an incoming "purchase" move of positive quantity into the invoice's warehouse, referencing the supplier invoice |
| PurchaseViews.PurchaseMovesCount | purchases/views.py:105-107 | exactly one move is written per line with a product and a positive quantity |
| PurchaseViews.MovesBalanceAppend | purchases/views.py:109-120 | the net effect of two move logs on an item is the sum of their effects |
| PurchaseViews.PositiveMovesBalance | purchases/views.py:112-115 | incoming moves of positive quantity only add to an item's logged balance |
| PurchaseViews.PostingBreaksBalance | purchases/views.py:99-120 | posting writes moves but updates no on-hand balance, so the move log stops explaining the stock of the items moved |
| PurchaseViews.CreateStockMovesForInvoice | purchases/views.py:99-120 | the move log gains exactly the invoice's purchase moves, in line order, and no stock item changes |
| PurchaseViews.SupplierInvoice.constructor | purchases/models.py:149-226 | a new supplier invoice is an unpaid draft in EUR with no lines, payments or totals |
| PurchaseViews.SupplierInvoice.RecalcTotals | purchases/views.py:70-79 | the invoice's totals become the sums of its lines' stored amounts; number, supplier, warehouse, currency, order link, lines, status, payments and payment status stay |
| PurchaseViews.SupplierInvoice.RecalcPaymentStatus | purchases/views.py:82-96 | the payment status becomes the one the tolerance rule gives for the current payments and total; the header, lines, status, payments and totals stay |
| PurchaseViews.SupplierInvoice.AddLine | purchases/views.py:235-274 | a non-draft invoice is refused before the product lookup; a draft one appends the request line and recomputes its totals, or fails with 404 unchanged; the header, status, payments and payment status stay |
| PurchaseViews.SupplierInvoice.Post | purchases/views.py:276-303 | a posted or cancelled invoice, or one without lines, is refused unchanged; otherwise it is posted with fresh totals and its purchase moves are logged, on-hand untouched and the payment status not recomputed; the header, lines and payments stay |
| PurchaseViews.SupplierInvoice.Cancel | purchases/views.py:305-317 | only a draft can be cancelled; cancelled and posted invoices are refused and kept; the header, lines, totals, payments and payment status stay |
| PurchaseViews.SupplierInvoice.CreatePayment | purchases/views.py:339-357 | a payment the check refuses changes nothing; an admitted one is stored under the requester's organization, whatever the invoice's, is appended and the status recomputed; the payments never go beyond the tolerance through this method; the header, lines, status and totals stay |
| PurchaseViews.ForeignPaymentSettlesInvoice | purchases/views.py:339-354 | a requester of another organization can settle a 100.00 invoice: the check admits the payment, it is stored outside the invoice's organization, and the invoice becomes paid |
| PurchaseViews.SupplierInvoice.CreateScopedPayment | purchases/serializers.py:151-164 | corrected create: an invoice of another organization is refused without change; otherwise the as-written create; the invoice's payments stay in its organization |
| PurchaseViews.SupplierInvoice.UpdatePayment | purchases/views.py:359-377 | the new amount (or the old one when absent) is checked against the other payments; on success only that payment changes: it takes the new amount, the sent date, method and notes (the stored ones when absent) and the requester's organization, and the status is recomputed; the header, lines, status and totals stay |
| PurchaseViews.SupplierInvoice.DestroyPayment | purchases/views.py:381-386 | the payment is removed without any check, the paid sum drops by its amount and the status is recomputed; removing a non-negative payment keeps the invoice within the tolerance; the header, lines, status and totals stay |
| AnalyticsReports.OpenItems | analytics/services.py:407-435 | the loop lists at most one item per queried invoice, each with something pending and never in status "paid" |
| AnalyticsReports.PendingSplitsByStatus | analytics/services.py:416-422 | the total pending is exactly the "unpaid" amount plus the "partial" amount: a listed invoice is in one of the two |
| AnalyticsReports.TotalPendingPositive | analytics/services.py:407-416 | the total pending is never negative, and positive exactly when some posted, not fully paid invoice of the org has something left |
| AnalyticsReports.InsertDesc | analytics/services.py:438-441 | inserting into a list sorted by descending key keeps it sorted and adds exactly the new item |
| AnalyticsReports.SortByKeyDesc | analytics/services.py:438-441 | the sort yields a permutation of the items in descending `(pending, days)` order |
| AnalyticsReports.ListPrefix | analytics/services.py:442 | `s[:n]` is a prefix of `s` of length `min(n, len)` for non-negative n, and drops the last `-n` items for a negative n |
| AnalyticsReports.FirstOpen | analytics/services.py:445-446 | the first invoice is none exactly when no invoice is open, and otherwise the open invoice with the lowest id |
| AnalyticsReports.ReceivablesOverview | analytics/services.py:351-454 | the report carries the given date, the total and per-status sums of pending amounts, the sorted items cut to `limit`, and the first open invoice's currency or "EUR" |
| AnalyticsReports.TopInvoicesOrdered | analytics/services.py:437-442 | the listed invoices are in descending order of what they owe, and each is an open invoice with something pending |
| AnalyticsReports.TopInvoicesLimit | analytics/services.py:442 | with a non-negative limit exactly `min(limit, n)` invoices are listed |
| AnalyticsReports.TopCustomers | analytics/services.py:589-650 | a negative limit is refused; otherwise the items are the first `limit` grouped rows in order, each with its display name and its sums or zero |
| AnalyticsReports.FallbackNamesDistinct | analytics/services.py:644 | two different customers without a contact row get different `ID n` names |
| AnalyticsReports.ConversionRatio | analytics/services.py:685-688 | the ratio is zero when nothing positive was quoted, and otherwise the invoiced amount divided by the quoted one |
| AnalyticsReports.RatioWithinUnit | analytics/services.py:668 | invoicing no more than was quoted gives a ratio between 0 and 1 |
| AnalyticsReports.QuotesVsInvoices | analytics/services.py:652-694 | the report holds the quoted base of the org's non-draft quotes in range, the invoiced base of its posted invoices in range, and their ratio |
| AnalyticsReports.DraftQuotesIgnored | analytics/services.py:671 | a draft quote never adds to the quoted total, whatever its amount and date |
| AnalyticsReports.OnlyCountedQuotes | analytics/services.py:671-681 | quotes that are drafts, of another org, or outside the range add up to nothing |
| AnalyticsSeries.RowsForAbsent | analytics/services.py:42-47 | a year with no grouped row adds nothing |
| AnalyticsSeries.OpeningsAbsent | analytics/services.py:65-70 | a year with no financial-year row has no opening income or expenses |
| AnalyticsSeries.SingleRowOfYear | analytics/services.py:35-47 | when a year has a single grouped row, its amount is that row's sum, or zero for a null sum |
| AnalyticsSeries.UnseenYear | analytics/services.py:27-32 | a year no row mentions has the default entry, with zero income, expenses and profit |
| AnalyticsSeries.StoreKeepsOrder | analytics/services.py:27 | storing into the dict keeps its insertion order duplicate-free and in step with its keys |
| AnalyticsSeries.IncomeStep | analytics/services.py:42-47 | after each invoice row the dict holds, for every year seen, the sums of the rows so far |
| AnalyticsSeries.ExpenseStep | analytics/services.py:57-62 | after each expense row the dict holds, for every year seen, the sums of the rows so far |
| AnalyticsSeries.OpeningStep | analytics/services.py:66-70 | after each financial year the dict holds its opening balances added to that year's entry |
| AnalyticsSeries.InsertYear | analytics/services.py:77 | inserting a new year into an ascending list keeps it strictly ascending with exactly one more year |
| AnalyticsSeries.SortYears | analytics/services.py:77 | sorting distinct years gives a strictly ascending list of the same years |
| AnalyticsSeries.WithProfit | analytics/services.py:73-74 | the profit pass sets every entry's profit to its income minus its expenses and changes nothing else |
| AnalyticsSeries.ListByYear | analytics/services.py:77 | the values come out in strictly ascending year order, each entry exactly once |
| AnalyticsSeries.YearlySummary | analytics/services.py:14-78 | the summary lists, in ascending order, exactly the years of any invoice row, expense row or financial year, each with opening plus grouped sums and their difference |
| AnalyticsSeries.NormalizeGroupBy | analytics/services.py:121-123 | "year" and "quarter" in any case select their grouping; anything else, or nothing, falls back to month |
| AnalyticsSeries.NormalizeGroupByIdempotent | analytics/services.py:121-123 | the grouping the response reports selects the same grouping when passed back |
| AnalyticsSeries.NormalizeGroupByIgnoresCase | analytics/services.py:121-123 | "YEAR" and "Quarter" select year and quarter; "week" and no value select month |
| AnalyticsSeries.YearLabelParses | analytics/services.py:144 | the year label `str(year)` reads back as the year |
| AnalyticsSeries.MonthLabelShape | analytics/services.py:198 | the month label of a four-digit year is seven characters with the dash at index 4 |
| AnalyticsSeries.MonthLabelInjective | analytics/services.py:198 | two months of non-negative years share a label only when they are the same month |
| AnalyticsSeries.MonthLabelSplit | analytics/services.py:198 | a month label splits at the dash into the year's digits and the two-digit month |
| AnalyticsSeries.QuarterLabelInjective | analytics/services.py:170 | two quarters of non-negative years share a label only when they are the same quarter |
| AnalyticsSeries.QuarterLabelSplit | analytics/services.py:170 | a quarter label splits at the dash into the year's digits and "Q" with the quarter |
| AnalyticsSeries.SeriesItems | analytics/services.py:139-204 | the series has at most one item per grouped row |
| AnalyticsSeries.SeriesTotalsOfRows | analytics/services.py:206-209 | the series totals are what the kept rows add up to; rows with a null year, quarter or month count for nothing |
| AnalyticsSeries.SeriesItemsFromRows | analytics/services.py:139-204 | every item is that of a kept row |
| AnalyticsSeries.Series | analytics/services.py:125-219 | the loop yields the items of the kept rows in query order and the totals of their sums |
| ContactModels.ParseContactType | contacts/choices.py:4-12 | a stored contact type reads back as "client", "employee" or "supplier", or as none |
| ContactModels.ContactTypeRoundTrip | contacts/choices.py:4-12 | every contact type's code parses back to that type |
| ContactModels.ContactLabel | contacts/models.py:134-136 | the label is never empty: the razon social when set, else the stripped full name when that is not empty, else "Contacto <pk>" |
| ContactModels.NatToStringInjective | contacts/models.py:136 | different primary keys print differently |
| ContactModels.FallbackLabelsDistinct | contacts/models.py:136 | two saved contacts with no name at all get different labels |
| ContactModels.UploadPathSegments | contacts/models.py:45-52 | the stored path is exactly `org/<org>/<kind>/<owner>[/<subdir>]/<uuid>__<basename>`, segment by segment, for all four upload builders |
| ContactModels.UploadPathDropsDirectories | contacts/models.py:51 | directories in the uploaded file's name never reach the stored path; only its basename does |
| ContactModels.Clashes | contacts/models.py:122-131 | a row clashes exactly when its partial key is present and some stored row has the same key |
| ContactModels.InsertUnique | contacts/models.py:122-131 | an insert fails with an integrity error exactly when the row clashes, and otherwise appends it and keeps the table unique |
| ContactModels.Others | contacts/models.py:122-131 | the rows an update of row j is checked against are all rows but j, in order |
| ContactModels.UniqueAppend | contacts/models.py:122-131 | appending a row that clashes with none keeps the table unique |
| ContactModels.UniqueReplace | contacts/models.py:122-131 | an update that clashes with no other row keeps the table unique |
| ContactModels.BlankContactsNeverClash | contacts/models.py:122-131 | contacts without email and without document id never violate either constraint |
| ContactModels.EmailSharedAcrossTypes | contacts/models.py:122-126 | a client and a supplier of one organization may share an email |
| ContactModels.SecondPayslipRefused | contacts/models.py:232-237 | a second payslip of one contact for one month is refused |
| ContactModels.OtherCategoriesUnconstrained | contacts/models.py:232-237 | attachments of any other category are never refused by the payslip constraint |
| ContactModels.HoursUniqueMeansNoRepeat | contacts/models.py:303-304 | no two hours rows share contact, date and reference |
| ContactModels.RevenueUniqueMeansNoRepeat | contacts/models.py:345-346 | no two revenue rows share location and period |
| ContactModels.ValidateRange | contacts/models.py:81-82 | a value passes exactly when it lies between the minimum and the maximum; otherwise a validation error |
| ContactModels.ValidateRetencion | contacts/models.py:81-82 | a withholding passes exactly when it is between 0 and 100 percent |
| ContactModels.ValidateRating | contacts/models.py:162 | a rating passes exactly when it is between 1 and 5 |
| ContactModels.DefaultsValid | contacts/models.py:81-82 | the declared defaults (withholding 0, rating 3) pass their own validators |
| ContactValidators.IndexOfFirst | contacts/validators.py:8 | an index holding the first occurrence of a character is what the search finds |
| ContactValidators.EmailRunOfSlice | contacts/validators.py:8 | a non-empty slice of whitespace-free text without "@" matches `[^@\s]+` |
| ContactValidators.EmailShapeMatches | contacts/validators.py:8 | text of the recognised shape matches the email expression |
| ContactValidators.MatchesEmailShape | contacts/validators.py:8 | any text built as run "@" run "." run has the recognised shape |
| ContactValidators.EmailShapeIsRegex | contacts/validators.py:8 | the recogniser accepts exactly the language of `[^@\s]+@[^@\s]+\.[^@\s]+` |
| ContactValidators.PhoneShapeIsRegex | contacts/validators.py:7 | the recogniser accepts exactly the language of `[+]?\d[\d\s\-]{6,20}` |
| ContactValidators.ValidateEmail | contacts/validators.py:14-16 | the empty value passes; any other passes exactly when the whole of it matches the email expression; failures say "Email no válido" |
| ContactValidators.ValidateEmailAsWritten | contacts/validators.py:8-16 | with Python's `$`, a value also passes when it is a match followed by one final newline |
| ContactValidators.EmailTrailingNewline | contacts/validators.py:8 | "a@b.c\n" passes the validator as written and fails the anchored one |
| ContactValidators.ValidatePhone | contacts/validators.py:21-23 | the empty value passes; any other passes exactly when it matches the phone expression; failures say "Teléfono no válido" |
| ContactValidators.ValidateIban | contacts/validators.py:28-30 | the empty value passes; otherwise the value without spaces, upper-cased, must be two letters, two digits and 1 to 30 letters or digits |
| ContactValidators.ValidateDocumentId | contacts/validators.py:35-37 | the empty value passes; otherwise the upper-cased value must be 8 to 10 letters or digits |
| ContactValidators.RemoveCharConcat | contacts/validators.py:29 | dropping a character distributes over concatenation |
| ContactValidators.RemoveInnerSpace | contacts/validators.py:29 | an inner space disappears when spaces are dropped |
| ContactValidators.IbanIgnoresSpaces | contacts/validators.py:29 | a space anywhere inside a non-empty IBAN does not change the verdict |
| ContactValidators.BlankIbanRejected | contacts/validators.py:29 | a value of spaces only is not empty, so it is checked and rejected |
| ContactValidators.DocumentIdIgnoresCase | contacts/validators.py:36 | lower-casing a document id does not change the verdict |
| ContactImport.NormBool | contacts/jobs.py:19-21 | a value is read as true only when it is present and not blank |
| ContactImport.NormBoolIgnoresCase | contacts/jobs.py:20 | upper-casing a value does not change how it is read |
| ContactImport.NormBoolBlank | contacts/jobs.py:20-21 | a missing or all-whitespace value is false |
| ContactImport.NormalizeRowKeys | contacts/jobs.py:48 | the normalised keys are exactly the lower-cased non-empty headers |
| ContactImport.NormalizeRowLastWins | contacts/jobs.py:48 | a key holds the stripped value of the last item with that key |
| ContactImport.TipoFromRowFirst | contacts/jobs.py:49 | a row's own non-empty type, stripped and lower-cased, is the type read, whatever the job's default |
| ContactImport.StripAll | contacts/jobs.py:78 | every kept piece is non-empty and has no whitespace at either end |
| ContactImport.SplitTags | contacts/jobs.py:78 | every tag is non-empty and contains no comma |
| ContactImport.TagsRoundTrip | contacts/jobs.py:78 | stripped, non-empty, comma-free tags come back unchanged from their comma-joined text |
| ContactImport.CopyColumnsHolds | contacts/jobs.py:65-69 | the copy holds exactly the listed columns but "tipo" that the row has, each with its raw value |
| ContactImport.ConvertBoolsHolds | contacts/jobs.py:72-74 | only the boolean columns present change, each to its `_norm_bool` reading; the keys stay |
| ContactImport.BoolColumnsDistinct | contacts/jobs.py:72 | no boolean column is listed twice and the tag column is not among them |
| ContactImport.PayloadColumns | contacts/jobs.py:64-78 | the payload holds exactly the accepted columns but "tipo" the row has; booleans are read, a non-empty tag text is split, other columns keep their text or NULL |
| ContactImport.BuildPayload | contacts/jobs.py:64-78 | the three loops build exactly that payload |
| ContactImport.FirstMatch | contacts/jobs.py:60-62 | `.first()` is none exactly when no contact of the org has the value, and otherwise the earliest one that has it |
| ContactImport.FindExisting | contacts/jobs.py:58-62 | a found contact belongs to the importing organization |
| ContactImport.MatchPrefersDocument | contacts/jobs.py:59-62 | a document id on file always decides the match, whatever the email says |
| ContactImport.NoKeysNoMatch | contacts/jobs.py:58-62 | a row without document id and email always creates a contact |
| ContactImport.SaveRow | contacts/jobs.py:80-95 | a created contact is the next id with the type, payload and user; an update rewrites exactly the matched contact with the payload over its columns, the new type and the user; a text for the user key or a bad column is an error; a saved change fits the table |
| ContactImport.ImportRow | contacts/jobs.py:47-95 | one row's work always yields a change that fits the table, and a saved contact has one of the three types |
| ContactImport.BadTipoRejected | contacts/jobs.py:49-51 | a row whose type is missing or unknown fails with the type error, whatever else it holds |
| ContactImport.JobForFits | contacts/jobs.py:47-95 | every change the row work produces fits the table it was computed on |
| ContactImport.RunCounts | contacts/jobs.py:45-98 | every row is counted exactly once, as created, as updated or as an error |
| ContactImport.RunErrorLines | contacts/jobs.py:45-98 | error line numbers grow strictly and lie between 2 and the last data line |
| ContactImport.ApplyValid | contacts/jobs.py:80-95 | applying a change that fits keeps both unique constraints and the id order |
| ContactImport.RunValid | contacts/jobs.py:45-98 | an import never breaks the unique constraints nor the id order |
| ContactImport.RunKeepsOtherOrgs | contacts/jobs.py:54-62 | contacts of other organizations come out of an import unchanged |
| ContactImport.Take | contacts/jobs.py:105 | `errors[:n]` is a prefix of at most n errors, and all of them when there are no more than n |
| ContactImport.ProcessRow | contacts/jobs.py:47-95 | the row's steps compute exactly the row's outcome, which fits the table |
| ContactImport.RunOneMore | contacts/jobs.py:45-98 | running one more row is applying that row's outcome to the state so far |
| ContactImport.ImportRows | contacts/jobs.py:45-98 | the loop ends in exactly the state the rows produce in order |
| ContactImport.ContactTable.constructor | contacts/models.py:59-136 | the contacts table starts empty with next id 1 |
| ContactImport.ContactTable.ImportContacts | contacts/jobs.py:23-107 | an unknown org or user is refused and nothing changes; otherwise the table becomes the result of the rows, the report counts every row and lists at most 2000 errors, and the table stays valid |
| ContactImport.ReportCounts | contacts/jobs.py:100-105 | created plus updated plus errors is the number of rows, and at most 2000 errors are reported |
| EmployeeFinancials.ParseMonth | contacts/views/employee_financials.py:24-38 | a parsed month is always 1..12, and text without a "-" (after stripping spaces and trailing slashes) is never a month |
| EmployeeFinancials.ParseMonthText | contacts/views/employee_financials.py:24-38 | "YYYY-MM", with or without a trailing slash, reads back as that year and month |
| EmployeeFinancials.ParseMonthRejects | contacts/views/employee_financials.py:26-31 | the empty text and text without a "-" are refused |
| EmployeeFinancials.ParseMonthRejectsMonth13 | contacts/views/employee_financials.py:34-35 | a month number outside 1..12 is refused even when both halves are numbers |
| EmployeeFinancials.MonthRange | contacts/views/employee_financials.py:19-22 | the range runs from the month's first to its last valid day, and a valid date lies in it exactly when it is in that month |
| EmployeeFinancials.MonthRangeEndsMonth | contacts/views/employee_financials.py:21 | the day after the range's end is the first day of another month |
| EmployeeFinancials.FebruaryRange | contacts/views/employee_financials.py:21 | February ends on the 29th exactly in Gregorian leap years |
| EmployeeFinancials.YearZeroEscapesAsWritten | contacts/views/employee_financials.py:43-48 | "0000-01" parses, so the view reaches `date(0, 1, 1)` and fails with an exception instead of a 400 |
| EmployeeFinancials.MonthParam | contacts/views/employee_financials.py:42-48 | never a server error; a month is answered exactly when the value parses to a year in 1..9999, and is then a valid range within one month that starts on day 1 |
| EmployeeFinancials.MonthParamAgrees | contacts/views/employee_financials.py:42-48 | the corrected answer equals the one as written wherever that one is not an exception, and is a 400 where it is |
| EmployeeFinancials.CurrentCompensation | contacts/views/employee_financials.py:61-65 | none exactly when no compensation of the employee overlaps the month; otherwise one that overlaps it with the latest start, and the earliest such row |
| EmployeeFinancials.OpenEndedInForce | contacts/views/employee_financials.py:62-63 | an open-ended compensation that started by the month's end is in force for the month |
| EmployeeFinancials.EndedNotChosen | contacts/views/employee_financials.py:63 | a compensation that ended before the month began is never chosen |
| ContactSerializers.ValidateCompensation | contacts/serializers/compensation.py:16-21 | refused exactly when both the sent-or-stored start and the sent-or-stored end are known and the end is before the start; accepted data comes back unchanged |
| ContactSerializers.NullFinAccepted | contacts/serializers/compensation.py:18-19 | an explicitly null end is accepted whatever the start |
| ContactSerializers.FinCheckedAgainstStoredStart | contacts/serializers/compensation.py:17-20 | an update that sends only an end is checked against the stored start, and refused exactly when it falls before it |
| ContactSerializers.AcceptedPeriodOrdered | contacts/serializers/compensation.py:19-21 | when both dates are sent and accepted, the start is not after the end |
| ContactSerializers.ValidateAttachment | contacts/serializers/attachments.py:11-16 | refused exactly when the effective category is "nomina" and there is no effective month, where an absent or empty category and an absent or null month fall back to the stored values; accepted data comes back unchanged |
| ContactSerializers.OtherCategoryNeedsNoPeriod | contacts/serializers/attachments.py:14 | any other non-empty category passes without a period |
| ContactSerializers.NullPeriodUnkeysPayslip | contacts/serializers/attachments.py:11-16 | as written, an update sending a null month for a stored payslip with a month is accepted and saves a payslip without a month, outside the one-payslip-per-month constraint |
| ContactSerializers.ValidateSavedAttachment | contacts/serializers/attachments.py:11-16 | corrected: refused exactly when the row to be saved is a payslip without a month; accepted data comes back unchanged |
| ContactSerializers.ValidatedPayslipIsKeyed | contacts/models.py:229-237 | with the corrected check, an accepted update that leaves a payslip always has a month, so the constraint applies to it |
| ContactSerializers.SavedCheckAgrees | contacts/serializers/attachments.py:11-16 | when no empty category and no null month is sent, the corrected check accepts exactly what the one as written accepts |
| AccountTokens.FrontendLink | accounts/utils.py:30-31 | the link is the base without its trailing slashes, then the path, then the token, with nothing else between |
| AccountTokens.DefaultVerificationUrl | accounts/utils.py:26-31 | with no base configured the link points at http://localhost:5173/verify-email |
| AccountTokens.TrailingSlashIgnored | accounts/utils.py:31 | a base with a trailing slash gives the same link as the base without it |
| AccountTokens.LinkDeterminesToken | accounts/utils.py:26-31 | two tokens that give the same link are the same token |
| AccountTokens.VerificationIsNotReset | accounts/utils.py:26-92 | a verification link never equals a password-reset link, whatever the two tokens |
| AccountTokens.Invalidate | accounts/utils.py:17-19 | every unused token of the user is marked used at the given time; every other token is left as it was |
| AccountTokens.SingleLiveToken | accounts/utils.py:12-23 | after a token is created it is the only unused token of its user, and other users' tokens are untouched |
| AccountTokens.NotifyPasswordChanged | accounts/utils.py:131-161 | no mail and false without an address; otherwise the notice goes to the user's address alone, from the configured or default sender; true exactly when a mail was handed over and the transport reported a delivery (a raised exception reads as false) |
| AccountTokens.NotifyEmailChanged | accounts/utils.py:164-195 | no mail and false without an old address; otherwise the notice goes to the old address alone and its message contains both the old and the new address; true exactly when the transport reported a delivery |
| AccountTokens.EmailChangedBodyDeterminesNew | accounts/utils.py:172-181 | for one old address, the message tells different new addresses apart |
| AccountTokens.EmailChangedBodyDeterminesOld | accounts/utils.py:172-181 | for one new address, the message tells different old addresses apart |
| AccountTokens.TokenTables.CreateVerificationToken | accounts/utils.py:12-23 | retires the user's unused verification tokens, appends the new unused one and returns it; the reset table is untouched |
| AccountTokens.TokenTables.CreatePasswordResetToken | accounts/utils.py:73-84 | the same for the reset table, leaving the verification table untouched |
| AccountTokens.TokenTables.SendVerificationEmail | accounts/utils.py:34-68 | without an email: false, no token and no change; otherwise a new token, the mail carries its verification link, and the result is whether a delivery was reported |
| AccountTokens.TokenTables.SendPasswordResetEmail | accounts/utils.py:95-129 | without an email or for an inactive user: false, no token and no change; otherwise a new reset token and its link, the result as above |
| AgendaSerializers.ValidateContact | agenda/serializers.py:4-10 | refused exactly when a contact is linked and it belongs to another organization; accepted data comes back unchanged |
| AgendaSerializers.Accepted | agenda/serializers.py:12-24 | the read-only organization and timestamps never come from the input, and a note's hidden owner is the requesting user |
| AgendaSerializers.CreateEvent | agenda/serializers.py:12-16 | an event is refused exactly for a foreign contact; otherwise it is saved in the request's organization, without an owner, with the submitted contact and fields |
| AgendaSerializers.CreateNote | agenda/serializers.py:18-29 | a note is refused exactly for a foreign contact; otherwise it is saved in the request's organization and owned by the requesting user |
| AgendaSerializers.NoteOwnershipForced | agenda/serializers.py:26-29 | two payloads that differ only in organization, owner or timestamps create the same note |
| AgendaSerializers.NoContactAccepted | agenda/serializers.py:7-8 | a payload with no contact is never refused |
| AgendaViews.Filter | agenda/views.py:24-42 | the kept rows are rows of the input that pass the test, and every input row that passes is kept |
| AgendaViews.NarrowMember | agenda/views.py:24-42 | one `filter(...)` keeps exactly the rows that pass its test |
| AgendaViews.ListEventsMatches | agenda/views.py:23-44 | an event is listed exactly when it is the organization's, overlaps the range when both bounds are given, and has the asked status, importance and contact |
| AgendaViews.OpenEventNeedsStartInRange | agenda/views.py:29-30 | an event with no end is listed for a range only when it starts inside it |
| AgendaViews.OngoingEventInRange | agenda/views.py:29 | an event that started before the range and ends inside or after its start is in the range |
| AgendaViews.DateTimeTransitive | agenda/views.py:29-30 | the instant order the range filters compare with is transitive |
| Dates.ParseIsoDate | agenda/views.py:66-69 | the text a date filter receives is read with Django's date pattern, "YYYY-M[M]-D[D]" with one optional final newline; what it accepts is always a valid calendar date |
| Dates.ParseIsoFormat | agenda/views.py:66-69 | a date written as "YYYY-MM-DD" is read back as that date |
| Dates.TrailingNewlineAccepted | agenda/views.py:66-69 | a date followed by one newline is still read as that date, since the pattern ends in `$` |
| AgendaViews.ListNotes | agenda/views.py:53-81 | the list fails exactly when both bounds are given and one of them does not start with a date (one final newline after the date is accepted, as by the date pattern's `$`) |
| AgendaViews.ListedNotesVisible | agenda/views.py:55-79 | every listed note is one of the organization's, visible to the requester, and of the asked contact |
| AgendaViews.OthersPrivateNotesHidden | agenda/views.py:59 | another user's private note is never listed |
| AgendaViews.UndatedNeedsFlag | agenda/views.py:63-74 | with a range, a note without a due date is listed only when `include_undated` is exactly "true" |
| AgendaViews.DatedNoteInRange | agenda/views.py:65-69 | with a range, a visible dated note is listed exactly when its due date is on or after the start's date and before the end's date |
| AgendaViews.InsertBy | agenda/views.py:96 | inserting into a sorted list keeps it sorted and adds exactly the one element |
| AgendaViews.SortBy | agenda/views.py:96 | the result is sorted by the key and a permutation of the input |
| AgendaViews.PrefixOfSortedIsSmallest | agenda/views.py:96 | no element cut off a sorted list has a smaller key than one kept |
| AgendaViews.ListAlerts | agenda/views.py:91-114 | at most 8 pinned notes of the organization, newest update first; the important events starting today, and tomorrow, exactly; the overdue list holds exactly the organization's important pending notes due before today |
| AgendaViews.PinnedAreNewest | agenda/views.py:96 | no pinned note left out of the banner was updated after one that is shown |
| AgendaViews.AlertsShowOthersPrivateNotes | agenda/views.py:105-106 | the banner has no visibility filter: another user's private overdue note is listed for every requester, though the note list hides it |
| AgendaViews.VisibleAlertsHidePrivate | agenda/views.py:57-59 | with the visibility filter every pinned note is one the requester may see, and the overdue list holds exactly the visible overdue notes |
| AgendaViews.DueTodayNotOverdue | agenda/views.py:106 | a note due today is not overdue |
| AgendaViews.DateKeyOrder | agenda/views.py:137 | the issue-date sort key orders valid dates as the calendar does |
| AgendaViews.Marker | agenda/views.py:128-136 | a marker is named "inv-" and the invoice id, and carries the invoice's id and issue date |
| AgendaViews.InvoiceDues | agenda/views.py:121-138 | fails exactly when a bound is not a date; otherwise at most 200 markers, one per shown invoice, each an unpaid or partly paid invoice of the organization, in issue-date order |
| AgendaViews.DueInvoicesFacts | agenda/views.py:124-137 | the shown invoices are at most 200 of the organization's invoices that are not paid, ordered by issue date |
| AgendaViews.EarliestDuesShown | agenda/views.py:124-137 | the shown invoices are the first 200 of the selection ordered by issue date, a permutation of it, and none left out was issued before a shown one |
| AgendaViews.PaidInvoicesNeverShown | agenda/views.py:124 | a fully paid invoice is never shown |
| AgendaViews.UnrangedDuesComplete | agenda/views.py:124-137 | without a range and with at most 200 candidates, every invoice of the organization that is not paid is shown |
| BillingModels.ParsePlan | billing/models.py:3-7 | a code is read back only as the plan that has it, and a code no plan has is refused |
| BillingModels.PlanCodesDistinct | billing/models.py:3-7 | the four plans have four different stored codes |
| BillingModels.NewSubscription | billing/models.py:9-17 | a new subscription row has the plan "none", the status "inactive", no Stripe ids, no period end, is not set to cancel, and is not active |
| BillingModels.ActiveStatuses | billing/models.py:19-20 | a subscription is active exactly when its status is "active", "trialing" or "past_due" |
| BillingLimits.EffectivePlan | billing/limits.py:7-8 | the looked-up plan is never empty, and is the stored plan whenever there is a subscription with a non-empty one |
| BillingLimits.Limits | billing/limits.py:7-9 | the limits are the table's row for the effective plan, and none at all for a plan the table lacks |
| BillingLimits.PlanTable | billing/limits.py:1-5 | only starter, pro and enterprise have limits: 3/100, 10/1000 and 1000/100000 users/products |
| BillingLimits.NoPlanNoLimits | billing/limits.py:7-9 | no subscription, an empty plan and the "none" plan all mean no limits |
| BillingLimits.PlansAreOrdered | billing/limits.py:1-5 | each limit of a higher plan is at least that of the lower one |
| BillingLimits.EnforceLimit | billing/decorators.py:6-24 | without a limit for the key the view runs; with one, a 402 answer naming the key and limit is given exactly when the current count has reached the limit, and otherwise the view's own answer |
| BillingLimits.GateMonotone | billing/decorators.py:20 | once the gate refuses at a count it refuses at every larger count |
| BillingLimits.StarterBlocksFourthUser | billing/decorators.py:20-21 | a starter organization with 2 users may add one, with 3 it is refused with "max_users=3" |
| BillingLimits.MessageNamesKeyAndLimit | billing/decorators.py:21 | the refusal text is the fixed head, the key, "=" and the limit's digits, and the limit reads back from it |
| BillingWebhooks.PlanFromPriceAsWritten | billing/webhooks.py:8-12 | the mapping never yields the "none" plan, and yields starter exactly when the price equals the starter setting, a missing price and an unset setting included |
| BillingWebhooks.PlanFromPrice | billing/webhooks.py:8-12 | a missing price maps to no plan; a given price maps as written |
| BillingWebhooks.FirstWhere | billing/webhooks.py:33-50 | `.first()` finds the lowest row that matches, or reports that none does |
| BillingWebhooks.AfterCheckout | billing/webhooks.py:35-40 | a completed checkout stores the customer and subscription ids, sets the status "active", takes the plan code only when it is a paid plan, and keeps the rest |
| BillingWebhooks.AfterSubscriptionEventWith | billing/webhooks.py:42-58 | the plan is the mapped one or the stored one, the status the sent one unless empty, the period end the sent one unless missing or zero, and the cancel flag is set exactly when the event sends true; the ids are kept |
| BillingWebhooks.MissingPriceDowngradesAsWritten | billing/webhooks.py:47-52 | as written, an enterprise subscription whose event carries no price becomes starter when the starter price setting is unset |
| BillingWebhooks.MissingPriceKeepsPlan | billing/webhooks.py:47-52 | corrected, an event with no price keeps the stored plan |
| BillingWebhooks.PriceGivenAgrees | billing/webhooks.py:47-52 | the correction changes nothing for an event that names a price |
| BillingWebhooks.Handle | billing/webhooks.py:26-64 | handling an event, with the price mapping as written, keeps the number of rows and the organization of every row |
| BillingWebhooks.CheckoutActivates | billing/webhooks.py:26-40 | a complete checkout updates exactly the named organization's row and makes it active |
| BillingWebhooks.ItemlessEventDowngrades | billing/webhooks.py:42-58 | on the table, a subscription event without a price on the first row with that subscription id turns an enterprise plan into starter when the starter setting is unset |
| BillingWebhooks.IncompleteCheckoutIgnored | billing/webhooks.py:32 | a checkout without a customer, a subscription or an organization changes nothing |
| BillingWebhooks.OtherEventsIgnored | billing/webhooks.py:60-64 | any other event, a failed payment included, changes nothing |
| BillingWebhooks.HandleKeepsOnePerOrg | billing/webhooks.py:26-64 | every event keeps one subscription per organization |
| BillingWebhooks.SubscriptionTable.GetOrCreate | billing/signals.py:9 | returns the organization's row, adding a new default one only when the organization had none, and keeps one row per organization |
| BillingWebhooks.SubscriptionTable.Webhook | billing/webhooks.py:15-64 | a bad signature answers 400 and changes nothing; any verified event answers 200 after the as-written update `Handle` describes, and keeps one row per organization |

## Left out

- Row locks (`select_for_update` in inventory/services.py and sales/services_numbering.py) and database isolation: every operation is modelled as running alone. `transaction.atomic` is modelled as "a failure leaves the state as it was".
- The clock, randomness and the outside world are parameters: `timezone.now()` and `localdate()`, `secrets.token_urlsafe`, `uuid4()`, the mail transport's return value and the Stripe settings. The Stripe signature check and JSON decoding are reduced to the event they yield (`Delivery`).
- SMTP, Stripe API calls, RQ queues, outgoing webhooks, PDF generation and file reading or writing are outside the model. The contact import receives its rows already read from the file, and `export_contacts_job` is not modelled, because it only writes a file.
- HTTP routing, permissions, pagination and serializer field lists are left out, apart from the read-only field sets the purchase serializers declare. The add-line-then-recompute composition in sales/views.py is also left out, because the view only calls the two services, and both are modelled.
- `enforce_limit` reads the organization from `request.user.organization`, which the user model does not have. The model takes the organization's subscription as a parameter.
- The figures of the employee financials view (contacts/views/employee_financials.py:67-123) are left out: the monthly salary and cost are `Decimal` divisions at context precision, and the hours, revenue share and KPIs are floats. Only the month handling and the choice of the compensation in force are modelled.
- AnalyticsReports.ConversionRatio: the quoted/invoiced ratio is the exact real quotient rather than a `Decimal` divided at 28-digit context precision; the zero guard is kept as written.
- `str(Decimal)` formatting of amounts in responses and messages is left out; amounts stay integers at column scale.
- Decimal inputs that are more precise than their column, and values larger than 28 significant digits, are out of scope: every amount is an integer at its column's scale.
- Rows that tie on a database ordering are kept in input order. The order Postgres would give ties is unspecified, so the model fixes one.
- Python's `int()` also accepts underscores between digits and Unicode digits. `Text.ParseInt` accepts only ASCII digits, after optional surrounding whitespace and an optional sign.
- `\d`, `\s`, `isalnum()` and `upper()`/`lower()` are Unicode-aware in Python; the model narrows them to ASCII.
- ContactValidators.ValidatePhone: the pattern is read with end-of-text anchoring, while Python's `$` also lets one trailing newline through.
- ContactValidators.ValidateIban: the pattern is read with end-of-text anchoring, as for the phone.
- ContactValidators.ValidateDocumentId: the pattern is read with end-of-text anchoring, as for the phone. Python's trailing-newline laxity is modelled for the email validator only, by ContactValidators.ValidateEmailAsWritten.
- The contact import does not model:
  - the header check and the missing-columns report;
  - errors converting text to decimal or to a length-limited column;
  - the `finished_at` timestamp.
- Core.Organization.IsTrialActive: it requires a stored trial end. On an organization that was never saved `trial_ends_at` is still null, and `now < None` raises `TypeError`; the model does not represent that error.
- SalesInvoice.Invoice.constructor: creating an invoice does not add its key to `SalesInvoice.InvoiceNumberIndex`, because invoice creation through the API (the serializer's save) is not modelled. A number that is already taken is therefore refused only when an invoice is posted.
- AgendaViews.ListNotes: a bound is read with Django's date pattern, "YYYY-M[M]-D[D]" and one optional final newline. On Django 4.0 or later `parse_date` first tries `date.fromisoformat`, which on Python 3.11 or later also accepts forms such as "20250101". The Django and Python versions are not part of this model, so those extra forms are not accepted.
- AgendaViews.InvoiceDues: its bounds are read as for AgendaViews.ListNotes, so the same extra `fromisoformat` forms are not accepted.
- Parsing the agenda's event range bounds with `parse_datetime` is left out: the bounds are given as timestamps.
- `utcfromtimestamp` in the webhook is left out: a subscription's period end is stored as the Unix timestamp it came from.
- A supplier payment moved to another invoice by an update: the model updates the payment on its own invoice, and does not recompute the old invoice's status.
- Core.ValidSlug: the pattern's `$` is read as end of text, while Python's `$` also lets one trailing newline through (the slug field's built-in validator, which is not part of this model, refuses one); the field's 40-character `max_length` is not checked, and validators run only when a form or serializer cleans the value, which the model does not distinguish from saving.
- SalesModels.LineFromInput: a key sent with an explicit null is read as absent and takes its default, while `ln.get(key, default)` returns the null and the NOT NULL column then refuses the row.
- PurchaseViews.RequestLine: the same reading of an explicit null as an absent key, for `data.get(key, default)` in the two `add_line` actions.
- The token rows of accounts/models.py are reduced to the user, the token text, the used flag and the used time.
- analytics/hooks.py (logging only), settings, admin, signals other than the subscription one, and the seed script f7_seed_data.py are not part of this model.

## Findings

| source | as written | input that shows it | evidently intended | confidence | as-written member | corrected member |
|---|---|---|---|---|---|---|
| sales/models.py:141-142 | invoices are unique per (org, series, number), while the sequencer restarts its count every year | posting the first invoice of series "A" in 2025 and again in 2026: both get number 1 | a number that is unique within its year, or a key that includes the year | not executed | SalesInvoice.NewYearCollidesAsWritten | SalesInvoice.PostNumberNeverCollides |
| sales/services_quote.py:102-111 | `convert_to_invoice` creates the invoice without a number, but `Invoice.number` is NOT NULL and has no default (sales/models.py:85) | converting any accepted quote that has no invoice yet | a draft invoice whose number stays unassigned until it is posted | not executed | SalesQuote.ConversionFailsAsWritten | SalesQuote.Quote.ConvertToInvoice |
| contacts/validators.py:14-16 | the email pattern ends in `$`, which with `re.match` also matches before one trailing newline | "a@b.c\n" is accepted | the whole value must be an address | not executed | ContactValidators.EmailTrailingNewline | ContactValidators.ValidateEmail |
| contacts/views/employee_financials.py:43-48 | `parse_month` lets year 0 through, and `get_month_range` then calls `date(0, 1, 1)` | month "0000-01" raises `ValueError` and gives a server error | a 400 answer, like every other malformed month | not executed | EmployeeFinancials.YearZeroEscapesAsWritten | EmployeeFinancials.MonthParam |
| billing/webhooks.py:8-12 | `_plan_from_price(None)` compares `None == settings.STRIPE_PRICE_STARTER`, which is `None` when the variable is unset | a subscription event without price items, with STRIPE_PRICE_STARTER unset, on an enterprise subscription: it becomes starter | a missing price keeps the stored plan | not executed | BillingWebhooks.MissingPriceDowngradesAsWritten | BillingWebhooks.MissingPriceKeepsPlan |
| contacts/serializers/attachments.py:11-16 | the check reads `attrs.get(...) or` the stored value, so a null month sent in an update falls back to the stored month, while the null is what is saved | an update sending `periodo_nomina: null` for a stored payslip of month P: accepted, and the saved payslip has no month, so `unique_payslip_per_month` no longer covers it | the row that is saved is checked, so a payslip always keeps its month | not executed | ContactSerializers.NullPeriodUnkeysPayslip | ContactSerializers.ValidatedPayslipIsKeyed |
| agenda/views.py:96-107 | the alerts banner reads `Note.objects` filtered by organization only, without the visibility rule of the note list | another user's private, important, pending note due yesterday: it is in `notes_overdue` for every member of the organization | the banner shows only notes the requester may see, as the note list does | not executed | AgendaViews.AlertsShowOthersPrivateNotes | AgendaViews.VisibleAlertsHidePrivate |
| purchases/views.py:339-354 | `perform_create` takes the invoice from the payment serializer, whose `invoice` field is not limited to the requester's organization (purchases/serializers.py:151-164), and saves the payment with `org=self.org` | a member of organization B posts a payment of 100.00 on organization A's unpaid 100.00 invoice: it is admitted, stored under B, and A's invoice becomes paid | a payment is taken only for an invoice of the requester's organization | not executed | PurchaseViews.ForeignPaymentSettlesInvoice | PurchaseViews.SupplierInvoice.CreateScopedPayment |

`SalesInvoice.Invoice.Post`, `BillingWebhooks.Handle`, `BillingWebhooks.SubscriptionTable.Webhook`, `ContactSerializers.ValidateAttachment`, `AgendaViews.ListAlerts` and `PurchaseViews.SupplierInvoice.CreatePayment` model the code as written, and the corrected definitions stand beside them. `SalesQuote.Quote.ConvertToInvoice` and `EmployeeFinancials.MonthParam` use the corrected behaviour, because as written every conversion fails and year 0 ends in a server error; `SalesQuote.ConversionFailsAsWritten` and `EmployeeFinancials.YearZeroEscapesAsWritten` record the code as written.
