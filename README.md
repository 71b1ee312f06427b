# relatic_integration, modelled in Dafny

The Odoo add-on `relatic_integration` receives "sale" webhooks from the
membership platform membresia-relatic. It books each order in Odoo
accounting. The controller parses the JSON body, checks the API key and the
HMAC signature, and validates the payload. It then writes a sync-log record
(`relatic.sync.log`). If a customer invoice already exists for the
`order_id`, it returns that invoice. Otherwise, inside a savepoint, it:

1. creates or updates the member as a `res.partner` tagged RELATIC_MIEMBRO;
2. creates and posts an `out_invoice` keyed by the order (`x_relatic_order_id`);
3. registers the payment as a posted journal entry and reconciles it;
4. marks the log a success.

A `ValidationError` gives a 422 reply and marks the log `error`; any other
exception gives a 500 and marks it `retry`. A credit-note service
(`create_refund`) sits beside these.

The model follows the code's state. The Odoo database is a class
`Store.Store` holding value tables (`Records.Tables`) and the id sequence.
The sync log is a class `SyncLogs.SyncLog` whose fields `mark_success`,
`mark_error` and `increment_retry` update in place, inside a table class
`SyncLogs.SyncLogTable`. Each service is a module of methods that change the
store, proved against specification functions on the tables. The
`_validate_payload` rule chain is a function, `PayloadValidation.PayloadVerdict`.
A method with the source's loops is proved equal to it.

Each Python exception is an `Err` carrying either a `ValidationError` reason
or another error, because the controller's two `except` branches tell these
two apart. JSON values are a datatype with exact real numbers, and Python's
truthiness is modelled, including that `bool` counts as a number.

Where the code and its own integration test differ, the model follows the code:

- **A same-day replay is refused, not answered idempotently.** The `create_log`
  call (api_controller.py:64) runs before the existing-invoice fast path. The
  per-day constraint (relatic_sync_log.py:200-212) raises `ValidationError`
  for a second log of the same order on the same calendar day. So a replay on
  that day gets 422 VALIDATION_ERROR, and the refused log row stays in the
  table with status `pending`, because the ORM checks the constraint after
  the INSERT. The integration test `test_2_idempotency`
  (tests/test_integration.py:164-180) expects INVOICE_EXISTS for the second delivery.
  `ApiController.SameDayReplay` states this outcome. A replay on a later day
  does reach the fast path: `ApiController.LaterDayReplay` proves it gets
  INVOICE_EXISTS with the original invoice and changes nothing.
- **A second refund is refused.** The early return in `create_refund`
  (payment_service.py:163-167) is meant to make it idempotent. But
  `search_by_relatic_order_id` matches `out_invoice` moves only, so it never
  finds the `out_refund`. The UNIQUE key then rejects the second credit note.
  `PaymentService.RefundTwice` states this.
- **Some `like` patterns are not prefix matches.** The domain
  `('code', 'like', '4%')` in `_get_default_income_account` is wrapped in `%`
  by Odoo. Any income account whose code contains a '4' qualifies
  (`InvoiceService.DefaultIncomeAccountNotByPrefix`).
- **The e-mail lookup uses `=ilike`.** A `_` in an incoming address matches any
  character of a stored one (`PartnerService.UnderscoreMatchesOtherAddress`).

Library calls are parameters of the model: `json.loads`, HMAC-SHA256, the
payload digest and the text of exception messages (`ApiController.Services`),
and tax numbering and posting (`Store.LedgerRules`). The clock's day and time
and the elapsed processing time are parameters to the methods that use them.
The configuration parameters are `ApiController.Settings`.

## Model

| member | source | states |
|---|---|---|
| AccountMove.SearchByOrderKey | models/account_move.py:23-34 | the least-id `out_invoice` whose key is exactly the order id; none iff no move is such an invoice |
| AccountMove.InsertKeepsUnique | models/account_move.py:17-21 | inserting a move keeps the keys unique iff it is keyless or its key is held by no move of any type |
| AccountMove.KeylessNeverConflicts | models/account_move.py:17-21 | a keyless move, such as a payment entry, never violates the constraint |
| AccountMove.Copy | models/account_move.py:10-15 | a copied move drops its order key (`copy=False`) and keeps type, partner and lines |
| AccountMove.CopyNeverConflicts | models/account_move.py:13 | a copy of any move can be inserted without violating the constraint |
| AccountMove.SearchFindsHolder | models/account_move.py:17-34 | under the constraint, the search returns exactly the invoice holding the key |
| AccountMove.NonInvoiceInvisible | models/account_move.py:23-34 | adding a move that is not a customer invoice never changes what the search returns |
| AccountMove.RefundKeyHidden | models/account_move.py:31-34 | a key held by an `out_refund` is taken, yet the search does not find it |
| Store.Store.CreateMove | models/account_move.py:17-21 | the create is refused with a unique violation iff the new key is already held, and otherwise the move is added under a fresh id |
| Store.Store.Restore | controllers/api_controller.py:95 | leaving a savepoint by an exception restores the tables but not the id sequence |
| PartnerService.Dialable | services/partner_service.py:99 | only digits and '+' remain, and the result is no longer than the input |
| PartnerService.DialableConcat | services/partner_service.py:99 | the filter distributes over concatenation, so the kept characters stay in input order |
| PartnerService.DialableKeepsAll | services/partner_service.py:99 | a string of digits and '+' is kept whole; every '+' survives, not only a leading one |
| PartnerService.DialableDropsAll | services/partner_service.py:99 | a string with no digit and no '+' becomes empty |
| PartnerService.StripRedundantForPhone | services/partner_service.py:99 | the `strip()` before the substitution changes nothing |
| PartnerService.NormalizePhone | services/partner_service.py:88-100 | '' for a falsy value, the dialable characters of a string, an error for any other truthy value |
| PartnerService.NormalizePhoneIdempotent | services/partner_service.py:88-100 | normalising a normalised phone gives it back |
| PartnerService.NormalizeVat | services/partner_service.py:102-113 | '' for a falsy value, upper case of the stripped string, an error for other truthy values |
| PartnerService.NormalizeVatIdempotent | services/partner_service.py:102-113 | normalising a normalised VAT gives it back |
| PartnerService.EmailShapeIsPattern | services/partner_service.py:85-86 | the computed first-'@'/last-dot check accepts exactly the strings the regular expression matches |
| PartnerService.ValidEmail | services/partner_service.py:78-86 | `re.match` with `$`: the pattern matches the whole address, or everything before a single trailing newline |
| PartnerService.ValidEmailHasOneAt | services/partner_service.py:85 | an address of the pattern's shape has exactly one '@', at neither end |
| PartnerService.LikeReflexive | services/partner_service.py:28-30 | every address matches itself under `=ilike`, wildcards included |
| PartnerService.LikeWithoutWildcards | services/partner_service.py:28-30 | without '%' and '_' the pattern match is equality |
| PartnerService.IlikeIgnoresCase | services/partner_service.py:28-30 | addresses that differ only in letter case match |
| PartnerService.UnderscoreMatchesOtherAddress | services/partner_service.py:28-30 | a '_' in a valid incoming address matches a different stored address |
| PartnerService.FindByEmail | services/partner_service.py:28-30 | the least-id partner whose e-mail matches; none iff none matches |
| PartnerService.FoundInAnyCase | services/partner_service.py:19-30 | a stored address is found from the trimmed incoming one in any case, by it or a lower id |
| PartnerService.CountryByCode | services/partner_service.py:51-58 | a country with exactly that code; none iff the code is unknown |
| PartnerService.CountryFor | services/partner_service.py:49-60 | no country for a falsy code, the country of a known upper-cased code, PA for an unknown one when PA exists, an error for a non-string |
| PartnerService.Resolve | services/partner_service.py:19-60 | success iff the member is a dict with a non-empty, well-shaped e-mail, a non-blank name, convertible phone and VAT, string street and city and a resolvable country; EmailRequired, EmailMalformed and NameRequired in source order; on success each written value is the normalisation of its member field and the partner is the one found by the lower-cased e-mail |
| PartnerService.ResolveFindsStoredPartner | services/partner_service.py:19-30 | a stored partner whose e-mail equals the incoming one up to case and blanks is found, or one with a lower id |
| PartnerService.Merge | services/partner_service.py:65-70 | an update writes only non-blank values, never `is_company`, always `customer_rank` 1, and adds the tag |
| PartnerService.NewPartner | services/partner_service.py:71-74 | a new partner has every value, is no company, has customer rank 1 and only the tag |
| PartnerService.MergeKeepsWhatIsBlank | services/partner_service.py:67 | blank incoming values never erase stored ones, and merging twice is merging once |
| PartnerService.TagNamed | services/partner_service.py:122-124 | a tag with the name; none iff no tag has it |
| PartnerService.GetOrCreateCategory | services/partner_service.py:115-131 | returns the existing tag with the name, and creates exactly one only when there is none |
| PartnerService.CreateOrUpdatePartner | services/partner_service.py:12-76 | errors exactly when `Resolve` does, with its error, and then writes nothing; otherwise the found partner is merged (`Merge`) or a new one created (`NewPartner`) from the resolved values with the RELATIC_MIEMBRO tag; the tag table is unchanged when the tag existed and otherwise gains exactly that one tag; no other table changes |
| InvoiceService.ProductBySku | services/invoice_service.py:100-102 | a product with the SKU as `default_code`; none iff there is none |
| InvoiceService.CategoryNamed | services/invoice_service.py:144-150 | a product category with the name; none iff there is none |
| InvoiceService.DefaultIncomeAccount | services/invoice_service.py:159-171 | the first income account whose code matches `like '4%'`; none iff none does |
| InvoiceService.DefaultIncomeAccountNotByPrefix | services/invoice_service.py:166-169 | an income account coded 1400 qualifies, because the pattern is not a prefix match |
| InvoiceService.TaxForRate | services/invoice_service.py:173-186 | a sale tax with exactly that amount; none iff there is none |
| InvoiceService.LineTaxes | services/invoice_service.py:39-44 | a tax only for a positive rate with a matching sale tax, no taxes otherwise, an error for a non-numeric rate |
| InvoiceService.IncomeAccountOf | services/invoice_service.py:47-48 | the product's income account, else its category's (`CategoryIncome`), else none; none iff neither gives one |
| InvoiceService.CategoryIncome | services/invoice_service.py:47-48 | the category's own income account, else the company default of `property_account_income_categ_id` |
| InvoiceService.FloatField | services/invoice_service.py:56-63 | 0 for a falsy value, the number for a number, an error otherwise |
| InvoiceService.DateValue | services/invoice_service.py:66-68 | no date for a falsy value, the parsed ISO date of a string, an error for other values |
| InvoiceService.DateValueReadsIsoText | services/invoice_service.py:66-68 | the text of every valid date reads back as that date |
| InvoiceService.PaymentDate | services/invoice_service.py:66 | the payment's date when given, today otherwise, an error when the payment is not a dict |
| InvoiceService.AutoProduct | services/invoice_service.py:124-133 | an auto-created product: SKU as code, name defaulting to the SKU, a service, sale but not purchase, flagged `x_relatic_auto` |
| InvoiceService.GetOrCreateProductCategory | services/invoice_service.py:137-157 | returns the existing category with the name, and creates one under 'All' only when there is none; the new one has no own income account, so it reads the company default through `CategoryIncome` |
| InvoiceService.GetOrCreateProduct | services/invoice_service.py:89-135 | the error of `ProductAccount` exactly when it has one (non-dict item, empty SKU, unknown SKU without `auto_create` 'True'); otherwise the existing product for a known SKU, or a new one in the 'Relatic' category with the default income account, and the product's line account is the one `ProductAccount` predicts |
| InvoiceService.ProductAccount | services/invoice_service.py:89-135 | which items the product step refuses, with which error, and the line account a found or auto-created product gives |
| InvoiceService.ProductAccountStable | services/invoice_service.py:35-36 | what the product step makes of an item does not change while earlier items add products and categories |
| InvoiceService.ItemVerdict | services/invoice_service.py:36-54 | an item passes iff its product step and tax rate pass and its line has an account; IncomeAccountMissing exactly when only the account is missing |
| InvoiceService.ItemsVerdict | services/invoice_service.py:35-63 | the loop passes iff every item does; otherwise its fault is that of the first failing item |
| InvoiceService.ItemsVerdictReads | services/invoice_service.py:35-63 | the loop's verdict reads only products, categories, accounts, taxes and the category default |
| InvoiceService.FirstFailingItem | services/invoice_service.py:35-54 | when the items before a failing item pass, its fault is the loop's fault |
| InvoiceService.DraftItem | services/invoice_service.py:36-63 | one loop pass fails iff `ItemVerdict` does, with its error, and otherwise gives the draft line of the item |
| InvoiceService.ConvertLines | services/invoice_service.py:56-63 | one line per draft, in order, converted exactly when every quantity and price converts |
| InvoiceService.LineConversion | services/invoice_service.py:56-63 | an item's quantity and price convert iff it is convertible; a dict whose quantity fails gives that error |
| InvoiceService.LinesConversion | services/invoice_service.py:56-79 | the lines convert iff every item is convertible; otherwise the fault is the first unconvertible item's |
| InvoiceService.ConvertLinesFault | services/invoice_service.py:56-79 | the conversion loop fails iff `LinesConversion` does, with its error |
| InvoiceService.ItemsPricing | services/invoice_service.py:56-63 | one priced line per item |
| InvoiceService.LinesPricing | services/invoice_service.py:56-63 | the quantities, prices and taxes of the invoice's lines are fixed by the items and the tax table |
| InvoiceService.DraftLines | services/invoice_service.py:34-63 | the loop fails iff `ItemsVerdict` does, with the first failing item's error; on success one draft per item in item order, each right for its item; the tables only grow as auto-creation allows (`AutoGrown`) |
| InvoiceService.LinesForUnique | services/invoice_service.py:56-63 | the lines of the items are determined by the tables |
| InvoiceService.WriteInvoice | services/invoice_service.py:71-85 | the create is refused iff the order key is taken; otherwise a posted `out_invoice` keyed and originated by the order |
| InvoiceService.FinishInvoice | services/invoice_service.py:65-87 | the date error first; then the first unconvertible item's error (`LinesConversion`); success iff the date reads, every quantity and price converts and the key is free; a unique violation otherwise; a success adds exactly the invoice with the lines of the items |
| InvoiceService.CreateInvoice | services/invoice_service.py:11-87 | the existing invoice is returned unchanged; otherwise a missing receivable is an error before any product work; then the loop's error, then the date's, then the first unconvertible item's, then a unique violation for a taken key; success iff the loop and the date pass, every line converts and the key is free, and a success is a posted invoice whose lines are those of the items |
| PaymentService.JournalName | services/payment_service.py:107-113 | the journal name for a method iff its upper case is YAPPY, TARJETA or TRANSFERENCIA |
| PaymentService.JournalNameIgnoresCase | services/payment_service.py:113 | methods equal up to case map to the same journal |
| PaymentService.LowerCaseMethodKnown | services/payment_service.py:113 | 'yappy' is recognised as YAPPY |
| PaymentService.GetJournal | services/payment_service.py:99-122 | no journal for an unknown method, a journal of that name for a known one, an error for a non-string method |
| PaymentService.PyFloat | services/payment_service.py:43 | a conversion exactly for numbers, giving their value |
| PaymentService.StringDate | services/payment_service.py:44-47 | only a string date is converted before the amount checks: its error is the date's, and any other value passes |
| PaymentService.NonStringDateChecksAmountFirst | services/payment_service.py:44-55 | with a truthy non-string date, a non-positive amount gives AmountNotPositive and an amount within tolerance gives the entry's WrongType error |
| PaymentService.PlanPayment | services/payment_service.py:23-63 | each check in source order gives its own error (not posted, non-dict payment, journal lookup, no journal, no bank account, no receivable, amount conversion, a string date's conversion, amount not positive, out of tolerance, then the date the entry is given); success iff every check passes, with the amount cut to the residual when partial |
| PaymentService.PartialNeverExceedsResidual | services/payment_service.py:62-63 | a partial payment never exceeds the residual or the amount paid |
| PaymentService.ToleranceExamples | services/payment_service.py:54-55 | 150.00 and 150.01 against 150.00 due are within tolerance; 150.02 and 149.98 are not |
| PaymentService.PaymentEntry | services/payment_service.py:66-89 | a keyless entry of two items: a debit to the bank account and a credit to the receivable, both of the amount |
| PaymentService.PaymentEntryBalances | services/payment_service.py:71-88 | the entry's debits equal its credits, and both equal the amount |
| PaymentService.Reconciled | services/payment_service.py:124-148 | nothing changes unless both sides have an open reconcilable receivable item; then the invoice's residual is 0 (or residual minus amount when partial), its receivable items are flagged settled iff that residual is 0, the payment's are flagged, every other field and every other move is unchanged |
| PaymentService.ReconcileInvoice | services/payment_service.py:124-148 | the store's moves become exactly the reconciled moves |
| PaymentService.PartialResidualNonNegative | services/payment_service.py:62-63 | a partial payment cut to the residual never leaves a negative residual |
| PaymentService.FullPaymentSettles | services/payment_service.py:54-59 | after a full payment the invoice's residual is 0 |
| PaymentService.WritePayment | services/payment_service.py:66-92 | the payment entry is always created, never refused, and posted |
| PaymentService.RegisterPayment | services/payment_service.py:11-97 | fails iff the plan does, with the plan's error, and then leaves the store unchanged; otherwise the entry is added and posted and the invoice reconciled |
| PaymentService.RefundKey | services/payment_service.py:164 | the refund key is the order id followed by "-REFUND" |
| PaymentService.RefundLine | services/payment_service.py:172-179 | a refund line copies product, description, quantity, taxes and account, with the unit price negated |
| PaymentService.RefundLineInvolutive | services/payment_service.py:176 | refunding a refund line gives the invoice line back |
| PaymentService.RefundRef | services/payment_service.py:186 | the reason, or 'Reembolso de <invoice>' when it is empty |
| PaymentService.RefundLines | services/payment_service.py:170-179 | one refund line per invoice line, in order |
| PaymentService.CreateRefund | services/payment_service.py:150-196 | a non-posted invoice is an error; a found refund is returned; otherwise an `out_refund` with the refund key and lines is created, unless the key is taken |
| PaymentService.RefundTwice | services/payment_service.py:163-167 | a second refund of the same order is refused by the unique key |
| SyncLogs.SelectEnvironment | models/relatic_sync_log.py:88-92 | unset for a falsy value, the environment whose value it is, an error iff the value is truthy and not 'prod', 'staging' or 'dev' |
| SyncLogs.LogFieldsOf | models/relatic_sync_log.py:145-155 | given version, source and environment override meta's; source defaults to 'membresia-relatic'; an invalid environment is an error |
| SyncLogs.DisplayName | models/relatic_sync_log.py:218-220 | "<order_id> - <status label>", followed by " (<invoice number>)" when there is one |
| SyncLogs.SyncLog.constructor | models/relatic_sync_log.py:147-157 | a new log has the given status and fields, no retries, no error, no linked ids |
| SyncLogs.SyncLog.MarkSuccess | models/relatic_sync_log.py:159-175 | status success, the given ids, duration and time; retries and error fields unchanged |
| SyncLogs.SyncLog.MarkError | models/relatic_sync_log.py:177-191 | status retry iff `retry`, else error; code and message stored; retries up by exactly one |
| SyncLogs.SyncLog.IncrementRetry | models/relatic_sync_log.py:193-198 | retries up by one, status retry, nothing else changed |
| SyncLogs.SyncLogTable.LoggedOn | models/relatic_sync_log.py:200-212 | only a log of the same order counts, and logs all received before the day never count |
| SyncLogs.NameGet | models/relatic_sync_log.py:214-222 | one (id, display name) pair per record, in order |
| SyncLogs.SyncLogTable.CreateLog | models/relatic_sync_log.py:129-157 | refused iff the fields are invalid or the order already has a log that day (relatic_sync_log.py:200-212), and the refused row stays pending; otherwise the new log is added |
| PayloadValidation.AllIn | controllers/api_controller.py:259-265 | true iff every key is `in` the value; a raise iff the value is no container |
| PayloadValidation.Require | controllers/api_controller.py:259-265 | passes iff all keys are present; their absence gives the rule's code, a raise gives TypeError |
| PayloadValidation.ItemCheck | controllers/api_controller.py:308-329 | a missing item key gives INVALID_PAYLOAD, otherwise the quantity and price rules; a passing item contributes a non-negative amount |
| PayloadValidation.QuantityAndPrice | controllers/api_controller.py:315-327 | a non-numeric or non-positive quantity gives INVALID_QUANTITY, then a non-numeric or negative price gives INVALID_PRICE; otherwise qty times price |
| PayloadValidation.ItemsTotal | controllers/api_controller.py:307-329 | passes iff every item passes, with a non-negative total |
| PayloadValidation.ItemsTotalFailureSticks | controllers/api_controller.py:307-329 | after the first failing item, later items do not change the verdict |
| PayloadValidation.SampleItemsTotal | controllers/api_controller.py:329 | items 1 x 120 and 2 x 15 total 150 |
| PayloadValidation.Screen | controllers/api_controller.py:259-344 | passes on the head's error, then EMPTY_ITEMS for a missing or empty item list, then the items' error, then the payment's error; otherwise hands on the amount and the items' sum |
| PayloadValidation.Head | controllers/api_controller.py:259-297 | INVALID_PAYLOAD for a missing required key, a missing meta key or an empty order_id; TypeError or AttributeError for a non-container or non-dict; INVALID_EMAIL for a missing or @-less e-mail; INVALID_PAYLOAD for a missing name; a pass leaves a member dict |
| PayloadValidation.PaymentAmount | controllers/api_controller.py:332-344 | INVALID_PAYLOAD for missing payment keys or a non-numeric amount, TypeError or AttributeError for a non-container or non-dict; passes iff the payment dict has its keys and a numeric amount, and hands on the amount and the date |
| PayloadValidation.DateRule | controllers/api_controller.py:353-368 | a non-string raises, an unparsable date or one after today gives INVALID_DATE, any other date passes |
| PayloadValidation.TodayPassesDateRule | controllers/api_controller.py:353-368 | today's date passes the date rule |
| PayloadValidation.VatRule | controllers/api_controller.py:370-378 | INVALID_VAT iff the VAT is truthy and not a string of at least 3 characters |
| PayloadValidation.Conclude | controllers/api_controller.py:346-380 | AMOUNT_MISMATCH iff the amount is off by more than a cent, then the date rule, then the VAT rule |
| PayloadValidation.ToleranceBoundary | controllers/api_controller.py:346-351 | exactly a cent of difference passes; more does not |
| PayloadValidation.ItemCheckGood | controllers/api_controller.py:308-329 | an item passes iff every per-item rule holds, and then contributes qty times price |
| PayloadValidation.ItemsTotalIsSum | controllers/api_controller.py:307-329 | the items pass iff each does, and then the total is their sum |
| PayloadValidation.HeadIff | controllers/api_controller.py:259-297 | the head passes iff its rules, stated positively, hold |
| PayloadValidation.PaymentIff | controllers/api_controller.py:332-344 | the payment rules pass iff their positive statement holds |
| PayloadValidation.ScreenIff | controllers/api_controller.py:259-344 | the screening passes iff its rules hold, and hands on the amount and the items' sum |
| PayloadValidation.ConcludeIff | controllers/api_controller.py:346-378 | the last three rules accept iff amount, date and VAT are all right |
| PayloadValidation.AcceptedIffEveryRulePasses | controllers/api_controller.py:251-380 | `_validate_payload` returns `None` exactly for the payloads that pass every rule |
| PayloadValidation.AcceptedLater | controllers/api_controller.py:354-363 | a payload accepted one day is accepted on every later day |
| PayloadValidation.AcceptedShape | controllers/api_controller.py:251-380 | an accepted payload has a non-empty order id and dicts for member and payment, and a list of items |
| PayloadValidation.ValidatePayload | controllers/api_controller.py:251-380 | the method with early returns gives exactly the verdict of the rule chain |
| PayloadValidation.CheckHead | controllers/api_controller.py:259-297 | the loop over required fields and the head rules computes the head verdict |
| PayloadValidation.TotalItems | controllers/api_controller.py:307-329 | the loop accumulating qty times price computes the items' verdict |
| Dates.ParseIsoDate | controllers/api_controller.py:356-358 | a parsed date is a valid calendar date from an 8 to 10 character text |
| Dates.FormatParseRoundTrip | controllers/api_controller.py:356-358 | the `%Y-%m-%d` text of every valid date parses back to it |
| ApiController.SuccessResponse | controllers/api_controller.py:382-398 | status 200, keys status, data and message, plus warning only when given |
| ApiController.ErrorResponse | controllers/api_controller.py:400-426 | the given status, keys status, error and retry; the error has code and message, plus details only when truthy |
| ApiController.EnvelopesRoundTrip | controllers/api_controller.py:382-426 | a client reads back the code and message of an error reply and no error from a success |
| ApiController.ApiKeyOf | controllers/api_controller.py:33 | the key is never longer than the header, and a header without `Bearer ` is the key itself |
| ApiController.ValidateApiKey | controllers/api_controller.py:206-221 | a key is valid iff a key is configured and the key equals it; with none configured nothing is valid |
| ApiController.UnsetApiKeyRejectsAll | controllers/api_controller.py:213-221 | with no configured key, no request is authenticated |
| ApiController.BearerPrefixOptional | controllers/api_controller.py:33 | the configured key is accepted with and without the `Bearer ` prefix |
| ApiController.ValidateSignature | controllers/api_controller.py:223-249 | an empty signature fails, any signature passes without a secret, otherwise the digests are compared; a raise on non-ASCII text |
| ApiController.Admit | controllers/api_controller.py:27-57 | bad JSON gives 400, then the key and signature 401s, then the validation 400; a pass is a parsed payload that passes every rule |
| ApiController.EmptyCredentialsRejected | controllers/api_controller.py:33-48 | an empty API key or an empty signature is always rejected with 401 |
| ApiController.AdmitIff | controllers/api_controller.py:27-57 | a request is admitted exactly when it parses, both credentials hold and the payload passes every rule |
| ApiController.LogArgs | controllers/api_controller.py:61-70 | the `create_log` keyword arguments, or AttributeError for a non-dict meta |
| ApiController.InvoiceVerdict | services/invoice_service.py:11-87 | for a resolved partner, the invoice step's error in the source's order; success iff `InvoiceGoesThrough` |
| ApiController.PaymentVerdict | services/payment_service.py:23-63 | for a posted invoice and a partner with a receivable, the payment step's error in the source's order; success iff `PaymentGoesThrough` |
| ApiController.PlanPaymentFollowsVerdict | services/payment_service.py:23-63 | the plan of a full payment fails iff the payment verdict does, with the same error |
| ApiController.BookingVerdict | controllers/api_controller.py:129-148 | the partner's error, else the invoice's, else the payment's against the total the items price to; success iff all three steps go through |
| ApiController.Transact | controllers/api_controller.py:129-148 | the three services in order; fails iff `BookingVerdict` on the tables before does, with its error (the partner's, else the invoice's, else the payment's); a success is a partner, the order's invoice and a distinct payment entry |
| ApiController.BookPartner | controllers/api_controller.py:130 | fails iff `Resolve` does; a success is a partner with the receivable the resolution predicts, and only partners and tags change |
| ApiController.BookInvoice | controllers/api_controller.py:133-138 | passes on `create_invoice`'s errors in order (receivable, item loop, date, conversion, unique key); succeeds iff `InvoiceGoesThrough`; a success is a posted invoice of the order whose lines price as the items do |
| ApiController.BookPayment | controllers/api_controller.py:141-146 | succeeds iff the invoice is posted, the partner has a receivable and `PaymentGoesThrough` against its residual; an error is the plan's; only moves change |
| ApiController.MarkFault | controllers/api_controller.py:178-204 | a ValidationError gives 422 and marks the log error; any other exception gives 500 and marks it retry |
| ApiController.Book | controllers/api_controller.py:95-170 | replies 200 iff `OrderVerdict` on the tables before passes, and then marks the log with the ids booked; otherwise rolls the tables back to the savepoint and records in the log exactly the verdict's error |
| ApiController.BookOrder | controllers/api_controller.py:129-148 | fails iff `OrderVerdict` does, with its error; a success is the order's invoice |
| ApiController.MarkBooked | controllers/api_controller.py:150-170 | the log is marked success with the three ids, and the reply carries them |
| ApiController.MarkExisting | controllers/api_controller.py:73-92 | the log is marked success with the existing invoice and its partner; the reply says INVOICE_EXISTS |
| ApiController.OpenLog | controllers/api_controller.py:59-71 | a log opens iff its fields are valid and the order has no log today; a refusal is a 422 that leaves a pending row |
| ApiController.Process | controllers/api_controller.py:59-204 | after admission: the fast path for an existing invoice, otherwise booking, which replies 200 iff `OrderVerdict` passes and records its error otherwise; a non-200 reply leaves the tables unchanged |
| ApiController.Webhook | controllers/api_controller.py:16-204 | a rejected request writes nothing; an admitted one opens a log, answers an existing order with INVOICE_EXISTS, books a new one with 200 iff `OrderVerdict` passes and records its error otherwise, and never tells the client to retry |
| ApiController.SameDayReplay | controllers/api_controller.py:63-92 | a second delivery on the same day gets 422 VALIDATION_ERROR, not INVOICE_EXISTS |
| ApiController.LaterDayReplay | controllers/api_controller.py:73-92 | after a booked delivery, a replay on a later day gets INVOICE_EXISTS with the same invoice and changes no table |

## Left out

- Concurrency: the `SELECT ... FOR UPDATE` lock and the re-check after it (api_controller.py:97-121). In sequential semantics the re-check can never find an invoice, so that branch is a dead `assert false`.
- HTTP plumbing: routes, CORS, actually setting `status_code`, and whether a `type='json'` route's client sees it. A reply is a status and a JSON body.
- UTF-8 decoding of the raw body. The body is already a string.
- The `ir.logging` row written on an internal error, and the `sudo()` calls.
- `json.loads`, HMAC-SHA256, SHA-256 of the canonical JSON (`payload_hash`) and exception message texts. These are uninterpreted parameters, so the hash is deterministic by construction.
- Floating point: amounts are exact reals, with no rounding and no NaN.
- PaymentService.PyFloat: `float()` of a numeric string is treated as an error. Validation rejects non-numeric amounts first, so the webhook never reaches that case.
- InvoiceService.FloatField: as for `PyFloat`, a numeric string is treated as an error.
- PartnerService.NormalizePhone: only ASCII digits are kept, where Python's `\d` also keeps other Unicode digits.
- Dates.ParseIsoDate: only ASCII digits are read, where `strptime` also accepts other Unicode digits.
- Text.Lower: case mapping covers ASCII letters only, not all of Unicode.
- Text.Upper: case mapping covers ASCII letters only, not all of Unicode.
- ORM search order is taken to be the least id.
- InvoiceService.ProductBySku: `default_code` is a Char field, so Odoo stores a numeric SKU as its text and can compare a number with that text. The model keeps the SKU as the JSON value it was given, so SKU 123 and SKU '123' are different codes here.
- Archived records: Odoo's searches skip records with `active` false (`active_test`). The tables hold no `active` flag, so every stored partner, product, category, tax and journal is searchable.
- `LIKE` escape characters are not modelled. Only '%' and '_' are wildcards.
- Tax amounts, totals and the move numbering of `action_post` come from `Store.LedgerRules`. `_onchange_invoice_line_ids` is not modelled.
- Odoo's `reconcile()` algorithm is not modelled. Only its effect on the residual and the reconciled flags is.
- The journal items of a refund (`line_ids`) are left empty. Its invoice lines are modelled.
- The names and labels of the payment entry's journal items.
- Config storage (`ir.config_parameter`): the API key, secret and auto-create flag are inputs.
- Clocks: `time.time()`, `datetime.now()` and `fields.Date.today()` are parameters.
