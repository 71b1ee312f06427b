/**
 * `RelaticAPIController`: the `POST /api/relatic/v1/sale` webhook.  A
 * request is parsed, authenticated (API key, then HMAC signature) and
 * validated; only then is a sync log created, and the partner, invoice and
 * payment are written inside a savepoint that is rolled back when any of
 * them fails.
 *
 * The JSON decoder, HMAC-SHA256, the payload digest and the texts of
 * exception messages are given to the controller as `Services`; the
 * values of `ir.config_parameter` as `Settings`.
 */
module ApiController {
  import opened Wrappers
  import opened Text
  import opened Json
  import opened Dates
  import opened Records
  import opened AccountMove
  import opened Store
  import opened SyncLogs
  import opened PartnerService
  import opened InvoiceService
  import opened PaymentService
  import opened PayloadValidation

  /** The raw body and the two headers the controller reads (an absent header reads as ""). */
  datatype Request = Request(body: string, authorization: string, signature: string)

  /** `relatic_integration.api_key`, `.hmac_secret` and `.auto_create_product` ("" when unset). */
  datatype Settings = Settings(apiKey: string, hmacSecret: string, autoCreate: string)

  /**
   * What the controller calls and this model does not define: `json.loads`,
   * the hex HMAC-SHA256 of a body under a secret, the payload digest of the
   * sync log, the message `_validate_payload` returns with a code, and
   * `str(e)` of an exception.
   */
  datatype Services = Services(
    parse: string -> Option<JValue>,
    hmacHex: (string, string) -> string,
    digest: JValue -> string,
    rejection: (ErrorCode, JValue) -> string,
    describe: Fault -> string)

  /** The HTTP status the controller sets and the JSON body it returns. */
  datatype Response = Response(httpStatus: int, body: JValue)

  // ------------------------------------------------------------ envelopes

  /** `_success_response`; a warning of "" stands for `None` (no `warning` key). */
  function SuccessResponse(data: JValue, message: string := "Operación exitosa", warning: string := ""): (r: Response)
    ensures r.httpStatus == 200 && r.body.JObj?
    ensures r.body.fields.Keys == {"status", "data", "message"} + (if warning == "" then {} else {"warning"})
    ensures r.body.fields["status"] == JStr("success") && r.body.fields["data"] == data
    ensures r.body.fields["message"] == JStr(message)
    ensures warning != "" ==> r.body.fields["warning"] == JStr(warning)
  {
    var base := map["status" := JStr("success"), "data" := data, "message" := JStr(message)];
    Response(200, JObj(if warning == "" then base else base["warning" := JStr(warning)]))
  }

  /** `_error_response`: the `details` key appears only for truthy details. */
  function ErrorResponse(code: ErrorCode, message: string, httpStatus: int := 400, details: JValue := JNull, retry: bool := false)
    : (r: Response)
    ensures r.httpStatus == httpStatus && r.body.JObj?
    ensures r.body.fields.Keys == {"status", "error", "retry"}
    ensures r.body.fields["status"] == JStr("error") && r.body.fields["retry"] == JBool(retry)
    ensures r.body.fields["error"].JObj?
    ensures r.body.fields["error"].fields.Keys == {"code", "message"} + (if Truthy(details) then {"details"} else {})
    ensures r.body.fields["error"].fields["code"] == JStr(code.Text())
    ensures r.body.fields["error"].fields["message"] == JStr(message)
  {
    var error := map["code" := JStr(code.Text()), "message" := JStr(message)];
    Response(httpStatus, JObj(map[
      "status" := JStr("error"),
      "error" := JObj(if Truthy(details) then error["details" := details] else error),
      "retry" := JBool(retry)]))
  }

  /** The reply of the generic `except Exception` branch. */
  function InternalError(): Response {
    ErrorResponse(ODOO_ERROR, "Error interno del servidor", 500)
  }

  /** How a client reads an envelope: the error code and message, or `None` for a success. */
  function ReadError(body: JValue): Option<(string, string)> {
    if body.JObj? && "status" in body.fields && body.fields["status"] == JStr("error")
       && "error" in body.fields && body.fields["error"].JObj?
       && "code" in body.fields["error"].fields && body.fields["error"].fields["code"].JStr?
       && "message" in body.fields["error"].fields && body.fields["error"].fields["message"].JStr?
    then Some((body.fields["error"].fields["code"].s, body.fields["error"].fields["message"].s))
    else None
  }

  /** A client reads back the code and message of an error reply, and reads no error in a success. */
  lemma EnvelopesRoundTrip(code: ErrorCode, message: string, httpStatus: int, details: JValue, retry: bool,
                           data: JValue, note: string, warning: string)
    ensures ReadError(ErrorResponse(code, message, httpStatus, details, retry).body) == Some((code.Text(), message))
    ensures ReadError(SuccessResponse(data, note, warning).body) == None
  {
  }

  /** No reply of the controller tells the client to retry. */
  predicate NeverRetry(resp: Response) {
    resp.body.JObj? && ("retry" in resp.body.fields ==> resp.body.fields["retry"] == JBool(false))
  }

  function IdValue(id: Option<Id>): JValue {
    if id.Some? then JNum(id.value as real) else JBool(false)
  }

  /** `data` of the reply for an order whose invoice already exists. */
  function ExistingData(orderId: string, invoiceId: Id, invoice: Move, logId: Id): JValue {
    JObj(map[
      "order_id" := JStr(orderId),
      "partner_id" := IdValue(invoice.partner),
      "invoice_id" := IdValue(Some(invoiceId)),
      "invoice_number" := JStr(invoice.name),
      "already_exists" := JBool(true),
      "sync_log_id" := IdValue(Some(logId))])
  }

  /** `data` of the reply for a new invoice. */
  function CreatedData(orderId: string, partnerId: Id, invoiceId: Id, invoiceNumber: string, paymentId: Id, logId: Id): JValue {
    JObj(map[
      "order_id" := JStr(orderId),
      "partner_id" := IdValue(Some(partnerId)),
      "invoice_id" := IdValue(Some(invoiceId)),
      "invoice_number" := JStr(invoiceNumber),
      "payment_move_id" := IdValue(Some(paymentId)),
      "sync_log_id" := IdValue(Some(logId))])
  }

  // ------------------------------------------------------- authentication

  /** `headers.get('Authorization', '').replace('Bearer ', '')`: every occurrence is removed. */
  function ApiKeyOf(authorization: string): (key: string)
    ensures |key| <= |authorization|
    ensures !Contains(authorization, "Bearer ") ==> key == authorization
  {
    ReplacedNoLonger(authorization, "Bearer ");
    if Contains(authorization, "Bearer ") then ReplaceAll(authorization, "Bearer ", "")
    else
      ReplaceAbsent(authorization, "Bearer ", "");
      ReplaceAll(authorization, "Bearer ", "")
  }

  /** `_validate_api_key`: a non-empty key equal to the configured one. */
  function ValidateApiKey(apiKey: string, configured: string): (ok: bool)
    ensures configured == "" ==> !ok
    ensures ok <==> configured != "" && apiKey == configured
  {
    apiKey != "" && apiKey == configured
  }

  /** With no key configured, no request is authenticated. */
  lemma UnsetApiKeyRejectsAll(authorization: string)
    ensures !ValidateApiKey(ApiKeyOf(authorization), "")
  {
  }

  /** The configured key is accepted with the `Bearer ` prefix and without it. */
  lemma BearerPrefixOptional(key: string)
    requires key != "" && !Contains(key, "Bearer ")
    ensures ValidateApiKey(ApiKeyOf("Bearer " + key), key)
    ensures ValidateApiKey(ApiKeyOf(key), key)
  {
    var pat := "Bearer ";
    assert ("Bearer " + key)[..|pat|] == pat;
    assert ("Bearer " + key)[|pat|..] == key;
    ReplaceAbsent(key, pat, "");
  }

  /** `compare_digest` on two str raises TypeError unless both are ASCII. */
  predicate Ascii(s: string) {
    forall i :: 0 <= i < |s| ==> s[i] < 128 as char
  }

  /**
   * `_validate_hmac_signature`: a missing signature fails; an unset secret
   * lets any signature through; otherwise the signature must equal the hex
   * HMAC of the raw body.  `None` is the TypeError of `compare_digest`.
   */
  function ValidateSignature(body: string, received: string, secret: string, hmacHex: (string, string) -> string): (r: Option<bool>)
    ensures received == "" ==> r == Some(false)
    ensures received != "" && secret == "" ==> r == Some(true)
    ensures received != "" && secret != "" && Ascii(received) && Ascii(hmacHex(secret, body)) ==>
      r == Some(received == hmacHex(secret, body))
    ensures r.None? <==> received != "" && secret != "" && !(Ascii(received) && Ascii(hmacHex(secret, body)))
  {
    if received == "" then Some(false)
    else if secret == "" then Some(true)
    else if !(Ascii(received) && Ascii(hmacHex(secret, body))) then None
    else Some(received == hmacHex(secret, body))
  }

  /**
   * Steps 1 to 4 of the webhook, before anything is written: the parsed
   * payload, or the reply that ends the request.
   */
  function Admit(req: Request, settings: Settings, services: Services, today: Date): (r: Result<JValue, Response>)
    ensures services.parse(req.body).None? ==> r == Err(ErrorResponse(INVALID_PAYLOAD, "Payload JSON inválido", 400))
    ensures services.parse(req.body).Some? && !ValidateApiKey(ApiKeyOf(req.authorization), settings.apiKey) ==>
      r == Err(ErrorResponse(INVALID_API_KEY, "API Key inválida o faltante", 401))
    ensures r.Ok? ==> services.parse(req.body) == Some(r.value) && PayloadVerdict(r.value, today) == Accepted
    ensures r.Err? ==> NeverRetry(r.error) && r.error.httpStatus != 200
  {
    match services.parse(req.body)
    case None => Err(ErrorResponse(INVALID_PAYLOAD, "Payload JSON inválido", 400))
    case Some(payload) =>
      if !ValidateApiKey(ApiKeyOf(req.authorization), settings.apiKey) then
        Err(ErrorResponse(INVALID_API_KEY, "API Key inválida o faltante", 401))
      else match ValidateSignature(req.body, req.signature, settings.hmacSecret, services.hmacHex)
        case None => Err(InternalError())
        case Some(false) => Err(ErrorResponse(INVALID_SIGNATURE, "La firma HMAC no coincide con el payload", 401))
        case Some(true) =>
          match PayloadVerdict(payload, today)
          case Accepted => Ok(payload)
          case Rejected(code) => Err(ErrorResponse(code, services.rejection(code, payload), 400))
          case Raised(_) => Err(InternalError())
  }

  /**
   * A request that parses but has no API key is refused with 401 whatever
   * is configured; with the right key but no signature, likewise.
   */
  lemma EmptyCredentialsRejected(req: Request, settings: Settings, services: Services, today: Date)
    requires services.parse(req.body).Some?
    ensures req.authorization == "" ==>
      Admit(req, settings, services, today) == Err(ErrorResponse(INVALID_API_KEY, "API Key inválida o faltante", 401))
    ensures ValidateApiKey(ApiKeyOf(req.authorization), settings.apiKey) && req.signature == "" ==>
      Admit(req, settings, services, today) == Err(ErrorResponse(INVALID_SIGNATURE, "La firma HMAC no coincide con el payload", 401))
  {
    assert ApiKeyOf("") == "";
  }

  /** A request gets past step 4 exactly when it parses, both credentials hold and the payload passes every rule. */
  lemma AdmitIff(req: Request, settings: Settings, services: Services, today: Date, payload: JValue)
    ensures Admit(req, settings, services, today) == Ok(payload) <==>
      && services.parse(req.body) == Some(payload)
      && ValidateApiKey(ApiKeyOf(req.authorization), settings.apiKey)
      && ValidateSignature(req.body, req.signature, settings.hmacSecret, services.hmacHex) == Some(true)
      && PassesEveryRule(payload, today)
  {
    AcceptedIffEveryRulePasses(payload, today);
  }

  // -------------------------------------------------------------- webhook

  /** `payload.get('order_id')` of a validated payload. */
  function OrderIdOf(payload: JValue): string {
    if payload.JObj? && "order_id" in payload.fields && payload.fields["order_id"].JStr?
    then payload.fields["order_id"].s else ""
  }

  /** The keyword arguments of `create_log`: `meta.get(...)` raises AttributeError on a non-dict `meta`. */
  function LogArgs(payload: JValue): (r: Result<(Option<JValue>, Option<JValue>, Option<JValue>), Fault>)
    ensures !payload.JObj? ==> r == Err(OtherError(NoSuchAttribute))
    ensures payload.JObj? ==> (r.Err? <==> !Field(payload.fields, "meta", JObj(map[])).JObj?)
    ensures r.Err? ==> r.error == OtherError(NoSuchAttribute)
    ensures r.Ok? ==> r.value.0.Some? && r.value.1.Some? && r.value.2.Some?
  {
    match Get(payload, "meta", JObj(map[]))
    case None => Err(OtherError(NoSuchAttribute))
    case Some(meta) =>
      if !meta.JObj? then Err(OtherError(NoSuchAttribute))
      else Ok((Some(Field(meta.fields, "version", JNull)),
               Some(Field(meta.fields, "source", JStr("membresia-relatic"))),
               Some(Field(meta.fields, "environment", JNull))))
  }

  /** What `create_log` is given for a payload: the sync-log fields it would write. */
  function LogFieldsFor(payload: JValue): Result<LogFields, Fault> {
    match LogArgs(payload)
    case Err(f) => Err(f)
    case Ok(args) => LogFieldsOf(payload, args.0, args.1, args.2)
  }

  /** The reply to a delivery of an order that already has a sync log today. */
  function ReplayRefusal(orderId: string, services: Services): Response {
    ErrorResponse(VALIDATION_ERROR, services.describe(ValidationError(LogExistsToday(orderId))), 422)
  }

  /** The ids the three services return. */
  datatype Booking = Booking(partner: Id, invoice: Id, paymentMove: Id)

  /**
   * The receivable account of the partner `create_or_update_partner`
   * leaves: the found partner's (its own, else the company default); a new
   * partner has none of its own, so the company default.
   */
  function ResolvedReceivable(t: Tables, member: JValue): Option<Id>
    requires Resolve(t, member).Ok?
  {
    var found := Resolve(t, member).value.0;
    if found.Some? then Receivable(t, t.partners[found.value]) else t.receivableDefault
  }

  /**
   * `create_invoice` writes a new invoice for the resolved partner: it has
   * a receivable account, every item resolves, the date and every line's
   * quantity and price convert, and no move holds the order key.
   */
  predicate InvoiceGoesThrough(
    t: Tables, member: JValue, orderId: string, items: seq<JValue>, payment: JValue, autoCreate: string, today: Date)
    requires Resolve(t, member).Ok?
  {
    && ResolvedReceivable(t, member).Some?
    && ItemsVerdict(t, items, autoCreate).Ok?
    && PaymentDate(payment, today).Ok?
    && (forall j :: 0 <= j < |items| ==> Convertible(items[j]))
    && !KeyTaken(t.moves, orderId)
  }

  /**
   * `register_payment` accepts a full payment of an invoice with `due` on
   * it (posted, its partner with a receivable account): a bank journal
   * with a default account for the method, a numeric amount above 0 within
   * a cent of `due`, and a date that converts.
   */
  predicate PaymentGoesThrough(t: Tables, payment: JValue, today: Date, due: real) {
    && payment.JObj?
    && var journal := GetJournal(t.journals, Field(payment.fields, "method", JStr("")));
    && journal.Ok? && journal.value.Some? && t.journals[journal.value.value].defaultAccount.Some?
    && var asked := PyFloat(Field(payment.fields, "amount", JNum(0.0)));
    && asked.Ok? && PaymentDate(payment, today).Ok? && asked.value > 0.0
    && WithinTolerance(asked.value, Abs(due))
  }

  /**
   * What `create_invoice` raises for the resolved partner, in its order:
   * no receivable account, the first failing item, the date, the first
   * line whose quantity or price does not convert, a taken order key.
   */
  function InvoiceVerdict(
    t: Tables, member: JValue, orderId: string, items: seq<JValue>, payment: JValue, autoCreate: string, today: Date)
    : (r: Result<(), Fault>)
    requires Resolve(t, member).Ok?
    ensures r.Ok? <==> InvoiceGoesThrough(t, member, orderId, items, payment, autoCreate, today)
    ensures ResolvedReceivable(t, member).None? ==> r == Err(ValidationError(ReceivableMissing))
  {
    if ResolvedReceivable(t, member).None? then Err(ValidationError(ReceivableMissing))
    else if ItemsVerdict(t, items, autoCreate).Err? then ItemsVerdict(t, items, autoCreate)
    else if PaymentDate(payment, today).Err? then Err(PaymentDate(payment, today).error)
    else if LinesConversion(items).Err? then LinesConversion(items)
    else if KeyTaken(t.moves, orderId) then Err(OtherError(UniqueViolation(orderId)))
    else Ok(())
  }

  /**
   * What `register_payment` raises for a posted invoice with `due` on it
   * and a partner with a receivable account, in its order: the journal
   * lookup, the journal's default account, the amount, a string date, a
   * non-positive amount, the tolerance, and the date the entry is given.
   */
  function PaymentVerdict(t: Tables, payment: JValue, today: Date, due: real): (r: Result<(), Fault>)
    ensures r.Ok? <==> PaymentGoesThrough(t, payment, today, due)
  {
    if !payment.JObj? then Err(OtherError(NoSuchAttribute))
    else
      var journal := GetJournal(t.journals, Field(payment.fields, "method", JStr("")));
      if journal.Err? then Err(journal.error)
      else if journal.value.None? then Err(ValidationError(JournalMissing(Field(payment.fields, "method", JNull))))
      else if t.journals[journal.value.value].defaultAccount.None? then Err(ValidationError(JournalAccountMissing))
      else
        var asked := PyFloat(Field(payment.fields, "amount", JNum(0.0)));
        if asked.Err? then Err(asked.error)
        else if StringDate(payment).Err? then StringDate(payment)
        else if asked.value <= 0.0 then Err(ValidationError(AmountNotPositive))
        else if !WithinTolerance(asked.value, Abs(due)) then Err(ValidationError(AmountDiffersFromResidual))
        else if PaymentDate(payment, today).Err? then Err(PaymentDate(payment, today).error)
        else Ok(())
  }

  /** The payment plan for a full payment fails exactly as the payment verdict says. */
  lemma PlanPaymentFollowsVerdict(t: Tables, invoice: Move, partner: Partner, payment: JValue, today: Date)
    requires invoice.state == Posted && Receivable(t, partner).Some?
    ensures PlanPayment(t, invoice, partner, payment, today, false).Err? <==>
      PaymentVerdict(t, payment, today, invoice.residual).Err?
    ensures PlanPayment(t, invoice, partner, payment, today, false).Err? ==>
      PlanPayment(t, invoice, partner, payment, today, false).error == PaymentVerdict(t, payment, today, invoice.residual).error
  {
    if payment.JObj? && PaymentDate(payment, today).Ok? {
      ConvertedDatePassesEarly(payment, today);
    }
  }

  /** The payment verdict reads only the journals. */
  lemma PaymentVerdictReads(a: Tables, b: Tables, payment: JValue, today: Date, due: real)
    requires a.journals == b.journals
    ensures PaymentVerdict(b, payment, today, due) == PaymentVerdict(a, payment, today, due)
  {
  }

  /**
   * Steps 10 to 12 as one verdict: the partner's fault, else the
   * invoice's, else the payment's against the total of the invoice's
   * lines, which the items and the tax table fix.
   */
  function BookingVerdict(
    t: Tables, rules: LedgerRules, member: JValue, orderId: string, items: seq<JValue>, payment: JValue,
    autoCreate: string, today: Date)
    : (r: Result<(), Fault>)
    ensures Resolve(t, member).Err? ==> r == Err(Resolve(t, member).error)
    ensures r.Ok? <==>
      && Resolve(t, member).Ok?
      && InvoiceGoesThrough(t, member, orderId, items, payment, autoCreate, today)
      && PaymentGoesThrough(t, payment, today, rules.total(ItemsPricing(t.taxes, items)))
  {
    if Resolve(t, member).Err? then Err(Resolve(t, member).error)
    else if InvoiceVerdict(t, member, orderId, items, payment, autoCreate, today).Err? then
      InvoiceVerdict(t, member, orderId, items, payment, autoCreate, today)
    else PaymentVerdict(t, payment, today, rules.total(ItemsPricing(t.taxes, items)))
  }

  /** `payload.get('member', {})`, `payload.get('items', [])` and `payload.get('payment', {})`. */
  function MemberOf(payload: JValue): JValue {
    if payload.JObj? then Field(payload.fields, "member", JObj(map[])) else JObj(map[])
  }

  function ItemsOf(payload: JValue): seq<JValue> {
    if payload.JObj? && Field(payload.fields, "items", JArr([])).JArr? then Field(payload.fields, "items", JArr([])).elems
    else []
  }

  function PaymentOf(payload: JValue): JValue {
    if payload.JObj? then Field(payload.fields, "payment", JObj(map[])) else JObj(map[])
  }

  /** The booking verdict on a payload's member, items and payment. */
  function OrderVerdict(t: Tables, rules: LedgerRules, payload: JValue, settings: Settings, today: Date): Result<(), Fault> {
    BookingVerdict(t, rules, MemberOf(payload), OrderIdOf(payload), ItemsOf(payload), PaymentOf(payload), settings.autoCreate, today)
  }

  /** Step 10, `create_or_update_partner`, as the steps after it see it. */
  method BookPartner(store: Store, member: JValue) returns (r: Result<Id, Fault>)
    requires store.Valid()
    modifies store
    ensures store.Valid() && store.nextId >= old(store.nextId)
    ensures r.Err? <==> Resolve(old(store.db), member).Err?
    ensures r.Err? ==> r.error == Resolve(old(store.db), member).error
    ensures r.Ok? ==>
      && r.value in store.db.partners
      && Receivable(store.db, store.db.partners[r.value]) == ResolvedReceivable(old(store.db), member)
      && store.db == old(store.db).(partners := store.db.partners, partnerTags := store.db.partnerTags)
  {
    ghost var db0 := store.db;
    r := CreateOrUpdatePartner(store, member);
    if r.Ok? {
      ghost var found := Resolve(db0, member).value.0;
      ghost var tag := TagNamed(store.db.partnerTags, "RELATIC_MIEMBRO").value;
      UpsertedReceivable(db0, store.db.receivableDefault, member, store.db.partners[r.value], tag);
    }
  }

  /** The partner step leaves a found partner's receivable account as it was, and a new one has none of its own. */
  lemma UpsertedReceivable(t: Tables, receivableDefault: Option<Id>, member: JValue, written: Partner, tag: Id)
    requires Resolve(t, member).Ok? && receivableDefault == t.receivableDefault
    requires
      var found := Resolve(t, member).value.0;
      written == Upserted(if found.Some? then Some(t.partners[found.value]) else None, Resolve(t, member).value.1, tag)
    ensures (if written.receivable.Some? then written.receivable else receivableDefault) == ResolvedReceivable(t, member)
  {
  }

  /** Step 11, `create_invoice` for an order without an invoice, as the payment sees it. */
  method BookInvoice(
    store: Store, partnerId: Id, orderId: string, items: seq<JValue>, payment: JValue, autoCreate: string, today: Date)
    returns (r: Result<Id, Fault>, ghost lines: seq<InvoiceLine>)
    requires store.Valid() && partnerId in store.db.partners && SearchByOrderKey(store.db.moves, orderId).None?
    modifies store
    ensures store.Valid() && store.nextId >= old(store.nextId)
    ensures store.db.partners == old(store.db.partners) && store.db.journals == old(store.db.journals)
    ensures store.db.receivableDefault == old(store.db.receivableDefault)
    ensures r.Ok? <==>
      && Receivable(old(store.db), old(store.db.partners[partnerId])).Some?
      && ItemsVerdict(old(store.db), items, autoCreate).Ok? && PaymentDate(payment, today).Ok?
      && (forall j :: 0 <= j < |items| ==> Convertible(items[j]))
      && !KeyTaken(old(store.db.moves), orderId)
    ensures store.db.taxes == old(store.db.taxes)
    ensures Receivable(old(store.db), old(store.db.partners[partnerId])).None? ==>
      r == Err(ValidationError(ReceivableMissing))
    ensures Receivable(old(store.db), old(store.db.partners[partnerId])).Some? ==>
      && (ItemsVerdict(old(store.db), items, autoCreate).Err? ==> r == Err(ItemsVerdict(old(store.db), items, autoCreate).error))
      && (ItemsVerdict(old(store.db), items, autoCreate).Ok? && PaymentDate(payment, today).Err? ==>
            r == Err(PaymentDate(payment, today).error))
      && (ItemsVerdict(old(store.db), items, autoCreate).Ok? && PaymentDate(payment, today).Ok?
          && LinesConversion(items).Err? ==>
            r == Err(LinesConversion(items).error))
      && (ItemsVerdict(old(store.db), items, autoCreate).Ok? && PaymentDate(payment, today).Ok?
          && LinesConversion(items).Ok? && KeyTaken(old(store.db.moves), orderId) ==>
            r == Err(OtherError(UniqueViolation(orderId))))
    ensures r.Ok? ==>
      && r.value in store.db.moves && IsInvoiceFor(store.db.moves[r.value], orderId)
      && store.db.moves[r.value].state == Posted && store.db.moves[r.value].residual == store.rules.total(Pricing(lines))
      && LinesFor(store.db, items, lines)
      && Pricing(lines) == ItemsPricing(old(store.db.taxes), items)
  {
    ghost var db1 := store.db;
    lines := [];
    r := CreateInvoice(store, partnerId, orderId, items, payment, autoCreate, today);
    if r.Ok? {
      assert InvoiceCreated(db1, store.db, store.rules, r.value, partnerId, orderId, items, payment, today);
      lines := store.db.moves[r.value].lines;
      LinesPricing(store.db, items, lines);
    }
  }

  /** Step 12, `register_payment` in full, as the booking sees it. */
  method BookPayment(store: Store, invoiceId: Id, partnerId: Id, orderId: string, payment: JValue, today: Date)
    returns (r: Result<Id, Fault>)
    requires store.Valid() && invoiceId in store.db.moves && partnerId in store.db.partners
    requires IsInvoiceFor(store.db.moves[invoiceId], orderId)
    modifies store
    ensures store.Valid() && store.nextId >= old(store.nextId)
    ensures store.db == old(store.db).(moves := store.db.moves) && invoiceId in store.db.moves
    ensures r.Ok? <==>
      && old(store.db.moves[invoiceId]).state == Posted
      && Receivable(old(store.db), old(store.db.partners[partnerId])).Some?
      && PaymentGoesThrough(old(store.db), payment, today, old(store.db.moves[invoiceId]).residual)
    ensures r.Err? ==>
      r.error == PlanPayment(old(store.db), old(store.db.moves[invoiceId]), old(store.db.partners[partnerId]), payment, today, false).error
    ensures r.Ok? ==>
      && r.value in store.db.moves && r.value != invoiceId && store.db.moves[r.value].moveType == Entry
      && IsInvoiceFor(store.db.moves[invoiceId], orderId)
  {
    r := RegisterPayment(store, invoiceId, partnerId, payment, today);
  }

  /**
   * Steps 10 to 12, the body of the savepoint: the partner, then the
   * invoice, then the payment; the first service to raise decides the
   * fault.  A booking leaves the order's invoice where the search finds it.
   * It succeeds exactly when each service goes through; `lines` are the
   * lines of the invoice, whose total is what the payment must match.
   */
  method Transact(store: Store, member: JValue, orderId: string, items: seq<JValue>, payment: JValue, autoCreate: string, today: Date)
    returns (r: Result<Booking, Fault>, ghost lines: seq<InvoiceLine>)
    requires store.Valid() && SearchByOrderKey(store.db.moves, orderId).None?
    modifies store
    ensures store.Valid() && store.nextId >= old(store.nextId)
    ensures Resolve(old(store.db), member).Err? ==> r == Err(Resolve(old(store.db), member).error)
    ensures (Resolve(old(store.db), member).Ok?
             && InvoiceGoesThrough(old(store.db), member, orderId, items, payment, autoCreate, today)) ==>
      LinesFor(store.db, items, lines)
    ensures r.Ok? <==>
      && Resolve(old(store.db), member).Ok?
      && InvoiceGoesThrough(old(store.db), member, orderId, items, payment, autoCreate, today)
      && PaymentGoesThrough(old(store.db), payment, today, store.rules.total(Pricing(lines)))
    ensures (Resolve(old(store.db), member).Ok?
             && InvoiceGoesThrough(old(store.db), member, orderId, items, payment, autoCreate, today)) ==>
      Pricing(lines) == ItemsPricing(old(store.db.taxes), items)
    ensures r.Err? <==> BookingVerdict(old(store.db), store.rules, member, orderId, items, payment, autoCreate, today).Err?
    ensures r.Err? ==> r.error == BookingVerdict(old(store.db), store.rules, member, orderId, items, payment, autoCreate, today).error
    ensures r.Ok? ==>
      && r.value.partner in store.db.partners && r.value.invoice in store.db.moves
      && r.value.paymentMove in store.db.moves && r.value.paymentMove != r.value.invoice
      && SearchByOrderKey(store.db.moves, orderId) == Some(r.value.invoice)
      && store.db.moves[r.value.paymentMove].moveType == Entry
  {
    ghost var db0 := store.db;
    lines := [];
    var partner := BookPartner(store, member);
    if partner.Err? {
      r := Err(partner.error);
      return;
    }
    var partnerId := partner.value;
    ghost var db1 := store.db;
    ItemsVerdictReads(db0, db1, items, autoCreate);
    assert KeyTaken(db1.moves, orderId) == KeyTaken(db0.moves, orderId);
    var invoice;
    invoice, lines := BookInvoice(store, partnerId, orderId, items, payment, autoCreate, today);
    if invoice.Err? {
      r := Err(invoice.error);
      return;
    }
    var invoiceId := invoice.value;
    ghost var db2 := store.db;
    PlanPaymentFollowsVerdict(db2, db2.moves[invoiceId], db2.partners[partnerId], payment, today);
    PaymentVerdictReads(db0, db2, payment, today, db2.moves[invoiceId].residual);
    var paid := BookPayment(store, invoiceId, partnerId, orderId, payment, today);
    LinesForIgnoresMoves(db2, store.db, items, lines);
    if paid.Err? {
      r := Err(paid.error);
      return;
    }
    SearchFindsHolder(store.db.moves, orderId, invoiceId);
    r := Ok(Booking(partnerId, invoiceId, paid.value));
  }

  /** The log and the reply after the services booked the order. */
  predicate Succeeded(resp: Response, log: SyncLog, moves: map<Id, Move>, orderId: string, now: Moment, elapsed: real)
    reads log
  {
    && log.status == Success && log.invoiceId.Some? && log.partnerId.Some? && log.paymentMoveId.Some?
    && SearchByOrderKey(moves, orderId) == log.invoiceId
    && log.processingTime == elapsed && log.processedAt == Some(now)
    && log.invoiceId.value in moves
    && resp == SuccessResponse(
         CreatedData(orderId, log.partnerId.value, log.invoiceId.value,
                     moves[log.invoiceId.value].name, log.paymentMoveId.value, log.id),
         "Factura creada exitosamente")
  }

  /**
   * The log and the reply after a fault: a ValidationError is a 422 and an
   * `error` log; anything else a 500 and a `retry` log.
   */
  predicate Failed(resp: Response, log: SyncLog, services: Services, retriesBefore: int, now: Moment)
    reads log
  {
    && log.retries == retriesBefore + 1 && log.processedAt == Some(now) && log.errorMessage.Some?
    && (log.errorMessage.value.ValidationError? ==>
          resp == ErrorResponse(VALIDATION_ERROR, services.describe(log.errorMessage.value), 422)
          && log.status == Error && log.errorCode == Some(VALIDATION_ERROR))
    && (log.errorMessage.value.OtherError? ==>
          resp == InternalError() && log.status == Retry && log.errorCode == Some(ODOO_ERROR))
  }

  /** The two `except` branches once the log exists. */
  method MarkFault(log: SyncLog, fault: Fault, services: Services, now: Moment) returns (resp: Response)
    modifies log
    ensures Failed(resp, log, services, old(log.retries), now) && log.errorMessage == Some(fault)
    ensures resp.httpStatus != 200 && NeverRetry(resp)
  {
    if fault.ValidationError? {
      log.MarkError(VALIDATION_ERROR, fault, now, false);
      return ErrorResponse(VALIDATION_ERROR, services.describe(fault), 422);
    }
    log.MarkError(ODOO_ERROR, fault, now, true);
    return InternalError();
  }

  /**
   * Steps 8 to 14 once the log exists: the savepoint, the lock and the
   * re-check, the services, then `mark_success`, or the rollback and
   * `mark_error`.
   */
  method Book(store: Store, log: SyncLog, payload: JValue, settings: Settings, services: Services, now: Moment, elapsed: real)
    returns (resp: Response)
    requires store.Valid() && payload.JObj? && Field(payload.fields, "items", JArr([])).JArr?
    requires SearchByOrderKey(store.db.moves, OrderIdOf(payload)).None?
    modifies store, log
    ensures store.Valid() && NeverRetry(resp)
    ensures resp.httpStatus == 200 ==> Succeeded(resp, log, store.db.moves, OrderIdOf(payload), now, elapsed)
    ensures resp.httpStatus != 200 ==> store.db == old(store.db) && Failed(resp, log, services, old(log.retries), now)
    ensures resp.httpStatus == 200 <==> OrderVerdict(old(store.db), store.rules, payload, settings, now.day).Ok?
    ensures resp.httpStatus != 200 ==>
      log.errorMessage == Some(OrderVerdict(old(store.db), store.rules, payload, settings, now.day).error)
  {
    var orderId := OrderIdOf(payload);
    var snapshot, snapshotNext := store.db, store.nextId;
    // SELECT ... FOR UPDATE, then search again: nothing has written a move since step 7.
    if SearchByOrderKey(store.db.moves, orderId).Some? {
      assert false;
    }
    var booked := BookOrder(store, payload, settings, now.day);
    if booked.Err? {
      store.Restore(snapshot, snapshotNext);
      resp := MarkFault(log, booked.error, services, now);
      return;
    }
    resp := MarkBooked(log, booked.value, store.db.moves, orderId, now, elapsed);
  }

  /** Steps 10 to 12 on the payload's member, items and payment, as the log and the reply see them. */
  method BookOrder(store: Store, payload: JValue, settings: Settings, today: Date) returns (r: Result<Booking, Fault>)
    requires store.Valid() && payload.JObj? && Field(payload.fields, "items", JArr([])).JArr?
    requires SearchByOrderKey(store.db.moves, OrderIdOf(payload)).None?
    modifies store
    ensures store.Valid() && store.nextId >= old(store.nextId)
    ensures r.Err? <==> OrderVerdict(old(store.db), store.rules, payload, settings, today).Err?
    ensures r.Err? ==> r.error == OrderVerdict(old(store.db), store.rules, payload, settings, today).error
    ensures r.Ok? ==>
      r.value.invoice in store.db.moves && SearchByOrderKey(store.db.moves, OrderIdOf(payload)) == Some(r.value.invoice)
  {
    var member := Field(payload.fields, "member", JObj(map[]));
    var items := Field(payload.fields, "items", JArr([]));
    var payment := Field(payload.fields, "payment", JObj(map[]));
    ghost var lines;
    r, lines := Transact(store, member, OrderIdOf(payload), items.elems, payment, settings.autoCreate, today);
  }

  /** Steps 13 and 14: `mark_success` with the three ids, and the reply. */
  method MarkBooked(log: SyncLog, b: Booking, moves: map<Id, Move>, orderId: string, now: Moment, elapsed: real)
    returns (resp: Response)
    requires b.invoice in moves && SearchByOrderKey(moves, orderId) == Some(b.invoice)
    modifies log
    ensures Succeeded(resp, log, moves, orderId, now, elapsed) && NeverRetry(resp)
  {
    log.MarkSuccess(Some(b.partner), Some(b.invoice), Some(b.paymentMove), elapsed, now);
    resp := SuccessResponse(
      CreatedData(orderId, b.partner, b.invoice, moves[b.invoice].name, b.paymentMove, log.id),
      "Factura creada exitosamente");
  }

  /** Step 7 when the order has an invoice: `mark_success` with its partner and id, and the reply. */
  method MarkExisting(log: SyncLog, orderId: string, invoiceId: Id, invoice: Move, now: Moment, elapsed: real)
    returns (resp: Response)
    modifies log
    ensures log.status == Success && log.invoiceId == Some(invoiceId) && log.partnerId == invoice.partner
    ensures log.paymentMoveId.None? && log.processingTime == elapsed && log.processedAt == Some(now)
    ensures resp == SuccessResponse(ExistingData(orderId, invoiceId, invoice, log.id),
                                    "Factura ya existe, retornando existente", "INVOICE_EXISTS")
    ensures resp.httpStatus == 200 && NeverRetry(resp)
  {
    log.MarkSuccess(invoice.partner, Some(invoiceId), None, elapsed, now);
    resp := SuccessResponse(ExistingData(orderId, invoiceId, invoice, log.id),
                            "Factura ya existe, retornando existente", "INVOICE_EXISTS");
  }

  /**
   * Steps 5 and 6: `meta.get(...)` for the keyword arguments, then
   * `create_log`; its ValidationError is a 422 and any other exception a
   * 500, neither with a log to mark.
   */
  method OpenLog(logs: SyncLogTable, payload: JValue, services: Services, now: Moment) returns (r: Result<SyncLog, Response>)
    requires logs.Valid()
    modifies logs
    ensures logs.Valid()
    ensures r.Ok? <==> LogFieldsFor(payload).Ok? && !old(logs.LoggedOn(OrderIdOf(payload), now.day))
    ensures r.Err? ==> NeverRetry(r.error) && r.error.httpStatus != 200
    ensures LogFieldsFor(payload).Err? ==> r == Err(InternalError()) && logs.logs == old(logs.logs)
    ensures LogFieldsFor(payload).Ok? && old(logs.LoggedOn(OrderIdOf(payload), now.day)) ==>
      r == Err(ReplayRefusal(OrderIdOf(payload), services))
      && Orphaned(old(logs.logs), logs.logs, old(logs.nextId), OrderIdOf(payload), Pending)
    ensures r.Ok? ==>
      && fresh(r.value) && logs.logs == old(logs.logs)[r.value.id := r.value]
      && r.value.orderId == OrderIdOf(payload) && logs.LoggedOn(OrderIdOf(payload), now.day)
      && r.value.status == Pending && r.value.retries == 0 && r.value.receivedAt == now
  {
    var args := LogArgs(payload);
    if args.Err? {
      return Err(InternalError());
    }
    var created := logs.CreateLog(OrderIdOf(payload), payload, Pending, args.value.0, args.value.1, args.value.2, services.digest, now);
    if created.Err? {
      if created.error.ValidationError? {
        return Err(ErrorResponse(VALIDATION_ERROR, services.describe(created.error), 422));
      }
      return Err(InternalError());
    }
    r := Ok(created.value);
  }

  /**
   * Steps 5 to 14 for a payload that passed validation: the log, the fast
   * path for an order that already has an invoice, then the booking.
   * `create_log` runs before the fast path, so a second delivery of an order
   * on the day of its first is refused with 422 whatever became of the first,
   * and leaves a `pending` log behind.
   */
  method Process(store: Store, logs: SyncLogTable, payload: JValue, settings: Settings, services: Services, now: Moment, elapsed: real)
    returns (resp: Response, logRecord: Option<SyncLog>)
    requires store.Valid() && logs.Valid() && PayloadVerdict(payload, now.day) == Accepted
    modifies store, logs
    ensures store.Valid() && logs.Valid() && NeverRetry(resp)
    ensures resp.httpStatus != 200 ==> store.db == old(store.db)
    ensures LogFieldsFor(payload).Err? ==>
      resp == InternalError() && logRecord.None? && logs.logs == old(logs.logs) && store.db == old(store.db)
    ensures LogFieldsFor(payload).Ok? && old(logs.LoggedOn(OrderIdOf(payload), now.day)) ==>
      resp == ReplayRefusal(OrderIdOf(payload), services) && logRecord.None? && store.db == old(store.db)
      && Orphaned(old(logs.logs), logs.logs, old(logs.nextId), OrderIdOf(payload), Pending)
    ensures logRecord.Some? <==> LogFieldsFor(payload).Ok? && !old(logs.LoggedOn(OrderIdOf(payload), now.day))
    ensures logRecord.Some? ==>
      && fresh(logRecord.value) && logs.logs == old(logs.logs)[logRecord.value.id := logRecord.value]
      && logRecord.value.orderId == OrderIdOf(payload) && logs.LoggedOn(OrderIdOf(payload), now.day)
      && logRecord.value.receivedAt == now
    ensures logRecord.Some? && old(SearchByOrderKey(store.db.moves, OrderIdOf(payload))).Some? ==>
      var existing := old(SearchByOrderKey(store.db.moves, OrderIdOf(payload))).value;
      && store.db == old(store.db) && logRecord.value.status == Success && logRecord.value.invoiceId == Some(existing)
      && resp == SuccessResponse(ExistingData(OrderIdOf(payload), existing, old(store.db.moves[existing]), logRecord.value.id),
                                 "Factura ya existe, retornando existente", "INVOICE_EXISTS")
    ensures resp.httpStatus == 200 ==>
      && logRecord.Some? && logRecord.value.status == Success && logRecord.value.invoiceId.Some?
      && SearchByOrderKey(store.db.moves, OrderIdOf(payload)) == logRecord.value.invoiceId
    ensures logRecord.Some? && resp.httpStatus != 200 ==> Failed(resp, logRecord.value, services, 0, now)
    ensures logRecord.Some? && old(SearchByOrderKey(store.db.moves, OrderIdOf(payload))).None? ==>
      && (resp.httpStatus == 200 <==> OrderVerdict(old(store.db), store.rules, payload, settings, now.day).Ok?)
      && (resp.httpStatus != 200 ==>
            logRecord.value.errorMessage == Some(OrderVerdict(old(store.db), store.rules, payload, settings, now.day).error))
  {
    AcceptedShape(payload, now.day);
    var orderId := OrderIdOf(payload);
    var logged := OpenLog(logs, payload, services, now);
    if logged.Err? {
      return logged.error, None;
    }
    var log := logged.value;
    logRecord := Some(log);
    var existing := SearchByOrderKey(store.db.moves, orderId);
    if existing.Some? {
      resp := MarkExisting(log, orderId, existing.value, store.db.moves[existing.value], now, elapsed);
      return;
    }
    resp := Book(store, log, payload, settings, services, now, elapsed);
  }

  /**
   * `relatic_sale_webhook`: steps 1 to 4 answer without writing anything;
   * afterwards no reply but a success leaves business data behind, and no
   * reply invites a retry.
   */
  method Webhook(store: Store, logs: SyncLogTable, req: Request, settings: Settings, services: Services, now: Moment, elapsed: real)
    returns (resp: Response, logRecord: Option<SyncLog>)
    requires store.Valid() && logs.Valid()
    modifies store, logs
    ensures store.Valid() && logs.Valid() && NeverRetry(resp)
    ensures resp.httpStatus != 200 ==> store.db == old(store.db)
    ensures Admit(req, settings, services, now.day).Err? ==>
      resp == Admit(req, settings, services, now.day).error && logRecord.None?
      && store.db == old(store.db) && logs.logs == old(logs.logs)
    ensures Admit(req, settings, services, now.day).Ok? ==>
      var payload := Admit(req, settings, services, now.day).value;
      LogFieldsFor(payload).Ok? && old(logs.LoggedOn(OrderIdOf(payload), now.day)) ==>
      resp == ReplayRefusal(OrderIdOf(payload), services) && logRecord.None? && store.db == old(store.db)
      && Orphaned(old(logs.logs), logs.logs, old(logs.nextId), OrderIdOf(payload), Pending)
    ensures logRecord.Some? ==>
      && Admit(req, settings, services, now.day).Ok?
      && var payload := Admit(req, settings, services, now.day).value;
      && LogFieldsFor(payload).Ok? && fresh(logRecord.value)
      && logs.logs == old(logs.logs)[logRecord.value.id := logRecord.value]
      && logRecord.value.orderId == OrderIdOf(payload) && logs.LoggedOn(OrderIdOf(payload), now.day)
      && logRecord.value.receivedAt == now
    ensures Admit(req, settings, services, now.day).Ok? ==>
      var payload := Admit(req, settings, services, now.day).value;
      LogFieldsFor(payload).Ok? && !old(logs.LoggedOn(OrderIdOf(payload), now.day)) ==> logRecord.Some?
    ensures logRecord.Some? && Admit(req, settings, services, now.day).Ok? ==>
      var orderId := OrderIdOf(Admit(req, settings, services, now.day).value);
      old(SearchByOrderKey(store.db.moves, orderId)).Some? ==>
      var existing := old(SearchByOrderKey(store.db.moves, orderId)).value;
      && store.db == old(store.db) && logRecord.value.status == Success && logRecord.value.invoiceId == Some(existing)
      && resp == SuccessResponse(ExistingData(orderId, existing, old(store.db.moves[existing]), logRecord.value.id),
                                 "Factura ya existe, retornando existente", "INVOICE_EXISTS")
    ensures resp.httpStatus == 200 ==>
      && Admit(req, settings, services, now.day).Ok?
      && logRecord.Some? && logRecord.value.status == Success && logRecord.value.invoiceId.Some?
      && SearchByOrderKey(store.db.moves, OrderIdOf(Admit(req, settings, services, now.day).value)) == logRecord.value.invoiceId
    ensures logRecord.Some? && Admit(req, settings, services, now.day).Ok? ==>
      var payload := Admit(req, settings, services, now.day).value;
      old(SearchByOrderKey(store.db.moves, OrderIdOf(payload))).None? ==>
      && (resp.httpStatus == 200 <==> OrderVerdict(old(store.db), store.rules, payload, settings, now.day).Ok?)
      && (resp.httpStatus != 200 ==>
            logRecord.value.errorMessage == Some(OrderVerdict(old(store.db), store.rules, payload, settings, now.day).error))
  {
    var parsed := services.parse(req.body);
    if parsed.None? {
      return ErrorResponse(INVALID_PAYLOAD, "Payload JSON inválido", 400), None;
    }
    var payload := parsed.value;
    if !ValidateApiKey(ApiKeyOf(req.authorization), settings.apiKey) {
      return ErrorResponse(INVALID_API_KEY, "API Key inválida o faltante", 401), None;
    }
    var signed := ValidateSignature(req.body, req.signature, settings.hmacSecret, services.hmacHex);
    if signed.None? {
      return InternalError(), None;
    }
    if !signed.value {
      return ErrorResponse(INVALID_SIGNATURE, "La firma HMAC no coincide con el payload", 401), None;
    }
    var verdict := ValidatePayload(payload, now.day);
    match verdict
    case Rejected(code) =>
      return ErrorResponse(code, services.rejection(code, payload), 400), None;
    case Raised(_) =>
      return InternalError(), None;
    case Accepted =>
      resp, logRecord := Process(store, logs, payload, settings, services, now, elapsed);
  }

  /**
   * The same request delivered twice on one day: once the first delivery
   * has written its log, whether it then booked the order or failed and
   * logged a retry, the second is refused with 422.
   */
  method SameDayReplay(store: Store, logs: SyncLogTable, req: Request, settings: Settings, services: Services,
                       now: Moment, later: Moment, elapsed: real)
    returns (first: Response, firstLog: Option<SyncLog>, second: Response)
    requires store.Valid() && logs.Valid() && later.day == now.day
    modifies store, logs
    ensures first.httpStatus == 200 ==> firstLog.Some?
    ensures firstLog.Some? ==>
      && Admit(req, settings, services, now.day).Ok?
      && second == ReplayRefusal(OrderIdOf(Admit(req, settings, services, now.day).value), services)
  {
    first, firstLog := Webhook(store, logs, req, settings, services, now, elapsed);
    var secondLog;
    second, secondLog := Webhook(store, logs, req, settings, services, later, elapsed);
  }

  /** Adding a record received before `day` keeps every record of the table from before `day`. */
  lemma LoggedBefore(before: map<Id, SyncLog>, after: map<Id, SyncLog>, log: SyncLog, day: Date)
    requires forall k :: k in before ==> Before(before[k].receivedAt.day, day)
    requires after == before[log.id := log] && Before(log.receivedAt.day, day)
    ensures forall k :: k in after ==> Before(after[k].receivedAt.day, day)
  {
  }

  /** A table whose records are all from before `day` has no log of any order on `day`. */
  lemma NothingLoggedOn(logs: SyncLogTable, orderId: string, day: Date)
    requires forall k :: k in logs.logs ==> Before(logs.logs[k].receivedAt.day, day)
    ensures !logs.LoggedOn(orderId, day)
  {
  }

  /**
   * The same request delivered again on a later day, after the first
   * delivery booked the order: no log of the order is from that day, so
   * the second delivery takes the fast path, writes no business data and
   * answers with the invoice the first one created.
   */
  method LaterDayReplay(store: Store, logs: SyncLogTable, req: Request, settings: Settings, services: Services,
                        now: Moment, later: Moment, elapsed: real)
    returns (first: Response, firstLog: Option<SyncLog>, second: Response, secondLog: Option<SyncLog>, ghost booked: Tables)
    requires store.Valid() && logs.Valid() && Before(now.day, later.day)
    requires forall k :: k in logs.logs ==> Before(logs.logs[k].receivedAt.day, later.day)
    modifies store, logs
    ensures first.httpStatus == 200 ==>
      && Admit(req, settings, services, now.day).Ok?
      && firstLog.Some? && secondLog.Some? && firstLog.value.invoiceId.Some?
      && store.db == booked && firstLog.value.invoiceId.value in booked.moves
      && secondLog.value.status == Success && secondLog.value.invoiceId == firstLog.value.invoiceId
      && second == SuccessResponse(
           ExistingData(OrderIdOf(Admit(req, settings, services, now.day).value), firstLog.value.invoiceId.value,
                        booked.moves[firstLog.value.invoiceId.value], secondLog.value.id),
           "Factura ya existe, retornando existente", "INVOICE_EXISTS")
  {
    first, firstLog := Deliver(store, logs, req, settings, services, now, elapsed);
    booked := store.db;
    if first.httpStatus != 200 {
      second, secondLog := Webhook(store, logs, req, settings, services, later, elapsed);
      return;
    }
    var payload := Admit(req, settings, services, now.day).value;
    var orderId := OrderIdOf(payload);
    var invoiceId := firstLog.value.invoiceId.value;
    assert SearchByOrderKey(store.db.moves, orderId) == Some(invoiceId);
    AcceptedLater(payload, now.day, later.day);
    assert Admit(req, settings, services, later.day) == Ok(payload);
    LoggedBefore(old(logs.logs), logs.logs, firstLog.value, later.day);
    NothingLoggedOn(logs, orderId, later.day);
    second, secondLog := Redeliver(store, logs, req, settings, services, later, elapsed, payload, invoiceId);
  }

  /** A first delivery: what a success leaves behind for the next one. */
  method Deliver(store: Store, logs: SyncLogTable, req: Request, settings: Settings, services: Services, now: Moment, elapsed: real)
    returns (resp: Response, logRecord: Option<SyncLog>)
    requires store.Valid() && logs.Valid()
    modifies store, logs
    ensures store.Valid() && logs.Valid()
    ensures resp.httpStatus == 200 ==>
      && Admit(req, settings, services, now.day).Ok?
      && var payload := Admit(req, settings, services, now.day).value;
      && LogFieldsFor(payload).Ok? && logRecord.Some? && logRecord.value.receivedAt == now
      && logs.logs == old(logs.logs)[logRecord.value.id := logRecord.value]
      && logRecord.value.invoiceId.Some?
      && SearchByOrderKey(store.db.moves, OrderIdOf(payload)) == logRecord.value.invoiceId
  {
    resp, logRecord := Webhook(store, logs, req, settings, services, now, elapsed);
  }

  /** A delivery of a booked order on a day without a log of it takes the fast path. */
  method Redeliver(store: Store, logs: SyncLogTable, req: Request, settings: Settings, services: Services,
                   now: Moment, elapsed: real, payload: JValue, invoiceId: Id)
    returns (resp: Response, logRecord: Option<SyncLog>)
    requires store.Valid() && logs.Valid()
    requires Admit(req, settings, services, now.day) == Ok(payload) && LogFieldsFor(payload).Ok?
    requires !logs.LoggedOn(OrderIdOf(payload), now.day)
    requires SearchByOrderKey(store.db.moves, OrderIdOf(payload)) == Some(invoiceId)
    modifies store, logs
    ensures logRecord.Some? && store.db == old(store.db)
    ensures logRecord.value.status == Success && logRecord.value.invoiceId == Some(invoiceId)
    ensures resp == SuccessResponse(ExistingData(OrderIdOf(payload), invoiceId, old(store.db.moves[invoiceId]), logRecord.value.id),
                                    "Factura ya existe, retornando existente", "INVOICE_EXISTS")
  {
    resp, logRecord := Webhook(store, logs, req, settings, services, now, elapsed);
  }
}
