/**
 * `relatic.sync.log`: one audit record per webhook delivery.  The state
 * of a record (status, retry count, error, linked ids) is updated in place
 * by `mark_success`, `mark_error` and `increment_retry`; `create_log` adds
 * a record and `_check_order_id_unique` refuses a second one for the same
 * order on the same day.
 */
module SyncLogs {
  import opened Wrappers
  import opened Json
  import opened Dates
  import opened Records

  /** The `status` selection. */
  datatype Status = Pending | Success | Error | Retry {
    function Value(): string {
      match this
      case Pending => "pending"
      case Success => "success"
      case Error => "error"
      case Retry => "retry"
    }
    /** The label `name_get` shows. */
    function Label(): string {
      match this
      case Pending => "Pendiente"
      case Success => "Exitoso"
      case Error => "Error"
      case Retry => "Reintento"
    }
  }

  /** The `environment` selection. */
  datatype Environment = Prod | Staging | Dev {
    function Value(): string {
      match this
      case Prod => "prod"
      case Staging => "staging"
      case Dev => "dev"
    }
  }

  /**
   * Writing a value to the `environment` selection field: a falsy value
   * leaves it unset, one of the three keys selects it, anything else is the
   * ORM's ValueError.
   */
  function SelectEnvironment(v: JValue): (r: Result<Option<Environment>, Fault>)
    ensures !Truthy(v) ==> r == Ok(None)
    ensures forall e: Environment :: v == JStr(e.Value()) ==> r == Ok(Some(e))
    ensures r.Err? <==> Truthy(v) && v !in {JStr("prod"), JStr("staging"), JStr("dev")}
    ensures r.Err? <==> Truthy(v) && forall e: Environment :: v != JStr(e.Value())
    ensures r.Err? ==> r.error == OtherError(BadSelection(v))
  {
    assert forall e: Environment :: JStr(e.Value()) in {JStr("prod"), JStr("staging"), JStr("dev")};
    assert JStr(Prod.Value()) == JStr("prod") && JStr(Staging.Value()) == JStr("staging") && JStr(Dev.Value()) == JStr("dev");
    if v == JStr("prod") then Ok(Some(Prod))
    else if v == JStr("staging") then Ok(Some(Staging))
    else if v == JStr("dev") then Ok(Some(Dev))
    else if !Truthy(v) then Ok(None)
    else Err(OtherError(BadSelection(v)))
  }

  /** The metadata columns `create_log` writes. */
  datatype LogFields = LogFields(payloadVersion: JValue, source: JValue, environment: Option<Environment>)

  /**
   * The values `create_log` builds from the payload's `meta` and the keyword
   * arguments: a keyword that is passed (`Some`) overrides what `meta` gives.
   * `payload.get` and `meta.get` are evaluated whether or not they are
   * overridden.
   */
  function LogFieldsOf(payload: JValue, version: Option<JValue>, source: Option<JValue>, environment: Option<JValue>)
    : (r: Result<LogFields, Fault>)
    ensures r.Ok? ==> payload.JObj? && Field(payload.fields, "meta", JObj(map[])).JObj?
    ensures r.Ok? ==> var meta := Field(payload.fields, "meta", JObj(map[])).fields;
      && r.value.payloadVersion == (if version.Some? then version.value else Field(meta, "version", JNull))
      && r.value.source == (if source.Some? then source.value else Field(meta, "source", JStr("membresia-relatic")))
      && SelectEnvironment(if environment.Some? then environment.value else Field(meta, "environment", JNull))
         == Ok(r.value.environment)
    ensures r.Err? <==>
      || !payload.JObj?
      || !Field(payload.fields, "meta", JObj(map[])).JObj?
      || SelectEnvironment(
           if environment.Some? then environment.value
           else Field(Field(payload.fields, "meta", JObj(map[])).fields, "environment", JNull)).Err?
  {
    var metaValue :- Get(payload, "meta", JObj(map[])).ToResult(OtherError(NoSuchAttribute));
    if !metaValue.JObj? then Err(OtherError(NoSuchAttribute))
    else
      var meta := metaValue.fields;
      var env :- SelectEnvironment(if environment.Some? then environment.value else Field(meta, "environment", JNull));
      Ok(LogFields(
        if version.Some? then version.value else Field(meta, "version", JNull),
        if source.Some? then source.value else Field(meta, "source", JStr("membresia-relatic")),
        env))
  }

  /** `invoice_number`, the stored related field `invoice_id.name` (empty without an invoice). */
  function InvoiceNumber(invoice: Option<Id>, moves: map<Id, Move>): string {
    if invoice.Some? && invoice.value in moves then moves[invoice.value].name else ""
  }

  /** `name_get` of one record: "<order_id> - <status label>", then " (<invoice number>)" if there is one. */
  function DisplayName(orderId: string, status: Status, invoiceNumber: string): (r: string)
    ensures |r| == |orderId| + 3 + |status.Label()| + (if invoiceNumber == "" then 0 else |invoiceNumber| + 3)
    ensures r[..|orderId| + 3] == orderId + " - "
    ensures invoiceNumber == "" ==> r == orderId + " - " + status.Label()
    ensures invoiceNumber != "" ==>
      r[..|r| - |invoiceNumber| - 3] == orderId + " - " + status.Label()
      && r[|r| - |invoiceNumber| - 3..] == " (" + invoiceNumber + ")"
  {
    var head := orderId + " - " + status.Label();
    if invoiceNumber != "" then head + " (" + invoiceNumber + ")" else head
  }

  class SyncLog {
    const id: Id
    const orderId: string
    const payloadHash: string
    const payloadVersion: JValue
    const source: JValue
    const environment: Option<Environment>
    /** `received_at`, which is also the record's `create_date`. */
    const receivedAt: Moment
    var status: Status
    var retries: int
    var errorCode: Option<ErrorCode>
    /** `error_message`: the text of the exception, represented by the exception itself. */
    var errorMessage: Option<Fault>
    var partnerId: Option<Id>
    var invoiceId: Option<Id>
    var paymentMoveId: Option<Id>
    var processingTime: real
    var processedAt: Option<Moment>

    constructor (id: Id, orderId: string, payloadHash: string, fields: LogFields, status: Status, now: Moment)
      ensures this.id == id && this.orderId == orderId && this.payloadHash == payloadHash
      ensures payloadVersion == fields.payloadVersion && source == fields.source && environment == fields.environment
      ensures receivedAt == now && this.status == status && retries == 0
      ensures errorCode.None? && errorMessage.None? && processedAt.None? && processingTime == 0.0
      ensures partnerId.None? && invoiceId.None? && paymentMoveId.None?
    {
      this.id := id;
      this.orderId := orderId;
      this.payloadHash := payloadHash;
      payloadVersion := fields.payloadVersion;
      source := fields.source;
      environment := fields.environment;
      receivedAt := now;
      this.status := status;
      retries := 0;
      errorCode := None;
      errorMessage := None;
      partnerId := None;
      invoiceId := None;
      paymentMoveId := None;
      processingTime := 0.0;
      processedAt := None;
    }

    /** `mark_success`: the linked ids (`None` when omitted), duration and time; the retry and error fields stay. */
    method MarkSuccess(partner: Option<Id>, invoice: Option<Id>, paymentMove: Option<Id>, elapsed: real, now: Moment)
      modifies this
      ensures status == Success && partnerId == partner && invoiceId == invoice && paymentMoveId == paymentMove
      ensures processingTime == elapsed && processedAt == Some(now)
      ensures retries == old(retries) && errorCode == old(errorCode) && errorMessage == old(errorMessage)
    {
      status := Success;
      partnerId := partner;
      invoiceId := invoice;
      paymentMoveId := paymentMove;
      processingTime := elapsed;
      processedAt := Some(now);
    }

    /** `mark_error`: status `retry` iff `retry`, else `error`; one more retry counted. */
    method MarkError(code: ErrorCode, message: Fault, now: Moment, retry: bool := false)
      modifies this
      ensures status == (if retry then Retry else Error)
      ensures errorCode == Some(code) && errorMessage == Some(message)
      ensures retries == old(retries) + 1 && processedAt == Some(now)
      ensures partnerId == old(partnerId) && invoiceId == old(invoiceId) && paymentMoveId == old(paymentMoveId)
      ensures processingTime == old(processingTime)
    {
      status := if retry then Retry else Error;
      errorCode := Some(code);
      errorMessage := Some(message);
      retries := retries + 1;
      processedAt := Some(now);
    }

    /** `increment_retry`: one more retry, status `retry`, nothing else. */
    method IncrementRetry()
      modifies this
      ensures retries == old(retries) + 1 && status == Retry
      ensures errorCode == old(errorCode) && errorMessage == old(errorMessage)
      ensures partnerId == old(partnerId) && invoiceId == old(invoiceId) && paymentMoveId == old(paymentMoveId)
      ensures processingTime == old(processingTime) && processedAt == old(processedAt)
    {
      retries := retries + 1;
      status := Retry;
    }
  }

  /** `name_get` over a recordset: one (id, name) pair per record, in order. */
  method NameGet(records: seq<SyncLog>, moves: map<Id, Move>) returns (result: seq<(Id, string)>)
    ensures |result| == |records|
    ensures forall i :: 0 <= i < |records| ==>
      result[i] == (records[i].id, DisplayName(records[i].orderId, records[i].status, InvoiceNumber(records[i].invoiceId, moves)))
  {
    result := [];
    for i := 0 to |records|
      invariant |result| == i
      invariant forall j :: 0 <= j < i ==>
        result[j] == (records[j].id, DisplayName(records[j].orderId, records[j].status, InvoiceNumber(records[j].invoiceId, moves)))
    {
      var record := records[i];
      result := result + [(record.id, DisplayName(record.orderId, record.status, InvoiceNumber(record.invoiceId, moves)))];
    }
  }

  /** `after` is `before` with one more record, `id`, of the order, left in the status it was created with. */
  predicate Orphaned(before: map<Id, SyncLog>, after: map<Id, SyncLog>, id: Id, orderId: string, status: Status)
    reads if id in after then {after[id]} else {}
  {
    id !in before && id in after && after == before[id := after[id]]
    && after[id].orderId == orderId && after[id].status == status
  }

  /** The sync-log table. */
  class SyncLogTable {
    var logs: map<Id, SyncLog>
    var nextId: nat

    predicate Valid()
      reads this
    {
      forall k :: k in logs ==> logs[k].id == k && k < nextId
    }

    constructor ()
      ensures Valid() && logs == map[] && nextId == 1
    {
      logs := map[];
      nextId := 1;
    }

    /**
     * `_check_order_id_unique` for a record about to be created: another log
     * of the order whose `create_date` is at or after midnight of `today`.
     */
    predicate LoggedOn(orderId: string, today: Date): (r: bool)
      reads this
      ensures r ==> exists k :: k in logs && logs[k].orderId == orderId
      ensures (forall k :: k in logs ==> Before(logs[k].receivedAt.day, today)) ==> !r
    {
      exists k :: k in logs && logs[k].orderId == orderId && !Before(logs[k].receivedAt.day, today)
    }

    /**
     * `create_log`: hashes the payload with `digest` (SHA-256 of the sorted
     * compact JSON), fills the metadata, and inserts a record.  A value the
     * `environment` selection refuses raises before the INSERT.  The
     * same-day check is an `@api.constrains`, which Odoo runs after the
     * INSERT: the ValidationError reaches the caller, and the row it refused
     * stays, still `pending`, in a transaction the controller goes on to
     * commit.
     */
    method CreateLog(
      orderId: string, payload: JValue, status: Status,
      version: Option<JValue>, source: Option<JValue>, environment: Option<JValue>,
      digest: JValue -> string, now: Moment)
      returns (r: Result<SyncLog, Fault>)
      requires Valid()
      modifies this
      ensures Valid()
      ensures r.Err? <==> LogFieldsOf(payload, version, source, environment).Err? || old(LoggedOn(orderId, now.day))
      ensures LogFieldsOf(payload, version, source, environment).Err? ==>
        r == Err(LogFieldsOf(payload, version, source, environment).error) && logs == old(logs)
      ensures LogFieldsOf(payload, version, source, environment).Ok? && old(LoggedOn(orderId, now.day)) ==>
        r == Err(ValidationError(LogExistsToday(orderId))) && Orphaned(old(logs), logs, old(nextId), orderId, status)
      ensures r.Ok? ==>
        && LogFieldsOf(payload, version, source, environment).Ok? && !old(LoggedOn(orderId, now.day))
        && fresh(r.value) && r.value.id !in old(logs) && logs == old(logs)[r.value.id := r.value]
        && r.value.orderId == orderId && r.value.payloadHash == digest(payload) && r.value.status == status
        && LogFieldsOf(payload, version, source, environment).value
           == LogFields(r.value.payloadVersion, r.value.source, r.value.environment)
        && r.value.receivedAt == now && r.value.retries == 0 && r.value.errorCode.None?
        && r.value.partnerId.None? && r.value.invoiceId.None? && r.value.paymentMoveId.None?
      ensures r.Ok? ==> LoggedOn(orderId, now.day)
    {
      var hash := digest(payload);
      var fields := LogFieldsOf(payload, version, source, environment);
      if fields.Err? {
        return Err(fields.error);
      }
      if LoggedOn(orderId, now.day) {
        var refused := new SyncLog(nextId, orderId, hash, fields.value, status, now);
        logs := logs[nextId := refused];
        nextId := nextId + 1;
        return Err(ValidationError(LogExistsToday(orderId)));
      }
      var log := new SyncLog(nextId, orderId, hash, fields.value, status, now);
      logs := logs[nextId := log];
      nextId := nextId + 1;
      assert logs[log.id].orderId == orderId;
      r := Ok(log);
    }
  }
}
