/**
 * The rows of the Odoo tables the add-on reads and writes, the exceptions it
 * raises, and the ORM's `search(domain, limit=1)`.
 *
 * Every table is a map from record id to row.  A many2one field is an
 * `Option<Id>` (`None` is Odoo's empty recordset / `False`).  Char fields
 * that receive a value straight from the webhook keep the JSON value as sent.
 */
module Records {
  import opened Wrappers
  import opened Json
  import opened Dates

  /** Odoo record ids are positive integers handed out by a sequence. */
  type Id = nat

  // ---------------------------------------------------------------- faults

  /** Why a service raised `odoo.exceptions.ValidationError`. */
  datatype Reason =
    | EmailRequired
    | EmailMalformed(email: string)
    | NameRequired
    | ReceivableMissing
    | SkuRequired
    | ProductNotFound(sku: JValue)
    | IncomeAccountMissing
    | InvoiceNotPosted
    | JournalMissing(paymentMethod: JValue)
    | JournalAccountMissing
    | PartnerReceivableMissing
    | AmountNotPositive
    | AmountDiffersFromResidual
    | LogExistsToday(orderId: string)

  /** Any other exception: Python's TypeError, AttributeError, ValueError, psycopg2's IntegrityError. */
  datatype Cause =
    | NoSuchAttribute   // `.get`, `.strip`, `.upper` on a value that lacks it
    | WrongType         // `<`, `in`, `float()` or `[:10]` on a value that does not support it
    | BadValue          // a string `strptime` or `float` cannot convert
    | UniqueViolation(key: string)
    | BadSelection(value: JValue)

  /** The two `except` branches of the webhook tell these apart. */
  datatype Fault = ValidationError(reason: Reason) | OtherError(cause: Cause)

  /** The error codes that appear in responses and in the sync log. */
  datatype ErrorCode =
    | INVALID_PAYLOAD
    | INVALID_EMAIL
    | EMPTY_ITEMS
    | INVALID_QUANTITY
    | INVALID_PRICE
    | AMOUNT_MISMATCH
    | INVALID_DATE
    | INVALID_VAT
    | INVALID_API_KEY
    | INVALID_SIGNATURE
    | VALIDATION_ERROR
    | ODOO_ERROR
  {
    /** The code as it is written on the wire. */
    function Text(): string {
      match this
      case INVALID_PAYLOAD => "INVALID_PAYLOAD"
      case INVALID_EMAIL => "INVALID_EMAIL"
      case EMPTY_ITEMS => "EMPTY_ITEMS"
      case INVALID_QUANTITY => "INVALID_QUANTITY"
      case INVALID_PRICE => "INVALID_PRICE"
      case AMOUNT_MISMATCH => "AMOUNT_MISMATCH"
      case INVALID_DATE => "INVALID_DATE"
      case INVALID_VAT => "INVALID_VAT"
      case INVALID_API_KEY => "INVALID_API_KEY"
      case INVALID_SIGNATURE => "INVALID_SIGNATURE"
      case VALIDATION_ERROR => "VALIDATION_ERROR"
      case ODOO_ERROR => "ODOO_ERROR"
    }
  }

  // ------------------------------------------------------------------ rows

  /** `res.partner`; `receivable` is the partner's own `property_account_receivable_id`. */
  datatype Partner = Partner(
    name: string,
    email: string,
    phone: string,
    vat: string,
    street: string,
    city: string,
    country: Option<Id>,
    isCompany: bool,
    customerRank: int,
    tags: set<Id>,
    receivable: Option<Id>)

  /** `account.account`. */
  datatype Account = Account(code: string, accountType: string, reconcile: bool)

  /** `account.tax`. */
  datatype Tax = Tax(amount: real, typeTaxUse: string)

  /** `account.journal`. */
  datatype Journal = Journal(name: string, journalType: string, defaultAccount: Option<Id>)

  /** `product.category`; `incomeAccount` is `property_account_income_categ_id`. */
  datatype ProductCategory = ProductCategory(name: string, parent: Option<Id>, incomeAccount: Option<Id>)

  /** `product.product`, with the add-on's `x_relatic_auto` flag. */
  datatype Product = Product(
    name: JValue,
    defaultCode: JValue,
    productType: string,
    saleOk: bool,
    purchaseOk: bool,
    category: Option<Id>,
    incomeAccount: Option<Id>,
    relaticAuto: bool)

  /** `account.move.move_type`. */
  datatype MoveType = Entry | OutInvoice | OutRefund | InInvoice | InRefund | OutReceipt | InReceipt

  datatype MoveState = Draft | Posted | Cancelled

  /** A line of `invoice_line_ids`. */
  datatype InvoiceLine = InvoiceLine(
    product: Option<Id>,
    description: JValue,
    quantity: real,
    priceUnit: real,
    taxes: set<Id>,
    account: Option<Id>)

  /** What a line's amount is computed from: its quantity, unit price and taxes. */
  datatype LinePrice = LinePrice(quantity: real, priceUnit: real, taxes: set<Id>)

  /** The priced content of the lines, in order. */
  function Pricing(lines: seq<InvoiceLine>): seq<LinePrice> {
    seq(|lines|, j requires 0 <= j < |lines| => LinePrice(lines[j].quantity, lines[j].priceUnit, lines[j].taxes))
  }

  /** A journal item of `line_ids`, with its reconciliation flag. */
  datatype JournalItem = JournalItem(
    account: Id,
    partner: Option<Id>,
    debit: real,
    credit: real,
    reconciled: bool)

  /**
   * `account.move`: invoices, credit notes and journal entries.  `orderKey`
   * is the add-on's `x_relatic_order_id`; `residual` is `amount_residual`.
   */
  datatype Move = Move(
    moveType: MoveType,
    state: MoveState,
    name: string,
    partner: Option<Id>,
    orderKey: Option<string>,
    origin: string,
    ref: JValue,
    date: Option<Date>,
    journal: Option<Id>,
    lines: seq<InvoiceLine>,
    items: seq<JournalItem>,
    residual: real)

  /**
   * The business tables.  `receivableDefault` and `incomeCategoryDefault`
   * are the company-wide defaults of the `property_account_receivable_id`
   * and `property_account_income_categ_id` properties, which a partner or a
   * category without a value of its own reads.
   */
  datatype Tables = Tables(
    partners: map<Id, Partner>,
    partnerTags: map<Id, string>,
    countries: map<Id, string>,
    accounts: map<Id, Account>,
    taxes: map<Id, Tax>,
    journals: map<Id, Journal>,
    productCategories: map<Id, ProductCategory>,
    products: map<Id, Product>,
    moves: map<Id, Move>,
    receivableDefault: Option<Id>,
    incomeCategoryDefault: Option<Id>)

  /** Every record id is below `bound`, the next value of the id sequence. */
  predicate IdsBelow(t: Tables, bound: nat) {
    && (forall k :: k in t.partners ==> k < bound)
    && (forall k :: k in t.partnerTags ==> k < bound)
    && (forall k :: k in t.countries ==> k < bound)
    && (forall k :: k in t.accounts ==> k < bound)
    && (forall k :: k in t.taxes ==> k < bound)
    && (forall k :: k in t.journals ==> k < bound)
    && (forall k :: k in t.productCategories ==> k < bound)
    && (forall k :: k in t.products ==> k < bound)
    && (forall k :: k in t.moves ==> k < bound)
  }

  lemma IdsBelowMonotone(t: Tables, a: nat, b: nat)
    requires IdsBelow(t, a) && a <= b
    ensures IdsBelow(t, b)
  {
  }

  /** The partner's receivable account: its own, else the company default. */
  function Receivable(t: Tables, p: Partner): (r: Option<Id>)
    ensures r.Some? <==> p.receivable.Some? || t.receivableDefault.Some?
    ensures p.receivable.Some? ==> r == p.receivable
  {
    if p.receivable.Some? then p.receivable else t.receivableDefault
  }

  // ---------------------------------------------------- search(limit=1)

  /** A least element of a non-empty set, as a ghost witness. */
  ghost function MinOf(s: set<nat>): (r: nat)
    requires s != {}
    ensures r in s && forall y :: y in s ==> r <= y
    decreases |s|
  {
    var x :| x in s;
    if s == {x} then x
    else
      assert forall y :: y in s ==> y == x || y in s - {x};
      var m := MinOf(s - {x});
      if x <= m then x else m
  }

  /** The least element of a non-empty set. */
  function Least(s: set<nat>): (r: nat)
    requires s != {}
    ensures r in s && forall y :: y in s ==> r <= y
  {
    assert MinOf(s) in s;
    var x :| x in s && forall y :: y in s ==> x <= y;
    x
  }

  /**
   * `search([...], limit=1)` over one table: the matching row with the
   * smallest id, or nothing when no row matches.
   */
  function First<V>(m: map<Id, V>, matches: V -> bool): (r: Option<Id>)
    ensures r.None? <==> forall k :: k in m ==> !matches(m[k])
    ensures r.Some? ==> r.value in m && matches(m[r.value])
    ensures r.Some? ==> forall k :: k in m && matches(m[k]) ==> r.value <= k
  {
    var hits := set k | k in m && matches(m[k]);
    assert forall k :: k in m && matches(m[k]) ==> k in hits;
    if hits == {} then None else Some(Least(hits))
  }
}
