/**
 * `_validate_payload`: the rule chain a webhook payload passes before
 * anything is written.  The rules run in a fixed order and the first one
 * that fails decides the error code; a payload of the wrong shape can also
 * make Python raise before any rule decides.
 */
module PayloadValidation {
  import opened Wrappers
  import opened Json
  import opened Dates
  import opened Records

  /** The outcome of `_validate_payload`: `None`, an error dict with its code, or an exception. */
  datatype Verdict = Accepted | Rejected(code: ErrorCode) | Raised(cause: Cause)

  const RequiredFields: seq<string> := ["meta", "order_id", "member", "items", "payment"]
  const MetaFields: seq<string> := ["version", "source", "environment"]
  const PaymentFields: seq<string> := ["method", "amount", "reference", "date"]
  const ItemFields: seq<string> := ["sku", "name"]

  /**
   * `k1 not in c or k2 not in c or ...` (and the loop over required
   * fields): `Some(true)` when every key is present, `Some(false)` when one
   * is missing, `None` when `in` raises on `c`.
   */
  function AllIn(keys: seq<string>, c: JValue): (r: Option<bool>)
    ensures r == Some(true) <==> forall j :: 0 <= j < |keys| ==> In(keys[j], c) == Some(true)
    ensures r.None? <==> keys != [] && !IsContainer(c)
  {
    if keys == [] then Some(true)
    else match In(keys[0], c)
      case None => None
      case Some(false) => assert In(keys[0], c) != Some(true); Some(false)
      case Some(true) =>
        assert forall j :: 1 <= j < |keys| ==> keys[j] == keys[1..][j - 1];
        AllIn(keys[1..], c)
  }

  /** A check of present keys as a rule: missing gives `code`, a raise gives TypeError. */
  function Require(present: Option<bool>, code: ErrorCode): (r: Result<(), Verdict>)
    ensures r.Ok? <==> present == Some(true)
    ensures present == Some(false) ==> r == Err(Rejected(code))
    ensures present.None? ==> r == Err(Raised(WrongType))
  {
    match present
    case None => Err(Raised(WrongType))
    case Some(false) => Err(Rejected(code))
    case Some(true) => Ok(())
  }

  // ---------------------------------------------------------------- items

  /**
   * The checks of one item: `sku` and `name` present, a numeric `qty`
   * above 0 (absent counts as 0), a numeric `price` not below 0 (absent is
   * 0).  A passing item contributes `qty * price` to the total.
   */
  function ItemCheck(item: JValue): (r: Result<real, Verdict>)
    ensures AllIn(ItemFields, item) == Some(false) ==> r == Err(Rejected(INVALID_PAYLOAD))
    ensures item.JObj? && AllIn(ItemFields, item) == Some(true) ==>
      r == QuantityAndPrice(Field(item.fields, "qty", JNum(0.0)), Field(item.fields, "price", JNum(0.0)))
    ensures r.Ok? ==> r.value >= 0.0
    ensures r.Err? ==> r.error != Accepted
  {
    match AllIn(ItemFields, item)
    case None => Err(Raised(WrongType))
    case Some(false) => Err(Rejected(INVALID_PAYLOAD))
    case Some(true) =>
      if !item.JObj? then Err(Raised(NoSuchAttribute))
      else QuantityAndPrice(Field(item.fields, "qty", JNum(0.0)), Field(item.fields, "price", JNum(0.0)))
  }

  /** The quantity rule, then the price rule, of one item. */
  function QuantityAndPrice(qty: JValue, price: JValue): (r: Result<real, Verdict>)
    ensures !IsNumber(qty) || NumValue(qty) <= 0.0 ==> r == Err(Rejected(INVALID_QUANTITY))
    ensures IsNumber(qty) && NumValue(qty) > 0.0 && (!IsNumber(price) || NumValue(price) < 0.0) ==>
      r == Err(Rejected(INVALID_PRICE))
    ensures r.Ok? <==> IsNumber(qty) && NumValue(qty) > 0.0 && IsNumber(price) && NumValue(price) >= 0.0
    ensures r.Ok? ==> r.value == NumValue(qty) * NumValue(price) && r.value >= 0.0
  {
    if !IsNumber(qty) || NumValue(qty) <= 0.0 then Err(Rejected(INVALID_QUANTITY))
    else if !IsNumber(price) || NumValue(price) < 0.0 then Err(Rejected(INVALID_PRICE))
    else Ok(NumValue(qty) * NumValue(price))
  }

  /** The loop over the items: the sum of `qty * price`, or the verdict of the first failing item. */
  function ItemsTotal(items: seq<JValue>): (r: Result<real, Verdict>)
    ensures r.Ok? <==> forall j :: 0 <= j < |items| ==> ItemCheck(items[j]).Ok?
    ensures r.Ok? ==> r.value >= 0.0
    ensures r.Err? ==> r.error != Accepted
  {
    if items == [] then Ok(0.0)
    else
      var before :- ItemsTotal(items[..|items| - 1]);
      var last :- ItemCheck(items[|items| - 1]);
      Ok(before + last)
  }

  /** Once an item fails, the items after it do not change the verdict. */
  lemma {:induction false} ItemsTotalFailureSticks(items: seq<JValue>, i: nat)
    requires i <= |items| && ItemsTotal(items[..i]).Err?
    ensures ItemsTotal(items) == ItemsTotal(items[..i])
    decreases |items| - i
  {
    if i < |items| {
      assert items[..i + 1][..i] == items[..i];
      assert ItemsTotal(items[..i + 1]) == ItemsTotal(items[..i]);
      ItemsTotalFailureSticks(items, i + 1);
    } else {
      assert items[..i] == items;
    }
  }

  /** Items 1 x 120.00 and 2 x 15.00 add up to 150.00. */
  lemma SampleItemsTotal()
    ensures ItemsTotal([
      JObj(map["sku" := JStr("MEM-ANUAL"), "name" := JStr("Membresia"), "qty" := JNum(1.0), "price" := JNum(120.0)]),
      JObj(map["sku" := JStr("CUOTA"), "name" := JStr("Cuota"), "qty" := JNum(2.0), "price" := JNum(15.0)])]) == Ok(150.0)
  {
    var a := JObj(map["sku" := JStr("MEM-ANUAL"), "name" := JStr("Membresia"), "qty" := JNum(1.0), "price" := JNum(120.0)]);
    var b := JObj(map["sku" := JStr("CUOTA"), "name" := JStr("Cuota"), "qty" := JNum(2.0), "price" := JNum(15.0)]);
    assert AllIn(ItemFields, a) == Some(true) && AllIn(ItemFields, b) == Some(true);
    assert [a, b][..1] == [a] && [a][..0] == [];
  }

  // ---------------------------------------------------------------- chain

  /** What the rules up to the amount check leave for the last three. */
  datatype Screened = Screened(amount: real, total: real, date: JValue, vat: JValue)

  /**
   * The rules in order up to `payment.amount` being numeric: those on the
   * payload's head, a non-empty list of items each passing, then those on
   * the payment.
   */
  function Screen(payload: JValue): (r: Result<Screened, Verdict>)
    ensures r.Err? ==> r.error != Accepted
    ensures Head(payload).Err? ==> r == Err(Head(payload).error)
    ensures Head(payload).Ok? ==>
      var items := Field(payload.fields, "items", JArr([]));
      && (!Truthy(items) || !items.JArr? ==> r == Err(Rejected(EMPTY_ITEMS)))
      && (Truthy(items) && items.JArr? && ItemsTotal(items.elems).Err? ==> r == Err(ItemsTotal(items.elems).error))
      && (Truthy(items) && items.JArr? && ItemsTotal(items.elems).Ok? ==>
            var paid := PaymentAmount(Field(payload.fields, "payment", JObj(map[])));
            && (paid.Err? ==> r == Err(paid.error))
            && (paid.Ok? ==>
                  r == Ok(Screened(paid.value.0, ItemsTotal(items.elems).value, paid.value.1,
                                   Field(Head(payload).value, "vat", JStr(""))))))
  {
    var member :- Head(payload);
    var items := Field(payload.fields, "items", JArr([]));
    if !Truthy(items) || !items.JArr? then Err(Rejected(EMPTY_ITEMS))
    else
      var total :- ItemsTotal(items.elems);
      var paid :- PaymentAmount(Field(payload.fields, "payment", JObj(map[])));
      Ok(Screened(paid.0, total, paid.1, Field(member, "vat", JStr(""))))
  }

  /**
   * Required fields, meta keys, a non-empty string `order_id`, an email
   * containing '@' and a name; the member's fields for the rules after.
   */
  function Head(payload: JValue): (r: Result<map<string, JValue>, Verdict>)
    ensures r.Err? ==> r.error != Accepted
    ensures r.Ok? ==> payload.JObj? && "member" in payload.fields && payload.fields["member"].JObj?
                      && r.value == payload.fields["member"].fields
    ensures AllIn(RequiredFields, payload) == Some(false) ==> r == Err(Rejected(INVALID_PAYLOAD))
    ensures AllIn(RequiredFields, payload).None? ==> r == Err(Raised(WrongType))
    ensures AllIn(RequiredFields, payload) == Some(true) && !payload.JObj? ==> r == Err(Raised(NoSuchAttribute))
    ensures AllIn(RequiredFields, payload) == Some(true) && payload.JObj? ==>
      var p := payload.fields;
      var meta := AllIn(MetaFields, Field(p, "meta", JObj(map[])));
      var orderId := Field(p, "order_id", JStr(""));
      var member := Field(p, "member", JObj(map[]));
      && (meta == Some(false) ==> r == Err(Rejected(INVALID_PAYLOAD)))
      && (meta.None? ==> r == Err(Raised(WrongType)))
      && (meta == Some(true) && (!Truthy(orderId) || !orderId.JStr?) ==> r == Err(Rejected(INVALID_PAYLOAD)))
      && (meta == Some(true) && Truthy(orderId) && orderId.JStr? ==>
            && (!member.JObj? ==> r == Err(Raised(NoSuchAttribute)))
            && (member.JObj? ==>
                  var email := Field(member.fields, "email", JStr(""));
                  && (!Truthy(email) || In("@", email) == Some(false) ==> r == Err(Rejected(INVALID_EMAIL)))
                  && (Truthy(email) && In("@", email).None? ==> r == Err(Raised(WrongType)))
                  && (Truthy(email) && In("@", email) == Some(true) && !Truthy(Field(member.fields, "name", JStr(""))) ==>
                        r == Err(Rejected(INVALID_PAYLOAD)))))
  {
    var _ :- Require(AllIn(RequiredFields, payload), INVALID_PAYLOAD);
    if !payload.JObj? then Err(Raised(NoSuchAttribute))
    else
      var p := payload.fields;
      var _ :- Require(AllIn(MetaFields, Field(p, "meta", JObj(map[]))), INVALID_PAYLOAD);
      var orderId := Field(p, "order_id", JStr(""));
      if !Truthy(orderId) || !orderId.JStr? then Err(Rejected(INVALID_PAYLOAD))
      else
        var member := Field(p, "member", JObj(map[]));
        if !member.JObj? then Err(Raised(NoSuchAttribute))
        else
          var email := Field(member.fields, "email", JStr(""));
          if !Truthy(email) then Err(Rejected(INVALID_EMAIL))
          else
            var _ :- Require(In("@", email), INVALID_EMAIL);
            if !Truthy(Field(member.fields, "name", JStr(""))) then Err(Rejected(INVALID_PAYLOAD))
            else Ok(member.fields)
  }

  /** The payment keys and a numeric amount; the amount and the date for the rules after. */
  function PaymentAmount(payment: JValue): (r: Result<(real, JValue), Verdict>)
    ensures r.Err? ==> r.error != Accepted
    ensures r.Ok? <==> AllIn(PaymentFields, payment) == Some(true) && payment.JObj?
                       && IsNumber(Field(payment.fields, "amount", JNum(0.0)))
    ensures r.Ok? ==> r.value == (NumValue(Field(payment.fields, "amount", JNum(0.0))), Field(payment.fields, "date", JStr("")))
    ensures AllIn(PaymentFields, payment) == Some(false) ==> r == Err(Rejected(INVALID_PAYLOAD))
    ensures AllIn(PaymentFields, payment).None? ==> r == Err(Raised(WrongType))
    ensures AllIn(PaymentFields, payment) == Some(true) && !payment.JObj? ==> r == Err(Raised(NoSuchAttribute))
    ensures (AllIn(PaymentFields, payment) == Some(true) && payment.JObj?
             && !IsNumber(Field(payment.fields, "amount", JNum(0.0)))) ==>
      r == Err(Rejected(INVALID_PAYLOAD))
  {
    var _ :- Require(AllIn(PaymentFields, payment), INVALID_PAYLOAD);
    if !payment.JObj? then Err(Raised(NoSuchAttribute))
    else
      var amount := Field(payment.fields, "amount", JNum(0.0));
      if !IsNumber(amount) then Err(Rejected(INVALID_PAYLOAD))
      else Ok((NumValue(amount), Field(payment.fields, "date", JStr(""))))
  }

  /** The amount must match the items' total within a cent. */
  predicate AmountMatches(amount: real, total: real) {
    Abs(amount - total) <= 0.01
  }

  /**
   * The date rule: `datetime.strptime(date, '%Y-%m-%d')` raises TypeError
   * on a non-string (the `except ValueError` does not catch it); an
   * unparsable string or a date after today is refused.
   */
  function DateRule(date: JValue, today: Date): (r: Option<Verdict>)
    ensures !date.JStr? ==> r == Some(Raised(WrongType))
    ensures date.JStr? && ParseIsoDate(date.s).None? ==> r == Some(Rejected(INVALID_DATE))
    ensures date.JStr? && ParseIsoDate(date.s).Some? ==>
      (r.None? <==> !Before(today, ParseIsoDate(date.s).value))
      && (r.Some? ==> r == Some(Rejected(INVALID_DATE)))
  {
    if !date.JStr? then Some(Raised(WrongType))
    else match ParseIsoDate(date.s)
      case None => Some(Rejected(INVALID_DATE))
      case Some(d) => if Before(today, d) then Some(Rejected(INVALID_DATE)) else None
  }

  /** Today's date passes the date rule. */
  lemma TodayPassesDateRule(today: Date)
    requires ValidDate(today)
    ensures DateRule(JStr(FormatIsoDate(today)), today).None?
  {
    FormatParseRoundTrip(today);
    assert !Before(today, today);
  }

  /** The VAT rule: a truthy `vat` must be a string of at least 3 characters; absent or empty passes. */
  function VatRule(vat: JValue): (r: Option<Verdict>)
    ensures r.Some? <==> Truthy(vat) && (!vat.JStr? || |vat.s| < 3)
    ensures r.Some? ==> r.value == Rejected(INVALID_VAT)
  {
    if Truthy(vat) && (!vat.JStr? || |vat.s| < 3) then Some(Rejected(INVALID_VAT)) else None
  }

  /** The last three rules: amount against total, date, VAT. */
  function Conclude(s: Screened, today: Date): (v: Verdict)
    ensures v == Rejected(AMOUNT_MISMATCH) <==> !AmountMatches(s.amount, s.total)
    ensures AmountMatches(s.amount, s.total) && DateRule(s.date, today).Some? ==> v == DateRule(s.date, today).value
    ensures AmountMatches(s.amount, s.total) && DateRule(s.date, today).None? ==>
      v == (if VatRule(s.vat).Some? then VatRule(s.vat).value else Accepted)
  {
    if !AmountMatches(s.amount, s.total) then Rejected(AMOUNT_MISMATCH)
    else match DateRule(s.date, today)
      case Some(v) => v
      case None =>
        match VatRule(s.vat)
        case Some(v) => v
        case None => Accepted
  }

  /** `_validate_payload` as a whole. */
  function PayloadVerdict(payload: JValue, today: Date): Verdict {
    match Screen(payload)
    case Err(v) => v
    case Ok(s) => Conclude(s, today)
  }

  /** Exactly a cent of difference is accepted; more is a mismatch. */
  lemma ToleranceBoundary(total: real)
    ensures AmountMatches(total + 0.01, total) && AmountMatches(total - 0.01, total)
    ensures !AmountMatches(total + 0.011, total)
  {
  }

  // ------------------------------------------------- accepted payloads

  /** One item that passes, stated rule by rule. */
  predicate GoodItem(item: JValue) {
    && item.JObj? && "sku" in item.fields && "name" in item.fields
    && "qty" in item.fields && IsNumber(item.fields["qty"]) && NumValue(item.fields["qty"]) > 0.0
    && (("price" in item.fields) ==> IsNumber(item.fields["price"]) && NumValue(item.fields["price"]) >= 0.0)
  }

  function LineAmount(item: JValue): real
    requires GoodItem(item)
  {
    NumValue(item.fields["qty"]) * (if "price" in item.fields then NumValue(item.fields["price"]) else 0.0)
  }

  function Sum(items: seq<JValue>): real
    requires forall j :: 0 <= j < |items| ==> GoodItem(items[j])
  {
    if items == [] then 0.0 else LineAmount(items[0]) + Sum(items[1..])
  }

  /** An item passes exactly when it is a good item, and then contributes its line amount. */
  lemma ItemCheckGood(item: JValue)
    ensures ItemCheck(item).Ok? <==> GoodItem(item)
    ensures GoodItem(item) ==> ItemCheck(item) == Ok(LineAmount(item))
  {
    if item.JObj? {
      var d := item.fields;
      AllInDict(ItemFields, d);
      assert "sku" in ItemFields && "name" in ItemFields;
      var qty := Field(d, "qty", JNum(0.0));
      var price := Field(d, "price", JNum(0.0));
      if AllIn(ItemFields, item) == Some(true) {
        assert ItemCheck(item) == QuantityAndPrice(qty, price);
        if GoodItem(item) {
          assert qty == d["qty"];
          assert IsNumber(price) && NumValue(price) == (if "price" in d then NumValue(d["price"]) else 0.0);
          assert LineAmount(item) == NumValue(qty) * NumValue(price);
          assert IsNumber(qty) && NumValue(qty) > 0.0;
          assert NumValue(price) >= 0.0;
          assert QuantityAndPrice(qty, price).Ok?;
          assert QuantityAndPrice(qty, price).value == NumValue(qty) * NumValue(price);
          assert ItemCheck(item).value == LineAmount(item);
        } else if "qty" !in d {
          assert NumValue(qty) == 0.0;
        }
      }
    }
  }

  lemma {:induction false} SumSplit(items: seq<JValue>)
    requires items != [] && forall j :: 0 <= j < |items| ==> GoodItem(items[j])
    ensures Sum(items) == Sum(items[..|items| - 1]) + LineAmount(items[|items| - 1])
    decreases |items|
  {
    if |items| > 1 {
      var rest := items[1..];
      SumSplit(rest);
      assert rest[..|rest| - 1] == items[..|items| - 1][1..];
      assert items[..|items| - 1][0] == items[0];
    }
  }

  /** The items pass exactly when each is good, and then the total is their sum. */
  lemma {:induction false} ItemsTotalIsSum(items: seq<JValue>)
    ensures ItemsTotal(items).Ok? <==> forall j :: 0 <= j < |items| ==> GoodItem(items[j])
    ensures ItemsTotal(items).Ok? ==> ItemsTotal(items).value == Sum(items)
    decreases |items|
  {
    forall j | 0 <= j < |items| ensures ItemCheck(items[j]).Ok? <==> GoodItem(items[j]) {
      ItemCheckGood(items[j]);
    }
    if items != [] {
      var init := items[..|items| - 1];
      ItemsTotalIsSum(init);
      if ItemsTotal(items).Ok? {
        assert forall j :: 0 <= j < |init| ==> init[j] == items[j];
        ItemCheckGood(items[|items| - 1]);
        SumSplit(items);
      }
    }
  }

  /** The key in a dict, its value a non-empty string. */
  predicate NonEmptyText(d: map<string, JValue>, key: string) {
    key in d && d[key].JStr? && d[key].s != ""
  }

  /** The rules up to a numeric amount, stated positively. */
  predicate ScreenRules(payload: JValue) {
    && HeadRules(payload)
    && var p := payload.fields;
    && p["items"].JArr? && p["items"].elems != []
    && (forall j :: 0 <= j < |p["items"].elems| ==> GoodItem(p["items"].elems[j]))
    && p["payment"].JObj? && (forall k :: k in PaymentFields ==> k in p["payment"].fields)
    && IsNumber(p["payment"].fields["amount"])
  }

  /** The amount, date and VAT rules, stated positively. */
  predicate FinalRules(payload: JValue, today: Date)
    requires ScreenRules(payload)
  {
    var p := payload.fields;
    var member := p["member"].fields;
    var payment := p["payment"].fields;
    && AmountMatches(NumValue(payment["amount"]), Sum(p["items"].elems))
    && payment["date"].JStr? && ParseIsoDate(payment["date"].s).Some?
    && !Before(today, ParseIsoDate(payment["date"].s).value)
    && (("vat" in member && Truthy(member["vat"])) ==> member["vat"].JStr? && |member["vat"].s| >= 3)
  }

  /**
   * Every rule, stated positively: what `_validate_payload` demands of a
   * payload it returns `None` for.
   */
  predicate PassesEveryRule(payload: JValue, today: Date) {
    ScreenRules(payload) && FinalRules(payload, today)
  }

  lemma AllInDict(keys: seq<string>, d: map<string, JValue>)
    ensures AllIn(keys, JObj(d)) == Some(true) <==> forall k :: k in keys ==> k in d
  {
    if AllIn(keys, JObj(d)) == Some(true) {
      forall k | k in keys ensures k in d {
        var j :| 0 <= j < |keys| && keys[j] == k;
        assert In(keys[j], JObj(d)) == Some(true);
      }
    }
  }

  lemma AllInMeta(meta: JValue)
    ensures AllIn(MetaFields, meta) == Some(true) <==> forall k :: k in MetaFields ==> In(k, meta) == Some(true)
  {
    if forall k :: k in MetaFields ==> In(k, meta) == Some(true) {
      assert In(MetaFields[0], meta) == Some(true) && In(MetaFields[1], meta) == Some(true) && In(MetaFields[2], meta) == Some(true);
    }
  }

  /** The head rules, stated positively. */
  predicate HeadRules(payload: JValue) {
    && payload.JObj?
    && var p := payload.fields;
    && (forall k :: k in RequiredFields ==> k in p)
    && (forall k :: k in MetaFields ==> In(k, p["meta"]) == Some(true))
    && NonEmptyText(p, "order_id")
    && p["member"].JObj? && var member := p["member"].fields;
    && "email" in member && Truthy(member["email"]) && In("@", member["email"]) == Some(true)
    && "name" in member && Truthy(member["name"])
  }

  lemma HeadIff(payload: JValue)
    ensures Head(payload).Ok? <==> HeadRules(payload)
  {
    if payload.JObj? {
      var p := payload.fields;
      AllInDict(RequiredFields, p);
      if "meta" in p {
        AllInMeta(p["meta"]);
      }
    }
  }

  lemma PaymentIff(payment: JValue)
    requires payment.JObj?
    ensures PaymentAmount(payment).Ok? <==>
      (forall k :: k in PaymentFields ==> k in payment.fields) && IsNumber(payment.fields["amount"])
  {
    AllInDict(PaymentFields, payment.fields);
  }

  /** The screening rules pass exactly when `Screen` does, and it hands on the amount and the items' sum. */
  lemma ScreenIff(payload: JValue)
    ensures Screen(payload).Ok? <==> ScreenRules(payload)
    ensures ScreenRules(payload) ==>
      var p := payload.fields;
      Screen(payload) == Ok(Screened(NumValue(p["payment"].fields["amount"]), Sum(p["items"].elems),
                                     p["payment"].fields["date"], Field(p["member"].fields, "vat", JStr(""))))
  {
    HeadIff(payload);
    if HeadRules(payload) {
      var p := payload.fields;
      assert ScreenRules(payload) <==>
        && p["items"].JArr? && p["items"].elems != []
        && (forall j :: 0 <= j < |p["items"].elems| ==> GoodItem(p["items"].elems[j]))
        && p["payment"].JObj? && (forall k :: k in PaymentFields ==> k in p["payment"].fields)
        && IsNumber(p["payment"].fields["amount"]);
      if p["items"].JArr? {
        ItemsTotalIsSum(p["items"].elems);
      }
      if p["payment"].JObj? {
        PaymentIff(p["payment"]);
      }
    }
  }

  /** The last three rules accept exactly when amount, date and VAT are all right. */
  lemma ConcludeIff(s: Screened, today: Date)
    ensures Conclude(s, today) == Accepted <==>
      && AmountMatches(s.amount, s.total)
      && s.date.JStr? && ParseIsoDate(s.date.s).Some? && !Before(today, ParseIsoDate(s.date.s).value)
      && VatRule(s.vat).None?
  {
  }

  /** `_validate_payload` returns `None` exactly for the payloads that pass every rule. */
  lemma AcceptedIffEveryRulePasses(payload: JValue, today: Date)
    ensures PayloadVerdict(payload, today) == Accepted <==> PassesEveryRule(payload, today)
  {
    ScreenIff(payload);
    if ScreenRules(payload) {
      ConcludeIff(Screen(payload).value, today);
    }
  }

  /** A payload accepted on one day is accepted on every later day: only the date rule reads the day. */
  lemma AcceptedLater(payload: JValue, today: Date, later: Date)
    requires PayloadVerdict(payload, today) == Accepted && !Before(later, today)
    ensures PayloadVerdict(payload, later) == Accepted
  {
    AcceptedIffEveryRulePasses(payload, today);
    AcceptedIffEveryRulePasses(payload, later);
  }

  /** An accepted payload has the shape the webhook relies on after validation. */
  lemma AcceptedShape(payload: JValue, today: Date)
    requires PayloadVerdict(payload, today) == Accepted
    ensures payload.JObj? && NonEmptyText(payload.fields, "order_id")
    ensures "meta" in payload.fields && "member" in payload.fields && payload.fields["member"].JObj?
    ensures "items" in payload.fields && payload.fields["items"].JArr?
    ensures "payment" in payload.fields && payload.fields["payment"].JObj?
  {
    AcceptedIffEveryRulePasses(payload, today);
  }

  // ---------------------------------------------------------------- method

  /**
   * `_validate_payload` as written: the rules with early returns, in three
   * parts (the head with its loop over required fields, the loop over the
   * items, then the payment, amount, date and VAT rules).
   */
  method ValidatePayload(payload: JValue, today: Date) returns (v: Verdict)
    ensures v == PayloadVerdict(payload, today)
  {
    var head := CheckHead(payload);
    if head.Err? {
      return head.error;
    }
    var member := head.value;
    var items := Field(payload.fields, "items", JArr([]));
    if !Truthy(items) || !items.JArr? {
      return Rejected(EMPTY_ITEMS);
    }
    var total := TotalItems(items.elems);
    if total.Err? {
      return total.error;
    }
    var paid := PaymentAmount(Field(payload.fields, "payment", JObj(map[])));
    if paid.Err? {
      return paid.error;
    }
    var (amount, date) := paid.value;
    if Abs(amount - total.value) > 0.01 {
      return Rejected(AMOUNT_MISMATCH);
    }
    var dateRule := DateRule(date, today);
    if dateRule.Some? {
      return dateRule.value;
    }
    var vatRule := VatRule(Field(member, "vat", JStr("")));
    if vatRule.Some? {
      return vatRule.value;
    }
    return Accepted;
  }

  /** The loop over the required fields, then the rules on meta, `order_id` and the member. */
  method CheckHead(payload: JValue) returns (r: Result<map<string, JValue>, Verdict>)
    ensures r == Head(payload)
  {
    for i := 0 to |RequiredFields|
      invariant AllIn(RequiredFields, payload) == AllIn(RequiredFields[i..], payload)
    {
      assert RequiredFields[i..][1..] == RequiredFields[i + 1..];
      match In(RequiredFields[i], payload)
      case None => return Err(Raised(WrongType));
      case Some(false) => return Err(Rejected(INVALID_PAYLOAD));
      case Some(true) =>
    }
    assert RequiredFields[|RequiredFields|..] == [];
    if !payload.JObj? {
      return Err(Raised(NoSuchAttribute));
    }
    var p := payload.fields;
    var metaKeys := Require(AllIn(MetaFields, Field(p, "meta", JObj(map[]))), INVALID_PAYLOAD);
    if metaKeys.Err? {
      return Err(metaKeys.error);
    }
    var orderId := Field(p, "order_id", JStr(""));
    if !Truthy(orderId) || !orderId.JStr? {
      return Err(Rejected(INVALID_PAYLOAD));
    }
    var member := Field(p, "member", JObj(map[]));
    if !member.JObj? {
      return Err(Raised(NoSuchAttribute));
    }
    var email := Field(member.fields, "email", JStr(""));
    if !Truthy(email) {
      return Err(Rejected(INVALID_EMAIL));
    }
    var at := Require(In("@", email), INVALID_EMAIL);
    if at.Err? {
      return Err(at.error);
    }
    if !Truthy(Field(member.fields, "name", JStr(""))) {
      return Err(Rejected(INVALID_PAYLOAD));
    }
    return Ok(member.fields);
  }

  /** The loop over the items, accumulating `qty * price` until an item fails. */
  method TotalItems(items: seq<JValue>) returns (r: Result<real, Verdict>)
    ensures r == ItemsTotal(items)
  {
    var total := 0.0;
    var k := 0;
    while k < |items|
      invariant 0 <= k <= |items|
      invariant ItemsTotal(items[..k]) == Ok(total)
    {
      var check := ItemCheck(items[k]);
      assert items[..k + 1][..k] == items[..k];
      if check.Err? {
        ItemsTotalFailureSticks(items, k + 1);
        return Err(check.error);
      }
      total := total + check.value;
      k := k + 1;
    }
    assert items[..k] == items;
    return Ok(total);
  }
}
