/**
 * `relatic.invoice.service`: one posted customer invoice per order, with
 * one line per webhook item.  Products are resolved by SKU and, behind the
 * `auto_create_product` parameter, created in the 'Relatic' category.
 */
module InvoiceService {
  import opened Wrappers
  import opened Text
  import opened Json
  import opened Dates
  import opened Records
  import opened AccountMove
  import opened Store

  // ------------------------------------------------------------- lookups

  /** `product.product.search([('default_code', '=', sku)], limit=1)`. */
  function ProductBySku(products: map<Id, Product>, sku: JValue): (r: Option<Id>)
    ensures r.Some? ==> r.value in products && products[r.value].defaultCode == sku
    ensures r.None? <==> forall k :: k in products ==> products[k].defaultCode != sku
  {
    First(products, (p: Product) => p.defaultCode == sku)
  }

  /** `product.category.search([('name', '=', name)], limit=1)`. */
  function CategoryNamed(categories: map<Id, ProductCategory>, name: string): (r: Option<Id>)
    ensures r.Some? ==> r.value in categories && categories[r.value].name == name
    ensures r.None? <==> forall k :: k in categories ==> categories[k].name != name
  {
    First(categories, (c: ProductCategory) => c.name == name)
  }

  /**
   * The domain `('code', 'like', '4%')`: Odoo wraps a `like` operand in '%'
   * on both sides, so the test is "the code contains '4'", not "starts
   * with '4'".
   */
  predicate CodeLikeFour(code: string) {
    Contains(code, "4")
  }

  /** `_get_default_income_account`: the first income account whose code matches `like '4%'`. */
  function DefaultIncomeAccount(accounts: map<Id, Account>): (r: Option<Id>)
    ensures r.Some? ==> r.value in accounts && accounts[r.value].accountType == "income" && CodeLikeFour(accounts[r.value].code)
    ensures r.None? <==> forall k :: k in accounts ==> !(accounts[k].accountType == "income" && CodeLikeFour(accounts[k].code))
  {
    First(accounts, (a: Account) => a.accountType == "income" && CodeLikeFour(a.code))
  }

  /** An income account coded 1400 is taken as the default although its code does not start with '4'. */
  lemma DefaultIncomeAccountNotByPrefix()
    ensures DefaultIncomeAccount(map[7 := Account("1400", "income", false)]) == Some(7)
  {
    var accounts := map[7 := Account("1400", "income", false)];
    assert "1400"[1..2] == "4";
    assert OccursAt("1400", "4", 1);
    assert accounts[7].accountType == "income" && CodeLikeFour(accounts[7].code);
  }

  /** `_get_tax`: the first sale tax whose amount equals the rate. */
  function TaxForRate(taxes: map<Id, Tax>, rate: real): (r: Option<Id>)
    ensures r.Some? ==> r.value in taxes && taxes[r.value].amount == rate && taxes[r.value].typeTaxUse == "sale"
    ensures r.None? <==> forall k :: k in taxes ==> !(taxes[k].amount == rate && taxes[k].typeTaxUse == "sale")
  {
    First(taxes, (t: Tax) => t.amount == rate && t.typeTaxUse == "sale")
  }

  /**
   * The `tax_ids` of a line from its `tax_rate` (7.0 when absent): none
   * for a falsy rate or a rate not above 0, the sale tax of that amount if
   * one exists, else none; `tax_rate > 0` raises TypeError on a non-number.
   */
  function LineTaxes(taxes: map<Id, Tax>, rate: JValue): (r: Result<set<Id>, Fault>)
    ensures r.Err? <==> Truthy(rate) && !IsNumber(rate)
    ensures r.Err? ==> r.error == OtherError(WrongType)
    ensures r.Ok? && r.value != {} ==>
      IsNumber(rate) && NumValue(rate) > 0.0 && TaxForRate(taxes, NumValue(rate)).Some?
      && r.value == {TaxForRate(taxes, NumValue(rate)).value}
    ensures IsNumber(rate) && NumValue(rate) > 0.0 && TaxForRate(taxes, NumValue(rate)).Some? ==>
      r == Ok({TaxForRate(taxes, NumValue(rate)).value})
    ensures !Truthy(rate) || (IsNumber(rate) && NumValue(rate) <= 0.0) ==> r == Ok({})
  {
    if !Truthy(rate) then Ok({})
    else if !IsNumber(rate) then Err(OtherError(WrongType))
    else if NumValue(rate) > 0.0 then
      match TaxForRate(taxes, NumValue(rate))
      case Some(id) => Ok({id})
      case None => Ok({})
    else Ok({})
  }

  /**
   * A category's `property_account_income_categ_id` as read: the value
   * stored on the category, else the company default.  (Odoo keeps no
   * dangling many2one, so a category id without a row reads as one without
   * a value.)
   */
  function CategoryIncome(t: Tables, c: Id): (r: Option<Id>)
    ensures c in t.productCategories && t.productCategories[c].incomeAccount.Some? ==>
      r == t.productCategories[c].incomeAccount
    ensures c !in t.productCategories || t.productCategories[c].incomeAccount.None? ==>
      r == t.incomeCategoryDefault
  {
    if c in t.productCategories && t.productCategories[c].incomeAccount.Some? then t.productCategories[c].incomeAccount
    else t.incomeCategoryDefault
  }

  /** The line account: the product's income account, else its category's. */
  function IncomeAccountOf(t: Tables, p: Product): (r: Option<Id>)
    ensures p.incomeAccount.Some? ==> r == p.incomeAccount
    ensures p.incomeAccount.None? && p.category.Some? ==> r == CategoryIncome(t, p.category.value)
    ensures p.incomeAccount.None? && p.category.None? ==> r.None?
    ensures r.None? <==> p.incomeAccount.None? && (p.category.None? || CategoryIncome(t, p.category.value).None?)
  {
    if p.incomeAccount.Some? then p.incomeAccount
    else if p.category.Some? then CategoryIncome(t, p.category.value)
    else None
  }

  // ---------------------------------------------------- field conversion

  /**
   * A value written to a Float field, `float(value or 0.0)`: a falsy value
   * is 0, a number is itself; a string `float()` cannot read and any other
   * value raise.
   */
  function FloatField(v: JValue): (r: Result<real, Fault>)
    ensures !Truthy(v) ==> r == Ok(0.0)
    ensures IsNumber(v) ==> r == Ok(NumValue(v))
    ensures r.Ok? <==> !Truthy(v) || IsNumber(v)
  {
    if IsNumber(v) then Ok(NumValue(v))
    else if !Truthy(v) then Ok(0.0)
    else if v.JStr? then Err(OtherError(BadValue))
    else Err(OtherError(WrongType))
  }

  /**
   * `fields.Date.to_date`: a falsy value is no date, a string is read
   * through its first ten characters as `%Y-%m-%d`; other values raise.
   */
  function DateValue(v: JValue): (r: Result<Option<Date>, Fault>)
    ensures !Truthy(v) ==> r == Ok(None)
    ensures v.JStr? && v.s != "" ==>
      r == (match ParseIsoDate(if |v.s| <= 10 then v.s else v.s[..10])
            case Some(d) => Ok(Some(d))
            case None => Err(OtherError(BadValue)))
    ensures Truthy(v) && !v.JStr? ==> r == Err(OtherError(WrongType))
  {
    if !Truthy(v) then Ok(None)
    else if v.JStr? then
      match ParseIsoDate(if |v.s| <= 10 then v.s else v.s[..10])
      case Some(d) => Ok(Some(d))
      case None => Err(OtherError(BadValue))
    else Err(OtherError(WrongType))
  }

  /** Every well-formed date text is read back as its date. */
  lemma DateValueReadsIsoText(d: Date)
    requires ValidDate(d)
    ensures DateValue(JStr(FormatIsoDate(d))) == Ok(Some(d))
  {
    FormatParseRoundTrip(d);
  }

  /** `payment_data.get('date', fields.Date.today())` as a date; `Err` where `.get` or the conversion fails. */
  function PaymentDate(payment: JValue, today: Date): (r: Result<Option<Date>, Fault>)
    ensures !payment.JObj? ==> r == Err(OtherError(NoSuchAttribute))
    ensures payment.JObj? && "date" !in payment.fields ==> r == Ok(Some(today))
    ensures payment.JObj? && "date" in payment.fields ==> r == DateValue(payment.fields["date"])
  {
    if !payment.JObj? then Err(OtherError(NoSuchAttribute))
    else if "date" !in payment.fields then Ok(Some(today))
    else DateValue(payment.fields["date"])
  }

  // ------------------------------------------------------- products

  /** The product `_get_or_create_product` creates for an unknown SKU. */
  function AutoProduct(item: map<string, JValue>, sku: JValue, category: Id, income: Option<Id>): (p: Product)
    ensures p.defaultCode == sku && p.name == Field(item, "name", sku)
    ensures p.productType == "service" && p.saleOk && !p.purchaseOk && p.relaticAuto
    ensures p.category == Some(category) && p.incomeAccount == income
  {
    Product(Field(item, "name", sku), sku, "service", true, false, Some(category), income, true)
  }

  /**
   * The tables grew: only products, product categories and moves may have
   * new rows, with ids from `bound` on, and no existing row changed.  A new
   * category has no income account of its own.
   */
  predicate Grows(a: Tables, b: Tables, bound: nat) {
    && b.partners == a.partners && b.partnerTags == a.partnerTags && b.countries == a.countries
    && b.accounts == a.accounts && b.taxes == a.taxes && b.journals == a.journals
    && b.receivableDefault == a.receivableDefault && b.incomeCategoryDefault == a.incomeCategoryDefault
    && (forall k :: k in a.products ==> k in b.products && b.products[k] == a.products[k])
    && (forall k :: k in b.products && k !in a.products ==> k >= bound)
    && (forall k :: k in a.productCategories ==> k in b.productCategories && b.productCategories[k] == a.productCategories[k])
    && (forall k :: k in b.productCategories && k !in a.productCategories ==>
          k >= bound && b.productCategories[k].incomeAccount.None?)
  }

  lemma GrowsTransitive(a: Tables, b: Tables, c: Tables, bound: nat, bound2: nat)
    requires Grows(a, b, bound) && Grows(b, c, bound2) && bound <= bound2
    ensures Grows(a, c, bound)
  {
  }

  /** A search that found a row finds the same row after new rows with larger ids are added. */
  lemma {:induction false} FirstSurvivesGrowth<V>(a: map<Id, V>, b: map<Id, V>, matches: V -> bool, bound: nat)
    requires forall k :: k in a ==> k < bound && k in b && b[k] == a[k]
    requires forall k :: k in b && k !in a ==> k >= bound
    requires First(a, matches).Some?
    ensures First(b, matches) == First(a, matches)
  {
    var x := First(a, matches).value;
    var y := First(b, matches);
    assert x in b && matches(b[x]);
    assert y.Some? && y.value <= x < bound;
    assert y.value in a;
  }

  /**
   * The tables grew as the product loop lets them: besides `Grows`, every
   * new product is one `auto_create_product` made, in the 'Relatic'
   * category, with the default income account of the accounts before.
   */
  predicate AutoGrown(a: Tables, b: Tables, bound: nat, autoCreate: string) {
    && Grows(a, b, bound)
    && (forall k :: k in b.products && k !in a.products ==>
          && autoCreate == "True"
          && b.products[k].category.Some?
          && CategoryNamed(b.productCategories, "Relatic") == b.products[k].category
          && b.products[k].incomeAccount == DefaultIncomeAccount(a.accounts))
  }

  lemma AutoGrownTransitive(a: Tables, b: Tables, c: Tables, bound: nat, bound2: nat, autoCreate: string)
    requires IdsBelow(b, bound2) && bound <= bound2
    requires AutoGrown(a, b, bound, autoCreate) && AutoGrown(b, c, bound2, autoCreate)
    ensures AutoGrown(a, c, bound, autoCreate)
  {
    forall k | k in c.products && k !in a.products
      ensures CategoryNamed(c.productCategories, "Relatic") == c.products[k].category
    {
      if k in b.products {
        FirstSurvivesGrowth(b.productCategories, c.productCategories, (x: ProductCategory) => x.name == "Relatic", bound2);
      }
    }
  }

  /**
   * What the product loop makes of one item in tables `t`, before it
   * writes anything: the income account its line would get (`None` when
   * neither the product nor its category has one), or the fault
   * `_get_or_create_product` raises.  An unknown SKU under
   * `auto_create_product` gets the product that would be created: the
   * default income account, else that of the 'Relatic' category.
   */
  function ProductAccount(t: Tables, item: JValue, autoCreate: string): (r: Result<Option<Id>, Fault>)
    ensures r.Ok? ==> item.JObj?
    ensures r.Err? <==>
      || !item.JObj? || !Truthy(Field(item.fields, "sku", JNull))
      || (ProductBySku(t.products, Field(item.fields, "sku", JNull)).None? && autoCreate != "True")
    ensures (item.JObj? && Truthy(Field(item.fields, "sku", JNull))
             && ProductBySku(t.products, Field(item.fields, "sku", JNull)).Some?) ==>
      r == Ok(IncomeAccountOf(t, t.products[ProductBySku(t.products, Field(item.fields, "sku", JNull)).value]))
  {
    if !item.JObj? then Err(OtherError(NoSuchAttribute))
    else
      var sku := Field(item.fields, "sku", JNull);
      if !Truthy(sku) then Err(ValidationError(SkuRequired))
      else match ProductBySku(t.products, sku)
        case Some(id) => Ok(IncomeAccountOf(t, t.products[id]))
        case None =>
          if autoCreate != "True" then Err(ValidationError(ProductNotFound(sku)))
          else if DefaultIncomeAccount(t.accounts).Some? then Ok(DefaultIncomeAccount(t.accounts))
          else match CategoryNamed(t.productCategories, "Relatic")
            case Some(c) => Ok(CategoryIncome(t, c))
            case None => Ok(t.incomeCategoryDefault)
  }

  /** What the loop makes of an item does not change while earlier items add their products. */
  lemma ProductAccountStable(a: Tables, b: Tables, bound: nat, item: JValue, autoCreate: string)
    requires IdsBelow(a, bound) && AutoGrown(a, b, bound, autoCreate)
    ensures ProductAccount(b, item, autoCreate) == ProductAccount(a, item, autoCreate)
  {
    if item.JObj? && Truthy(Field(item.fields, "sku", JNull)) {
      var sku := Field(item.fields, "sku", JNull);
      var byCode := (p: Product) => p.defaultCode == sku;
      var relatic := (x: ProductCategory) => x.name == "Relatic";
      assert ProductBySku(a.products, sku) == First(a.products, byCode);
      if ProductBySku(a.products, sku).Some? {
        FirstSurvivesGrowth(a.products, b.products, byCode, bound);
        var p := a.products[ProductBySku(a.products, sku).value];
        if p.incomeAccount.None? && p.category.Some? {
          assert CategoryIncome(b, p.category.value) == CategoryIncome(a, p.category.value);
        }
      } else if ProductBySku(b.products, sku).Some? {
        var k := ProductBySku(b.products, sku).value;
        assert k !in a.products;
        var c := b.products[k].category.value;
        if CategoryNamed(a.productCategories, "Relatic").Some? {
          FirstSurvivesGrowth(a.productCategories, b.productCategories, relatic, bound);
        } else {
          assert c !in a.productCategories;
        }
      } else if autoCreate == "True" && DefaultIncomeAccount(a.accounts).None? {
        if CategoryNamed(a.productCategories, "Relatic").Some? {
          FirstSurvivesGrowth(a.productCategories, b.productCategories, relatic, bound);
        } else if CategoryNamed(b.productCategories, "Relatic").Some? {
          assert CategoryNamed(b.productCategories, "Relatic").value !in a.productCategories;
        }
      }
    }
  }

  /**
   * One pass of the loop body on an item: its product's fault, else the
   * fault of its `tax_rate`, else `IncomeAccountMissing` when the line has
   * no account.
   */
  function ItemVerdict(t: Tables, item: JValue, autoCreate: string): (r: Result<(), Fault>)
    ensures ProductAccount(t, item, autoCreate).Err? ==> r == Err(ProductAccount(t, item, autoCreate).error)
    ensures r.Ok? <==>
      && ProductAccount(t, item, autoCreate).Ok? && ProductAccount(t, item, autoCreate).value.Some?
      && LineTaxes(t.taxes, Field(item.fields, "tax_rate", JNum(7.0))).Ok?
    ensures (&& ProductAccount(t, item, autoCreate).Ok? && ProductAccount(t, item, autoCreate).value.None?
             && LineTaxes(t.taxes, Field(item.fields, "tax_rate", JNum(7.0))).Ok?) ==>
      r == Err(ValidationError(IncomeAccountMissing))
  {
    var account := ProductAccount(t, item, autoCreate);
    if account.Err? then Err(account.error)
    else
      var taxes := LineTaxes(t.taxes, Field(item.fields, "tax_rate", JNum(7.0)));
      if taxes.Err? then Err(taxes.error)
      else if account.value.None? then Err(ValidationError(IncomeAccountMissing))
      else Ok(())
  }

  /** The loop over the items: every item passes, or the first one that does not decides the fault. */
  function ItemsVerdict(t: Tables, items: seq<JValue>, autoCreate: string): (r: Result<(), Fault>)
    ensures r.Ok? <==> forall j :: 0 <= j < |items| ==> ItemVerdict(t, items[j], autoCreate).Ok?
    ensures r.Err? ==>
      exists j :: (&& 0 <= j < |items| && ItemVerdict(t, items[j], autoCreate) == r
                   && forall k :: 0 <= k < j ==> ItemVerdict(t, items[k], autoCreate).Ok?)
    decreases |items|
  {
    if items == [] then Ok(())
    else
      var init := items[..|items| - 1];
      var prev := ItemsVerdict(t, init, autoCreate);
      assert forall j :: 0 <= j < |init| ==> init[j] == items[j];
      if prev.Err? then prev else ItemVerdict(t, items[|items| - 1], autoCreate)
  }

  /** The loop's verdict reads only products, categories, accounts and taxes. */
  lemma {:induction false} ItemsVerdictReads(a: Tables, b: Tables, items: seq<JValue>, autoCreate: string)
    requires a.products == b.products && a.productCategories == b.productCategories
    requires a.accounts == b.accounts && a.taxes == b.taxes && a.incomeCategoryDefault == b.incomeCategoryDefault
    ensures ItemsVerdict(b, items, autoCreate) == ItemsVerdict(a, items, autoCreate)
    decreases |items|
  {
    if items != [] {
      ItemsVerdictReads(a, b, items[..|items| - 1], autoCreate);
      ItemVerdictReads(a, b, items[|items| - 1], autoCreate);
    }
  }

  lemma ItemVerdictReads(a: Tables, b: Tables, item: JValue, autoCreate: string)
    requires a.products == b.products && a.productCategories == b.productCategories
    requires a.accounts == b.accounts && a.taxes == b.taxes && a.incomeCategoryDefault == b.incomeCategoryDefault
    ensures ItemVerdict(b, item, autoCreate) == ItemVerdict(a, item, autoCreate)
  {
    assert forall c :: CategoryIncome(b, c) == CategoryIncome(a, c);
    assert forall p :: IncomeAccountOf(b, p) == IncomeAccountOf(a, p);
    assert ProductAccount(b, item, autoCreate) == ProductAccount(a, item, autoCreate);
  }

  /** The fault of the first failing item is the fault of the whole loop. */
  lemma FirstFailingItem(t: Tables, items: seq<JValue>, i: int, autoCreate: string)
    requires 0 <= i < |items| && ItemsVerdict(t, items[..i], autoCreate).Ok?
    requires ItemVerdict(t, items[i], autoCreate).Err?
    ensures ItemsVerdict(t, items, autoCreate) == ItemVerdict(t, items[i], autoCreate)
  {
    assert forall k :: 0 <= k < i ==> items[..i][k] == items[k];
    var r := ItemsVerdict(t, items, autoCreate);
    var j :| 0 <= j < |items| && ItemVerdict(t, items[j], autoCreate) == r
      && forall k :: 0 <= k < j ==> ItemVerdict(t, items[k], autoCreate).Ok?;
  }

  /** `_get_or_create_product_category`: the first category with the name, else a new one under 'All'. */
  method GetOrCreateProductCategory(store: Store, name: string) returns (id: Id)
    requires store.Valid()
    modifies store
    ensures store.Valid() && store.nextId >= old(store.nextId)
    ensures CategoryNamed(store.db.productCategories, name) == Some(id)
    ensures old(CategoryNamed(store.db.productCategories, name)).Some? ==>
      store.db == old(store.db) && store.nextId == old(store.nextId)
    ensures old(CategoryNamed(store.db.productCategories, name)).None? ==>
      id == old(store.nextId) && id !in old(store.db.productCategories)
      && store.db == old(store.db).(productCategories := old(store.db.productCategories)[id :=
           ProductCategory(name, CategoryNamed(old(store.db.productCategories), "All"), None)])
  {
    var found := CategoryNamed(store.db.productCategories, name);
    if found.Some? {
      return found.value;
    }
    var parent := CategoryNamed(store.db.productCategories, "All");
    id := store.CreateProductCategory(ProductCategory(name, parent, None));
    assert store.db.productCategories[id].name == name;
    assert forall k :: k in store.db.productCategories && store.db.productCategories[k].name == name ==> k == id;
  }

  /**
   * `_get_or_create_product`: the product the SKU resolves to.  A missing
   * or falsy SKU is refused; an unknown SKU is refused unless the
   * parameter is exactly 'True', in which case it is created.
   */
  method GetOrCreateProduct(store: Store, item: JValue, autoCreate: string) returns (r: Result<Id, Fault>)
    requires store.Valid()
    modifies store
    ensures store.Valid() && store.nextId >= old(store.nextId)
    ensures Grows(old(store.db), store.db, old(store.nextId)) && store.db.moves == old(store.db.moves)
    ensures !item.JObj? ==> r == Err(OtherError(NoSuchAttribute))
    ensures item.JObj? && !Truthy(Field(item.fields, "sku", JNull)) ==> r == Err(ValidationError(SkuRequired))
    ensures r.Err? ==> store.db == old(store.db)
    ensures item.JObj? && Truthy(Field(item.fields, "sku", JNull)) ==>
      var sku := Field(item.fields, "sku", JNull);
      && (old(ProductBySku(store.db.products, sku)).Some? ==>
            r == Ok(old(ProductBySku(store.db.products, sku)).value) && store.db == old(store.db))
      && (old(ProductBySku(store.db.products, sku)).None? && autoCreate != "True" ==>
            r == Err(ValidationError(ProductNotFound(sku))))
      && (old(ProductBySku(store.db.products, sku)).None? && autoCreate == "True" ==>
            && r.Ok? && r.value !in old(store.db.products)
            && CategoryNamed(store.db.productCategories, "Relatic").Some?
            && store.db.products == old(store.db.products)[r.value :=
                 AutoProduct(item.fields, sku, CategoryNamed(store.db.productCategories, "Relatic").value,
                             DefaultIncomeAccount(old(store.db.accounts)))])
    ensures r.Ok? ==> item.JObj? && ProductBySku(store.db.products, Field(item.fields, "sku", JNull)) == Some(r.value)
    ensures AutoGrown(old(store.db), store.db, old(store.nextId), autoCreate)
    ensures r.Err? <==> old(ProductAccount(store.db, item, autoCreate)).Err?
    ensures r.Err? ==> r.error == old(ProductAccount(store.db, item, autoCreate)).error
    ensures r.Ok? ==> old(ProductAccount(store.db, item, autoCreate)) == Ok(IncomeAccountOf(store.db, store.db.products[r.value]))
  {
    if !item.JObj? {
      return Err(OtherError(NoSuchAttribute));
    }
    var sku := Field(item.fields, "sku", JNull);
    if !Truthy(sku) {
      return Err(ValidationError(SkuRequired));
    }
    var found := ProductBySku(store.db.products, sku);
    if found.Some? {
      return Ok(found.value);
    }
    if autoCreate != "True" {
      return Err(ValidationError(ProductNotFound(sku)));
    }
    ghost var db0 := store.db;
    var category := GetOrCreateProductCategory(store, "Relatic");
    var income := DefaultIncomeAccount(store.db.accounts);
    ghost var mid := store.db;
    var id := store.CreateProduct(AutoProduct(item.fields, sku, category, income));
    assert store.db.productCategories == mid.productCategories;
    assert store.db.products[id].defaultCode == sku;
    assert forall k :: k in store.db.products && store.db.products[k].defaultCode == sku ==> k == id;
    assert CategoryIncome(store.db, category) == CategoryIncome(db0, category) by {
      if CategoryNamed(db0.productCategories, "Relatic").None? {
        assert category !in db0.productCategories;
      }
    }
    r := Ok(id);
  }

  // --------------------------------------------------------------- lines

  /** A line as the loop builds it; quantity and price are converted when the invoice is created. */
  datatype DraftLine = DraftLine(product: Id, description: JValue, quantity: JValue, priceUnit: JValue, taxes: set<Id>, account: Id)

  /**
   * The line built for `item` in tables `t`: the product its SKU resolves
   * to, the item's name or else the product's, the item's qty (1) and price
   * (0), the taxes of its `tax_rate` (7.0) and the product's income account.
   */
  predicate IsDraftFor(t: Tables, item: JValue, d: DraftLine) {
    && item.JObj?
    && ProductBySku(t.products, Field(item.fields, "sku", JNull)) == Some(d.product)
    && d.description == Field(item.fields, "name", t.products[d.product].name)
    && d.quantity == Field(item.fields, "qty", JNum(1.0))
    && d.priceUnit == Field(item.fields, "price", JNum(0.0))
    && LineTaxes(t.taxes, Field(item.fields, "tax_rate", JNum(7.0))) == Ok(d.taxes)
    && IncomeAccountOf(t, t.products[d.product]) == Some(d.account)
  }

  /** What a stored line holds once its draft is written. */
  predicate IsLineOf(d: DraftLine, l: InvoiceLine) {
    && l.product == Some(d.product) && l.description == d.description
    && FloatField(d.quantity) == Ok(l.quantity) && FloatField(d.priceUnit) == Ok(l.priceUnit)
    && l.taxes == d.taxes && l.account == Some(d.account)
  }

  /** Writing the drafts: every line converts, or the first failing conversion is the error. */
  function ConvertLines(ds: seq<DraftLine>): (r: Result<seq<InvoiceLine>, Fault>)
    ensures r.Ok? ==> |r.value| == |ds| && forall j :: 0 <= j < |ds| ==> IsLineOf(ds[j], r.value[j])
    ensures r.Ok? <==> forall j :: 0 <= j < |ds| ==> FloatField(ds[j].quantity).Ok? && FloatField(ds[j].priceUnit).Ok?
  {
    if ds == [] then Ok([])
    else
      var d := ds[0];
      match (FloatField(d.quantity), FloatField(d.priceUnit))
      case (Ok(q), Ok(p)) =>
        (match ConvertLines(ds[1..])
         case Ok(rest) =>
           Ok([InvoiceLine(Some(d.product), d.description, q, p, d.taxes, Some(d.account))] + rest)
         case Err(e) => Err(e))
      case (Err(e), _) => Err(e)
      case (_, Err(e)) => Err(e)
  }

  /** A draft stays right for its item while the tables only grow. */
  lemma DraftSurvivesGrowth(a: Tables, b: Tables, bound: nat, item: JValue, d: DraftLine)
    requires IdsBelow(a, bound) && Grows(a, b, bound) && IsDraftFor(a, item, d)
    ensures IsDraftFor(b, item, d)
  {
    var sku := Field(item.fields, "sku", JNull);
    FirstSurvivesGrowth(a.products, b.products, (p: Product) => p.defaultCode == sku, bound);
  }

  /** One draft per item, in item order. */
  predicate DraftsFor(t: Tables, items: seq<JValue>, drafts: seq<DraftLine>) {
    |drafts| == |items| && forall j :: 0 <= j < |items| ==> IsDraftFor(t, items[j], drafts[j])
  }

  lemma DraftsSurviveGrowth(a: Tables, b: Tables, bound: nat, items: seq<JValue>, drafts: seq<DraftLine>)
    requires IdsBelow(a, bound) && Grows(a, b, bound) && DraftsFor(a, items, drafts)
    ensures DraftsFor(b, items, drafts)
  {
    forall j | 0 <= j < |items|
      ensures IsDraftFor(b, items[j], drafts[j])
    {
      DraftSurvivesGrowth(a, b, bound, items[j], drafts[j]);
    }
  }

  lemma DraftsForAppend(t: Tables, items: seq<JValue>, i: int, drafts: seq<DraftLine>, d: DraftLine)
    requires 0 <= i < |items| && DraftsFor(t, items[..i], drafts) && IsDraftFor(t, items[i], d)
    ensures DraftsFor(t, items[..i + 1], drafts + [d])
  {
    assert forall j :: 0 <= j < i ==> items[..i + 1][j] == items[..i][j];
  }

  /**
   * The stored line for `item`: what `IsDraftFor` says, with quantity and
   * price converted as Float fields.
   */
  predicate IsLineFor(t: Tables, item: JValue, l: InvoiceLine) {
    && item.JObj? && l.product.Some?
    && ProductBySku(t.products, Field(item.fields, "sku", JNull)) == l.product
    && l.description == Field(item.fields, "name", t.products[l.product.value].name)
    && FloatField(Field(item.fields, "qty", JNum(1.0))) == Ok(l.quantity)
    && FloatField(Field(item.fields, "price", JNum(0.0))) == Ok(l.priceUnit)
    && LineTaxes(t.taxes, Field(item.fields, "tax_rate", JNum(7.0))) == Ok(l.taxes)
    && l.account.Some? && IncomeAccountOf(t, t.products[l.product.value]) == l.account
  }

  /** The invoice lines of `items`, one per item and in item order. */
  predicate LinesFor(t: Tables, items: seq<JValue>, lines: seq<InvoiceLine>) {
    |lines| == |items| && forall j :: 0 <= j < |items| ==> IsLineFor(t, items[j], lines[j])
  }

  /** The lines of the items are determined by the tables: there is one way to be them. */
  lemma LinesForUnique(t: Tables, items: seq<JValue>, lines: seq<InvoiceLine>, others: seq<InvoiceLine>)
    requires LinesFor(t, items, lines) && LinesFor(t, items, others)
    ensures lines == others
  {
    forall j | 0 <= j < |items|
      ensures lines[j] == others[j]
    {
      assert IsLineFor(t, items[j], lines[j]) && IsLineFor(t, items[j], others[j]);
    }
  }

  /** Converting the drafts of the items gives their lines. */
  lemma ConvertedDraftsAreLines(t: Tables, items: seq<JValue>, drafts: seq<DraftLine>, lines: seq<InvoiceLine>)
    requires |drafts| == |items| && forall j :: 0 <= j < |items| ==> IsDraftFor(t, items[j], drafts[j])
    requires ConvertLines(drafts) == Ok(lines)
    ensures LinesFor(t, items, lines)
  {
    forall j | 0 <= j < |items|
      ensures IsLineFor(t, items[j], lines[j])
    {
      assert IsDraftFor(t, items[j], drafts[j]) && IsLineOf(drafts[j], lines[j]);
    }
  }

  /** Lines read only products, categories and taxes. */
  lemma LinesForIgnoresMoves(a: Tables, b: Tables, items: seq<JValue>, lines: seq<InvoiceLine>)
    requires b == a.(moves := b.moves) && LinesFor(a, items, lines)
    ensures LinesFor(b, items, lines)
  {
    forall j | 0 <= j < |items|
      ensures IsLineFor(b, items[j], lines[j])
    {
      assert IsLineFor(a, items[j], lines[j]);
    }
  }

  /** The verdict on an item does not change while earlier items add their products. */
  lemma ItemVerdictStable(a: Tables, b: Tables, bound: nat, item: JValue, autoCreate: string)
    requires IdsBelow(a, bound) && AutoGrown(a, b, bound, autoCreate)
    ensures ItemVerdict(b, item, autoCreate) == ItemVerdict(a, item, autoCreate)
  {
    ProductAccountStable(a, b, bound, item, autoCreate);
  }

  lemma ItemsVerdictExtend(t: Tables, items: seq<JValue>, i: int, autoCreate: string)
    requires 0 <= i < |items| && ItemsVerdict(t, items[..i], autoCreate).Ok?
    requires ItemVerdict(t, items[i], autoCreate).Ok?
    ensures ItemsVerdict(t, items[..i + 1], autoCreate).Ok?
  {
    assert items[..i + 1][..i] == items[..i];
  }

  /** One pass of the loop body: the draft line of the item, or its fault. */
  method DraftItem(store: Store, item: JValue, autoCreate: string) returns (r: Result<DraftLine, Fault>)
    requires store.Valid()
    modifies store
    ensures store.Valid() && store.nextId >= old(store.nextId)
    ensures AutoGrown(old(store.db), store.db, old(store.nextId), autoCreate) && store.db.moves == old(store.db.moves)
    ensures r.Err? <==> old(ItemVerdict(store.db, item, autoCreate)).Err?
    ensures r.Err? ==> r.error == old(ItemVerdict(store.db, item, autoCreate)).error
    ensures r.Ok? ==> IsDraftFor(store.db, item, r.value)
  {
    var product := GetOrCreateProduct(store, item, autoCreate);
    if product.Err? {
      return Err(product.error);
    }
    var fields := item.fields;
    var taxes := LineTaxes(store.db.taxes, Field(fields, "tax_rate", JNum(7.0)));
    if taxes.Err? {
      return Err(taxes.error);
    }
    var p := store.db.products[product.value];
    var account := IncomeAccountOf(store.db, p);
    if account.None? {
      return Err(ValidationError(IncomeAccountMissing));
    }
    r := Ok(DraftLine(product.value, Field(fields, "name", p.name), Field(fields, "qty", JNum(1.0)),
                      Field(fields, "price", JNum(0.0)), taxes.value, account.value));
  }

  /**
   * The loop of `create_invoice` over the items: one draft line per item,
   * in order, or the first item's error.
   */
  method DraftLines(store: Store, items: seq<JValue>, autoCreate: string) returns (r: Result<seq<DraftLine>, Fault>)
    requires store.Valid()
    modifies store
    ensures store.Valid() && store.nextId >= old(store.nextId)
    ensures AutoGrown(old(store.db), store.db, old(store.nextId), autoCreate) && store.db.moves == old(store.db.moves)
    ensures r.Err? <==> old(ItemsVerdict(store.db, items, autoCreate)).Err?
    ensures r.Err? ==> r.error == old(ItemsVerdict(store.db, items, autoCreate)).error
    ensures r.Ok? ==> |r.value| == |items| && forall j :: 0 <= j < |items| ==> IsDraftFor(store.db, items[j], r.value[j])
  {
    ghost var db0 := store.db;
    ghost var next0 := store.nextId;
    var drafts: seq<DraftLine> := [];
    var i := 0;
    while i < |items|
      invariant 0 <= i <= |items| && |drafts| == i
      invariant store.Valid() && store.nextId >= next0
      invariant AutoGrown(db0, store.db, next0, autoCreate) && store.db.moves == db0.moves
      invariant ItemsVerdict(db0, items[..i], autoCreate).Ok?
      invariant DraftsFor(store.db, items[..i], drafts)
    {
      ghost var before := store.db;
      ghost var beforeNext := store.nextId;
      ItemVerdictStable(db0, before, next0, items[i], autoCreate);
      var d := DraftItem(store, items[i], autoCreate);
      AutoGrownTransitive(db0, before, store.db, next0, beforeNext, autoCreate);
      if d.Err? {
        FirstFailingItem(db0, items, i, autoCreate);
        return Err(d.error);
      }
      ItemsVerdictExtend(db0, items, i, autoCreate);
      DraftsSurviveGrowth(before, store.db, beforeNext, items[..i], drafts);
      DraftsForAppend(store.db, items, i, drafts, d.value);
      drafts := drafts + [d.value];
      i := i + 1;
    }
    assert items[..i] == items;
    r := Ok(drafts);
  }

  /** The invoice `create_invoice` writes: posted, numbered, keyed by the order. */
  predicate IsInvoiceOf(rules: LedgerRules, id: Id, m: Move, partner: Id, receivable: Id, orderId: string, payment: JValue, date: Option<Date>) {
    && m.moveType == OutInvoice && m.state == Posted && m.name == rules.number(OutInvoice, id)
    && m.partner == Some(partner) && m.orderKey == Some(orderId) && m.origin == orderId
    && payment.JObj? && m.ref == Field(payment.fields, "reference", JStr(""))
    && m.date == date && m.journal.None?
    && m.items == [JournalItem(receivable, Some(partner), rules.total(Pricing(m.lines)), 0.0, false)]
    && m.residual == rules.total(Pricing(m.lines))
  }

  /** The `account.move.create` and `action_post` of `create_invoice`. */
  method WriteInvoice(
    store: Store, partnerId: Id, receivable: Id, orderId: string, payment: JValue, date: Option<Date>, lines: seq<InvoiceLine>)
    returns (r: Result<Id, Fault>)
    requires store.Valid() && payment.JObj?
    modifies store
    ensures store.Valid() && store.nextId == old(store.nextId) + 1
    ensures r.Err? <==> KeyTaken(old(store.db.moves), orderId)
    ensures r.Err? ==> r.error == OtherError(UniqueViolation(orderId)) && store.db == old(store.db)
    ensures r.Ok? ==>
      && r.value !in old(store.db.moves) && r.value in store.db.moves
      && store.db == old(store.db).(moves := old(store.db.moves)[r.value := store.db.moves[r.value]])
      && store.db.moves[r.value].lines == lines
      && IsInvoiceOf(store.rules, r.value, store.db.moves[r.value], partnerId, receivable, orderId, payment, date)
  {
    var total := store.rules.total(Pricing(lines));
    var draft := Move(OutInvoice, Draft, "/", Some(partnerId), Some(orderId), orderId,
                      Field(payment.fields, "reference", JStr("")), date, None, lines,
                      [JournalItem(receivable, Some(partnerId), total, 0.0, false)], total);
    r := store.CreateMove(draft);
    if r.Err? {
      return;
    }
    store.Post(r.value);
  }

  /**
   * Tables `b` are tables `a` with one new move `id`: the posted invoice
   * of the order for the partner, with the lines of the items.
   */
  predicate InvoiceCreated(
    a: Tables, b: Tables, rules: LedgerRules, id: Id, partnerId: Id, orderId: string,
    items: seq<JValue>, payment: JValue, today: Date)
    requires partnerId in a.partners
  {
    && id !in a.moves && id in b.moves
    && b.moves == a.moves[id := b.moves[id]]
    && Receivable(a, a.partners[partnerId]).Some?
    && PaymentDate(payment, today).Ok?
    && IsInvoiceOf(rules, id, b.moves[id], partnerId, Receivable(a, a.partners[partnerId]).value,
                   orderId, payment, PaymentDate(payment, today).value)
    && LinesFor(b, items, b.moves[id].lines)
  }

  /** The Float fields of the item's line accept its `qty` (1) and `price` (0). */
  predicate Convertible(item: JValue) {
    && item.JObj?
    && FloatField(Field(item.fields, "qty", JNum(1.0))).Ok?
    && FloatField(Field(item.fields, "price", JNum(0.0))).Ok?
  }

  /** The Float conversion of an item's `qty`, then its `price`, as the line's `create` does it. */
  function LineConversion(item: JValue): (r: Result<(), Fault>)
    ensures r.Ok? <==> Convertible(item)
    ensures item.JObj? && FloatField(Field(item.fields, "qty", JNum(1.0))).Err? ==>
      r == Err(FloatField(Field(item.fields, "qty", JNum(1.0))).error)
  {
    if !item.JObj? then Err(OtherError(NoSuchAttribute))
    else
      match FloatField(Field(item.fields, "qty", JNum(1.0)))
      case Err(e) => Err(e)
      case Ok(_) =>
        match FloatField(Field(item.fields, "price", JNum(0.0)))
        case Err(e) => Err(e)
        case Ok(_) => Ok(())
  }

  /** Writing the lines of the items: the first line that does not convert decides the fault. */
  function LinesConversion(items: seq<JValue>): (r: Result<(), Fault>)
    ensures r.Ok? <==> forall j :: 0 <= j < |items| ==> Convertible(items[j])
    ensures items != [] && !Convertible(items[0]) ==> r == LineConversion(items[0])
  {
    if items == [] then Ok(())
    else if LineConversion(items[0]).Err? then LineConversion(items[0])
    else
      var rest := LinesConversion(items[1..]);
      assert forall j :: 1 <= j < |items| ==> items[1..][j - 1] == items[j];
      rest
  }

  /** Converting the drafts of the items fails exactly as the items' conversion does. */
  lemma {:induction false} ConvertLinesFault(t: Tables, items: seq<JValue>, drafts: seq<DraftLine>)
    requires DraftsFor(t, items, drafts)
    ensures ConvertLines(drafts).Err? <==> LinesConversion(items).Err?
    ensures ConvertLines(drafts).Err? ==> ConvertLines(drafts).error == LinesConversion(items).error
    decreases |items|
  {
    if items != [] {
      assert IsDraftFor(t, items[0], drafts[0]);
      assert DraftsFor(t, items[1..], drafts[1..]) by {
        assert forall j :: 0 <= j < |items| - 1 ==> items[1..][j] == items[j + 1] && drafts[1..][j] == drafts[j + 1];
      }
      ConvertLinesFault(t, items[1..], drafts[1..]);
    }
  }

  /**
   * What the amount of an item's line is computed from, read on the tables
   * before the loop: its converted `qty` and `price` and its taxes.
   */
  function ItemPrice(taxes: map<Id, Tax>, item: JValue): LinePrice {
    if !item.JObj? then LinePrice(0.0, 0.0, {})
    else
      var q := FloatField(Field(item.fields, "qty", JNum(1.0)));
      var p := FloatField(Field(item.fields, "price", JNum(0.0)));
      var tx := LineTaxes(taxes, Field(item.fields, "tax_rate", JNum(7.0)));
      LinePrice(if q.Ok? then q.value else 0.0, if p.Ok? then p.value else 0.0, if tx.Ok? then tx.value else {})
  }

  /** The priced content of the items' lines, in item order. */
  function ItemsPricing(taxes: map<Id, Tax>, items: seq<JValue>): (r: seq<LinePrice>)
    ensures |r| == |items|
  {
    seq(|items|, j requires 0 <= j < |items| => ItemPrice(taxes, items[j]))
  }

  /**
   * The lines of the items are priced from the items and the tax table
   * alone, so their total is known before any product is created.
   */
  lemma LinesPricing(t: Tables, items: seq<JValue>, lines: seq<InvoiceLine>)
    requires LinesFor(t, items, lines)
    ensures Pricing(lines) == ItemsPricing(t.taxes, items)
  {
    forall j | 0 <= j < |items|
      ensures Pricing(lines)[j] == ItemsPricing(t.taxes, items)[j]
    {
      assert IsLineFor(t, items[j], lines[j]);
    }
  }

  /**
   * The steps of `create_invoice` after the loop: the invoice date, the
   * conversion of the lines and the `create` and `action_post` of the move.
   */
  method FinishInvoice(
    store: Store, partnerId: Id, receivable: Id, orderId: string, items: seq<JValue>, payment: JValue, today: Date,
    drafts: seq<DraftLine>)
    returns (r: Result<Id, Fault>)
    requires store.Valid() && DraftsFor(store.db, items, drafts)
    modifies store
    ensures store.Valid() && store.nextId >= old(store.nextId)
    ensures r.Err? ==> store.db == old(store.db)
    ensures PaymentDate(payment, today).Err? ==> r == Err(PaymentDate(payment, today).error)
    ensures r.Ok? <==>
      && PaymentDate(payment, today).Ok? && (forall j :: 0 <= j < |items| ==> Convertible(items[j]))
      && !KeyTaken(old(store.db.moves), orderId)
    ensures PaymentDate(payment, today).Ok? && LinesConversion(items).Err? ==> r == Err(LinesConversion(items).error)
    ensures (&& PaymentDate(payment, today).Ok? && (forall j :: 0 <= j < |items| ==> Convertible(items[j]))
             && KeyTaken(old(store.db.moves), orderId)) ==>
      r == Err(OtherError(UniqueViolation(orderId)))
    ensures r.Ok? ==>
      && r.value !in old(store.db.moves) && r.value in store.db.moves
      && store.db == old(store.db).(moves := old(store.db.moves)[r.value := store.db.moves[r.value]])
      && IsInvoiceOf(store.rules, r.value, store.db.moves[r.value], partnerId, receivable, orderId, payment,
                     PaymentDate(payment, today).value)
      && LinesFor(store.db, items, store.db.moves[r.value].lines)
  {
    var date := PaymentDate(payment, today);
    if date.Err? {
      return Err(date.error);
    }
    var lines := ConvertLines(drafts);
    assert lines.Ok? <==> forall j :: 0 <= j < |items| ==> Convertible(items[j]) by {
      assert forall j :: 0 <= j < |items| ==> IsDraftFor(store.db, items[j], drafts[j]);
    }
    if lines.Err? {
      ConvertLinesFault(store.db, items, drafts);
      return Err(lines.error);
    }
    ghost var grown := store.db;
    r := WriteInvoice(store, partnerId, receivable, orderId, payment, date.value, lines.value);
    if r.Err? {
      return;
    }
    ConvertedDraftsAreLines(grown, items, drafts, lines.value);
    LinesForIgnoresMoves(grown, store.db, items, lines.value);
  }

  lemma AutoGrownIgnoresMoves(a: Tables, b: Tables, c: Tables, bound: nat, autoCreate: string)
    requires AutoGrown(a, b, bound, autoCreate) && c == b.(moves := c.moves)
    ensures AutoGrown(a, c, bound, autoCreate)
  {
  }

  /** The loop over the items and the steps after it, for a partner with a receivable account. */
  method NewInvoice(
    store: Store, partnerId: Id, receivable: Id, orderId: string, items: seq<JValue>, payment: JValue, autoCreate: string,
    today: Date)
    returns (r: Result<Id, Fault>)
    requires store.Valid() && partnerId in store.db.partners
    requires Receivable(store.db, store.db.partners[partnerId]) == Some(receivable)
    modifies store
    ensures store.Valid() && store.nextId >= old(store.nextId)
    ensures AutoGrown(old(store.db), store.db, old(store.nextId), autoCreate)
    ensures r.Err? ==> store.db.moves == old(store.db.moves)
    ensures old(ItemsVerdict(store.db, items, autoCreate)).Err? ==>
      r == Err(old(ItemsVerdict(store.db, items, autoCreate)).error)
    ensures old(ItemsVerdict(store.db, items, autoCreate)).Ok? && PaymentDate(payment, today).Err? ==>
      r == Err(PaymentDate(payment, today).error)
    ensures (old(ItemsVerdict(store.db, items, autoCreate)).Ok? && PaymentDate(payment, today).Ok?
             && LinesConversion(items).Err?) ==>
      r == Err(LinesConversion(items).error)
    ensures (old(ItemsVerdict(store.db, items, autoCreate)).Ok? && PaymentDate(payment, today).Ok?
             && LinesConversion(items).Ok? && KeyTaken(old(store.db.moves), orderId)) ==>
      r == Err(OtherError(UniqueViolation(orderId)))
    ensures r.Ok? <==>
      && old(ItemsVerdict(store.db, items, autoCreate)).Ok? && PaymentDate(payment, today).Ok?
      && (forall j :: 0 <= j < |items| ==> Convertible(items[j]))
      && !KeyTaken(old(store.db.moves), orderId)
    ensures r.Ok? ==>
      InvoiceCreated(old(store.db), store.db, store.rules, r.value, partnerId, orderId, items, payment, today)
  {
    ghost var db0 := store.db;
    ghost var next0 := store.nextId;
    var drafts := DraftLines(store, items, autoCreate);
    if drafts.Err? {
      return Err(drafts.error);
    }
    ghost var grown := store.db;
    r := FinishInvoice(store, partnerId, receivable, orderId, items, payment, today, drafts.value);
    AutoGrownIgnoresMoves(db0, grown, store.db, next0, autoCreate);
  }

  /**
   * `create_invoice`.  An order that already has an invoice gets it back
   * and nothing is written; a partner without a receivable account is
   * refused before any product is looked up.  Otherwise a new posted
   * invoice holds one line per item, in item order.  Products and
   * categories created on the way stay when a later step fails.
   */
  method CreateInvoice(
    store: Store, partnerId: Id, orderId: string, items: seq<JValue>, payment: JValue, autoCreate: string, today: Date)
    returns (r: Result<Id, Fault>)
    requires store.Valid() && partnerId in store.db.partners
    modifies store
    ensures store.Valid() && store.nextId >= old(store.nextId)
    ensures AutoGrown(old(store.db), store.db, old(store.nextId), autoCreate)
    ensures old(SearchByOrderKey(store.db.moves, orderId)).Some? ==>
      r == Ok(old(SearchByOrderKey(store.db.moves, orderId)).value) && store.db == old(store.db)
    ensures (old(SearchByOrderKey(store.db.moves, orderId)).None?
      && old(Receivable(store.db, store.db.partners[partnerId])).None?) ==>
      r == Err(ValidationError(ReceivableMissing)) && store.db == old(store.db)
    ensures r.Err? ==> store.db.moves == old(store.db.moves)
    ensures (old(SearchByOrderKey(store.db.moves, orderId)).None?
      && old(Receivable(store.db, store.db.partners[partnerId])).Some?) ==>
      && (old(ItemsVerdict(store.db, items, autoCreate)).Err? ==>
            r == Err(old(ItemsVerdict(store.db, items, autoCreate)).error))
      && (old(ItemsVerdict(store.db, items, autoCreate)).Ok? && PaymentDate(payment, today).Err? ==>
            r == Err(PaymentDate(payment, today).error))
      && (old(ItemsVerdict(store.db, items, autoCreate)).Ok? && PaymentDate(payment, today).Ok?
          && LinesConversion(items).Err? ==>
            r == Err(LinesConversion(items).error))
      && (old(ItemsVerdict(store.db, items, autoCreate)).Ok? && PaymentDate(payment, today).Ok?
          && LinesConversion(items).Ok? && KeyTaken(old(store.db.moves), orderId) ==>
            r == Err(OtherError(UniqueViolation(orderId))))
      && (r.Ok? <==>
            && old(ItemsVerdict(store.db, items, autoCreate)).Ok? && PaymentDate(payment, today).Ok?
            && (forall j :: 0 <= j < |items| ==> Convertible(items[j]))
            && !KeyTaken(old(store.db.moves), orderId))
    ensures r.Ok? && old(SearchByOrderKey(store.db.moves, orderId)).None? ==>
      InvoiceCreated(old(store.db), store.db, store.rules, r.value, partnerId, orderId, items, payment, today)
  {
    ghost var db0 := store.db;
    var existing := SearchByOrderKey(store.db.moves, orderId);
    if existing.Some? {
      return Ok(existing.value);
    }
    var receivable := Receivable(store.db, store.db.partners[partnerId]);
    if receivable.None? {
      return Err(ValidationError(ReceivableMissing));
    }
    r := NewInvoice(store, partnerId, receivable.value, orderId, items, payment, autoCreate, today);
  }
}
