/**
 * `relatic.payment.service`: the payment of an invoice as a posted journal
 * entry reconciled against it, and credit notes for an order.  The
 * reconciliation algorithm is Odoo's; here it is its effect on the
 * residual: a full payment leaves nothing due, a partial one subtracts
 * what was paid.
 */
module PaymentService {
  import opened Wrappers
  import opened Text
  import opened Json
  import opened Dates
  import opened Records
  import opened AccountMove
  import opened Store
  import opened InvoiceService

  // -------------------------------------------------------------- journals

  /** The payment methods `_get_journal` knows, each mapped to the journal of the same name. */
  predicate KnownMethod(name: string) {
    name == "YAPPY" || name == "TARJETA" || name == "TRANSFERENCIA"
  }

  /** `journal_names.get(payment_method.upper())`. */
  function JournalName(paymentMethod: string): (r: Option<string>)
    ensures r.Some? <==> KnownMethod(Upper(paymentMethod))
    ensures r.Some? ==> r.value == Upper(paymentMethod)
  {
    var key := Upper(paymentMethod);
    if KnownMethod(key) then Some(key) else None
  }

  /** The method is recognised whatever its case. */
  lemma JournalNameIgnoresCase(a: string, b: string)
    requires Upper(a) == Upper(b)
    ensures JournalName(a) == JournalName(b)
  {
  }

  /** A lower-case method is recognised. */
  lemma LowerCaseMethodKnown()
    ensures JournalName("yappy") == Some("YAPPY")
  {
    assert Upper("yappy") == "YAPPY";
  }

  /**
   * `_get_journal(payment_data.get('method', ''))`: the first bank journal
   * named after the method; none for an unknown method.  A method that is
   * not a string has no `upper()`.
   */
  function GetJournal(journals: map<Id, Journal>, paymentMethod: JValue): (r: Result<Option<Id>, Fault>)
    ensures !paymentMethod.JStr? ==> r == Err(OtherError(NoSuchAttribute))
    ensures paymentMethod.JStr? && JournalName(paymentMethod.s).None? ==> r == Ok(None)
    ensures paymentMethod.JStr? && JournalName(paymentMethod.s).Some? ==>
      r.Ok? && (r.value.None? <==>
        forall k :: k in journals ==> !(journals[k].name == JournalName(paymentMethod.s).value && journals[k].journalType == "bank"))
    ensures r.Ok? && r.value.Some? ==>
      && paymentMethod.JStr? && JournalName(paymentMethod.s).Some?
      && r.value.value in journals && journals[r.value.value].journalType == "bank"
      && journals[r.value.value].name == Upper(paymentMethod.s)
  {
    if !paymentMethod.JStr? then Err(OtherError(NoSuchAttribute))
    else match JournalName(paymentMethod.s)
      case None => Ok(None)
      case Some(name) => Ok(First(journals, (j: Journal) => j.name == name && j.journalType == "bank"))
  }

  // ------------------------------------------------------------- amounts

  function Min(a: real, b: real): (r: real)
    ensures r <= a && r <= b && (r == a || r == b)
  {
    if a <= b then a else b
  }

  /** Python's `float(v)` on a decoded JSON value; strings are not converted. */
  function PyFloat(v: JValue): (r: Result<real, Fault>)
    ensures IsNumber(v) <==> r.Ok?
    ensures r.Ok? ==> r.value == NumValue(v)
  {
    if IsNumber(v) then Ok(NumValue(v))
    else if v.JStr? then Err(OtherError(BadValue))
    else Err(OtherError(WrongType))
  }

  /** A full payment must come within a cent of what is due. */
  predicate WithinTolerance(amount: real, residual: real) {
    Abs(amount - residual) <= 0.01
  }

  /** What `register_payment` settles on before it writes anything. */
  datatype PaymentPlan = PaymentPlan(journal: Id, bank: Id, receivable: Id, amount: real, date: Option<Date>, ref: JValue)

  /**
   * The date step of `register_payment`: a string date is read with
   * `fields.Date.from_string`; any other value, and a missing date (today),
   * passes this step unchanged.
   */
  function StringDate(payment: JValue): (r: Result<(), Fault>)
    requires payment.JObj?
    ensures "date" in payment.fields && payment.fields["date"].JStr? ==>
      && (r.Err? <==> DateValue(payment.fields["date"]).Err?)
      && (r.Err? ==> r.error == DateValue(payment.fields["date"]).error)
    ensures !("date" in payment.fields && payment.fields["date"].JStr?) ==> r == Ok(())
  {
    if "date" in payment.fields && payment.fields["date"].JStr? then
      match DateValue(payment.fields["date"])
      case Ok(_) => Ok(())
      case Err(e) => Err(e)
    else Ok(())
  }

  /** A date that converts passes the early string step. */
  lemma ConvertedDatePassesEarly(payment: JValue, today: Date)
    requires payment.JObj? && PaymentDate(payment, today).Ok?
    ensures StringDate(payment).Ok?
  {
  }

  /**
   * The checks of `register_payment`, in its order: posted invoice, a
   * journal for the method, the journal's default account, the partner's
   * receivable account, the amount as a number, the date, a positive
   * amount, and for a full payment the match with the residual.  A partial
   * payment is cut down to the residual.
   */
  function PlanPayment(t: Tables, invoice: Move, partner: Partner, payment: JValue, today: Date, partial: bool): (r: Result<PaymentPlan, Fault>)
    ensures invoice.state != Posted ==> r == Err(ValidationError(InvoiceNotPosted))
    ensures invoice.state == Posted && !payment.JObj? ==> r == Err(OtherError(NoSuchAttribute))
    ensures invoice.state == Posted && payment.JObj? && GetJournal(t.journals, Field(payment.fields, "method", JStr(""))) == Ok(None) ==>
      r == Err(ValidationError(JournalMissing(Field(payment.fields, "method", JNull))))
    ensures r.Ok? ==>
      && invoice.state == Posted && payment.JObj?
      && GetJournal(t.journals, Field(payment.fields, "method", JStr(""))) == Ok(Some(r.value.journal))
      && t.journals[r.value.journal].defaultAccount == Some(r.value.bank)
      && Receivable(t, partner) == Some(r.value.receivable)
      && PyFloat(Field(payment.fields, "amount", JNum(0.0))).Ok?
      && PaymentDate(payment, today) == Ok(r.value.date)
      && r.value.ref == Field(payment.fields, "reference", JStr(""))
    ensures r.Ok? ==>
      var asked := PyFloat(Field(payment.fields, "amount", JNum(0.0))).value;
      && asked > 0.0
      && (!partial ==> r.value.amount == asked && WithinTolerance(asked, Abs(invoice.residual)))
      && (partial ==> r.value.amount == Min(asked, Abs(invoice.residual)))
    ensures invoice.state == Posted && payment.JObj? ==>
      var journal := GetJournal(t.journals, Field(payment.fields, "method", JStr("")));
      var asked := PyFloat(Field(payment.fields, "amount", JNum(0.0)));
      var date := PaymentDate(payment, today);
      var early := StringDate(payment);
      && (journal.Err? ==> r == Err(journal.error))
      && (journal.Ok? && journal.value.Some? ==>
            var bank := t.journals[journal.value.value].defaultAccount;
            && (bank.None? ==> r == Err(ValidationError(JournalAccountMissing)))
            && (bank.Some? && Receivable(t, partner).None? ==> r == Err(ValidationError(PartnerReceivableMissing)))
            && (bank.Some? && Receivable(t, partner).Some? ==>
                  && (asked.Err? ==> r == Err(asked.error))
                  && (asked.Ok? && early.Err? ==> r == Err(early.error))
                  && (asked.Ok? && early.Ok? && asked.value <= 0.0 ==> r == Err(ValidationError(AmountNotPositive)))
                  && (asked.Ok? && early.Ok? && asked.value > 0.0 && !partial
                      && !WithinTolerance(asked.value, Abs(invoice.residual)) ==>
                        r == Err(ValidationError(AmountDiffersFromResidual)))
                  && (asked.Ok? && early.Ok? && asked.value > 0.0
                      && (partial || WithinTolerance(asked.value, Abs(invoice.residual))) && date.Err? ==>
                        r == Err(date.error))))
    ensures r.Ok? <==>
      && invoice.state == Posted && payment.JObj?
      && GetJournal(t.journals, Field(payment.fields, "method", JStr(""))).Ok?
      && GetJournal(t.journals, Field(payment.fields, "method", JStr(""))).value.Some?
      && t.journals[GetJournal(t.journals, Field(payment.fields, "method", JStr(""))).value.value].defaultAccount.Some?
      && Receivable(t, partner).Some?
      && PyFloat(Field(payment.fields, "amount", JNum(0.0))).Ok? && PaymentDate(payment, today).Ok?
      && PyFloat(Field(payment.fields, "amount", JNum(0.0))).value > 0.0
      && (partial || WithinTolerance(PyFloat(Field(payment.fields, "amount", JNum(0.0))).value, Abs(invoice.residual)))
    ensures r.Err? && r.error == ValidationError(AmountDiffersFromResidual) ==>
      !partial && payment.JObj? && PyFloat(Field(payment.fields, "amount", JNum(0.0))).Ok?
      && !WithinTolerance(PyFloat(Field(payment.fields, "amount", JNum(0.0))).value, Abs(invoice.residual))
  {
    if invoice.state != Posted then Err(ValidationError(InvoiceNotPosted))
    else if !payment.JObj? then Err(OtherError(NoSuchAttribute))
    else
      var data := payment.fields;
      var journal :- GetJournal(t.journals, Field(data, "method", JStr("")));
      if journal.None? then Err(ValidationError(JournalMissing(Field(data, "method", JNull))))
      else
        var bank := t.journals[journal.value].defaultAccount;
        if bank.None? then Err(ValidationError(JournalAccountMissing))
        else
          var receivable := Receivable(t, partner);
          if receivable.None? then Err(ValidationError(PartnerReceivableMissing))
          else
            var asked :- PyFloat(Field(data, "amount", JNum(0.0)));
            var early := StringDate(payment);
            if early.Err? then Err(early.error)
            else if asked <= 0.0 then Err(ValidationError(AmountNotPositive))
            else
              var residual := Abs(invoice.residual);
              if !partial && !WithinTolerance(asked, residual) then Err(ValidationError(AmountDiffersFromResidual))
              else
                // Any other value is converted by the entry's `create`, which comes next.
                var date :- PaymentDate(payment, today);
                var amount := if partial then Min(asked, residual) else asked;
                Ok(PaymentPlan(journal.value, bank.value, receivable.value, amount, date, Field(data, "reference", JStr(""))))
  }

  /**
   * A date that is neither a string nor falsy, such as a number, does not
   * stop the amount checks: a non-positive amount is still refused as a
   * `ValidationError`, and only a payment that passes them fails on the date.
   */
  lemma NonStringDateChecksAmountFirst(t: Tables, invoice: Move, partner: Partner, payment: JValue, today: Date)
    requires invoice.state == Posted && payment.JObj?
    requires GetJournal(t.journals, Field(payment.fields, "method", JStr(""))).Ok?
    requires GetJournal(t.journals, Field(payment.fields, "method", JStr(""))).value.Some?
    requires t.journals[GetJournal(t.journals, Field(payment.fields, "method", JStr(""))).value.value].defaultAccount.Some?
    requires Receivable(t, partner).Some?
    requires "date" in payment.fields && Truthy(payment.fields["date"]) && !payment.fields["date"].JStr?
    requires PyFloat(Field(payment.fields, "amount", JNum(0.0))).Ok?
    ensures PyFloat(Field(payment.fields, "amount", JNum(0.0))).value <= 0.0 ==>
      PlanPayment(t, invoice, partner, payment, today, false) == Err(ValidationError(AmountNotPositive))
    ensures (PyFloat(Field(payment.fields, "amount", JNum(0.0))).value > 0.0
             && WithinTolerance(PyFloat(Field(payment.fields, "amount", JNum(0.0))).value, Abs(invoice.residual))) ==>
      PlanPayment(t, invoice, partner, payment, today, false) == Err(OtherError(WrongType))
  {
    assert StringDate(payment) == Ok(());
  }

  /** A partial payment never settles more than is due, nor more than was paid. */
  lemma PartialNeverExceedsResidual(t: Tables, invoice: Move, partner: Partner, payment: JValue, today: Date)
    requires PlanPayment(t, invoice, partner, payment, today, true).Ok?
    ensures var plan := PlanPayment(t, invoice, partner, payment, today, true).value;
      plan.amount <= Abs(invoice.residual) && plan.amount <= PyFloat(payment.fields["amount"]).value
  {
  }

  /** A payment of 150.00 against 150.00 due is accepted in full; 150.02 is not. */
  lemma ToleranceExamples()
    ensures WithinTolerance(150.0, 150.0) && WithinTolerance(150.01, 150.0)
    ensures !WithinTolerance(150.02, 150.0) && !WithinTolerance(149.98, 150.0)
  {
  }

  /**
   * The entry `register_payment` creates: a debit to the journal's bank
   * account and a credit to the partner's receivable account, both for the
   * settled amount.
   */
  function PaymentEntry(plan: PaymentPlan, partnerId: Id): (m: Move)
    ensures m.moveType == Entry && m.orderKey.None? && m.journal == Some(plan.journal) && m.date == plan.date
    ensures |m.items| == 2 && m.items[0].account == plan.bank && m.items[1].account == plan.receivable
    ensures m.items[0].debit == plan.amount && m.items[0].credit == 0.0
    ensures m.items[1].debit == 0.0 && m.items[1].credit == plan.amount
  {
    Move(Entry, Draft, "/", None, None, "", plan.ref, plan.date, Some(plan.journal), [],
         [JournalItem(plan.bank, Some(partnerId), plan.amount, 0.0, false),
          JournalItem(plan.receivable, Some(partnerId), 0.0, plan.amount, false)], 0.0)
  }

  function DebitTotal(items: seq<JournalItem>): real {
    if items == [] then 0.0 else items[0].debit + DebitTotal(items[1..])
  }

  function CreditTotal(items: seq<JournalItem>): real {
    if items == [] then 0.0 else items[0].credit + CreditTotal(items[1..])
  }

  /** The payment entry balances. */
  lemma PaymentEntryBalances(plan: PaymentPlan, partnerId: Id)
    ensures DebitTotal(PaymentEntry(plan, partnerId).items) == CreditTotal(PaymentEntry(plan, partnerId).items) == plan.amount
  {
    var items := PaymentEntry(plan, partnerId).items;
    assert items[1..][1..] == [];
    assert DebitTotal(items[1..]) == items[1].debit + DebitTotal(items[1..][1..]);
    assert CreditTotal(items[1..]) == items[1].credit + CreditTotal(items[1..][1..]);
  }

  // ------------------------------------------------------ reconciliation

  /** The filter of `_reconcile_invoice`: an open item on a reconcilable account that is the receivable one. */
  predicate Reconcilable(accounts: map<Id, Account>, receivable: Option<Id>, l: JournalItem) {
    receivable.Some? && l.account == receivable.value && l.account in accounts && accounts[l.account].reconcile && !l.reconciled
  }

  predicate HasReconcilable(accounts: map<Id, Account>, receivable: Option<Id>, items: seq<JournalItem>) {
    exists i :: 0 <= i < |items| && Reconcilable(accounts, receivable, items[i])
  }

  /** The items that take part, flagged reconciled when `settled`; the others as they were. */
  function Settle(accounts: map<Id, Account>, receivable: Option<Id>, items: seq<JournalItem>, settled: bool): (r: seq<JournalItem>)
    ensures |r| == |items|
    ensures forall i :: 0 <= i < |items| ==>
      r[i] == if settled && Reconcilable(accounts, receivable, items[i]) then items[i].(reconciled := true) else items[i]
  {
    seq(|items|, i requires 0 <= i < |items| =>
      if settled && Reconcilable(accounts, receivable, items[i]) then items[i].(reconciled := true) else items[i])
  }

  /** `invoice.partner_id.property_account_receivable_id`. */
  function InvoiceReceivable(t: Tables, invoice: Move): Option<Id> {
    if invoice.partner.Some? && invoice.partner.value in t.partners then Receivable(t, t.partners[invoice.partner.value]) else None
  }

  /**
   * `_reconcile_invoice`: nothing happens unless both the invoice and the
   * payment have an open item on the receivable account.  Then the
   * payment's items are settled, the residual drops to 0 for a full payment
   * or by the amount for a partial one, and the invoice's items are settled
   * once nothing is due.
   */
  function Reconciled(t: Tables, invoiceId: Id, paymentId: Id, amount: real, partial: bool): (r: map<Id, Move>)
    requires invoiceId in t.moves && paymentId in t.moves && invoiceId != paymentId
    ensures r.Keys == t.moves.Keys
    ensures forall k :: k in r ==> r[k].orderKey == t.moves[k].orderKey && r[k].moveType == t.moves[k].moveType
    ensures forall k :: k in r && k != invoiceId && k != paymentId ==> r[k] == t.moves[k]
    ensures var rec := InvoiceReceivable(t, t.moves[invoiceId]);
      !(HasReconcilable(t.accounts, rec, t.moves[invoiceId].items) && HasReconcilable(t.accounts, rec, t.moves[paymentId].items)) ==>
      r == t.moves
    ensures var rec := InvoiceReceivable(t, t.moves[invoiceId]);
      HasReconcilable(t.accounts, rec, t.moves[invoiceId].items) && HasReconcilable(t.accounts, rec, t.moves[paymentId].items) ==>
      && r[invoiceId].residual == (if partial then Abs(t.moves[invoiceId].residual) - amount else 0.0)
      && r[paymentId].items == Settle(t.accounts, rec, t.moves[paymentId].items, true)
      && r[invoiceId].items == Settle(t.accounts, rec, t.moves[invoiceId].items, r[invoiceId].residual == 0.0)
      && r[invoiceId] == t.moves[invoiceId].(residual := r[invoiceId].residual, items := r[invoiceId].items)
      && r[paymentId] == t.moves[paymentId].(items := r[paymentId].items)
  {
    var invoice := t.moves[invoiceId];
    var payment := t.moves[paymentId];
    var rec := InvoiceReceivable(t, invoice);
    if !(HasReconcilable(t.accounts, rec, invoice.items) && HasReconcilable(t.accounts, rec, payment.items)) then t.moves
    else
      var residual := if partial then Abs(invoice.residual) - amount else 0.0;
      t.moves[invoiceId := invoice.(residual := residual, items := Settle(t.accounts, rec, invoice.items, residual == 0.0))]
             [paymentId := payment.(items := Settle(t.accounts, rec, payment.items, true))]
  }

  /** A partial payment cut down to the residual never leaves a negative amount due. */
  lemma PartialResidualNonNegative(t: Tables, invoiceId: Id, paymentId: Id, asked: real)
    requires invoiceId in t.moves && paymentId in t.moves && invoiceId != paymentId
    requires HasReconcilable(t.accounts, InvoiceReceivable(t, t.moves[invoiceId]), t.moves[invoiceId].items)
    requires HasReconcilable(t.accounts, InvoiceReceivable(t, t.moves[invoiceId]), t.moves[paymentId].items)
    ensures Reconciled(t, invoiceId, paymentId, Min(asked, Abs(t.moves[invoiceId].residual)), true)[invoiceId].residual >= 0.0
  {
  }

  /** The write `_reconcile_invoice` performs. */
  method ReconcileInvoice(store: Store, invoiceId: Id, paymentId: Id, amount: real, partial: bool)
    requires store.Valid() && invoiceId in store.db.moves && paymentId in store.db.moves && invoiceId != paymentId
    modifies store
    ensures store.Valid() && store.nextId == old(store.nextId)
    ensures store.db == old(store.db).(moves := Reconciled(old(store.db), invoiceId, paymentId, amount, partial))
  {
    store.WriteMoves(Reconciled(store.db, invoiceId, paymentId, amount, partial));
  }

  // -------------------------------------------------------------- payment

  /** The `account.move.create` and `action_post` of `register_payment`: a keyless entry is never refused. */
  method WritePayment(store: Store, plan: PaymentPlan, partnerId: Id) returns (id: Id)
    requires store.Valid()
    modifies store
    ensures store.Valid() && store.nextId == old(store.nextId) + 1 && id !in old(store.db.moves)
    ensures store.db == old(store.db).(moves := old(store.db.moves)[id :=
      PaymentEntry(plan, partnerId).(state := Posted, name := store.rules.number(Entry, id))])
  {
    var created := store.CreateMove(PaymentEntry(plan, partnerId));
    if created.Err? {
      assert false;
    }
    id := created.value;
    store.Post(id);
  }

  /**
   * `register_payment`: nothing is written when a check fails; otherwise
   * the entry is created, posted and reconciled against the invoice.
   */
  method RegisterPayment(store: Store, invoiceId: Id, partnerId: Id, payment: JValue, today: Date, partial: bool := false)
    returns (r: Result<Id, Fault>)
    requires store.Valid() && invoiceId in store.db.moves && partnerId in store.db.partners
    modifies store
    ensures store.Valid() && store.nextId >= old(store.nextId)
    ensures var plan := PlanPayment(old(store.db), old(store.db.moves[invoiceId]), old(store.db.partners[partnerId]), payment, today, partial);
      && (r.Err? <==> plan.Err?)
      && (r.Err? ==> r.error == plan.error && store.db == old(store.db))
      && (r.Ok? ==>
            && r.value !in old(store.db.moves) && r.value != invoiceId
            && var posted := PaymentEntry(plan.value, partnerId).(state := Posted, name := store.rules.number(Entry, r.value));
            var written := old(store.db).(moves := old(store.db.moves)[r.value := posted]);
            store.db == written.(moves := Reconciled(written, invoiceId, r.value, plan.value.amount, partial)))
  {
    var plan := PlanPayment(store.db, store.db.moves[invoiceId], store.db.partners[partnerId], payment, today, partial);
    if plan.Err? {
      return Err(plan.error);
    }
    var id := WritePayment(store, plan.value, partnerId);
    ReconcileInvoice(store, invoiceId, id, plan.value.amount, partial);
    r := Ok(id);
  }

  /**
   * After a full payment of an invoice whose receivable item is open on a
   * reconcilable account, nothing is due on it.
   */
  lemma FullPaymentSettles(t: Tables, invoiceId: Id, paymentId: Id, amount: real)
    requires invoiceId in t.moves && paymentId in t.moves && invoiceId != paymentId
    requires HasReconcilable(t.accounts, InvoiceReceivable(t, t.moves[invoiceId]), t.moves[invoiceId].items)
    requires HasReconcilable(t.accounts, InvoiceReceivable(t, t.moves[invoiceId]), t.moves[paymentId].items)
    ensures Reconciled(t, invoiceId, paymentId, amount, false)[invoiceId].residual == 0.0
  {
  }

  // --------------------------------------------------------------- refunds

  /** The key of an order's credit note. */
  function RefundKey(orderId: string): (k: string)
    ensures |k| == |orderId| + 7 && k[..|orderId|] == orderId && k[|orderId|..] == "-REFUND"
  {
    orderId + "-REFUND"
  }

  /** A credit-note line: the invoice line with its unit price negated. */
  function RefundLine(l: InvoiceLine): (r: InvoiceLine)
    ensures r.priceUnit == -l.priceUnit
    ensures r.product == l.product && r.description == l.description && r.quantity == l.quantity
    ensures r.taxes == l.taxes && r.account == l.account
  {
    l.(priceUnit := -l.priceUnit)
  }

  /** Refunding a refund line gives the invoice line back. */
  lemma RefundLineInvolutive(l: InvoiceLine)
    ensures RefundLine(RefundLine(l)) == l
  {
  }

  /** The `ref` of a credit note: the reason, or 'Reembolso de <invoice>' when it is empty. */
  function RefundRef(reason: string, invoiceName: string): (r: string)
    ensures reason != "" ==> r == reason
    ensures reason == "" ==> r == "Reembolso de " + invoiceName
  {
    if reason != "" then reason else "Reembolso de " + invoiceName
  }

  /** The loop of `create_refund` over the invoice lines. */
  method RefundLines(lines: seq<InvoiceLine>) returns (refund: seq<InvoiceLine>)
    ensures |refund| == |lines|
    ensures forall j :: 0 <= j < |lines| ==> refund[j] == RefundLine(lines[j])
  {
    refund := [];
    for i := 0 to |lines|
      invariant |refund| == i
      invariant forall j :: 0 <= j < i ==> refund[j] == RefundLine(lines[j])
    {
      refund := refund + [RefundLine(lines[i])];
    }
  }

  /**
   * `create_refund`: a posted invoice gets a posted credit note keyed
   * `order_id-REFUND`, unless the lookup finds one.  The lookup matches
   * customer invoices only, so an existing credit note is never found.
   */
  method CreateRefund(store: Store, invoiceId: Id, orderId: string, today: Date, reason: string := "")
    returns (r: Result<Id, Fault>)
    requires store.Valid() && invoiceId in store.db.moves
    modifies store
    ensures store.Valid() && store.nextId >= old(store.nextId)
    ensures old(store.db.moves[invoiceId].state) != Posted ==>
      r == Err(ValidationError(InvoiceNotPosted)) && store.db == old(store.db)
    ensures old(store.db.moves[invoiceId].state) == Posted && old(SearchByOrderKey(store.db.moves, RefundKey(orderId))).Some? ==>
      r == Ok(old(SearchByOrderKey(store.db.moves, RefundKey(orderId))).value) && store.db == old(store.db)
    ensures old(store.db.moves[invoiceId].state) == Posted && old(SearchByOrderKey(store.db.moves, RefundKey(orderId))).None? ==>
      && (r.Err? <==> KeyTaken(old(store.db.moves), RefundKey(orderId)))
      && (r.Err? ==> r.error == OtherError(UniqueViolation(RefundKey(orderId))) && store.db == old(store.db))
      && (r.Ok? ==>
            && r.value !in old(store.db.moves) && r.value in store.db.moves
            && store.db == old(store.db).(moves := old(store.db.moves)[r.value := store.db.moves[r.value]])
            && var refund := store.db.moves[r.value];
            var invoice := old(store.db.moves[invoiceId]);
            && refund.moveType == OutRefund && refund.state == Posted
            && refund.orderKey == Some(RefundKey(orderId)) && refund.origin == orderId
            && refund.partner == invoice.partner && refund.date == Some(today)
            && refund.ref == JStr(RefundRef(reason, invoice.name))
            && |refund.lines| == |invoice.lines|
            && (forall j :: 0 <= j < |invoice.lines| ==> refund.lines[j] == RefundLine(invoice.lines[j])))
  {
    var invoice := store.db.moves[invoiceId];
    if invoice.state != Posted {
      return Err(ValidationError(InvoiceNotPosted));
    }
    var key := RefundKey(orderId);
    var existing := SearchByOrderKey(store.db.moves, key);
    if existing.Some? {
      return Ok(existing.value);
    }
    var lines := RefundLines(invoice.lines);
    var total := store.rules.total(Pricing(lines));
    var refund := Move(OutRefund, Draft, "/", invoice.partner, Some(key), orderId, JStr(RefundRef(reason, invoice.name)),
                       Some(today), None, lines, [], total);
    r := store.CreateMove(refund);
    if r.Err? {
      return;
    }
    store.Post(r.value);
  }

  /**
   * Asking twice for the credit note of the same order: the first call
   * creates it, and the second, which was meant to return it, is refused
   * by the order-key constraint instead.
   */
  method RefundTwice(store: Store, invoiceId: Id, orderId: string, today: Date)
    returns (first: Result<Id, Fault>, second: Result<Id, Fault>)
    requires store.Valid() && invoiceId in store.db.moves
    requires store.db.moves[invoiceId].state == Posted
    requires !KeyTaken(store.db.moves, RefundKey(orderId))
    modifies store
    ensures first.Ok? && first.value !in old(store.db.moves)
    ensures second == Err(OtherError(UniqueViolation(RefundKey(orderId))))
  {
    assert SearchByOrderKey(store.db.moves, RefundKey(orderId)).None?;
    first := CreateRefund(store, invoiceId, orderId, today);
    RefundKeyHidden(store.db.moves, first.value, RefundKey(orderId));
    second := CreateRefund(store, invoiceId, orderId, today);
  }
}
