/** Company token balances and token purchases through Stripe: the balance query
    with its starter grant, the pending purchase record, the manual confirmation,
    the two webhook handlers and the transaction history.  Stripe's intent id,
    client secret, status and metadata are inputs; so are the new row ids
    (`uuid4`), the clock and the price, which the route computes from
    configuration constants. */
module TokenLedger {
  import opened Wrappers
  import opened Seqs
  import opened Text
  import opened Store

  /** Tokens granted by the first balance query of a company. */
  const StarterTokens: int := 5
  /** Bounds on the quantity of one purchase. */
  const MinPurchase: int := 1
  const MaxPurchase: int := 100
  /** Rows returned by the transaction history. */
  const HistoryLimit: nat := 50

  /** The `id_emp` of the caller's company profile, if there is one. */
  function CompanyIdOf(t: Tables, idUsu: string): (r: Option<string>)
    ensures r.Some? <==> exists i :: 0 <= i < |t.companies| && t.companies[i].idUsu == idUsu
    ensures r.Some? ==> exists i :: 0 <= i < |t.companies| && t.companies[i].idUsu == idUsu && t.companies[i].idEmp == r.value
  {
    match CompanyOfUser(t.companies, idUsu)
    case None => None
    case Some(i) => Some(t.companies[i].idEmp)
  }

  // ---------------------------------------------------------------------
  // GET /api/payment/token-balance

  datatype BalanceReply =
    | BalanceForbidden                                                 // 403
    | BalanceNoCompany                                                 // 404
    | BalanceOk(disponibles: int, usados: int, totalAdquiridos: int)   // 200

  /** Reads the caller's balance, first inserting a balance of 5 available and
      0 used tokens when the company has none. */
  function GetTokenBalance(t: Tables, caller: User, newId: string): (o: Outcome<BalanceReply>)
    ensures caller.rol != "Empresa" ==> o == Outcome(BalanceForbidden, t)
    ensures caller.rol == "Empresa" && CompanyIdOf(t, caller.idUsu).None? ==> o == Outcome(BalanceNoCompany, t)
    ensures o.reply.BalanceOk? ==>
      var emp := CompanyIdOf(t, caller.idUsu).value;
      BalanceOf(o.after.balances, emp).Some? &&
      var b := o.after.balances[BalanceOf(o.after.balances, emp).value];
      o.reply.disponibles == b.disponibles && o.reply.usados == b.usados &&
      o.reply.totalAdquiridos == b.disponibles + b.usados
    ensures o.reply.BalanceOk? ==>
      var emp := CompanyIdOf(t, caller.idUsu).value;
      if BalanceOf(t.balances, emp).Some? then o.after == t
      else o.after == t.(balances := t.balances + [Balance(newId, emp, StarterTokens, 0)])
  {
    if caller.rol != "Empresa" then Outcome(BalanceForbidden, t)
    else match CompanyIdOf(t, caller.idUsu)
      case None => Outcome(BalanceNoCompany, t)
      case Some(emp) =>
        match BalanceOf(t.balances, emp)
        case Some(i) =>
          var b := t.balances[i];
          Outcome(BalanceOk(b.disponibles, b.usados, b.disponibles + b.usados), t)
        case None =>
          var b := Balance(newId, emp, StarterTokens, 0);
          var bs := t.balances + [b];
          assert BalanceOf(bs, emp) == Some(|t.balances|) by {
            assert bs[|t.balances|].idEmp == emp;
          }
          Outcome(BalanceOk(b.disponibles, b.usados, b.disponibles + b.usados), t.(balances := bs))
  }

  /** The starter grant happens once: a second query changes nothing and reports
      the same numbers. */
  lemma GetTokenBalanceTwice(t: Tables, caller: User, id1: string, id2: string)
    ensures var o1 := GetTokenBalance(t, caller, id1);
            var o2 := GetTokenBalance(o1.after, caller, id2);
            o2 == Outcome(o1.reply, o1.after)
  {
    var o1 := GetTokenBalance(t, caller, id1);
    if o1.reply.BalanceOk? {
      var emp := CompanyIdOf(t, caller.idUsu).value;
      assert o1.after.companies == t.companies;
      assert CompanyIdOf(o1.after, caller.idUsu) == Some(emp);
    }
  }

  method ServeGetTokenBalance(db: Database, caller: User, newId: string) returns (reply: BalanceReply)
    modifies db
    ensures Outcome(reply, db.Snapshot()) == GetTokenBalance(old(db.Snapshot()), caller, newId)
  {
    if caller.rol != "Empresa" {
      return BalanceForbidden;
    }
    var c := CompanyOfUser(db.companies, caller.idUsu);
    if c.None? {
      return BalanceNoCompany;
    }
    var emp := db.companies[c.value].idEmp;
    var found := BalanceOf(db.balances, emp);
    var b: Balance;
    if found.None? {
      b := Balance(newId, emp, StarterTokens, 0);
      db.balances := db.balances + [b];
    } else {
      b := db.balances[found.value];
    }
    reply := BalanceOk(b.disponibles, b.usados, b.disponibles + b.usados);
  }

  // ---------------------------------------------------------------------
  // POST /api/payment/create-payment-intent

  /** The intent Stripe returns: its id and the client secret handed to the browser. */
  datatype StripeIntent = StripeIntent(id: string, clientSecret: string)

  datatype IntentReply =
    | IntentForbidden                                            // 403
    | IntentBadQuantity                                          // 400
    | IntentNoCompany                                            // 404
    | IntentFailed                                               // 500, rolled back
    | IntentCreated(clientSecret: string, monto: int, cantidad: int)   // 200

  /** `data.get("cantidad_tokens", 1)` as a number Python can compare with 1 and
      100: an absent key is 1, a boolean compares as 0 or 1, and null or a string
      make the comparison raise. */
  function QuantityOf(v: Option<Json>): (r: Option<int>)
    ensures v.None? ==> r == Some(1)
    ensures v.Some? && v.value.JInt? ==> r == Some(v.value.i)
    ensures r.None? <==> v.Some? && (v.value.JNull? || v.value.JString?)
  {
    match v
    case None => Some(1)
    case Some(JInt(i)) => Some(i)
    case Some(JBool(b)) => Some(if b then 1 else 0)
    case Some(_) => None
  }

  /** `str()` of the submitted quantity, as interpolated into the description. */
  function QuantityText(v: Option<Json>): string {
    match v
    case None => "1"
    case Some(JInt(i)) => IntToString(i)
    case Some(JBool(b)) => if b then "True" else "False"
    case Some(JNull) => "None"
    case Some(JString(s)) => s
  }

  /** The pending purchase recorded for a new intent. */
  function PurchaseRecord(id: string, emp: string, q: int, text: string, monto: int, intent: StripeIntent, now: int): (x: Transaction)
    ensures x.tipo == "compra" && x.estado == "pendiente" && x.cantidad == q && x.intentId == Some(intent.id)
  {
    Transaction(id, emp, "compra", q, Some(monto), Some(intent.id), "pendiente",
                "Compra de " + text + " token(es)", now)
  }

  /** Validates the quantity, creates the Stripe intent and records it as one
      pending purchase. */
  function CreatePaymentIntent(t: Tables, caller: User, cantidad: Option<Json>, monto: int,
                               intent: StripeIntent, newId: string, now: int): (o: Outcome<IntentReply>)
    ensures o.reply.IntentCreated? <==>
      caller.rol == "Empresa" && QuantityOf(cantidad).Some? &&
      MinPurchase <= QuantityOf(cantidad).value <= MaxPurchase &&
      CompanyIdOf(t, caller.idUsu).Some?
    ensures !o.reply.IntentCreated? ==> o.after == t
    ensures (caller.rol == "Empresa" && QuantityOf(cantidad).Some? &&
             !(MinPurchase <= QuantityOf(cantidad).value <= MaxPurchase)) ==> o.reply == IntentBadQuantity
    ensures o.reply.IntentCreated? ==>
      var q := QuantityOf(cantidad).value;
      o.reply == IntentCreated(intent.clientSecret, monto, q) &&
      o.after == t.(transactions := t.transactions +
        [PurchaseRecord(newId, CompanyIdOf(t, caller.idUsu).value, q, QuantityText(cantidad), monto, intent, now)])
  {
    if caller.rol != "Empresa" then Outcome(IntentForbidden, t)
    else match QuantityOf(cantidad)
      case None => Outcome(IntentFailed, t)
      case Some(q) =>
        if q < MinPurchase || q > MaxPurchase then Outcome(IntentBadQuantity, t)
        else match CompanyIdOf(t, caller.idUsu)
          case None => Outcome(IntentNoCompany, t)
          case Some(emp) =>
            var x := PurchaseRecord(newId, emp, q, QuantityText(cantidad), monto, intent, now);
            Outcome(IntentCreated(intent.clientSecret, monto, q), t.(transactions := t.transactions + [x]))
  }

  method ServeCreatePaymentIntent(db: Database, caller: User, cantidad: Option<Json>, monto: int,
                                  intent: StripeIntent, newId: string, now: int) returns (reply: IntentReply)
    modifies db
    ensures Outcome(reply, db.Snapshot()) == CreatePaymentIntent(old(db.Snapshot()), caller, cantidad, monto, intent, newId, now)
  {
    if caller.rol != "Empresa" {
      return IntentForbidden;
    }
    var q := QuantityOf(cantidad);
    if q.None? {
      return IntentFailed;
    }
    if q.value < MinPurchase || q.value > MaxPurchase {
      return IntentBadQuantity;
    }
    var c := CompanyOfUser(db.companies, caller.idUsu);
    if c.None? {
      return IntentNoCompany;
    }
    var emp := db.companies[c.value].idEmp;
    db.transactions := db.transactions + [PurchaseRecord(newId, emp, q.value, QuantityText(cantidad), monto, intent, now)];
    reply := IntentCreated(intent.clientSecret, monto, q.value);
  }

  // ---------------------------------------------------------------------
  // POST /api/payment/confirm-payment/<payment_intent_id>

  datatype ConfirmReply =
    | ConfirmForbidden                     // 403
    | ConfirmNotSucceeded(status: string)  // 400
    | ConfirmNotFound                      // 404
    | ConfirmCredited                      // 200

  /** The company's balance with `q` more available tokens, if it has a balance row. */
  function Credit(bs: seq<Balance>, emp: string, q: int): (r: seq<Balance>)
    ensures |r| == |bs|
    ensures BalanceOf(bs, emp).None? ==> r == bs
    ensures BalanceOf(bs, emp).Some? ==>
      var i := BalanceOf(bs, emp).value;
      r == bs[i := bs[i].(disponibles := bs[i].disponibles + q)]
  {
    match BalanceOf(bs, emp)
    case None => bs
    case Some(i) => bs[i := bs[i].(disponibles := bs[i].disponibles + q)]
  }

  /** With Stripe reporting "succeeded", marks the first pending purchase of the
      intent "completado" and credits its quantity to its company's balance row,
      if that company has one. */
  function ConfirmPayment(t: Tables, caller: User, intentId: string, status: string): (o: Outcome<ConfirmReply>)
    ensures o.reply == ConfirmCredited <==>
      caller.rol == "Empresa" && status == "succeeded" && PendingTransactionOfIntent(t.transactions, intentId).Some?
    ensures o.reply != ConfirmCredited ==> o.after == t
    ensures caller.rol == "Empresa" && status != "succeeded" ==> o.reply == ConfirmNotSucceeded(status)
    ensures o.reply == ConfirmCredited ==>
      var i := PendingTransactionOfIntent(t.transactions, intentId).value;
      var x := t.transactions[i];
      o.after == t.(transactions := t.transactions[i := x.(estado := "completado")],
                    balances := Credit(t.balances, x.idEmp, x.cantidad))
  {
    if caller.rol != "Empresa" then Outcome(ConfirmForbidden, t)
    else if status != "succeeded" then Outcome(ConfirmNotSucceeded(status), t)
    else match PendingTransactionOfIntent(t.transactions, intentId)
      case None => Outcome(ConfirmNotFound, t)
      case Some(i) =>
        var x := t.transactions[i];
        Outcome(ConfirmCredited,
                t.(transactions := t.transactions[i := x.(estado := "completado")],
                   balances := Credit(t.balances, x.idEmp, x.cantidad)))
  }

  method ServeConfirmPayment(db: Database, caller: User, intentId: string, status: string) returns (reply: ConfirmReply)
    modifies db
    ensures Outcome(reply, db.Snapshot()) == ConfirmPayment(old(db.Snapshot()), caller, intentId, status)
  {
    if caller.rol != "Empresa" {
      return ConfirmForbidden;
    }
    if status != "succeeded" {
      return ConfirmNotSucceeded(status);
    }
    var found := PendingTransactionOfIntent(db.transactions, intentId);
    if found.None? {
      return ConfirmNotFound;
    }
    var i := found.value;
    var x := db.transactions[i];
    db.transactions := db.transactions[i := x.(estado := "completado")];
    var b := BalanceOf(db.balances, x.idEmp);
    if b.Some? {
      var j := b.value;
      db.balances := db.balances[j := db.balances[j].(disponibles := db.balances[j].disponibles + x.cantidad)];
    }
    reply := ConfirmCredited;
  }

  /** No two purchases share a Stripe intent id. */
  predicate IntentsUnique(ts: seq<Transaction>) {
    forall i, j :: 0 <= i < j < |ts| && ts[i].intentId.Some? ==> ts[i].intentId != ts[j].intentId
  }

  /** A new intent whose id Stripe has not issued before keeps intent ids unique. */
  lemma CreatePaymentIntentKeepsIntentsUnique(t: Tables, caller: User, cantidad: Option<Json>, monto: int,
                                              intent: StripeIntent, newId: string, now: int)
    requires IntentsUnique(t.transactions)
    requires forall k :: 0 <= k < |t.transactions| ==> t.transactions[k].intentId != Some(intent.id)
    ensures IntentsUnique(CreatePaymentIntent(t, caller, cantidad, monto, intent, newId, now).after.transactions)
  {
  }

  /** Confirmation credits a purchase at most once: confirming the same intent
      again finds no pending purchase, answers 404 and changes nothing. */
  lemma ConfirmPaymentCreditsOnce(t: Tables, caller: User, intentId: string, status: string)
    requires IntentsUnique(t.transactions)
    requires ConfirmPayment(t, caller, intentId, status).reply == ConfirmCredited
    ensures var t1 := ConfirmPayment(t, caller, intentId, status).after;
            ConfirmPayment(t1, caller, intentId, status) == Outcome(ConfirmNotFound, t1)
  {
    var i := PendingTransactionOfIntent(t.transactions, intentId).value;
    var t1 := ConfirmPayment(t, caller, intentId, status).after;
    forall k | 0 <= k < |t1.transactions|
      ensures !(t1.transactions[k].intentId == Some(intentId) && t1.transactions[k].estado == "pendiente")
    {
      if k != i {
        assert t1.transactions[k] == t.transactions[k];
        if k < i {
          assert t.transactions[k].intentId != t.transactions[i].intentId;
        } else {
          assert t.transactions[i].intentId != t.transactions[k].intentId;
        }
      }
    }
  }

  /** A confirmation credits exactly the purchased quantity to the available
      tokens of the purchase's company and leaves the used tokens alone. */
  lemma ConfirmPaymentCreditsQuantity(t: Tables, caller: User, intentId: string, status: string)
    requires ConfirmPayment(t, caller, intentId, status).reply == ConfirmCredited
    ensures var x := t.transactions[PendingTransactionOfIntent(t.transactions, intentId).value];
            var t1 := ConfirmPayment(t, caller, intentId, status).after;
            BalanceOf(t.balances, x.idEmp).Some? ==>
              var j := BalanceOf(t.balances, x.idEmp).value;
              BalanceOf(t1.balances, x.idEmp) == Some(j) &&
              t1.balances[j].disponibles == t.balances[j].disponibles + x.cantidad &&
              t1.balances[j].usados == t.balances[j].usados
  {
    var x := t.transactions[PendingTransactionOfIntent(t.transactions, intentId).value];
    var t1 := ConfirmPayment(t, caller, intentId, status).after;
    BalanceOfSameOwners(t.balances, t1.balances, x.idEmp);
  }

  /** Changing counters never changes which row `filter_by(id_emp=...)` finds. */
  lemma BalanceOfSameOwners(bs: seq<Balance>, cs: seq<Balance>, emp: string)
    requires |bs| == |cs| && forall k :: 0 <= k < |bs| ==> bs[k].idEmp == cs[k].idEmp
    ensures BalanceOf(bs, emp) == BalanceOf(cs, emp)
  {
  }

  // ---------------------------------------------------------------------
  // Webhook handlers (handle_successful_payment, handle_failed_payment)

  /** `int(metadata.get("cantidad_tokens", 0))`: absent, a parsed integer, or a
      value `int()` rejects (which aborts the handler). */
  datatype MetaQuantity = MetaAbsent | MetaInt(n: int) | MetaUnparsable

  /** Marks the first purchase of the intent "completada", whatever its state,
      and credits the metadata's quantity to the metadata's company, creating its
      balance row when it has none.  Nothing happens without a company id, with
      a quantity that is not positive, or without a matching purchase. */
  function HandleSuccessfulPayment(t: Tables, intentId: string, empresaId: Option<string>,
                                   cantidad: MetaQuantity, newBalanceId: string): (r: Tables)
    ensures (empresaId.None? || empresaId == Some("") || !cantidad.MetaInt? || cantidad.n <= 0) ==> r == t
    ensures TransactionOfIntent(t.transactions, intentId).None? ==> r == t
    ensures r.users == t.users && r.companies == t.companies && r.vacancies == t.vacancies
    ensures empresaId.Some? && empresaId.value != "" && cantidad.MetaInt? && cantidad.n > 0 &&
            TransactionOfIntent(t.transactions, intentId).Some? ==>
      var i := TransactionOfIntent(t.transactions, intentId).value;
      var emp := empresaId.value;
      var q := cantidad.n;
      r == t.(transactions := t.transactions[i := t.transactions[i].(estado := "completada")],
              balances := if BalanceOf(t.balances, emp).Some? then Credit(t.balances, emp, q)
                          else t.balances + [Balance(newBalanceId, emp, q, 0)])
  {
    if empresaId.None? || empresaId.value == "" then t
    else match cantidad
      case MetaAbsent => t
      case MetaUnparsable => t
      case MetaInt(q) =>
        if q <= 0 then t
        else match TransactionOfIntent(t.transactions, intentId)
          case None => t
          case Some(i) =>
            var emp := empresaId.value;
            var ts := t.transactions[i := t.transactions[i].(estado := "completada")];
            var bs := if BalanceOf(t.balances, emp).Some? then Credit(t.balances, emp, q)
                      else t.balances + [Balance(newBalanceId, emp, q, 0)];
            t.(transactions := ts, balances := bs)
  }

  method ServeSuccessfulPayment(db: Database, intentId: string, empresaId: Option<string>,
                                cantidad: MetaQuantity, newBalanceId: string)
    modifies db
    ensures db.Snapshot() == HandleSuccessfulPayment(old(db.Snapshot()), intentId, empresaId, cantidad, newBalanceId)
  {
    if empresaId.None? || empresaId.value == "" || !cantidad.MetaInt? || cantidad.n <= 0 {
      return;
    }
    var found := TransactionOfIntent(db.transactions, intentId);
    if found.None? {
      return;
    }
    var i := found.value;
    db.transactions := db.transactions[i := db.transactions[i].(estado := "completada")];
    var emp := empresaId.value;
    var b := BalanceOf(db.balances, emp);
    if b.Some? {
      var j := b.value;
      db.balances := db.balances[j := db.balances[j].(disponibles := db.balances[j].disponibles + cantidad.n)];
    } else {
      db.balances := db.balances + [Balance(newBalanceId, emp, cantidad.n, 0)];
    }
  }

  /** Marks the first purchase of the intent "fallida"; balances are untouched. */
  function HandleFailedPayment(t: Tables, intentId: string): (r: Tables)
    ensures r.balances == t.balances
    ensures |r.transactions| == |t.transactions|
    ensures TransactionOfIntent(t.transactions, intentId).None? ==> r == t
    ensures TransactionOfIntent(t.transactions, intentId).Some? ==>
      var i := TransactionOfIntent(t.transactions, intentId).value;
      r.transactions[i] == t.transactions[i].(estado := "fallida") &&
      (forall k :: 0 <= k < |t.transactions| && k != i ==> r.transactions[k] == t.transactions[k]) &&
      r == t.(transactions := r.transactions)
  {
    match TransactionOfIntent(t.transactions, intentId)
    case None => t
    case Some(i) => t.(transactions := t.transactions[i := t.transactions[i].(estado := "fallida")])
  }

  method ServeFailedPayment(db: Database, intentId: string)
    modifies db
    ensures db.Snapshot() == HandleFailedPayment(old(db.Snapshot()), intentId)
  {
    var found := TransactionOfIntent(db.transactions, intentId);
    if found.Some? {
      var i := found.value;
      db.transactions := db.transactions[i := db.transactions[i].(estado := "fallida")];
    }
  }

  /** The events the webhook dispatches on; any other event type is ignored. */
  datatype StripeEvent =
    | IntentSucceeded(intentId: string, empresaId: Option<string>, cantidad: MetaQuantity)
    | IntentPaymentFailed(intentId: string)
    | OtherEvent

  function Webhook(t: Tables, ev: StripeEvent, newBalanceId: string): (r: Tables)
    ensures ev.OtherEvent? ==> r == t
    ensures ev.IntentPaymentFailed? ==> r.balances == t.balances
  {
    match ev
    case IntentSucceeded(intentId, emp, q) => HandleSuccessfulPayment(t, intentId, emp, q, newBalanceId)
    case IntentPaymentFailed(intentId) => HandleFailedPayment(t, intentId)
    case OtherEvent => t
  }

  /** The total available tokens of a company over all its balance rows. */
  function Available(bs: seq<Balance>, emp: string): int {
    if bs == [] then 0
    else (if bs[|bs| - 1].idEmp == emp then bs[|bs| - 1].disponibles else 0) + Available(bs[..|bs| - 1], emp)
  }

  lemma {:induction false} AvailableAppend(bs: seq<Balance>, b: Balance, emp: string)
    ensures Available(bs + [b], emp) == Available(bs, emp) + (if b.idEmp == emp then b.disponibles else 0)
  {
    assert (bs + [b])[..|bs|] == bs;
  }

  lemma {:induction false} AvailableUpdate(bs: seq<Balance>, i: nat, v: int, emp: string)
    requires i < |bs|
    ensures Available(bs[i := bs[i].(disponibles := v)], emp) ==
            Available(bs, emp) + (if bs[i].idEmp == emp then v - bs[i].disponibles else 0)
    decreases |bs|
  {
    var cs := bs[i := bs[i].(disponibles := v)];
    if i < |bs| - 1 {
      assert cs[..|cs| - 1] == bs[..|bs| - 1][i := bs[i].(disponibles := v)];
      AvailableUpdate(bs[..|bs| - 1], i, v, emp);
    } else {
      assert cs[..|cs| - 1] == bs[..|bs| - 1];
    }
  }

  /** The success handler has no "already completed" guard: every delivery of
      the same succeeded event credits the company again. */
  lemma WebhookCreditsEveryDelivery(t: Tables, intentId: string, emp: string, q: int, id1: string, id2: string)
    requires emp != "" && q > 0
    requires TransactionOfIntent(t.transactions, intentId).Some?
    ensures var ev := IntentSucceeded(intentId, Some(emp), MetaInt(q));
            var t1 := Webhook(t, ev, id1);
            var t2 := Webhook(t1, ev, id2);
            Available(t2.balances, emp) == Available(t.balances, emp) + 2 * q
  {
    var ev := IntentSucceeded(intentId, Some(emp), MetaInt(q));
    var t1 := Webhook(t, ev, id1);
    SuccessfulPaymentCredits(t, intentId, emp, q, id1);
    assert TransactionOfIntent(t1.transactions, intentId).Some? by {
      var i := TransactionOfIntent(t.transactions, intentId).value;
      assert t1.transactions[i].intentId == Some(intentId);
    }
    SuccessfulPaymentCredits(t1, intentId, emp, q, id2);
  }

  /** One delivery of a succeeded event credits its quantity once. */
  lemma SuccessfulPaymentCredits(t: Tables, intentId: string, emp: string, q: int, newId: string)
    requires emp != "" && q > 0
    requires TransactionOfIntent(t.transactions, intentId).Some?
    ensures Available(HandleSuccessfulPayment(t, intentId, Some(emp), MetaInt(q), newId).balances, emp) ==
            Available(t.balances, emp) + q
  {
    var bs := HandleSuccessfulPayment(t, intentId, Some(emp), MetaInt(q), newId).balances;
    match BalanceOf(t.balances, emp)
    case Some(j) =>
      assert bs == t.balances[j := t.balances[j].(disponibles := t.balances[j].disponibles + q)];
      AvailableUpdate(t.balances, j, t.balances[j].disponibles + q, emp);
    case None =>
      assert bs == t.balances + [Balance(newId, emp, q, 0)];
      AvailableAppend(t.balances, Balance(newId, emp, q, 0), emp);
  }

  // ---------------------------------------------------------------------
  // GET /api/payment/transaction-history

  /** Newest first. */
  predicate NewestFirst(s: seq<Transaction>) {
    forall i, j :: 0 <= i < j < |s| ==> s[i].fecha >= s[j].fecha
  }

  function InsertByDate(x: Transaction, s: seq<Transaction>): (r: seq<Transaction>)
    requires NewestFirst(s)
    ensures NewestFirst(r)
    ensures |r| == |s| + 1
    ensures r[0] == x || (s != [] && r[0] == s[0])
    ensures multiset(r) == multiset(s) + multiset{x}
  {
    if s == [] || s[0].fecha <= x.fecha then
      PrependKeepsNewestFirst(x, s);
      [x] + s
    else
      var rest := InsertByDate(x, s[1..]);
      assert s == [s[0]] + s[1..];
      assert rest[0].fecha <= s[0].fecha;
      PrependKeepsNewestFirst(s[0], rest);
      [s[0]] + rest
  }

  /** A transaction no older than the head of a newest-first list can go in front. */
  lemma PrependKeepsNewestFirst(y: Transaction, s: seq<Transaction>)
    requires NewestFirst(s)
    requires s == [] || s[0].fecha <= y.fecha
    ensures NewestFirst([y] + s)
  {
    var r := [y] + s;
    forall i, j | 0 <= i < j < |r|
      ensures r[i].fecha >= r[j].fecha
    {
      assert r[j] == s[j - 1];
      if i > 0 {
        assert r[i] == s[i - 1];
      } else if j > 1 {
        assert s[0].fecha >= s[j - 1].fecha;
      }
    }
  }

  /** `ORDER BY fecha_transaccion DESC` (ties in insertion order). */
  function SortNewestFirst(s: seq<Transaction>): (r: seq<Transaction>)
    ensures NewestFirst(r)
    ensures multiset(r) == multiset(s)
  {
    if s == [] then []
    else
      assert s == [s[0]] + s[1..];
      InsertByDate(s[0], SortNewestFirst(s[1..]))
  }

  function OfCompany(ts: seq<Transaction>, emp: string): (r: seq<Transaction>)
    ensures forall x :: x in r <==> x in ts && x.idEmp == emp
  {
    Filter(ts, (x: Transaction) => x.idEmp == emp)
  }

  datatype HistoryReply =
    | HistoryForbidden                        // 403
    | HistoryNoCompany                        // 404
    | History(transacciones: seq<Transaction>)   // 200

  /** The caller's company's transactions, newest first, at most 50. */
  function TransactionHistory(t: Tables, caller: User): (r: HistoryReply)
    ensures r.History? <==> caller.rol == "Empresa" && CompanyIdOf(t, caller.idUsu).Some?
    ensures r.History? ==>
      var mine := OfCompany(t.transactions, CompanyIdOf(t, caller.idUsu).value);
      |r.transacciones| == (if |mine| <= HistoryLimit then |mine| else HistoryLimit) &&
      NewestFirst(r.transacciones) &&
      multiset(r.transacciones) <= multiset(mine)
  {
    if caller.rol != "Empresa" then HistoryForbidden
    else match CompanyIdOf(t, caller.idUsu)
      case None => HistoryNoCompany
      case Some(emp) =>
        var sorted := SortNewestFirst(OfCompany(t.transactions, emp));
        assert |sorted| == |multiset(sorted)|;
        var page := if |sorted| <= HistoryLimit then sorted else sorted[..HistoryLimit];
        assert sorted == page + sorted[|page|..];
        History(page)
  }

  /** A prefix of a newest-first list is no older than anything it leaves out. */
  lemma OmittedIsOlder(sorted: seq<Transaction>, page: seq<Transaction>, x: Transaction)
    requires NewestFirst(sorted) && page <= sorted
    requires x in sorted && x !in page
    ensures forall k :: 0 <= k < |page| ==> page[k].fecha >= x.fecha
  {
    var m :| 0 <= m < |sorted| && sorted[m] == x;
    assert m >= |page|;
    forall k | 0 <= k < |page|
      ensures page[k].fecha >= x.fecha
    {
      assert page[k] == sorted[k];
    }
  }

  /** The history leaves out only transactions no newer than every one it shows. */
  lemma HistoryShowsNewest(t: Tables, caller: User, x: Transaction)
    requires TransactionHistory(t, caller).History?
    requires x in OfCompany(t.transactions, CompanyIdOf(t, caller.idUsu).value)
    requires x !in TransactionHistory(t, caller).transacciones
    ensures forall k :: 0 <= k < |TransactionHistory(t, caller).transacciones| ==>
              TransactionHistory(t, caller).transacciones[k].fecha >= x.fecha
  {
    var emp := CompanyIdOf(t, caller.idUsu).value;
    var mine := OfCompany(t.transactions, emp);
    var sorted := SortNewestFirst(mine);
    var page := if |sorted| <= HistoryLimit then sorted else sorted[..HistoryLimit];
    assert TransactionHistory(t, caller).transacciones == page;
    assert x in multiset(mine);
    assert x in sorted by {
      assert x in multiset(sorted);
    }
    OmittedIsOlder(sorted, page, x);
  }
}
