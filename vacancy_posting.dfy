/** Publishing a vacancy costs one token: the route checks the caller's balance,
    inserts the vacancy, moves one token from available to used and records a
    "uso" transaction, all in one commit. */
module VacancyPosting {
  import opened Wrappers
  import opened Store
  import opened TokenLedger

  /** The JSON body of the request; `None` is an absent key. */
  datatype VacancyRequest = VacancyRequest(
    nombre: Option<string>, descripcion: Option<string>, requisitos: Option<string>,
    salario: Option<string>, duracion: Option<string>)

  datatype PostReply =
    | PostForbidden                                   // 403
    | PostNoCompany                                   // 404
    | PostNoTokens(tokensDisponibles: int)            // 402
    | PostFailed                                      // 500: a required key is missing, rolled back
    | PostCreated(idVac: string, nombre: string, tokensRestantes: int)   // 201

  const DefaultDuration: string := "No especificado"

  /** The vacancy the route inserts: open, with the duration defaulted. */
  function NewVacancy(id: string, emp: string, req: VacancyRequest): (v: Vacancy)
    requires req.nombre.Some? && req.descripcion.Some? && req.requisitos.Some?
    ensures v.estado == "abierta" && v.idVac == id && v.idEmp == emp && v.nombre == req.nombre.value
    ensures v.duracion == (if req.duracion.Some? then req.duracion.value else DefaultDuration)
  {
    Vacancy(id, emp, req.nombre.value, req.descripcion.value, req.requisitos.value,
            req.salario, req.duracion.GetOr(DefaultDuration), "abierta")
  }

  /** The "uso" transaction recorded with a published vacancy. */
  function UsageRecord(id: string, emp: string, nombre: string, now: int): (x: Transaction)
    ensures x.tipo == "uso" && x.cantidad == 1 && x.estado == "completada" && x.intentId.None?
  {
    Transaction(id, emp, "uso", 1, None, None, "completada", "Publicación de vacante: " + nombre, now)
  }

  /** The company has a balance row with at least one available token. */
  predicate HasToken(t: Tables, emp: string) {
    BalanceOf(t.balances, emp).Some? && t.balances[BalanceOf(t.balances, emp).value].disponibles >= 1
  }

  /** The keys the insert reads without a default are all present. */
  predicate RequiredKeys(req: VacancyRequest) {
    req.nombre.Some? && req.descripcion.Some? && req.requisitos.Some?
  }

  /** Guards in order: role (403), company profile (404), a balance row with at
      least one available token (402, reporting 0 when there is no row), the
      required keys (500); then the vacancy, the debit and the usage record. */
  function CreateVacancy(t: Tables, caller: User, req: VacancyRequest,
                         newVacId: string, newTransId: string, now: int): (o: Outcome<PostReply>)
    ensures !o.reply.PostCreated? ==> o.after == t
    ensures caller.rol != "Empresa" ==> o.reply == PostForbidden
    ensures caller.rol == "Empresa" && CompanyIdOf(t, caller.idUsu).None? ==> o.reply == PostNoCompany
    ensures o.reply.PostNoTokens? ==>
      var emp := CompanyIdOf(t, caller.idUsu).value;
      match BalanceOf(t.balances, emp)
      case None => o.reply.tokensDisponibles == 0
      case Some(i) => o.reply.tokensDisponibles == t.balances[i].disponibles < 1
    ensures caller.rol == "Empresa" && CompanyIdOf(t, caller.idUsu).Some? ==>
      var emp := CompanyIdOf(t, caller.idUsu).value;
      (o.reply.PostNoTokens? <==> !HasToken(t, emp)) &&
      (HasToken(t, emp) && !RequiredKeys(req) ==> o.reply == PostFailed) &&
      (HasToken(t, emp) && RequiredKeys(req) ==> o.reply.PostCreated?)
    ensures o.reply.PostCreated? ==> caller.rol == "Empresa" && CompanyIdOf(t, caller.idUsu).Some?
  {
    if caller.rol != "Empresa" then Outcome(PostForbidden, t)
    else match CompanyIdOf(t, caller.idUsu)
      case None => Outcome(PostNoCompany, t)
      case Some(emp) =>
        match BalanceOf(t.balances, emp)
        case None => Outcome(PostNoTokens(0), t)
        case Some(i) =>
          var b := t.balances[i];
          if b.disponibles < 1 then Outcome(PostNoTokens(b.disponibles), t)
          else if req.nombre.None? || req.descripcion.None? || req.requisitos.None? then Outcome(PostFailed, t)
          else
            var b' := b.(disponibles := b.disponibles - 1, usados := b.usados + 1);
            Outcome(PostCreated(newVacId, req.nombre.value, b'.disponibles),
                    t.(vacancies := t.vacancies + [NewVacancy(newVacId, emp, req)],
                       balances := t.balances[i := b'],
                       transactions := t.transactions + [UsageRecord(newTransId, emp, req.nombre.value, now)]))
  }

  /** A publication that goes through required a balance row with a token and
      the three required keys; it moves one token from available to used,
      appends the open vacancy and its usage record, and touches no other table. */
  lemma CreateVacancyEffect(t: Tables, caller: User, req: VacancyRequest,
                            newVacId: string, newTransId: string, now: int)
    requires CreateVacancy(t, caller, req, newVacId, newTransId, now).reply.PostCreated?
    ensures var o := CreateVacancy(t, caller, req, newVacId, newTransId, now);
      caller.rol == "Empresa" && CompanyIdOf(t, caller.idUsu).Some? &&
      var emp := CompanyIdOf(t, caller.idUsu).value;
      BalanceOf(t.balances, emp).Some? &&
      var i := BalanceOf(t.balances, emp).value;
      var b := t.balances[i];
      b.disponibles >= 1 &&
      req.nombre.Some? && req.descripcion.Some? && req.requisitos.Some? &&
      o.after == t.(balances := t.balances[i := b.(disponibles := b.disponibles - 1, usados := b.usados + 1)],
                    vacancies := t.vacancies + [NewVacancy(newVacId, emp, req)],
                    transactions := t.transactions + [UsageRecord(newTransId, emp, req.nombre.value, now)]) &&
      o.reply == PostCreated(newVacId, req.nombre.value, b.disponibles - 1)
  {
  }

  method ServeCreateVacancy(db: Database, caller: User, req: VacancyRequest,
                            newVacId: string, newTransId: string, now: int) returns (reply: PostReply)
    modifies db
    ensures Outcome(reply, db.Snapshot()) == CreateVacancy(old(db.Snapshot()), caller, req, newVacId, newTransId, now)
  {
    ghost var t0 := db.Snapshot();
    if caller.rol != "Empresa" {
      return PostForbidden;
    }
    var c := CompanyOfUser(db.companies, caller.idUsu);
    if c.None? {
      return PostNoCompany;
    }
    var emp := db.companies[c.value].idEmp;
    assert CompanyIdOf(t0, caller.idUsu) == Some(emp);
    var found := BalanceOf(db.balances, emp);
    if found.None? {
      return PostNoTokens(0);
    }
    var i := found.value;
    if db.balances[i].disponibles < 1 {
      return PostNoTokens(db.balances[i].disponibles);
    }
    if req.nombre.None? || req.descripcion.None? || req.requisitos.None? {
      return PostFailed;
    }
    var v := NewVacancy(newVacId, emp, req);
    var b := db.balances[i];
    db.balances := db.balances[i := b.(disponibles := b.disponibles - 1)];
    db.balances := db.balances[i := db.balances[i].(usados := b.usados + 1)];
    var x := UsageRecord(newTransId, emp, req.nombre.value, now);
    db.vacancies := db.vacancies + [v];
    db.transactions := db.transactions + [x];
    assert db.Snapshot() == t0.(balances := t0.balances[i := b.(disponibles := b.disponibles - 1, usados := b.usados + 1)],
                                vacancies := t0.vacancies + [v], transactions := t0.transactions + [x]);
    reply := PostCreated(v.idVac, v.nombre, db.balances[i].disponibles);
  }

  /** Publishing moves exactly one token from available to used: the company's
      total is preserved and its available count does not go negative. */
  lemma CreateVacancyMovesOneToken(t: Tables, caller: User, req: VacancyRequest,
                                   newVacId: string, newTransId: string, now: int)
    requires CreateVacancy(t, caller, req, newVacId, newTransId, now).reply.PostCreated?
    ensures var emp := CompanyIdOf(t, caller.idUsu).value;
            var t1 := CreateVacancy(t, caller, req, newVacId, newTransId, now).after;
            var i := BalanceOf(t.balances, emp).value;
            BalanceOf(t1.balances, emp) == Some(i) &&
            t1.balances[i].disponibles + t1.balances[i].usados == t.balances[i].disponibles + t.balances[i].usados &&
            t1.balances[i].disponibles == t.balances[i].disponibles - 1 >= 0 &&
            CreateVacancy(t, caller, req, newVacId, newTransId, now).reply.tokensRestantes == t1.balances[i].disponibles
  {
    var emp := CompanyIdOf(t, caller.idUsu).value;
    var t1 := CreateVacancy(t, caller, req, newVacId, newTransId, now).after;
    BalanceOfSameOwners(t.balances, t1.balances, emp);
  }

  /** Publishing never creates a balance row: without the balance query's
      starter grant a company cannot publish. */
  lemma CreateVacancyNeedsBalanceRow(t: Tables, caller: User, req: VacancyRequest,
                                     newVacId: string, newTransId: string, now: int)
    requires caller.rol == "Empresa" && CompanyIdOf(t, caller.idUsu).Some?
    requires BalanceOf(t.balances, CompanyIdOf(t, caller.idUsu).value).None?
    ensures CreateVacancy(t, caller, req, newVacId, newTransId, now) == Outcome(PostNoTokens(0), t)
  {
  }
}

/** The ledger's well-formedness across every operation that touches it. */
module LedgerInvariant {
  import opened Wrappers
  import opened Store
  import opened TokenLedger
  import opened VacancyPosting

  /** No counter is negative and every recorded quantity is positive. */
  predicate LedgerWellFormed(t: Tables) {
    (forall i :: 0 <= i < |t.balances| ==> t.balances[i].disponibles >= 0 && t.balances[i].usados >= 0) &&
    (forall i :: 0 <= i < |t.transactions| ==> t.transactions[i].cantidad >= 1)
  }

  /** One request against the ledger, with its inputs. */
  datatype LedgerOp =
    | QueryBalance(caller: User, newId: string)
    | BuyTokens(caller: User, cantidad: Option<Json>, monto: int, intent: StripeIntent, newId: string, now: int)
    | Confirm(caller: User, intentId: string, status: string)
    | Deliver(ev: StripeEvent, newId: string)
    | Publish(caller: User, req: VacancyRequest, newVacId: string, newTransId: string, now: int)

  function Apply(t: Tables, op: LedgerOp): Tables {
    match op
    case QueryBalance(caller, newId) => GetTokenBalance(t, caller, newId).after
    case BuyTokens(caller, q, monto, intent, newId, now) => CreatePaymentIntent(t, caller, q, monto, intent, newId, now).after
    case Confirm(caller, intentId, status) => ConfirmPayment(t, caller, intentId, status).after
    case Deliver(ev, newId) => Webhook(t, ev, newId)
    case Publish(caller, req, vid, tid, now) => CreateVacancy(t, caller, req, vid, tid, now).after
  }

  function ApplyAll(t: Tables, ops: seq<LedgerOp>): Tables
    decreases |ops|
  {
    if ops == [] then t else ApplyAll(Apply(t, ops[0]), ops[1..])
  }

  lemma BalanceQueryKeepsLedgerWellFormed(t: Tables, caller: User, newId: string)
    requires LedgerWellFormed(t)
    ensures LedgerWellFormed(GetTokenBalance(t, caller, newId).after)
  {
  }

  lemma PurchaseKeepsLedgerWellFormed(t: Tables, caller: User, q: Option<Json>, monto: int,
                                      intent: StripeIntent, newId: string, now: int)
    requires LedgerWellFormed(t)
    ensures LedgerWellFormed(CreatePaymentIntent(t, caller, q, monto, intent, newId, now).after)
  {
  }

  lemma ConfirmKeepsLedgerWellFormed(t: Tables, caller: User, intentId: string, status: string)
    requires LedgerWellFormed(t)
    ensures LedgerWellFormed(ConfirmPayment(t, caller, intentId, status).after)
  {
    var o := ConfirmPayment(t, caller, intentId, status);
    if o.reply == ConfirmCredited {
      var x := t.transactions[PendingTransactionOfIntent(t.transactions, intentId).value];
      assert x.cantidad >= 1;
    }
  }

  lemma DeliveryKeepsLedgerWellFormed(t: Tables, ev: StripeEvent, newId: string)
    requires LedgerWellFormed(t)
    ensures LedgerWellFormed(Webhook(t, ev, newId))
  {
  }

  lemma PublicationKeepsLedgerWellFormed(t: Tables, caller: User, req: VacancyRequest,
                                         vid: string, tid: string, now: int)
    requires LedgerWellFormed(t)
    ensures LedgerWellFormed(CreateVacancy(t, caller, req, vid, tid, now).after)
  {
  }

  lemma ApplyKeepsLedgerWellFormed(t: Tables, op: LedgerOp)
    requires LedgerWellFormed(t)
    ensures LedgerWellFormed(Apply(t, op))
  {
    match op
    case QueryBalance(caller, newId) => BalanceQueryKeepsLedgerWellFormed(t, caller, newId);
    case BuyTokens(caller, q, monto, intent, newId, now) => PurchaseKeepsLedgerWellFormed(t, caller, q, monto, intent, newId, now);
    case Confirm(caller, intentId, status) => ConfirmKeepsLedgerWellFormed(t, caller, intentId, status);
    case Deliver(ev, newId) => DeliveryKeepsLedgerWellFormed(t, ev, newId);
    case Publish(caller, req, vid, tid, now) => PublicationKeepsLedgerWellFormed(t, caller, req, vid, tid, now);
  }

  /** From a well-formed ledger, any sequence of requests keeps every counter
      non-negative and every recorded quantity positive. */
  lemma {:induction false} ApplyAllKeepsLedgerWellFormed(t: Tables, ops: seq<LedgerOp>)
    requires LedgerWellFormed(t)
    ensures LedgerWellFormed(ApplyAll(t, ops))
    decreases |ops|
  {
    if ops != [] {
      ApplyKeepsLedgerWellFormed(t, ops[0]);
      ApplyAllKeepsLedgerWellFormed(Apply(t, ops[0]), ops[1..]);
    }
  }
}
