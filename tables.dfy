/** The rows of the server's database tables as the routes read and write them,
    the database as one mutable object, and the `filter_by(...).first()` lookups
    the routes share.  Every table is a sequence in insertion order, so `.first()`
    is the first matching row. */
module Store {
  import opened Wrappers
  import opened Seqs

  /** USUARIO: `rol` is "Empresa" or "FreeLancer"; `passwordHash` is opaque. */
  datatype User = User(idUsu: string, nombre: string, correo: string, passwordHash: string, rol: string)

  /** FREELANCER, with the CV and avatar paths the profile routes store. */
  datatype Freelancer = Freelancer(
    idFree: string, idUsu: string, idCiud: string, profesion: string,
    experiencia: string, hojaVida: Option<string>, avatar: Option<string>)

  /** EMPRESA, with the logo file name the profile route stores. */
  datatype Company = Company(
    idEmp: string, idUsu: string, idCiud: string, nit: string, tamano: string,
    descEmp: string, logo: Option<string>)

  /** VACANTE; `salario` is the submitted value, kept as text. */
  datatype Vacancy = Vacancy(
    idVac: string, idEmp: string, nombre: string, descripcion: string, requisitos: string,
    salario: Option<string>, duracion: string, estado: string)

  /** postulacion: `estado` is "pendiente", "aceptada" or "rechazada". */
  datatype Application = Application(idPost: string, idFree: string, idVac: string, estado: string)

  /** CALIFICACION. */
  datatype Rating = Rating(
    idCalif: string, idPost: string, idEmp: string, idFree: string, puntuacion: int, comentario: string)

  /** TOKEN_BALANCE. */
  datatype Balance = Balance(idBalance: string, idEmp: string, disponibles: int, usados: int)

  /** TRANSACCION; `fecha` is the insertion time, `monto` is in COP. */
  datatype Transaction = Transaction(
    idTrans: string, idEmp: string, tipo: string, cantidad: int, monto: Option<int>,
    intentId: Option<string>, estado: string, descripcion: string, fecha: int)

  /** password_reset_tokens; `expiresAt` is in microseconds, like every server time. */
  datatype ResetToken = ResetToken(idReset: string, email: string, token: string, expiresAt: int, used: bool)

  datatype Tables = Tables(
    users: seq<User>,
    freelancers: seq<Freelancer>,
    companies: seq<Company>,
    vacancies: seq<Vacancy>,
    applications: seq<Application>,
    ratings: seq<Rating>,
    balances: seq<Balance>,
    transactions: seq<Transaction>,
    resetTokens: seq<ResetToken>)

  /** What a route returns and the tables it leaves behind (the committed state,
      or the state before the request on every path that returns early or rolls back). */
  datatype Outcome<R> = Outcome(reply: R, after: Tables)

  /** A JSON request value, as far as the routes look at it. */
  datatype Json = JNull | JBool(b: bool) | JInt(i: int) | JString(s: string)

  /** The database session: one field per table, reassigned by the routes. */
  class Database {
    var users: seq<User>
    var freelancers: seq<Freelancer>
    var companies: seq<Company>
    var vacancies: seq<Vacancy>
    var applications: seq<Application>
    var ratings: seq<Rating>
    var balances: seq<Balance>
    var transactions: seq<Transaction>
    var resetTokens: seq<ResetToken>

    function Snapshot(): Tables
      reads this
    {
      Tables(users, freelancers, companies, vacancies, applications, ratings,
             balances, transactions, resetTokens)
    }

    constructor (t: Tables)
      ensures Snapshot() == t
    {
      users, freelancers, companies := t.users, t.freelancers, t.companies;
      vacancies, applications, ratings := t.vacancies, t.applications, t.ratings;
      balances, transactions, resetTokens := t.balances, t.transactions, t.resetTokens;
    }
  }

  // ---------------------------------------------------------------------
  // `Model.query.filter_by(column=value).first()`, one per column the routes use.

  function CompanyOfUser(cs: seq<Company>, idUsu: string): (r: Option<nat>)
    ensures r.Some? ==> r.value < |cs| && cs[r.value].idUsu == idUsu
    ensures r.Some? ==> forall j :: 0 <= j < r.value ==> cs[j].idUsu != idUsu
    ensures r.None? <==> forall j :: 0 <= j < |cs| ==> cs[j].idUsu != idUsu
  {
    FindFirst(cs, (c: Company) => c.idUsu == idUsu)
  }

  function CompanyById(cs: seq<Company>, idEmp: string): (r: Option<nat>)
    ensures r.Some? ==> r.value < |cs| && cs[r.value].idEmp == idEmp
    ensures r.Some? ==> forall j :: 0 <= j < r.value ==> cs[j].idEmp != idEmp
    ensures r.None? <==> forall j :: 0 <= j < |cs| ==> cs[j].idEmp != idEmp
  {
    FindFirst(cs, (c: Company) => c.idEmp == idEmp)
  }

  function FreelancerOfUser(fs: seq<Freelancer>, idUsu: string): (r: Option<nat>)
    ensures r.Some? ==> r.value < |fs| && fs[r.value].idUsu == idUsu
    ensures r.None? <==> forall j :: 0 <= j < |fs| ==> fs[j].idUsu != idUsu
  {
    FindFirst(fs, (f: Freelancer) => f.idUsu == idUsu)
  }

  function FreelancerById(fs: seq<Freelancer>, idFree: string): (r: Option<nat>)
    ensures r.Some? ==> r.value < |fs| && fs[r.value].idFree == idFree
    ensures r.Some? ==> forall j :: 0 <= j < r.value ==> fs[j].idFree != idFree
    ensures r.None? <==> forall j :: 0 <= j < |fs| ==> fs[j].idFree != idFree
  {
    FindFirst(fs, (f: Freelancer) => f.idFree == idFree)
  }

  function VacancyById(vs: seq<Vacancy>, idVac: string): (r: Option<nat>)
    ensures r.Some? ==> r.value < |vs| && vs[r.value].idVac == idVac
    ensures r.None? <==> forall j :: 0 <= j < |vs| ==> vs[j].idVac != idVac
  {
    FindFirst(vs, (v: Vacancy) => v.idVac == idVac)
  }

  function ApplicationById(aps: seq<Application>, idPost: string): (r: Option<nat>)
    ensures r.Some? ==> r.value < |aps| && aps[r.value].idPost == idPost
    ensures r.None? <==> forall j :: 0 <= j < |aps| ==> aps[j].idPost != idPost
  {
    FindFirst(aps, (a: Application) => a.idPost == idPost)
  }

  function ApplicationOfPair(aps: seq<Application>, idFree: string, idVac: string): (r: Option<nat>)
    ensures r.Some? ==> r.value < |aps| && aps[r.value].idFree == idFree && aps[r.value].idVac == idVac
    ensures r.None? <==> forall j :: 0 <= j < |aps| ==> !(aps[j].idFree == idFree && aps[j].idVac == idVac)
  {
    FindFirst(aps, (a: Application) => a.idFree == idFree && a.idVac == idVac)
  }

  function RatingOfApplication(rs: seq<Rating>, idPost: string): (r: Option<nat>)
    ensures r.Some? ==> r.value < |rs| && rs[r.value].idPost == idPost
    ensures r.None? <==> forall j :: 0 <= j < |rs| ==> rs[j].idPost != idPost
  {
    FindFirst(rs, (c: Rating) => c.idPost == idPost)
  }

  function BalanceOf(bs: seq<Balance>, idEmp: string): (r: Option<nat>)
    ensures r.Some? ==> r.value < |bs| && bs[r.value].idEmp == idEmp
    ensures r.Some? ==> forall j :: 0 <= j < r.value ==> bs[j].idEmp != idEmp
    ensures r.None? <==> forall j :: 0 <= j < |bs| ==> bs[j].idEmp != idEmp
  {
    FindFirst(bs, (b: Balance) => b.idEmp == idEmp)
  }

  function TransactionOfIntent(ts: seq<Transaction>, intent: string): (r: Option<nat>)
    ensures r.Some? ==> r.value < |ts| && ts[r.value].intentId == Some(intent)
    ensures r.None? <==> forall j :: 0 <= j < |ts| ==> ts[j].intentId != Some(intent)
  {
    FindFirst(ts, (x: Transaction) => x.intentId == Some(intent))
  }

  function PendingTransactionOfIntent(ts: seq<Transaction>, intent: string): (r: Option<nat>)
    ensures r.Some? ==> r.value < |ts| && ts[r.value].intentId == Some(intent) && ts[r.value].estado == "pendiente"
    ensures r.None? <==> forall j :: 0 <= j < |ts| ==> !(ts[j].intentId == Some(intent) && ts[j].estado == "pendiente")
  {
    FindFirst(ts, (x: Transaction) => x.intentId == Some(intent) && x.estado == "pendiente")
  }

  function UserByEmail(us: seq<User>, correo: string): (r: Option<nat>)
    ensures r.Some? ==> r.value < |us| && us[r.value].correo == correo
    ensures r.None? <==> forall j :: 0 <= j < |us| ==> us[j].correo != correo
  {
    FindFirst(us, (u: User) => u.correo == correo)
  }

  function ResetTokenByValue(rs: seq<ResetToken>, token: string): (r: Option<nat>)
    ensures r.Some? ==> r.value < |rs| && rs[r.value].token == token
    ensures r.None? <==> forall j :: 0 <= j < |rs| ==> rs[j].token != token
  {
    FindFirst(rs, (x: ResetToken) => x.token == token)
  }
}
