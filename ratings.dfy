/** Company ratings of freelancers: rating an accepted application once, the
    average shown on a freelancer's profile, the "may I rate" probe and the list
    of freelancers a company has worked with. */
module Ratings {
  import opened Wrappers
  import opened Seqs
  import opened Text
  import opened Store
  import opened TokenLedger

  const MinScore: int := 1
  const MaxScore: int := 5

  /** Python truthiness of a JSON value. */
  predicate Truthy(v: Option<Json>) {
    match v
    case None => false
    case Some(JNull) => false
    case Some(JBool(b)) => b
    case Some(JInt(i)) => i != 0
    case Some(JString(s)) => s != ""
  }

  /** The score check as written: a truthy value that `isinstance(_, int)`
      accepts and that lies in 1..5.  Python's `bool` is a subclass of `int`,
      so JSON `true` passes as the score 1. */
  function ScoreAsWritten(v: Option<Json>): (r: Option<int>)
    requires Truthy(v)
    ensures r.Some? ==> MinScore <= r.value <= MaxScore
  {
    match v
    case Some(JInt(i)) => if MinScore <= i <= MaxScore then Some(i) else None
    case Some(JBool(b)) => if b then Some(1) else None
    case _ => None
  }

  /** JSON `true` is accepted as a score. */
  lemma ScoreAsWrittenAcceptsTrue()
    ensures Truthy(Some(JBool(true))) && ScoreAsWritten(Some(JBool(true))) == Some(1)
  {
  }

  /** The intended score check: an integer from 1 to 5, and nothing else. */
  function Score(v: Option<Json>): (r: Option<int>)
    ensures r.Some? <==> v.Some? && v.value.JInt? && MinScore <= v.value.i <= MaxScore
    ensures r.Some? ==> r.value == v.value.i
  {
    match v
    case Some(JInt(i)) => if MinScore <= i <= MaxScore then Some(i) else None
    case _ => None
  }

  /** The intended check accepts exactly the integer scores the written one
      accepts, and differs from it only on booleans. */
  lemma ScoreAgreesOnIntegers(v: Option<Json>)
    requires Truthy(v) && !(v.Some? && v.value.JBool?)
    ensures Score(v) == ScoreAsWritten(v)
  {
  }

  // ---------------------------------------------------------------------
  // POST /api/calificar-freelancer

  datatype RateReply =
    | RateForbidden        // 403: not a company
    | RateNoCompany        // 404
    | RateMissing          // 400: id_post or puntuacion missing
    | RateBadScore         // 400
    | RateNoApplication    // 404
    | RateNotAccepted      // 400
    | RateNotOwner         // 403: the vacancy is missing or another company's
    | RateAlreadyRated     // 400
    | Rated(calificacion: Rating)   // 201

  /** `id_post` is a non-empty string and `puntuacion` is truthy. */
  predicate FieldsPresent(idPost: Option<string>, puntuacion: Option<Json>) {
    idPost.Some? && idPost.value != "" && Truthy(puntuacion)
  }

  /** The caller is a company with a profile, sent both fields and a score the
      written check accepts, and the application exists: the guards that come
      before the application's own checks all pass. */
  predicate ReachesApplication(t: Tables, caller: User, idPost: Option<string>, puntuacion: Option<Json>) {
    caller.rol == "Empresa" && CompanyIdOf(t, caller.idUsu).Some? &&
    FieldsPresent(idPost, puntuacion) && ScoreAsWritten(puntuacion).Some? &&
    ApplicationById(t.applications, idPost.value).Some?
  }

  /** The application's vacancy exists and belongs to the company `emp`. */
  predicate OwnsVacancyOf(t: Tables, a: Application, emp: string) {
    VacancyById(t.vacancies, a.idVac).Some? && t.vacancies[VacancyById(t.vacancies, a.idVac).value].idEmp == emp
  }

  /** Guards in order, each returning before the next: role, company profile,
      required fields, score, application, its state, ownership of its vacancy,
      an existing rating; then one new rating.  The score check is the one the
      route performs, which takes JSON `true` for 1. */
  function Rate(t: Tables, caller: User, idPost: Option<string>, puntuacion: Option<Json>,
                comentario: Option<string>, newId: string): (o: Outcome<RateReply>)
    ensures !o.reply.Rated? ==> o.after == t
    ensures caller.rol != "Empresa" ==> o.reply == RateForbidden
    ensures caller.rol == "Empresa" && CompanyIdOf(t, caller.idUsu).None? ==> o.reply == RateNoCompany
    ensures caller.rol == "Empresa" && CompanyIdOf(t, caller.idUsu).Some? ==>
      (!FieldsPresent(idPost, puntuacion) ==> o.reply == RateMissing) &&
      (FieldsPresent(idPost, puntuacion) && ScoreAsWritten(puntuacion).None? ==> o.reply == RateBadScore) &&
      ((FieldsPresent(idPost, puntuacion) && ScoreAsWritten(puntuacion).Some? &&
        ApplicationById(t.applications, idPost.value).None?) ==> o.reply == RateNoApplication)
    ensures ReachesApplication(t, caller, idPost, puntuacion) ==>
      var a := t.applications[ApplicationById(t.applications, idPost.value).value];
      var emp := CompanyIdOf(t, caller.idUsu).value;
      (a.estado != "aceptada" ==> o.reply == RateNotAccepted) &&
      (a.estado == "aceptada" && !OwnsVacancyOf(t, a, emp) ==> o.reply == RateNotOwner) &&
      ((a.estado == "aceptada" && OwnsVacancyOf(t, a, emp) &&
        RatingOfApplication(t.ratings, idPost.value).Some?) ==> o.reply == RateAlreadyRated)
    ensures o.reply.Rated? <==>
      ReachesApplication(t, caller, idPost, puntuacion) &&
      var a := t.applications[ApplicationById(t.applications, idPost.value).value];
      a.estado == "aceptada" && OwnsVacancyOf(t, a, CompanyIdOf(t, caller.idUsu).value) &&
      RatingOfApplication(t.ratings, idPost.value).None?
    ensures o.reply.Rated? ==>
      ReachesApplication(t, caller, idPost, puntuacion) &&
      var a := t.applications[ApplicationById(t.applications, idPost.value).value];
      o.reply.calificacion == Rating(newId, idPost.value, CompanyIdOf(t, caller.idUsu).value, a.idFree,
                                      ScoreAsWritten(puntuacion).value, comentario.GetOr("")) &&
      o.after == t.(ratings := t.ratings + [o.reply.calificacion])
  {
    if caller.rol != "Empresa" then Outcome(RateForbidden, t)
    else match CompanyIdOf(t, caller.idUsu)
      case None => Outcome(RateNoCompany, t)
      case Some(emp) =>
        if !FieldsPresent(idPost, puntuacion) then Outcome(RateMissing, t)
        else match ScoreAsWritten(puntuacion)
          case None => Outcome(RateBadScore, t)
          case Some(score) =>
            match ApplicationById(t.applications, idPost.value)
            case None => Outcome(RateNoApplication, t)
            case Some(ai) =>
              var a := t.applications[ai];
              if a.estado != "aceptada" then Outcome(RateNotAccepted, t)
              else if !OwnsVacancyOf(t, a, emp) then Outcome(RateNotOwner, t)
              else if RatingOfApplication(t.ratings, idPost.value).Some? then Outcome(RateAlreadyRated, t)
              else
                var r := Rating(newId, idPost.value, emp, a.idFree, score, comentario.GetOr(""));
                Outcome(Rated(r), t.(ratings := t.ratings + [r]))
  }

  method ServeRate(db: Database, caller: User, idPost: Option<string>, puntuacion: Option<Json>,
                   comentario: Option<string>, newId: string) returns (reply: RateReply)
    modifies db
    ensures Outcome(reply, db.Snapshot()) == Rate(old(db.Snapshot()), caller, idPost, puntuacion, comentario, newId)
  {
    if caller.rol != "Empresa" {
      return RateForbidden;
    }
    var ci := CompanyOfUser(db.companies, caller.idUsu);
    if ci.None? {
      return RateNoCompany;
    }
    var emp := db.companies[ci.value].idEmp;
    if idPost.None? || idPost.value == "" || !Truthy(puntuacion) {
      return RateMissing;
    }
    var score := ScoreAsWritten(puntuacion);
    if score.None? {
      return RateBadScore;
    }
    var ai := ApplicationById(db.applications, idPost.value);
    if ai.None? {
      return RateNoApplication;
    }
    var a := db.applications[ai.value];
    if a.estado != "aceptada" {
      return RateNotAccepted;
    }
    var vi := VacancyById(db.vacancies, a.idVac);
    if vi.None? || db.vacancies[vi.value].idEmp != emp {
      return RateNotOwner;
    }
    if RatingOfApplication(db.ratings, idPost.value).Some? {
      return RateAlreadyRated;
    }
    var r := Rating(newId, idPost.value, emp, a.idFree, score.value, comentario.GetOr(""));
    db.ratings := db.ratings + [r];
    reply := Rated(r);
  }

  /** No application has two ratings. */
  predicate OneRatingPerApplication(rs: seq<Rating>) {
    forall i, j :: 0 <= i < j < |rs| ==> rs[i].idPost != rs[j].idPost
  }

  /** Rating keeps at most one rating per application, and every stored score
      within 1..5. */
  lemma RateKeepsRatingsWellFormed(t: Tables, caller: User, idPost: Option<string>, puntuacion: Option<Json>,
                                   comentario: Option<string>, newId: string)
    requires OneRatingPerApplication(t.ratings)
    requires forall k :: 0 <= k < |t.ratings| ==> MinScore <= t.ratings[k].puntuacion <= MaxScore
    ensures var rs := Rate(t, caller, idPost, puntuacion, comentario, newId).after.ratings;
            OneRatingPerApplication(rs) &&
            forall k :: 0 <= k < |rs| ==> MinScore <= rs[k].puntuacion <= MaxScore
  {
  }

  // ---------------------------------------------------------------------
  // GET /api/calificacion-freelancer/<id_free>

  function ScoresOf(rs: seq<Rating>, idFree: string): (r: seq<Rating>)
    ensures forall x :: x in r <==> x in rs && x.idFree == idFree
  {
    Filter(rs, (x: Rating) => x.idFree == idFree)
  }

  function SumScores(rs: seq<Rating>): int {
    if rs == [] then 0 else SumScores(rs[..|rs| - 1]) + rs[|rs| - 1].puntuacion
  }

  lemma {:induction false} SumScoresBounds(rs: seq<Rating>)
    requires forall k :: 0 <= k < |rs| ==> MinScore <= rs[k].puntuacion <= MaxScore
    ensures MinScore * |rs| <= SumScores(rs) <= MaxScore * |rs|
  {
    if rs != [] {
      SumScoresBounds(rs[..|rs| - 1]);
    }
  }

  /** `a / n` rounded to the nearest integer, ties to even (Python's `round`). */
  function RoundDiv(a: int, n: int): (q: int)
    requires n > 0
    ensures 2 * (q * n - a) <= n && 2 * (a - q * n) <= n
    ensures 2 * (a - q * n) == n || 2 * (q * n - a) == n ==> q % 2 == 0
  {
    var d := a / n;
    var m := a % n;
    assert d * n == a - m && 0 <= m < n;
    if 2 * m > n || (2 * m == n && d % 2 == 1) then
      assert (d + 1) * n == d * n + n;
      d + 1
    else d
  }

  datatype Summary = Summary(promedioDecimas: int, total: nat)

  /** The average score of a freelancer in tenths (`round(sum / count, 1)`),
      and the number of ratings; 0 and 0 with no ratings. */
  function RatingSummary(rs: seq<Rating>, idFree: string): (s: Summary)
    ensures s.total == |ScoresOf(rs, idFree)|
    ensures s.total == 0 ==> s.promedioDecimas == 0
    ensures s.total > 0 ==>
      2 * (s.promedioDecimas * s.total - 10 * SumScores(ScoresOf(rs, idFree))) <= s.total &&
      2 * (10 * SumScores(ScoresOf(rs, idFree)) - s.promedioDecimas * s.total) <= s.total
  {
    var mine := ScoresOf(rs, idFree);
    if mine == [] then Summary(0, 0)
    else Summary(RoundDiv(10 * SumScores(mine), |mine|), |mine|)
  }

  /** With scores in 1..5, the rounded average lies in 1.0..5.0. */
  lemma SummaryWithinScale(rs: seq<Rating>, idFree: string)
    requires forall k :: 0 <= k < |rs| ==> MinScore <= rs[k].puntuacion <= MaxScore
    requires RatingSummary(rs, idFree).total > 0
    ensures 10 * MinScore <= RatingSummary(rs, idFree).promedioDecimas <= 10 * MaxScore
  {
    var mine := ScoresOf(rs, idFree);
    assert forall k :: 0 <= k < |mine| ==> mine[k] in rs;
    SumScoresBounds(mine);
    var n := |mine|;
    var a := 10 * SumScores(mine);
    var q := RatingSummary(rs, idFree).promedioDecimas;
    assert 10 * n <= a <= 50 * n;
    RoundDivBounds(a, n, 10, 50);
  }

  /** Rounding a quotient that lies between two integers stays between them. */
  lemma RoundDivBounds(a: int, n: int, lo: int, hi: int)
    requires n > 0 && lo * n <= a <= hi * n
    ensures lo <= RoundDiv(a, n) <= hi
  {
    var q := RoundDiv(a, n);
    if q < lo {
      MulAtLeast(lo - q, n);
    }
    if q > hi {
      MulAtLeast(q - hi, n);
    }
  }

  lemma MulAtLeast(k: int, n: int)
    requires k >= 1 && n > 0
    ensures k * n >= n
  {
  }

  // ---------------------------------------------------------------------
  // GET /api/verificar-puede-calificar/<id_post>

  datatype CanRateReply =
    | CannotRateNotCompany
    | CannotRateAlreadyRated(calificacion: Rating)
    | CannotRateNotAccepted
    | CanRate

  /** The probe checks the role, an existing rating and the application's state,
      but neither the caller's company profile nor its ownership of the vacancy. */
  function CanRateProbe(t: Tables, caller: User, idPost: string): (r: CanRateReply)
    ensures r == CanRate <==>
      caller.rol == "Empresa" && RatingOfApplication(t.ratings, idPost).None? &&
      ApplicationById(t.applications, idPost).Some? &&
      t.applications[ApplicationById(t.applications, idPost).value].estado == "aceptada"
  {
    if caller.rol != "Empresa" then CannotRateNotCompany
    else match RatingOfApplication(t.ratings, idPost)
      case Some(k) => CannotRateAlreadyRated(t.ratings[k])
      case None =>
        match ApplicationById(t.applications, idPost)
        case None => CannotRateNotAccepted
        case Some(i) => if t.applications[i].estado != "aceptada" then CannotRateNotAccepted else CanRate
  }

  /** Whenever rating succeeds, the probe had said it could. */
  lemma RateImpliesProbe(t: Tables, caller: User, idPost: Option<string>, puntuacion: Option<Json>,
                         comentario: Option<string>, newId: string)
    requires Rate(t, caller, idPost, puntuacion, comentario, newId).reply.Rated?
    ensures CanRateProbe(t, caller, idPost.value) == CanRate
  {
  }

  /** The converse fails: the probe says yes to a company that does not own the
      vacancy, and rating then answers 403. */
  lemma ProbeDoesNotCheckOwnership()
    ensures var caller := User("u1", "Acme", "a@x", "h", "Empresa");
            var t := Tables([caller], [], [Company("e1", "u1", "c", "n", "Pequeña", "d", None)],
                            [Vacancy("v1", "e2", "n", "d", "r", None, "No especificado", "abierta")],
                            [Application("p1", "f1", "v1", "aceptada")], [], [], [], []);
            CanRateProbe(t, caller, "p1") == CanRate &&
            Rate(t, caller, Some("p1"), Some(JInt(5)), None, "c1").reply == RateNotOwner
  {
    var caller := User("u1", "Acme", "a@x", "h", "Empresa");
    var t := Tables([caller], [], [Company("e1", "u1", "c", "n", "Pequeña", "d", None)],
                    [Vacancy("v1", "e2", "n", "d", "r", None, "No especificado", "abierta")],
                    [Application("p1", "f1", "v1", "aceptada")], [], [], [], []);
    assert CompanyIdOf(t, "u1") == Some("e1");
    assert ApplicationById(t.applications, "p1") == Some(0);
    assert VacancyById(t.vacancies, "v1") == Some(0);
  }

  // ---------------------------------------------------------------------
  // GET /api/freelancers-trabajados

  /** One entry of the list: the application, its freelancer and vacancy, and
      the rating joined to it, if any. */
  datatype WorkedItem = WorkedItem(
    idPost: string, idFree: string, idVac: string, nombreVacante: string,
    calificacion: Option<Rating>, puedeCalificar: bool)

  predicate IsAccepted(estado: string) {
    Lower(estado) == "aceptada"
  }

  /** The join row of one application, when its vacancy belongs to the company
      and its freelancer exists. */
  function JoinRow(t: Tables, emp: string, a: Application): (r: Option<WorkedItem>)
    ensures r.Some? <==>
      VacancyById(t.vacancies, a.idVac).Some? && t.vacancies[VacancyById(t.vacancies, a.idVac).value].idEmp == emp &&
      FreelancerById(t.freelancers, a.idFree).Some?
  {
    match VacancyById(t.vacancies, a.idVac)
    case None => None
    case Some(vi) =>
      var v := t.vacancies[vi];
      if v.idEmp != emp || FreelancerById(t.freelancers, a.idFree).None? then None
      else
        var c := match RatingOfApplication(t.ratings, a.idPost)
                 case None => None
                 case Some(k) => Some(t.ratings[k]);
        Some(WorkedItem(a.idPost, a.idFree, v.idVac, v.nombre, c, c.None?))
  }

  /** The list built from the applications `aps`, in order. */
  function Worked(t: Tables, emp: string, aps: seq<Application>): seq<WorkedItem>
  {
    if aps == [] then []
    else
      var a := aps[|aps| - 1];
      var rest := Worked(t, emp, aps[..|aps| - 1]);
      if IsAccepted(a.estado) && JoinRow(t, emp, a).Some? then rest + [JoinRow(t, emp, a).value] else rest
  }

  /** An entry is listed exactly for each accepted application (in any letter
      case) on one of the company's vacancies whose freelancer exists. */
  lemma WorkedMembership(t: Tables, emp: string, aps: seq<Application>, w: WorkedItem)
    ensures w in Worked(t, emp, aps) <==>
      exists k :: 0 <= k < |aps| && IsAccepted(aps[k].estado) && JoinRow(t, emp, aps[k]) == Some(w)
  {
    if w in Worked(t, emp, aps) {
      WorkedSound(t, emp, aps, w);
    }
    if exists k :: 0 <= k < |aps| && IsAccepted(aps[k].estado) && JoinRow(t, emp, aps[k]) == Some(w) {
      var k :| 0 <= k < |aps| && IsAccepted(aps[k].estado) && JoinRow(t, emp, aps[k]) == Some(w);
      WorkedComplete(t, emp, aps, k);
    }
  }

  lemma {:induction false} WorkedSound(t: Tables, emp: string, aps: seq<Application>, w: WorkedItem)
    requires w in Worked(t, emp, aps)
    ensures exists k :: 0 <= k < |aps| && IsAccepted(aps[k].estado) && JoinRow(t, emp, aps[k]) == Some(w)
  {
    var n := |aps| - 1;
    var init := aps[..n];
    if w in Worked(t, emp, init) {
      WorkedSound(t, emp, init, w);
      var k :| 0 <= k < |init| && IsAccepted(init[k].estado) && JoinRow(t, emp, init[k]) == Some(w);
      assert init[k] == aps[k];
    } else {
      assert IsAccepted(aps[n].estado) && JoinRow(t, emp, aps[n]) == Some(w);
    }
  }

  lemma {:induction false} WorkedComplete(t: Tables, emp: string, aps: seq<Application>, k: nat)
    requires k < |aps| && IsAccepted(aps[k].estado) && JoinRow(t, emp, aps[k]).Some?
    ensures JoinRow(t, emp, aps[k]).value in Worked(t, emp, aps)
  {
    var n := |aps| - 1;
    var init, a := aps[..n], aps[n];
    var rest := Worked(t, emp, init);
    assert rest <= Worked(t, emp, aps);
    if k < n {
      assert init[k] == aps[k];
      WorkedComplete(t, emp, init, k);
    } else {
      assert Worked(t, emp, aps) == rest + [JoinRow(t, emp, a).value];
    }
  }

  /** A listed entry may be rated exactly when no rating is joined to it. */
  lemma WorkedRateableIffUnrated(t: Tables, emp: string, aps: seq<Application>, w: WorkedItem)
    requires w in Worked(t, emp, aps)
    ensures w.puedeCalificar <==> w.calificacion.None?
  {
    WorkedMembership(t, emp, aps, w);
  }

  datatype WorkedReply =
    | WorkedForbidden                  // 403
    | WorkedNoCompany                  // 404
    | WorkedList(freelancers: seq<WorkedItem>, total: nat)   // 200

  /** Walks the company's join rows, skipping those whose application is not
      accepted, and appends one entry per remaining row. */
  method FreelancersWorked(t: Tables, caller: User) returns (r: WorkedReply)
    ensures r.WorkedList? <==> caller.rol == "Empresa" && CompanyIdOf(t, caller.idUsu).Some?
    ensures r.WorkedList? ==>
      r.freelancers == Worked(t, CompanyIdOf(t, caller.idUsu).value, t.applications) &&
      r.total == |r.freelancers|
  {
    if caller.rol != "Empresa" {
      return WorkedForbidden;
    }
    var e := CompanyIdOf(t, caller.idUsu);
    if e.None? {
      return WorkedNoCompany;
    }
    var emp := e.value;
    var list: seq<WorkedItem> := [];
    for k := 0 to |t.applications|
      invariant list == Worked(t, emp, t.applications[..k])
    {
      var a := t.applications[k];
      var row := JoinRow(t, emp, a);
      ghost var seen := t.applications[..k + 1];
      assert seen[..|seen| - 1] == t.applications[..k] && seen[|seen| - 1] == a;
      assert Worked(t, emp, seen) == if IsAccepted(a.estado) && row.Some? then list + [row.value] else list;
      if row.None? || !IsAccepted(a.estado) {
        continue;
      }
      list := list + [row.value];
    }
    assert t.applications[..|t.applications|] == t.applications;
    r := WorkedList(list, |list|);
  }
}
