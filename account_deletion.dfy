/** Deleting one's own account: the profile, the applications hanging off it and,
    for a company, its vacancies go with the user row, in one commit.  Ratings,
    token balances, transactions and reset tokens are not touched.  Whether the
    commit succeeds is the input `commitOk`. */
module AccountDeletion {
  import opened Wrappers
  import opened Seqs
  import opened Text
  import opened Store
  import opened Profiles

  datatype DeleteReply = AccountDeleted | DeleteFailed   // 200 | 500 after rollback

  function VacancyIds(vs: seq<Vacancy>): (ids: seq<string>)
    ensures |ids| == |vs| && forall i :: 0 <= i < |vs| ==> ids[i] == vs[i].idVac
  {
    if vs == [] then [] else [vs[0].idVac] + VacancyIds(vs[1..])
  }

  /** `Vacante.query.filter_by(id_emp=...).all()`. */
  function VacanciesOf(vs: seq<Vacancy>, idEmp: string): (r: seq<Vacancy>)
    ensures forall v :: v in r <==> v in vs && v.idEmp == idEmp
  {
    Filter(vs, (v: Vacancy) => v.idEmp == idEmp)
  }

  /** Keeps the applications to none of the vacancies `ids`. */
  function AppNotOn(ids: seq<string>): Application -> bool {
    (a: Application) => a.idVac !in ids
  }

  /** Keeps the vacancies whose id is not among `ids`. */
  function VacancyNotIn(ids: seq<string>): Vacancy -> bool {
    (v: Vacancy) => v.idVac !in ids
  }

  /** Keeps the applications of other freelancers. */
  function AppNotBy(idFree: string): Application -> bool {
    (a: Application) => a.idFree != idFree
  }

  function AppNotAt(idVac: string): Application -> bool {
    (a: Application) => a.idVac != idVac
  }

  function VacancyNot(idVac: string): Vacancy -> bool {
    (v: Vacancy) => v.idVac != idVac
  }

  function UserNot(idUsu: string): User -> bool {
    (u: User) => u.idUsu != idUsu
  }

  /** One more vacancy id in the list filters once more. */
  lemma NotOnStep(ids: seq<string>, k: nat)
    requires k < |ids|
    ensures forall a: Application :: AppNotOn(ids[..k + 1])(a) == (AppNotOn(ids[..k])(a) && AppNotAt(ids[k])(a))
    ensures forall v: Vacancy :: VacancyNotIn(ids[..k + 1])(v) == (VacancyNotIn(ids[..k])(v) && VacancyNot(ids[k])(v))
  {
    assert ids[..k + 1] == ids[..k] + [ids[k]];
  }

  /** A freelancer's profile row and every application of theirs. */
  function DeleteFreelancerProfile(t: Tables, idUsu: string): Tables {
    match FreelancerOfUser(t.freelancers, idUsu)
    case None => t
    case Some(i) =>
      t.(applications := Filter(t.applications, AppNotBy(t.freelancers[i].idFree)),
         freelancers := RemoveAt(t.freelancers, i))
  }

  /** A company's profile row, its vacancies and every application to them. */
  function DeleteCompanyProfile(t: Tables, idUsu: string): Tables {
    match CompanyOfUser(t.companies, idUsu)
    case None => t
    case Some(i) =>
      var ids := VacancyIds(VacanciesOf(t.vacancies, t.companies[i].idEmp));
      t.(applications := Filter(t.applications, AppNotOn(ids)),
         vacancies := Filter(t.vacancies, VacancyNotIn(ids)),
         companies := RemoveAt(t.companies, i))
  }

  /** The tables after the deletes, before the commit. */
  function Cascade(t: Tables, caller: User): (t1: Tables)
    ensures t1.ratings == t.ratings && t1.balances == t.balances &&
            t1.transactions == t.transactions && t1.resetTokens == t.resetTokens
    ensures forall u :: u in t1.users <==> u in t.users && u.idUsu != caller.idUsu
  {
    var t0 :=
      if caller.rol == "FreeLancer" then DeleteFreelancerProfile(t, caller.idUsu)
      else if caller.rol == "Empresa" then DeleteCompanyProfile(t, caller.idUsu)
      else t;
    t0.(users := Filter(t.users, UserNot(caller.idUsu)))
  }

  /** Every request either commits the whole cascade or rolls back to the
      tables as they were. */
  function DeleteAccount(t: Tables, caller: User, commitOk: bool): (o: Outcome<DeleteReply>)
    ensures o.reply == AccountDeleted <==> commitOk
    ensures o.reply == DeleteFailed ==> o.after == t
    ensures o.reply == AccountDeleted ==> o.after == Cascade(t, caller)
  {
    if commitOk then Outcome(AccountDeleted, Cascade(t, caller)) else Outcome(DeleteFailed, t)
  }

  // ---------------------------------------------------------------------
  // Files removed along the way.  Only the paths are modelled; whether they
  // exist on disk is left to the file system.

  /** The company branch's logo guard as written: only a stored value starting
      with "uploads/" is removed. */
  function LogoToRemoveAsWritten(logo: Option<string>): (p: Option<string>)
    ensures p.Some? ==> StartsWith(p.value, "uploads/")
  {
    if logo.Some? && logo.value != "" && StartsWith(logo.value, "uploads/") then logo else None
  }

  /** The profile route stores a bare "logo_..." name, so the guard as written
      never removes a logo that route stored. */
  lemma StoredLogoNeverRemovedAsWritten(idUsu: string, hex8: string, name: string)
    ensures LogoToRemoveAsWritten(Some(LogoFileName(idUsu, hex8, name))).None?
  {
    var f := LogoFileName(idUsu, hex8, name);
    assert f[0] == 'l';
    assert "uploads/"[0] == 'u';
  }

  /** The logo's path as the profile route itself resolves it: joined to the
      logo folder. */
  function LogoToRemove(logo: Option<string>): (p: Option<string>)
    ensures p.Some? <==> logo.Some? && logo.value != ""
    ensures p.Some? && !StartsWith(logo.value, "/") ==> StartsWith(p.value, LogoFolder + "/")
  {
    if logo.Some? && logo.value != "" then
      var p := PathJoin(LogoFolder, logo.value);
      assert !StartsWith(logo.value, "/") ==> p[..|LogoFolder + "/"|] == LogoFolder + "/";
      Some(p)
    else None
  }

  /** With the folder joined, the file removed is the very file the profile
      route saved. */
  lemma StoredLogoRemoved(idUsu: string, hex8: string, name: string)
    ensures LogoToRemove(Some(LogoFileName(idUsu, hex8, name))) == Some(StoredPath(LogoFolder, "logo_", idUsu, hex8, name))
  {
    var f := LogoFileName(idUsu, hex8, name);
    assert f == "logo_" + idUsu + "_" + hex8 + "_" + name;
    assert f[0] == 'l' && ("logo_" + idUsu)[0] == 'l';
    assert LogoFolder + "/" + f == LogoFolder + "/" + "logo_" + idUsu + "_" + hex8 + "_" + name;
  }

  /** A freelancer's avatar is removed only when it is an uploaded file. */
  function AvatarToRemove(avatar: Option<string>): (p: Option<string>)
    ensures p.Some? ==> p == avatar && StartsWith(p.value, "uploads/")
  {
    if avatar.Some? && avatar.value != "" && StartsWith(avatar.value, "uploads/") then avatar else None
  }

  /** Every avatar the profile route uploads is removed; a default avatar
      ("default_<style>") is not. */
  lemma UploadedAvatarRemoved(idUsu: string, hex8: string, name: string, style: string)
    ensures AvatarToRemove(Some(AvatarPath(idUsu, hex8, name))) == Some(AvatarPath(idUsu, hex8, name))
    ensures AvatarToRemove(Some("default_" + style)).None?
  {
    var p := AvatarPath(idUsu, hex8, name);
    assert "uploads/avatares/avatar_" + idUsu + "_" == "uploads/" + ("avatares/avatar_" + idUsu + "_");
    assert StartsWith(p, "uploads/");
    assert ("default_" + style)[0] == 'd';
  }

  function OptionList(p: Option<string>): seq<string> {
    if p.Some? then [p.value] else []
  }

  /** A freelancer's CV and uploaded avatar. */
  function FreelancerFiles(t: Tables, idUsu: string): seq<string> {
    match FreelancerOfUser(t.freelancers, idUsu)
    case None => []
    case Some(i) =>
      var f := t.freelancers[i];
      OptionList(if f.hojaVida.Some? && f.hojaVida.value != "" then f.hojaVida else None) + OptionList(AvatarToRemove(f.avatar))
  }

  /** A company's logo, under the guard as written: removed only when the
      stored value starts with "uploads/", which no logo the profile route
      stores does. */
  function CompanyFiles(t: Tables, idUsu: string): seq<string> {
    match CompanyOfUser(t.companies, idUsu)
    case None => []
    case Some(i) => OptionList(LogoToRemoveAsWritten(t.companies[i].logo))
  }

  /** A company's deletion leaves behind the logo file its profile route saved. */
  lemma StoredLogoSurvivesDeletion(t: Tables, idUsu: string, hex8: string, name: string)
    requires CompanyOfUser(t.companies, idUsu).Some?
    requires t.companies[CompanyOfUser(t.companies, idUsu).value].logo == Some(LogoFileName(idUsu, hex8, name))
    ensures CompanyFiles(t, idUsu) == []
  {
    StoredLogoNeverRemovedAsWritten(idUsu, hex8, name);
  }

  /** The files the route removes for the caller: the freelancer's CV and
      uploaded avatar, or the company's logo under the guard as written. */
  function FilesToRemove(t: Tables, caller: User): seq<string> {
    if caller.rol == "FreeLancer" then FreelancerFiles(t, caller.idUsu)
    else if caller.rol == "Empresa" then CompanyFiles(t, caller.idUsu)
    else []
  }

  // ---------------------------------------------------------------------
  // DELETE /api/usuario/eliminar

  /** The company branch's loop: for each of its vacancies, delete the
      applications to it and then the vacancy itself. */
  method DeleteVacancies(aps: seq<Application>, vs: seq<Vacancy>, vacantes: seq<Vacancy>)
    returns (aps1: seq<Application>, vs1: seq<Vacancy>)
    ensures aps1 == Filter(aps, AppNotOn(VacancyIds(vacantes)))
    ensures vs1 == Filter(vs, VacancyNotIn(VacancyIds(vacantes)))
  {
    var ids := VacancyIds(vacantes);
    aps1, vs1 := aps, vs;
    FilterKeepsAll(aps, AppNotOn(ids[..0]));
    FilterKeepsAll(vs, VacancyNotIn(ids[..0]));
    for k := 0 to |vacantes|
      invariant aps1 == Filter(aps, AppNotOn(ids[..k]))
      invariant vs1 == Filter(vs, VacancyNotIn(ids[..k]))
    {
      var idVac := vacantes[k].idVac;
      NotOnStep(ids, k);
      FilterTwice(aps, AppNotOn(ids[..k]), AppNotAt(idVac), AppNotOn(ids[..k + 1]));
      FilterTwice(vs, VacancyNotIn(ids[..k]), VacancyNot(idVac), VacancyNotIn(ids[..k + 1]));
      aps1 := Filter(aps1, AppNotAt(idVac));
      vs1 := Filter(vs1, VacancyNot(idVac));
    }
    assert ids[..|vacantes|] == ids;
  }

  /** The freelancer branch: the applications in one bulk delete, then the
      profile row. */
  method DeleteFreelancerRows(db: Database, idUsu: string) returns (removed: seq<string>)
    modifies db
    ensures db.Snapshot() == DeleteFreelancerProfile(old(db.Snapshot()), idUsu)
    ensures removed == FreelancerFiles(old(db.Snapshot()), idUsu)
  {
    removed := [];
    var found := FreelancerOfUser(db.freelancers, idUsu);
    if found.Some? {
      var f := db.freelancers[found.value];
      db.applications := Filter(db.applications, AppNotBy(f.idFree));
      if f.hojaVida.Some? && f.hojaVida.value != "" {
        removed := removed + [f.hojaVida.value];
      }
      removed := removed + OptionList(AvatarToRemove(f.avatar));
      db.freelancers := RemoveAt(db.freelancers, found.value);
    }
  }

  /** The company branch: its vacancies with their applications, then the
      profile row. */
  method DeleteCompanyRows(db: Database, idUsu: string) returns (removed: seq<string>)
    modifies db
    ensures db.Snapshot() == DeleteCompanyProfile(old(db.Snapshot()), idUsu)
    ensures removed == CompanyFiles(old(db.Snapshot()), idUsu)
  {
    removed := [];
    var found := CompanyOfUser(db.companies, idUsu);
    if found.Some? {
      var c := db.companies[found.value];
      var vacantes := VacanciesOf(db.vacancies, c.idEmp);
      db.applications, db.vacancies := DeleteVacancies(db.applications, db.vacancies, vacantes);
      removed := OptionList(LogoToRemoveAsWritten(c.logo));
      db.companies := RemoveAt(db.companies, found.value);
    }
  }

  /** The route: the role's branch of deletes, the user row, then commit or roll
      back.  File removal happens before the commit and is not undone by a
      rollback. */
  method ServeDeleteAccount(db: Database, caller: User, commitOk: bool) returns (reply: DeleteReply, removed: seq<string>)
    modifies db
    ensures Outcome(reply, db.Snapshot()) == DeleteAccount(old(db.Snapshot()), caller, commitOk)
    ensures removed == FilesToRemove(old(db.Snapshot()), caller)
  {
    var before := db.Snapshot();
    removed := [];
    if caller.rol == "FreeLancer" {
      removed := DeleteFreelancerRows(db, caller.idUsu);
    } else if caller.rol == "Empresa" {
      removed := DeleteCompanyRows(db, caller.idUsu);
    }
    db.users := Filter(db.users, UserNot(caller.idUsu));
    assert db.Snapshot() == Cascade(before, caller);
    if commitOk {
      reply := AccountDeleted;
    } else {
      db.users, db.freelancers, db.companies := before.users, before.freelancers, before.companies;
      db.vacancies, db.applications := before.vacancies, before.applications;
      reply := DeleteFailed;
    }
  }

  // ---------------------------------------------------------------------
  // What the cascade removes and what it keeps

  /** A freelancer's deletion removes exactly their applications and their
      (first) profile row; every other freelancer row stays, in order. */
  lemma FreelancerCascade(t: Tables, caller: User)
    requires caller.rol == "FreeLancer" && FreelancerOfUser(t.freelancers, caller.idUsu).Some?
    ensures var i := FreelancerOfUser(t.freelancers, caller.idUsu).value;
            var t1 := Cascade(t, caller);
            (forall a :: a in t1.applications <==> a in t.applications && a.idFree != t.freelancers[i].idFree) &&
            t1.freelancers == t.freelancers[..i] + t.freelancers[i + 1..] &&
            t1.companies == t.companies && t1.vacancies == t.vacancies
  {
    var i := FreelancerOfUser(t.freelancers, caller.idUsu).value;
    var t1 := Cascade(t, caller);
    assert t1.freelancers == RemoveAt(t.freelancers, i);
  }

  /** A company's deletion removes its vacancies, the applications to them and
      its (first) profile row, and no other vacancy when vacancy ids are unique. */
  lemma CompanyCascade(t: Tables, caller: User)
    requires caller.rol == "Empresa" && CompanyOfUser(t.companies, caller.idUsu).Some?
    requires VacancyIdsUnique(t.vacancies)
    ensures var emp := t.companies[CompanyOfUser(t.companies, caller.idUsu).value].idEmp;
            var t1 := Cascade(t, caller);
            (forall v :: v in t1.vacancies <==> v in t.vacancies && v.idEmp != emp) &&
            (forall a :: a in t1.applications <==>
               a in t.applications && forall v :: v in t.vacancies && v.idEmp == emp ==> v.idVac != a.idVac) &&
            t1.freelancers == t.freelancers && |t1.companies| == |t.companies| - 1
  {
    var i := CompanyOfUser(t.companies, caller.idUsu).value;
    var emp := t.companies[i].idEmp;
    var mine := VacanciesOf(t.vacancies, emp);
    var ids := VacancyIds(mine);
    IdsOfVacancies(mine);
    assert forall x :: x in ids <==> exists v :: v in t.vacancies && v.idEmp == emp && v.idVac == x;
  }

  predicate VacancyIdsUnique(vs: seq<Vacancy>) {
    forall i, j :: 0 <= i < j < |vs| ==> vs[i].idVac != vs[j].idVac
  }

  lemma IdsOfVacancies(vs: seq<Vacancy>)
    ensures forall x :: x in VacancyIds(vs) <==> exists v :: v in vs && v.idVac == x
  {
    var ids := VacancyIds(vs);
    forall x | x in ids
      ensures exists v :: v in vs && v.idVac == x
    {
      var k :| 0 <= k < |ids| && ids[k] == x;
      assert vs[k] in vs;
    }
    forall x | exists v :: v in vs && v.idVac == x
      ensures x in ids
    {
      var v :| v in vs && v.idVac == x;
      var k :| 0 <= k < |vs| && vs[k] == v;
      assert ids[k] == x;
    }
  }

  /** Every application refers to an existing freelancer profile and vacancy. */
  predicate ApplicationsReferToRows(t: Tables) {
    forall a :: a in t.applications ==>
      (exists f :: f in t.freelancers && f.idFree == a.idFree) &&
      (exists v :: v in t.vacancies && v.idVac == a.idVac)
  }

  /** Deleting an account leaves no application pointing at a deleted profile or
      vacancy, when profile and vacancy ids are unique. */
  lemma DeleteKeepsReferences(t: Tables, caller: User, commitOk: bool)
    requires ApplicationsReferToRows(t)
    requires VacancyIdsUnique(t.vacancies)
    requires forall i, j :: 0 <= i < j < |t.freelancers| ==> t.freelancers[i].idFree != t.freelancers[j].idFree
    ensures ApplicationsReferToRows(DeleteAccount(t, caller, commitOk).after)
  {
    if commitOk {
      var t1 := Cascade(t, caller);
      if caller.rol == "FreeLancer" && FreelancerOfUser(t.freelancers, caller.idUsu).Some? {
        var i := FreelancerOfUser(t.freelancers, caller.idUsu).value;
        FreelancerCascade(t, caller);
        forall a | a in t1.applications
          ensures exists f :: f in t1.freelancers && f.idFree == a.idFree
        {
          var f :| f in t.freelancers && f.idFree == a.idFree;
          var j :| 0 <= j < |t.freelancers| && t.freelancers[j] == f;
          assert j != i;
          if j < i {
            assert t1.freelancers[j] == f;
          } else {
            assert t1.freelancers[j - 1] == f;
          }
        }
      } else if caller.rol == "Empresa" && CompanyOfUser(t.companies, caller.idUsu).Some? {
        var emp := t.companies[CompanyOfUser(t.companies, caller.idUsu).value].idEmp;
        CompanyCascade(t, caller);
        forall a | a in t1.applications
          ensures exists v :: v in t1.vacancies && v.idVac == a.idVac
        {
          var v :| v in t.vacancies && v.idVac == a.idVac;
          assert v.idEmp != emp;
          assert v in t1.vacancies;
        }
      }
    }
  }
}
