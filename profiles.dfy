/** Freelancer and company profiles: the upload whitelists, creation with its
    required fields, and partial updates in which only submitted values replace
    stored ones.  `secure_filename` and the 8 hex digits of a fresh uuid are
    inputs. */
module Profiles {
  import opened Wrappers
  import opened Seqs
  import opened Text
  import opened Store

  const CvFolder: string := "uploads/hojas_vida"
  const AvatarFolder: string := "uploads/avatares"
  const LogoFolder: string := "uploads/logos"
  const CvExtensions: set<string> := {"pdf"}
  const ImageExtensions: set<string> := {"png", "jpg", "jpeg", "gif", "webp"}

  /** A form value Python treats as true: present and non-empty. */
  predicate Given(v: Option<string>) {
    v.Some? && v.value != ""
  }

  /** A multipart file field: absent, or present with the client's file name
      (possibly empty). */
  datatype Upload = NoPart | Part(filename: string)

  /** `i` is the position of the last '.' in `name`. */
  predicate IsLastDot(name: string, i: int) {
    0 <= i < |name| && name[i] == '.' && forall j :: i < j < |name| ==> name[j] != '.'
  }

  /** A name has at most one last dot, and `LastIndexOf` finds it. */
  lemma LastDotUnique(name: string)
    ensures forall k :: IsLastDot(name, k) ==> LastIndexOf(name, '.') == Some(k)
  {
    forall k | IsLastDot(name, k)
      ensures LastIndexOf(name, '.') == Some(k)
    {
      assert name[k] in name;
    }
  }

  /** `name.rsplit(".", 1)[1]` when `name` has a '.': the text after the last one. */
  function LastExtension(name: string): (e: Option<string>)
    ensures e.None? <==> forall k :: !IsLastDot(name, k)
    ensures forall k :: IsLastDot(name, k) ==> e == Some(name[k + 1..])
  {
    LastDotUnique(name);
    match LastIndexOf(name, '.')
    case None => None
    case Some(i) =>
      assert IsLastDot(name, i);
      Some(name[i + 1..])
  }

  /** `"." in name and name.rsplit(".", 1)[1].lower() in extensions`. */
  function HasExtensionIn(name: string, extensions: set<string>): (r: bool)
    ensures r <==> exists i :: IsLastDot(name, i) && Lower(name[i + 1..]) in extensions
  {
    match LastExtension(name)
    case None => false
    case Some(e) =>
      assert exists i :: IsLastDot(name, i);
      var i :| IsLastDot(name, i);
      assert e == name[i + 1..];
      Lower(e) in extensions
  }

  /** A CV name is accepted iff its last extension, in any letter case, is pdf. */
  function AllowedFile(name: string): (r: bool)
    ensures r <==> exists i :: IsLastDot(name, i) && Lower(name[i + 1..]) == "pdf"
  {
    HasExtensionIn(name, CvExtensions)
  }

  /** An image name is accepted iff its last extension, in any letter case, is
      one of png, jpg, jpeg, gif or webp. */
  function AllowedImage(name: string): (r: bool)
    ensures r <==> exists i :: IsLastDot(name, i) && Lower(name[i + 1..]) in ImageExtensions
  {
    HasExtensionIn(name, ImageExtensions)
  }

  /** Only the last extension counts, and a name without a dot never passes. */
  lemma AllowedFileExamples()
    ensures AllowedFile("cv.PDF") && !AllowedFile("pdf") && !AllowedFile("cv.pdf.exe")
  {
    UpperCaseExtensionAllowed();
    NameWithoutDotRefused();
    LastExtensionDecides();
  }

  lemma UpperCaseExtensionAllowed()
    ensures AllowedFile("cv.PDF")
  {
    assert "cv.PDF"[2] == '.' && Lower("cv.PDF"[3..]) == "pdf";
  }

  lemma NameWithoutDotRefused()
    ensures !AllowedFile("pdf")
  {
    assert forall i :: 0 <= i < |"pdf"| ==> "pdf"[i] != '.';
  }

  lemma LastExtensionDecides()
    ensures !AllowedFile("cv.pdf.exe")
  {
    LastDotUnique("cv.pdf.exe");
    assert IsLastDot("cv.pdf.exe", 6);
    assert Lower("cv.pdf.exe"[7..]) == "exe";
  }

  /** An upload the routes keep: a present part with a non-empty, allowed name. */
  predicate Accepted(u: Upload, allowed: string -> bool) {
    u.Part? && u.filename != "" && allowed(u.filename)
  }

  /** A folder name the routes join to: non-empty, without a trailing '/'. */
  predicate PlainFolder(folder: string) {
    folder != "" && folder[|folder| - 1] != '/'
  }

  /** `os.path.join(folder, name)` on POSIX: an absolute `name` replaces the
      folder altogether, any other name is placed inside it. */
  function PathJoin(folder: string, name: string): (p: string)
    requires PlainFolder(folder)
    ensures StartsWith(name, "/") ==> p == name
    ensures !StartsWith(name, "/") ==> p == folder + "/" + name
  {
    if name != "" && name[0] == '/' then name else folder + "/" + name
  }

  /** `os.path.join(folder, f"{prefix}{id_usu}_{hex8}_{name}")`: inside the
      folder unless `prefix + id_usu` starts with '/'. */
  function StoredPath(folder: string, prefix: string, idUsu: string, hex8: string, name: string): (p: string)
    requires PlainFolder(folder)
    ensures !StartsWith(prefix + idUsu, "/") ==> StartsWith(p, folder + "/" + prefix + idUsu + "_")
    ensures StartsWith(prefix + idUsu, "/") ==> p == prefix + idUsu + "_" + hex8 + "_" + name
  {
    var file := prefix + idUsu + "_" + hex8 + "_" + name;
    assert file == (prefix + idUsu) + ("_" + hex8 + "_" + name);
    assert StartsWith(file, "/") <==> StartsWith(prefix + idUsu, "/") by {
      if prefix + idUsu == "" {
        assert file[0] == '_';
      } else {
        assert file[0] == (prefix + idUsu)[0];
      }
    }
    assert folder + "/" + file == (folder + "/" + prefix + idUsu + "_") + (hex8 + "_" + name);
    PathJoin(folder, file)
  }

  /** The CV path lies in the CV folder unless the user id itself starts with
      '/', in which case `os.path.join` drops the folder. */
  function CvPath(idUsu: string, hex8: string, name: string): (p: string)
    ensures !StartsWith(idUsu, "/") ==> StartsWith(p, "uploads/hojas_vida/" + idUsu + "_")
    ensures StartsWith(idUsu, "/") ==> p == idUsu + "_" + hex8 + "_" + name
  {
    assert "" + idUsu == idUsu;
    StoredPath(CvFolder, "", idUsu, hex8, name)
  }

  function AvatarPath(idUsu: string, hex8: string, name: string): (p: string)
    ensures StartsWith(p, "uploads/avatares/avatar_" + idUsu + "_")
  {
    assert ("avatar_" + idUsu)[0] == 'a';
    StoredPath(AvatarFolder, "avatar_", idUsu, hex8, name)
  }

  /** The company route keeps only the bare file name, without its folder. */
  function LogoFileName(idUsu: string, hex8: string, name: string): (f: string)
    ensures StartsWith(f, "logo_" + idUsu + "_")
  {
    var f := "logo_" + idUsu + "_" + hex8 + "_" + name;
    assert f == ("logo_" + idUsu + "_") + (hex8 + "_" + name);
    f
  }

  // ---------------------------------------------------------------------
  // POST /api/freelancer/perfil

  datatype FreelancerForm = FreelancerForm(
    profesion: Option<string>, experiencia: Option<string>, idCiud: Option<string>, idUsu: Option<string>)

  datatype CreateReply =
    | CreateMissing                                       // 400
    | FreelancerCreated(idFree: string, hojaVida: Option<string>)   // 201
    | CompanyCreated(idEmp: string)                       // 201

  function CreateFreelancer(t: Tables, form: FreelancerForm, cv: Upload, secureName: string,
                            hex8: string, newId: string): (o: Outcome<CreateReply>)
    ensures o.reply == CreateMissing <==> !(Given(form.profesion) && Given(form.idCiud) && Given(form.idUsu))
    ensures o.reply == CreateMissing ==> o.after == t
    ensures o.reply != CreateMissing ==>
      |o.after.freelancers| == |t.freelancers| + 1 &&
      var f := o.after.freelancers[|t.freelancers|];
      o.after == t.(freelancers := t.freelancers + [f]) &&
      f.idFree == newId && f.idUsu == form.idUsu.value && f.profesion == form.profesion.value &&
      f.idCiud == form.idCiud.value && f.experiencia == form.experiencia.GetOr("") && f.avatar.None? &&
      (f.hojaVida.Some? <==> Accepted(cv, AllowedFile)) &&
      o.reply == FreelancerCreated(newId, f.hojaVida)
  {
    if !(Given(form.profesion) && Given(form.idCiud) && Given(form.idUsu)) then Outcome(CreateMissing, t)
    else
      var cvPath := if Accepted(cv, AllowedFile) then Some(CvPath(form.idUsu.value, hex8, secureName)) else None;
      var f := Freelancer(newId, form.idUsu.value, form.idCiud.value, form.profesion.value,
                          form.experiencia.GetOr(""), cvPath, None);
      Outcome(FreelancerCreated(newId, cvPath), t.(freelancers := t.freelancers + [f]))
  }

  method ServeCreateFreelancer(db: Database, form: FreelancerForm, cv: Upload, secureName: string,
                               hex8: string, newId: string) returns (reply: CreateReply)
    modifies db
    ensures Outcome(reply, db.Snapshot()) == CreateFreelancer(old(db.Snapshot()), form, cv, secureName, hex8, newId)
  {
    if !Given(form.profesion) || !Given(form.idCiud) || !Given(form.idUsu) {
      return CreateMissing;
    }
    var cvPath: Option<string> := None;
    if Accepted(cv, AllowedFile) {
      cvPath := Some(CvPath(form.idUsu.value, hex8, secureName));
    }
    var f := Freelancer(newId, form.idUsu.value, form.idCiud.value, form.profesion.value,
                        form.experiencia.GetOr(""), cvPath, None);
    db.freelancers := db.freelancers + [f];
    reply := FreelancerCreated(newId, cvPath);
  }

  // ---------------------------------------------------------------------
  // PUT /api/freelancer/perfil/<id_free>

  /** The submitted form; `cvName` and `avatarName` are the secured file names,
      `cvHex` and `avatarHex` the two fresh uuid prefixes. */
  datatype FreelancerUpdate = FreelancerUpdate(
    profesion: Option<string>, experiencia: Option<string>, idCiud: Option<string>,
    hojaVida: Upload, cvName: string, cvHex: string,
    avatar: Upload, avatarName: string, avatarHex: string,
    avatarDefault: Option<string>)

  datatype UpdateReply =
    | ProfileNotFound                          // 404
    | FreelancerUpdated(freelancer: Freelancer)   // 200
    | CompanyUpdated(company: Company)             // 200

  /** The stored avatar after an update: an avatar file part decides on its own
      (an accepted image replaces the avatar, a rejected one keeps it), and only
      without a file part does a non-empty default avatar apply. */
  function NextAvatar(current: Option<string>, idUsu: string, u: FreelancerUpdate): (a: Option<string>)
    ensures Accepted(u.avatar, AllowedImage) ==> a == Some(AvatarPath(idUsu, u.avatarHex, u.avatarName))
    ensures u.avatar.Part? && !Accepted(u.avatar, AllowedImage) ==> a == current
    ensures u.avatar.NoPart? && Given(u.avatarDefault) ==> a == u.avatarDefault
    ensures u.avatar.NoPart? && !Given(u.avatarDefault) ==> a == current
    ensures a != current ==>
      (a.Some? &&
       if u.avatar.Part? then a.value == AvatarPath(idUsu, u.avatarHex, u.avatarName)
       else Given(u.avatarDefault) && a == u.avatarDefault)
  {
    if u.avatar.Part? then
      if Accepted(u.avatar, AllowedImage) then Some(AvatarPath(idUsu, u.avatarHex, u.avatarName)) else current
    else if Given(u.avatarDefault) then u.avatarDefault
    else current
  }

  /** The row after the update: profesion and city only when non-empty,
      experiencia whenever sent, the CV only when an accepted PDF arrives. */
  function UpdatedFreelancer(f: Freelancer, u: FreelancerUpdate): (g: Freelancer)
    ensures g.idFree == f.idFree && g.idUsu == f.idUsu
    ensures g.profesion == (if Given(u.profesion) then u.profesion.value else f.profesion)
    ensures g.idCiud == (if Given(u.idCiud) then u.idCiud.value else f.idCiud)
    ensures g.experiencia == (if u.experiencia.Some? then u.experiencia.value else f.experiencia)
    ensures Accepted(u.hojaVida, AllowedFile) ==> g.hojaVida == Some(CvPath(f.idUsu, u.cvHex, u.cvName))
    ensures !Accepted(u.hojaVida, AllowedFile) ==> g.hojaVida == f.hojaVida
    ensures g.avatar == NextAvatar(f.avatar, f.idUsu, u)
  {
    f.(profesion := if Given(u.profesion) then u.profesion.value else f.profesion,
       experiencia := if u.experiencia.Some? then u.experiencia.value else f.experiencia,
       idCiud := if Given(u.idCiud) then u.idCiud.value else f.idCiud,
       hojaVida := if Accepted(u.hojaVida, AllowedFile) then Some(CvPath(f.idUsu, u.cvHex, u.cvName)) else f.hojaVida,
       avatar := NextAvatar(f.avatar, f.idUsu, u))
  }

  function UpdateFreelancer(t: Tables, idFree: string, u: FreelancerUpdate): (o: Outcome<UpdateReply>)
    ensures o.reply == ProfileNotFound <==> FreelancerById(t.freelancers, idFree).None?
    ensures o.reply == ProfileNotFound ==> o.after == t
    ensures o.reply != ProfileNotFound ==>
      var i := FreelancerById(t.freelancers, idFree).value;
      o.after == t.(freelancers := t.freelancers[i := UpdatedFreelancer(t.freelancers[i], u)]) &&
      o.reply == FreelancerUpdated(UpdatedFreelancer(t.freelancers[i], u))
  {
    match FreelancerById(t.freelancers, idFree)
    case None => Outcome(ProfileNotFound, t)
    case Some(i) =>
      var g := UpdatedFreelancer(t.freelancers[i], u);
      Outcome(FreelancerUpdated(g), t.(freelancers := t.freelancers[i := g]))
  }

  /** Overwrites the fields of a freelancer row one at a time, as the route does. */
  method OverwriteFreelancer(f0: Freelancer, u: FreelancerUpdate) returns (f: Freelancer)
    ensures f == UpdatedFreelancer(f0, u)
  {
    f := f0;
    ghost var g := UpdatedFreelancer(f0, u);
    if Given(u.profesion) {
      f := f.(profesion := u.profesion.value);
    }
    assert f == f0.(profesion := g.profesion);
    if u.experiencia.Some? {
      f := f.(experiencia := u.experiencia.value);
    }
    assert f == f0.(profesion := g.profesion, experiencia := g.experiencia);
    if Given(u.idCiud) {
      f := f.(idCiud := u.idCiud.value);
    }
    assert f == f0.(profesion := g.profesion, experiencia := g.experiencia, idCiud := g.idCiud);
    if u.hojaVida.Part? && u.hojaVida.filename != "" && AllowedFile(u.hojaVida.filename) {
      f := f.(hojaVida := Some(CvPath(f.idUsu, u.cvHex, u.cvName)));
    }
    assert f == g.(avatar := f0.avatar);
    if u.avatar.Part? {
      if u.avatar.filename != "" && AllowedImage(u.avatar.filename) {
        f := f.(avatar := Some(AvatarPath(f.idUsu, u.avatarHex, u.avatarName)));
      }
    } else if Given(u.avatarDefault) {
      f := f.(avatar := u.avatarDefault);
    }
  }

  method ServeUpdateFreelancer(db: Database, idFree: string, u: FreelancerUpdate) returns (reply: UpdateReply)
    modifies db
    ensures Outcome(reply, db.Snapshot()) == UpdateFreelancer(old(db.Snapshot()), idFree, u)
  {
    var found := FreelancerById(db.freelancers, idFree);
    if found.None? {
      return ProfileNotFound;
    }
    var i := found.value;
    var f := OverwriteFreelancer(db.freelancers[i], u);
    db.freelancers := db.freelancers[i := f];
    reply := FreelancerUpdated(f);
  }

  /** A form with nothing in it leaves the profile as it was. */
  predicate EmptyFreelancerUpdate(u: FreelancerUpdate) {
    !Given(u.profesion) && u.experiencia.None? && !Given(u.idCiud) &&
    !Accepted(u.hojaVida, AllowedFile) && !Accepted(u.avatar, AllowedImage) &&
    (u.avatar.Part? || !Given(u.avatarDefault))
  }

  lemma EmptyFreelancerUpdateKeepsRow(t: Tables, idFree: string, u: FreelancerUpdate)
    requires EmptyFreelancerUpdate(u)
    ensures UpdateFreelancer(t, idFree, u).after == t
  {
    match FreelancerById(t.freelancers, idFree)
    case None =>
    case Some(i) =>
      assert UpdatedFreelancer(t.freelancers[i], u) == t.freelancers[i];
      assert t.freelancers[i := t.freelancers[i]] == t.freelancers;
  }

  /** Sending the same form again, even with fresh random digits for the
      uploads, leaves the tables the second request alone would: every field
      the form sets is overwritten, and the rest is untouched both times. */
  lemma UpdateFreelancerIdempotent(t: Tables, idFree: string, u: FreelancerUpdate, cvHex: string, avatarHex: string)
    ensures var u2 := u.(cvHex := cvHex, avatarHex := avatarHex);
            UpdateFreelancer(UpdateFreelancer(t, idFree, u).after, idFree, u2) == UpdateFreelancer(t, idFree, u2)
  {
    var u2 := u.(cvHex := cvHex, avatarHex := avatarHex);
    match FreelancerById(t.freelancers, idFree)
    case None =>
    case Some(i) =>
      var t1 := UpdateFreelancer(t, idFree, u).after;
      var g := UpdatedFreelancer(t.freelancers[i], u);
      assert t1.freelancers == t.freelancers[i := g];
      FreelancerFoundAfterUpdate(t.freelancers, idFree, i, g);
      FreelancerResendOverwrites(t.freelancers[i], u, u2);
      assert t1.freelancers[i := UpdatedFreelancer(g, u2)] == t.freelancers[i := UpdatedFreelancer(t.freelancers[i], u2)];
  }

  /** Replacing the row found for an id by one with the same id finds it again. */
  lemma FreelancerFoundAfterUpdate(fs: seq<Freelancer>, idFree: string, i: nat, g: Freelancer)
    requires FreelancerById(fs, idFree) == Some(i) && g.idFree == idFree
    ensures FreelancerById(fs[i := g], idFree) == Some(i)
  {
    var gs := fs[i := g];
    assert gs[i].idFree == idFree;
    assert forall j :: 0 <= j < i ==> gs[j] == fs[j];
    var r := FreelancerById(gs, idFree);
    assert r.Some?;
    assert !(r.value < i) && !(i < r.value);
  }

  /** On one row: a second form that differs from the first at most in its
      random digits overwrites everything the first one wrote. */
  lemma FreelancerResendOverwrites(f: Freelancer, u: FreelancerUpdate, u2: FreelancerUpdate)
    requires u2 == u.(cvHex := u2.cvHex, avatarHex := u2.avatarHex)
    ensures UpdatedFreelancer(UpdatedFreelancer(f, u), u2) == UpdatedFreelancer(f, u2)
  {
    var g := UpdatedFreelancer(f, u);
    assert g.idUsu == f.idUsu;
    assert NextAvatar(g.avatar, g.idUsu, u2) == NextAvatar(f.avatar, f.idUsu, u2);
  }

  /** With an avatar file part present, the default avatar field is ignored. */
  lemma AvatarFileTakesPrecedence(t: Tables, idFree: string, u: FreelancerUpdate, other: Option<string>)
    requires u.avatar.Part?
    ensures UpdateFreelancer(t, idFree, u) == UpdateFreelancer(t, idFree, u.(avatarDefault := other))
  {
    match FreelancerById(t.freelancers, idFree)
    case None =>
    case Some(i) =>
      assert NextAvatar(t.freelancers[i].avatar, t.freelancers[i].idUsu, u)
          == NextAvatar(t.freelancers[i].avatar, t.freelancers[i].idUsu, u.(avatarDefault := other));
  }

  // ---------------------------------------------------------------------
  // POST /api/empresa/perfil

  /** The JSON body; an absent key is `None`. */
  datatype CompanyForm = CompanyForm(
    nit: Option<string>, tamano: Option<string>, descEmp: Option<string>, idCiud: Option<string>, idUsu: Option<string>)

  function CreateCompany(t: Tables, form: CompanyForm, newId: string): (o: Outcome<CreateReply>)
    ensures o.reply == CreateMissing <==>
      form.nit.None? || form.tamano.None? || form.descEmp.None? || form.idCiud.None? || form.idUsu.None?
    ensures o.reply == CreateMissing ==> o.after == t
    ensures o.reply != CreateMissing ==>
      o.reply == CompanyCreated(newId) &&
      o.after == t.(companies := t.companies + [Company(newId, form.idUsu.value, form.idCiud.value, form.nit.value,
                                                         form.tamano.value, form.descEmp.value, None)])
  {
    if form.nit.None? || form.tamano.None? || form.descEmp.None? || form.idCiud.None? || form.idUsu.None? then
      Outcome(CreateMissing, t)
    else
      var c := Company(newId, form.idUsu.value, form.idCiud.value, form.nit.value, form.tamano.value, form.descEmp.value, None);
      Outcome(CompanyCreated(newId), t.(companies := t.companies + [c]))
  }

  method ServeCreateCompany(db: Database, form: CompanyForm, newId: string) returns (reply: CreateReply)
    modifies db
    ensures Outcome(reply, db.Snapshot()) == CreateCompany(old(db.Snapshot()), form, newId)
  {
    if form.nit.None? || form.tamano.None? || form.descEmp.None? || form.idCiud.None? || form.idUsu.None? {
      return CreateMissing;
    }
    db.companies := db.companies + [Company(newId, form.idUsu.value, form.idCiud.value, form.nit.value,
                                            form.tamano.value, form.descEmp.value, None)];
    reply := CompanyCreated(newId);
  }

  // ---------------------------------------------------------------------
  // PUT /api/empresa/perfil/<id_emp>

  datatype CompanyUpdate = CompanyUpdate(
    nit: Option<string>, tamano: Option<string>, descEmp: Option<string>, idCiud: Option<string>,
    logo: Upload, logoName: string, logoHex: string)

  /** The row after the update: each field only when non-empty, the logo only
      when an accepted image arrives, stored as its bare file name. */
  function UpdatedCompany(c: Company, u: CompanyUpdate): (d: Company)
    ensures d.idEmp == c.idEmp && d.idUsu == c.idUsu
    ensures d.nit == (if Given(u.nit) then u.nit.value else c.nit)
    ensures d.tamano == (if Given(u.tamano) then u.tamano.value else c.tamano)
    ensures d.descEmp == (if Given(u.descEmp) then u.descEmp.value else c.descEmp)
    ensures d.idCiud == (if Given(u.idCiud) then u.idCiud.value else c.idCiud)
    ensures Accepted(u.logo, AllowedImage) ==> d.logo == Some(LogoFileName(c.idUsu, u.logoHex, u.logoName))
    ensures d.logo != c.logo ==> Accepted(u.logo, AllowedImage) && d.logo == Some(LogoFileName(c.idUsu, u.logoHex, u.logoName))
  {
    c.(nit := if Given(u.nit) then u.nit.value else c.nit,
       tamano := if Given(u.tamano) then u.tamano.value else c.tamano,
       descEmp := if Given(u.descEmp) then u.descEmp.value else c.descEmp,
       idCiud := if Given(u.idCiud) then u.idCiud.value else c.idCiud,
       logo := if Accepted(u.logo, AllowedImage) then Some(LogoFileName(c.idUsu, u.logoHex, u.logoName)) else c.logo)
  }

  function UpdateCompany(t: Tables, idEmp: string, u: CompanyUpdate): (o: Outcome<UpdateReply>)
    ensures o.reply == ProfileNotFound <==> CompanyById(t.companies, idEmp).None?
    ensures o.reply == ProfileNotFound ==> o.after == t
    ensures o.reply != ProfileNotFound ==>
      var i := CompanyById(t.companies, idEmp).value;
      o.after == t.(companies := t.companies[i := UpdatedCompany(t.companies[i], u)]) &&
      o.reply == CompanyUpdated(UpdatedCompany(t.companies[i], u))
  {
    match CompanyById(t.companies, idEmp)
    case None => Outcome(ProfileNotFound, t)
    case Some(i) =>
      var d := UpdatedCompany(t.companies[i], u);
      Outcome(CompanyUpdated(d), t.(companies := t.companies[i := d]))
  }

  method ServeUpdateCompany(db: Database, idEmp: string, u: CompanyUpdate) returns (reply: UpdateReply)
    modifies db
    ensures Outcome(reply, db.Snapshot()) == UpdateCompany(old(db.Snapshot()), idEmp, u)
  {
    var found := CompanyById(db.companies, idEmp);
    if found.None? {
      return ProfileNotFound;
    }
    var i := found.value;
    var c := db.companies[i];
    ghost var c0 := c;
    ghost var d := UpdatedCompany(c0, u);
    if Given(u.nit) {
      c := c.(nit := u.nit.value);
    }
    assert c == c0.(nit := d.nit);
    if Given(u.tamano) {
      c := c.(tamano := u.tamano.value);
    }
    assert c == c0.(nit := d.nit, tamano := d.tamano);
    if Given(u.descEmp) {
      c := c.(descEmp := u.descEmp.value);
    }
    assert c == c0.(nit := d.nit, tamano := d.tamano, descEmp := d.descEmp);
    if Given(u.idCiud) {
      c := c.(idCiud := u.idCiud.value);
    }
    assert c == d.(logo := c0.logo);
    if u.logo.Part? && u.logo.filename != "" && AllowedImage(u.logo.filename) {
      c := c.(logo := Some(LogoFileName(c.idUsu, u.logoHex, u.logoName)));
    }
    db.companies := db.companies[i := c];
    reply := CompanyUpdated(c);
  }

  /** Sending the same company form again, even with fresh random digits for
      the logo, leaves the tables the second request alone would. */
  lemma UpdateCompanyIdempotent(t: Tables, idEmp: string, u: CompanyUpdate, logoHex: string)
    ensures var u2 := u.(logoHex := logoHex);
            UpdateCompany(UpdateCompany(t, idEmp, u).after, idEmp, u2) == UpdateCompany(t, idEmp, u2)
  {
    var u2 := u.(logoHex := logoHex);
    match CompanyById(t.companies, idEmp)
    case None =>
    case Some(i) =>
      var t1 := UpdateCompany(t, idEmp, u).after;
      var d := UpdatedCompany(t.companies[i], u);
      assert t1.companies == t.companies[i := d];
      CompanyFoundAfterUpdate(t.companies, idEmp, i, d);
      CompanyResendOverwrites(t.companies[i], u, u2);
      assert t1.companies[i := UpdatedCompany(d, u2)] == t.companies[i := UpdatedCompany(t.companies[i], u2)];
  }

  lemma CompanyFoundAfterUpdate(cs: seq<Company>, idEmp: string, i: nat, d: Company)
    requires CompanyById(cs, idEmp) == Some(i) && d.idEmp == idEmp
    ensures CompanyById(cs[i := d], idEmp) == Some(i)
  {
    var ds := cs[i := d];
    assert ds[i].idEmp == idEmp;
    assert forall j :: 0 <= j < i ==> ds[j] == cs[j];
    var r := CompanyById(ds, idEmp);
    assert r.Some?;
    assert !(r.value < i) && !(i < r.value);
  }

  /** On one row: a second company form that differs from the first at most in
      its random digits overwrites everything the first one wrote. */
  lemma CompanyResendOverwrites(c: Company, u: CompanyUpdate, u2: CompanyUpdate)
    requires u2 == u.(logoHex := u2.logoHex)
    ensures UpdatedCompany(UpdatedCompany(c, u), u2) == UpdatedCompany(c, u2)
  {
    assert UpdatedCompany(c, u).idUsu == c.idUsu;
  }

  /** A company form with no non-empty field and no accepted logo changes nothing. */
  lemma EmptyCompanyUpdateKeepsRow(t: Tables, idEmp: string, u: CompanyUpdate)
    requires !Given(u.nit) && !Given(u.tamano) && !Given(u.descEmp) && !Given(u.idCiud)
    requires !Accepted(u.logo, AllowedImage)
    ensures UpdateCompany(t, idEmp, u).after == t
  {
    match CompanyById(t.companies, idEmp)
    case None =>
    case Some(i) =>
      assert UpdatedCompany(t.companies[i], u) == t.companies[i];
      assert t.companies[i := t.companies[i]] == t.companies;
  }
}
