/** The application (postulación) lifecycle: a freelancer applies once per
    vacancy, the decision sets "aceptada" or "rechazada", and the freelancer may
    withdraw an application of their own while it is "pendiente". */
module Applications {
  import opened Wrappers
  import opened Seqs
  import opened Store

  /** No two applications share a (freelancer, vacancy) pair. */
  predicate PairsUnique(aps: seq<Application>) {
    forall i, j :: 0 <= i < j < |aps| ==> !(aps[i].idFree == aps[j].idFree && aps[i].idVac == aps[j].idVac)
  }

  // ---------------------------------------------------------------------
  // POST /api/postular/<id_vac>

  datatype ApplyReply =
    | ApplyForbidden                          // 403
    | ApplyNoProfile                          // 404
    | ApplyNoVacancy                          // 404
    | ApplyDuplicate                          // 409
    | Applied(idPost: string, estado: string) // 201

  /** Guards in order: role, freelancer profile, vacancy, duplicate pair; then a
      new "pendiente" application.  The vacancy's own state is not consulted. */
  function ApplyToVacancy(t: Tables, caller: User, idVac: string, newId: string): (o: Outcome<ApplyReply>)
    ensures !o.reply.Applied? ==> o.after == t
    ensures caller.rol != "FreeLancer" ==> o.reply == ApplyForbidden
    ensures caller.rol == "FreeLancer" && FreelancerOfUser(t.freelancers, caller.idUsu).None? ==> o.reply == ApplyNoProfile
    ensures caller.rol == "FreeLancer" && FreelancerOfUser(t.freelancers, caller.idUsu).Some? ==>
      (VacancyById(t.vacancies, idVac).None? ==> o.reply == ApplyNoVacancy) &&
      (VacancyById(t.vacancies, idVac).Some? &&
       ApplicationOfPair(t.applications, t.freelancers[FreelancerOfUser(t.freelancers, caller.idUsu).value].idFree, idVac).Some?
       ==> o.reply == ApplyDuplicate)
    ensures o.reply.Applied? <==>
      caller.rol == "FreeLancer" && FreelancerOfUser(t.freelancers, caller.idUsu).Some? &&
      VacancyById(t.vacancies, idVac).Some? &&
      ApplicationOfPair(t.applications, t.freelancers[FreelancerOfUser(t.freelancers, caller.idUsu).value].idFree, idVac).None?
    ensures o.reply.Applied? ==>
      var f := t.freelancers[FreelancerOfUser(t.freelancers, caller.idUsu).value];
      o.reply == Applied(newId, "pendiente") &&
      o.after == t.(applications := t.applications + [Application(newId, f.idFree, idVac, "pendiente")])
  {
    if caller.rol != "FreeLancer" then Outcome(ApplyForbidden, t)
    else match FreelancerOfUser(t.freelancers, caller.idUsu)
      case None => Outcome(ApplyNoProfile, t)
      case Some(fi) =>
        var f := t.freelancers[fi];
        if VacancyById(t.vacancies, idVac).None? then Outcome(ApplyNoVacancy, t)
        else if ApplicationOfPair(t.applications, f.idFree, idVac).Some? then Outcome(ApplyDuplicate, t)
        else
          var a := Application(newId, f.idFree, idVac, "pendiente");
          Outcome(Applied(a.idPost, a.estado), t.(applications := t.applications + [a]))
  }

  method ServeApply(db: Database, caller: User, idVac: string, newId: string) returns (reply: ApplyReply)
    modifies db
    ensures Outcome(reply, db.Snapshot()) == ApplyToVacancy(old(db.Snapshot()), caller, idVac, newId)
  {
    if caller.rol != "FreeLancer" {
      return ApplyForbidden;
    }
    var fi := FreelancerOfUser(db.freelancers, caller.idUsu);
    if fi.None? {
      return ApplyNoProfile;
    }
    var f := db.freelancers[fi.value];
    if VacancyById(db.vacancies, idVac).None? {
      return ApplyNoVacancy;
    }
    if ApplicationOfPair(db.applications, f.idFree, idVac).Some? {
      return ApplyDuplicate;
    }
    var a := Application(newId, f.idFree, idVac, "pendiente");
    db.applications := db.applications + [a];
    reply := Applied(a.idPost, a.estado);
  }

  /** Applying keeps at most one application per (freelancer, vacancy). */
  lemma ApplyKeepsPairsUnique(t: Tables, caller: User, idVac: string, newId: string)
    requires PairsUnique(t.applications)
    ensures PairsUnique(ApplyToVacancy(t, caller, idVac, newId).after.applications)
  {
  }

  /** A second application by the same freelancer to the same vacancy is refused
      with 409 and changes nothing. */
  lemma ApplyTwiceIsDuplicate(t: Tables, caller: User, idVac: string, id1: string, id2: string)
    requires ApplyToVacancy(t, caller, idVac, id1).reply.Applied?
    ensures var t1 := ApplyToVacancy(t, caller, idVac, id1).after;
            ApplyToVacancy(t1, caller, idVac, id2) == Outcome(ApplyDuplicate, t1)
  {
    var t1 := ApplyToVacancy(t, caller, idVac, id1).after;
    var f := t.freelancers[FreelancerOfUser(t.freelancers, caller.idUsu).value];
    assert t1.applications[|t.applications|] == Application(id1, f.idFree, idVac, "pendiente");
  }

  // ---------------------------------------------------------------------
  // PUT /api/postulacion/estado/<id_post>

  datatype StatusReply =
    | StatusInvalid                             // 400
    | StatusNotFound                            // 404: no such application
    | StatusIncomplete                          // 404: its freelancer or vacancy is missing
    | StatusUpdated(idPost: string, estado: string)   // 200

  predicate IsDecision(estado: Option<string>) {
    estado == Some("aceptada") || estado == Some("rechazada")
  }

  /** Sets the decision on the application.  Neither its current state nor the
      caller's ownership of the vacancy is checked.  `mailSent` is whether the
      notification e-mail went out; a failure is only logged. */
  function UpdateStatus(t: Tables, idPost: string, estado: Option<string>, mailSent: bool): (o: Outcome<StatusReply>)
    ensures !IsDecision(estado) ==> o == Outcome(StatusInvalid, t)
    ensures IsDecision(estado) && ApplicationById(t.applications, idPost).None? ==> o == Outcome(StatusNotFound, t)
    ensures IsDecision(estado) && ApplicationById(t.applications, idPost).Some? ==>
      var a := t.applications[ApplicationById(t.applications, idPost).value];
      ((FreelancerById(t.freelancers, a.idFree).None? || VacancyById(t.vacancies, a.idVac).None?) <==>
       o == Outcome(StatusIncomplete, t))
    ensures !o.reply.StatusUpdated? ==> o.after == t
    ensures o.reply.StatusUpdated? <==>
      IsDecision(estado) && ApplicationById(t.applications, idPost).Some? &&
      var a := t.applications[ApplicationById(t.applications, idPost).value];
      FreelancerById(t.freelancers, a.idFree).Some? && VacancyById(t.vacancies, a.idVac).Some?
    ensures o.reply.StatusUpdated? ==>
      IsDecision(estado) && ApplicationById(t.applications, idPost).Some? &&
      var i := ApplicationById(t.applications, idPost).value;
      var a := t.applications[i];
      FreelancerById(t.freelancers, a.idFree).Some? && VacancyById(t.vacancies, a.idVac).Some? &&
      o.reply == StatusUpdated(idPost, estado.value) &&
      o.after == t.(applications := t.applications[i := a.(estado := estado.value)])
  {
    if !IsDecision(estado) then Outcome(StatusInvalid, t)
    else match ApplicationById(t.applications, idPost)
      case None => Outcome(StatusNotFound, t)
      case Some(i) =>
        var a := t.applications[i];
        if FreelancerById(t.freelancers, a.idFree).None? || VacancyById(t.vacancies, a.idVac).None? then
          Outcome(StatusIncomplete, t)
        else
          Outcome(StatusUpdated(a.idPost, estado.value), t.(applications := t.applications[i := a.(estado := estado.value)]))
  }

  method ServeUpdateStatus(db: Database, idPost: string, estado: Option<string>, mailSent: bool) returns (reply: StatusReply)
    modifies db
    ensures Outcome(reply, db.Snapshot()) == UpdateStatus(old(db.Snapshot()), idPost, estado, mailSent)
  {
    if !IsDecision(estado) {
      return StatusInvalid;
    }
    var found := ApplicationById(db.applications, idPost);
    if found.None? {
      return StatusNotFound;
    }
    var i := found.value;
    var a := db.applications[i];
    if FreelancerById(db.freelancers, a.idFree).None? || VacancyById(db.vacancies, a.idVac).None? {
      return StatusIncomplete;
    }
    db.applications := db.applications[i := a.(estado := estado.value)];
    reply := StatusUpdated(db.applications[i].idPost, db.applications[i].estado);
  }

  /** The e-mail outcome changes neither the tables nor the reply. */
  lemma UpdateStatusIgnoresMail(t: Tables, idPost: string, estado: Option<string>)
    ensures UpdateStatus(t, idPost, estado, true) == UpdateStatus(t, idPost, estado, false)
  {
  }

  /** A decision can be reversed: an accepted application can later be rejected. */
  lemma DecisionCanBeReversed(t: Tables, idPost: string)
    requires UpdateStatus(t, idPost, Some("aceptada"), true).reply.StatusUpdated?
    ensures var t1 := UpdateStatus(t, idPost, Some("aceptada"), true).after;
            var o2 := UpdateStatus(t1, idPost, Some("rechazada"), true);
            o2.reply == StatusUpdated(idPost, "rechazada") &&
            o2.after.applications[ApplicationById(t.applications, idPost).value].estado == "rechazada"
  {
    var i := ApplicationById(t.applications, idPost).value;
    var t1 := UpdateStatus(t, idPost, Some("aceptada"), true).after;
    assert forall k :: 0 <= k < |t1.applications| ==> t1.applications[k].idPost == t.applications[k].idPost;
    assert ApplicationById(t1.applications, idPost) == Some(i);
  }

  // ---------------------------------------------------------------------
  // DELETE /api/postulacion/cancelar/<id_post>

  datatype CancelReply =
    | CancelNoProfile            // 403
    | CancelNotFound             // 404
    | CancelNotOwner             // 403
    | CancelNotPending(estado: string)   // 400
    | Cancelled                  // 200

  /** Guards in order: the caller's freelancer profile, the application, its
      owner, its state; then exactly that row is deleted. */
  function CancelApplication(t: Tables, caller: User, idPost: string): (o: Outcome<CancelReply>)
    ensures !o.reply.Cancelled? ==> o.after == t
    ensures FreelancerOfUser(t.freelancers, caller.idUsu).None? ==> o.reply == CancelNoProfile
    ensures FreelancerOfUser(t.freelancers, caller.idUsu).Some? && ApplicationById(t.applications, idPost).None?
            ==> o.reply == CancelNotFound
    ensures FreelancerOfUser(t.freelancers, caller.idUsu).Some? && ApplicationById(t.applications, idPost).Some? ==>
      var a := t.applications[ApplicationById(t.applications, idPost).value];
      var f := t.freelancers[FreelancerOfUser(t.freelancers, caller.idUsu).value];
      (a.idFree != f.idFree ==> o.reply == CancelNotOwner) &&
      (a.idFree == f.idFree && a.estado != "pendiente" ==> o.reply == CancelNotPending(a.estado))
    ensures o.reply.Cancelled? <==>
      FreelancerOfUser(t.freelancers, caller.idUsu).Some? &&
      ApplicationById(t.applications, idPost).Some? &&
      var a := t.applications[ApplicationById(t.applications, idPost).value];
      a.idFree == t.freelancers[FreelancerOfUser(t.freelancers, caller.idUsu).value].idFree &&
      a.estado == "pendiente"
    ensures o.reply.Cancelled? ==>
      o.after == t.(applications := RemoveAt(t.applications, ApplicationById(t.applications, idPost).value))
  {
    match FreelancerOfUser(t.freelancers, caller.idUsu)
    case None => Outcome(CancelNoProfile, t)
    case Some(fi) =>
      match ApplicationById(t.applications, idPost)
      case None => Outcome(CancelNotFound, t)
      case Some(i) =>
        var a := t.applications[i];
        if a.idFree != t.freelancers[fi].idFree then Outcome(CancelNotOwner, t)
        else if a.estado != "pendiente" then Outcome(CancelNotPending(a.estado), t)
        else Outcome(Cancelled, t.(applications := RemoveAt(t.applications, i)))
  }

  method ServeCancel(db: Database, caller: User, idPost: string) returns (reply: CancelReply)
    modifies db
    ensures Outcome(reply, db.Snapshot()) == CancelApplication(old(db.Snapshot()), caller, idPost)
  {
    var fi := FreelancerOfUser(db.freelancers, caller.idUsu);
    if fi.None? {
      return CancelNoProfile;
    }
    var found := ApplicationById(db.applications, idPost);
    if found.None? {
      return CancelNotFound;
    }
    var i := found.value;
    var a := db.applications[i];
    if a.idFree != db.freelancers[fi.value].idFree {
      return CancelNotOwner;
    }
    if a.estado != "pendiente" {
      return CancelNotPending(a.estado);
    }
    db.applications := db.applications[..i] + db.applications[i + 1..];
    reply := Cancelled;
  }

  /** Withdrawing keeps pairs unique. */
  lemma CancelKeepsPairsUnique(t: Tables, caller: User, idPost: string)
    requires PairsUnique(t.applications)
    ensures PairsUnique(CancelApplication(t, caller, idPost).after.applications)
  {
    var o := CancelApplication(t, caller, idPost);
    if o.reply.Cancelled? {
      var i := ApplicationById(t.applications, idPost).value;
      var r := o.after.applications;
      forall p, q | 0 <= p < q < |r|
        ensures !(r[p].idFree == r[q].idFree && r[p].idVac == r[q].idVac)
      {
        var p' := if p < i then p else p + 1;
        var q' := if q < i then q else q + 1;
        assert r[p] == t.applications[p'] && r[q] == t.applications[q'];
      }
    }
  }

  /** After a withdrawal the duplicate check no longer finds the pair, so the
      freelancer may apply to the same vacancy again. */
  lemma CancelThenApplyAgain(t: Tables, caller: User, idPost: string, newId: string)
    requires PairsUnique(t.applications)
    requires caller.rol == "FreeLancer"
    requires CancelApplication(t, caller, idPost).reply.Cancelled?
    requires VacancyById(t.vacancies, t.applications[ApplicationById(t.applications, idPost).value].idVac).Some?
    ensures var a := t.applications[ApplicationById(t.applications, idPost).value];
            var t1 := CancelApplication(t, caller, idPost).after;
            ApplyToVacancy(t1, caller, a.idVac, newId).reply.Applied?
  {
    var i := ApplicationById(t.applications, idPost).value;
    var a := t.applications[i];
    var t1 := CancelApplication(t, caller, idPost).after;
    var r := t1.applications;
    forall k | 0 <= k < |r|
      ensures !(r[k].idFree == a.idFree && r[k].idVac == a.idVac)
    {
      var k' := if k < i then k else k + 1;
      assert r[k] == t.applications[k'];
      if k' < i {
        assert !(t.applications[k'].idFree == t.applications[i].idFree && t.applications[k'].idVac == t.applications[i].idVac);
      } else {
        assert !(t.applications[i].idFree == t.applications[k'].idFree && t.applications[i].idVac == t.applications[k'].idVac);
      }
    }
  }
}
