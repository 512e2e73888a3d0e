/** The freelancer's dashboard: who may stay on it, the application-status
    notifications not yet seen, and the precondition of saving the profile.
    The list of seen notification ids lives in the browser's storage under
    "notificacionesVistas"; it is held here as the list itself. */
module FreelanceDashboard {
  import opened Wrappers
  import opened Seqs
  import opened VacancyCard

  const LoginRoute: string := "/login"
  const VacanciesView: string := "vacantes"
  const MissingFreelancerId: string := "No se encontró el ID del freelancer"

  /** One change of an application's status, as the server lists it; `id` is
      the application's `id_post`. */
  datatype Change = Change(id: string, estado: string)

  /** The dashboard sends away anyone who is not a signed-in freelancer. */
  predicate MustLeave(isAuthenticated: bool, userRole: Option<string>) {
    !isAuthenticated || userRole != Some(Freelancer)
  }

  function Ids(cs: seq<Change>): (ids: seq<string>)
    ensures |ids| == |cs|
    ensures forall i :: 0 <= i < |cs| ==> ids[i] == cs[i].id
  {
    if cs == [] then [] else [cs[0].id] + Ids(cs[1..])
  }

  function NotSeen(seen: seq<string>): Change -> bool {
    (c: Change) => c.id !in seen
  }

  /** The changes whose id is not in the seen list, in server order. */
  function Unseen(cambios: seq<Change>, seen: seq<string>): (r: seq<Change>)
    ensures forall c :: c in r <==> c in cambios && c.id !in seen
  {
    Filter(cambios, NotSeen(seen))
  }

  /** The seen list after closing the modal: the old one followed by the ids
      of every current change, duplicates kept. */
  function MarkedSeen(seen: Option<seq<string>>, cambios: seq<Change>): (r: seq<string>)
    ensures |r| == |seen.GetOr([])| + |cambios|
    ensures seen.GetOr([]) <= r
  {
    seen.GetOr([]) + Ids(cambios)
  }

  /** Once the modal is closed, none of the current changes counts as unseen. */
  lemma ClosingSeesEverything(seen: Option<seq<string>>, cambios: seq<Change>)
    ensures Unseen(cambios, MarkedSeen(seen, cambios)) == []
  {
    var m := MarkedSeen(seen, cambios);
    forall i | 0 <= i < |cambios|
      ensures !NotSeen(m)(cambios[i])
    {
      assert m[|seen.GetOr([])| + i] == cambios[i].id;
    }
    FilterNone(cambios, NotSeen(m));
  }

  lemma {:induction false} FilterNone<T(!new)>(s: seq<T>, keep: T -> bool)
    requires forall i :: 0 <= i < |s| ==> !keep(s[i])
    ensures Filter(s, keep) == []
  {
    if s != [] {
      FilterNone(s[1..], keep);
    }
  }

  /** Seeing more ids never brings a change back: the unseen list under a
      longer seen list is a filter of the one under the shorter list. */
  lemma MoreSeenFewerUnseen(cambios: seq<Change>, seen: seq<string>, more: seq<string>)
    ensures Unseen(cambios, seen + more) == Filter(Unseen(cambios, seen), NotSeen(more))
  {
    FilterTwice(cambios, NotSeen(seen), NotSeen(more), NotSeen(seen + more));
  }

  /** The server's answer to the recent-changes query. */
  datatype ChangesResponse = ChangesResponse(success: bool, cambios: Option<seq<Change>>)

  /** Whether the answer carries a non-empty list of changes. */
  predicate HasChanges(r: Option<ChangesResponse>) {
    r.Some? && r.value.success && r.value.cambios.Some? && |r.value.cambios.value| > 0
  }

  /** The outcome of `handleSaveProfile`. */
  datatype SaveResult =
    | SaveFailed(message: string)   // alert("Error al actualizar el perfil: " + message)
    | SaveRequested(freelancerId: string)

  class Dashboard {
    var cambiosPostulaciones: seq<Change>
    var cambiosNoVistos: seq<Change>
    var showNotificationModal: bool
    var showEditSuccessModal: bool
    var activeView: string
    /** The parsed "notificacionesVistas" entry of the browser's storage. */
    var seenStore: Option<seq<string>>
    var navigation: Option<string>

    constructor (seenStore: Option<seq<string>>)
      ensures this.seenStore == seenStore && cambiosPostulaciones == [] && cambiosNoVistos == []
      ensures !showNotificationModal && !showEditSuccessModal && activeView == VacanciesView && navigation.None?
    {
      this.seenStore := seenStore;
      cambiosPostulaciones, cambiosNoVistos := [], [];
      showNotificationModal, showEditSuccessModal := false, false;
      activeView, navigation := VacanciesView, None;
    }

    /** The sidebar's badge. */
    function NotificationCount(): (n: nat)
      reads this
      ensures n == |cambiosNoVistos|
    {
      |cambiosNoVistos|
    }

    /** The loading effect: the role guard, then, for a complete profile only,
        the recent changes (`response`, `None` when the query failed). */
    method Initialize(isAuthenticated: bool, userRole: Option<string>, profileComplete: bool,
                      response: Option<ChangesResponse>)
      modifies this
      ensures MustLeave(isAuthenticated, userRole) ==>
        navigation == Some(LoginRoute) &&
        cambiosPostulaciones == old(cambiosPostulaciones) && cambiosNoVistos == old(cambiosNoVistos)
      ensures !MustLeave(isAuthenticated, userRole) && profileComplete && HasChanges(response) ==>
        cambiosPostulaciones == response.value.cambios.value &&
        cambiosNoVistos == Unseen(response.value.cambios.value, seenStore.GetOr([]))
      ensures !MustLeave(isAuthenticated, userRole) && !(profileComplete && HasChanges(response)) ==>
        cambiosPostulaciones == old(cambiosPostulaciones) && cambiosNoVistos == old(cambiosNoVistos)
      ensures !MustLeave(isAuthenticated, userRole) ==> navigation == old(navigation)
      ensures seenStore == old(seenStore) && showNotificationModal == old(showNotificationModal)
      ensures showEditSuccessModal == old(showEditSuccessModal) && activeView == old(activeView)
    {
      if MustLeave(isAuthenticated, userRole) {
        navigation := Some(LoginRoute);
        return;
      }
      if profileComplete && HasChanges(response) {
        var cambios := response.value.cambios.value;
        cambiosPostulaciones := cambios;
        var vistas := seenStore.GetOr([]);
        cambiosNoVistos := Filter(cambios, NotSeen(vistas));
      }
    }

    /** `handleCloseNotificationModal`. */
    method CloseNotificationModal()
      modifies this
      ensures seenStore == Some(MarkedSeen(old(seenStore), old(cambiosPostulaciones)))
      ensures !showNotificationModal && cambiosNoVistos == []
      ensures cambiosPostulaciones == old(cambiosPostulaciones)
      ensures showEditSuccessModal == old(showEditSuccessModal) && activeView == old(activeView)
      ensures navigation == old(navigation)
    {
      var vistas := seenStore.GetOr([]);
      var nuevas := vistas + Ids(cambiosPostulaciones);
      seenStore := Some(nuevas);
      showNotificationModal := false;
      cambiosNoVistos := [];
    }

    /** `handleSaveProfile`: fails when the storage holds no (or an empty)
        "freelancerId"; otherwise the update is sent, and on the server's
        success the edit view closes with the success modal. */
    method SaveProfile(freelancerId: Option<string>, success: bool) returns (r: SaveResult)
      modifies this
      ensures r.SaveFailed? <==> freelancerId.None? || freelancerId.value == ""
      ensures r.SaveFailed? ==> r.message == MissingFreelancerId
      ensures r.SaveRequested? ==> r.freelancerId == freelancerId.value
      ensures if r.SaveRequested? && success then showEditSuccessModal && activeView == VacanciesView
              else showEditSuccessModal == old(showEditSuccessModal) && activeView == old(activeView)
      ensures cambiosPostulaciones == old(cambiosPostulaciones) && cambiosNoVistos == old(cambiosNoVistos)
      ensures seenStore == old(seenStore) && showNotificationModal == old(showNotificationModal)
      ensures navigation == old(navigation)
    {
      if freelancerId.None? || freelancerId.value == "" {
        return SaveFailed(MissingFreelancerId);
      }
      r := SaveRequested(freelancerId.value);
      if success {
        showEditSuccessModal := true;
        activeView := VacanciesView;
      }
    }
  }
}
