/** The freelancer's vacancy browser: the name search and the apply button's
    request and messages. */
module VacanciesView {
  import opened Wrappers
  import opened Seqs
  import opened Text
  import opened VacancyCard

  /** A vacancy whose name, lower-cased, contains the lower-cased term;
      vacancies without a name never match. */
  function NameMatches(term: string): VacancyItem -> bool {
    (v: VacancyItem) => v.nombre.Some? && Contains(Lower(v.nombre.value), Lower(term))
  }

  /** `filterVacancies`: everything for a blank term, else the matching
      vacancies in their original order.  The term is trimmed only for the
      blank test. */
  function FilterVacancies(vs: seq<VacancyItem>, term: string): (r: seq<VacancyItem>)
    ensures IsBlank(term) ==> r == vs
    ensures !IsBlank(term) ==> forall v :: v in r <==> v in vs && v.nombre.Some? && Contains(Lower(v.nombre.value), Lower(term))
  {
    if IsBlank(term) then vs else Filter(vs, NameMatches(term))
  }

  /** Searching within the results of the same search changes nothing. */
  lemma FilterVacanciesIdempotent(vs: seq<VacancyItem>, term: string)
    ensures FilterVacancies(FilterVacancies(vs, term), term) == FilterVacancies(vs, term)
  {
    if !IsBlank(term) {
      FilterTwice(vs, NameMatches(term), NameMatches(term), NameMatches(term));
    }
  }

  /** The result keeps the original order: searching a concatenation is the
      concatenation of the searches. */
  lemma FilterVacanciesAppend(a: seq<VacancyItem>, b: seq<VacancyItem>, term: string)
    ensures FilterVacancies(a + b, term) == FilterVacancies(a, term) + FilterVacancies(b, term)
  {
    if !IsBlank(term) {
      FilterAppend(a, b, NameMatches(term));
    }
  }

  /** The untrimmed term is matched: " dev" is not blank, and a vacancy named
      "dev" does not contain it. */
  lemma UntrimmedTermMatched(v: VacancyItem)
    requires v.nombre == Some("dev")
    ensures FilterVacancies([v], " dev") == []
  {
    assert !IsJsWhitespace('d');
    assert " dev"[1] == 'd';
    assert !IsBlank(" dev");
    var lower := Lower("dev");
    assert lower == "dev";
    forall j | 0 <= j <= |lower|
      ensures !OccursAt(lower, Lower(" dev"), j)
    {
      assert |Lower(" dev")| == 4;
    }
    assert !NameMatches(" dev")(v);
    assert FilterVacancies([v], " dev") == Filter([v][1..], NameMatches(" dev"));
  }

  /** `id_vac || id`: the identifier the apply request sends. */
  function ApplyTarget(v: VacancyItem): (id: Option<string>)
    ensures TruthyText(v.idVac) ==> id == v.idVac
    ensures !TruthyText(v.idVac) ==> id == v.id
  {
    if TruthyText(v.idVac) then v.idVac else v.id
  }

  /** The server's answer to the apply request: its message, or the HTTP
      status of the error (none for a network failure). */
  datatype ApplyResponse = Applied(mensaje: Option<string>) | ApplyError(status: Option<int>)

  const AppliedDefault: string := "¡Postulación enviada exitosamente!"
  const AlreadyApplied: string := "Ya te has postulado a esta vacante"
  const OnlyFreelancers: string := "Solo freelancers pueden postularse a vacantes"
  const TryAgain: string := "Error al enviar la postulación. Intenta nuevamente."
  const SignInFirst: string := "Debes iniciar sesión como FreeLancer para postularte"
  const FreelancersOnlyLocal: string := "Solo los FreeLancers pueden postularse a vacantes"

  /** The alert shown for the server's answer. */
  function ApplyMessage(r: ApplyResponse): (m: string)
    ensures r.ApplyError? ==>
      m == (if r.status == Some(409) then AlreadyApplied
            else if r.status == Some(403) then OnlyFreelancers
            else TryAgain)
    ensures r.Applied? && TruthyText(r.mensaje) ==> m == r.mensaje.value
    ensures r.Applied? && !TruthyText(r.mensaje) ==> m == AppliedDefault
  {
    match r
    case Applied(msg) => if TruthyText(msg) then msg.value else AppliedDefault
    case ApplyError(status) =>
      if status == Some(409) then AlreadyApplied
      else if status == Some(403) then OnlyFreelancers
      else TryAgain
  }

  /** The server's 409 and 403, and nothing else, get their own messages. */
  lemma ApplyErrorMessagesDistinct(s: Option<int>)
    ensures ApplyMessage(ApplyError(s)) == AlreadyApplied <==> s == Some(409)
    ensures ApplyMessage(ApplyError(s)) == OnlyFreelancers <==> s == Some(403)
  {
    assert |AlreadyApplied| == 34 && |OnlyFreelancers| == 45 && |TryAgain| == 51;
  }

  /** The component's state. */
  class VacanciesBrowser {
    var vacancies: seq<VacancyItem>
    var filteredVacancies: seq<VacancyItem>
    var searchTerm: string
    var selectedVacancy: Option<VacancyItem>
    var isModalOpen: bool

    /** The effect on `[searchTerm, vacancies]` has run. */
    predicate Valid()
      reads this
    {
      filteredVacancies == FilterVacancies(vacancies, searchTerm)
    }

    constructor ()
      ensures Valid() && vacancies == [] && searchTerm == "" && selectedVacancy.None? && !isModalOpen
    {
      vacancies, filteredVacancies, searchTerm := [], [], "";
      selectedVacancy, isModalOpen := None, false;
    }

    /** `loadVacancies`: the fetched list, or the empty list on failure. */
    method Load(fetched: Option<seq<VacancyItem>>)
      modifies this
      ensures Valid()
      ensures vacancies == (if fetched.Some? then fetched.value else [])
      ensures searchTerm == old(searchTerm) && selectedVacancy == old(selectedVacancy) && isModalOpen == old(isModalOpen)
    {
      vacancies := if fetched.Some? then fetched.value else [];
      filteredVacancies := FilterVacancies(vacancies, searchTerm);
    }

    /** `handleSearch`, followed by the filtering effect. */
    method Search(term: string)
      modifies this
      ensures Valid() && searchTerm == term
      ensures vacancies == old(vacancies) && selectedVacancy == old(selectedVacancy) && isModalOpen == old(isModalOpen)
    {
      searchTerm := term;
      if IsBlank(searchTerm) {
        filteredVacancies := vacancies;
        return;
      }
      filteredVacancies := Filter(vacancies, NameMatches(searchTerm));
    }

    method ViewDetails(v: VacancyItem)
      modifies this
      ensures selectedVacancy == Some(v) && isModalOpen
      ensures vacancies == old(vacancies) && filteredVacancies == old(filteredVacancies) && searchTerm == old(searchTerm)
    {
      selectedVacancy := Some(v);
      isModalOpen := true;
    }

    /** `handleApply`: the local sign-in and role checks, then the request
        for `id_vac || id`.  `response` is the server's answer, used only when
        the request is sent.  Returns the id requested, if any, and the alert. */
    method HandleApply(isAuthenticated: bool, userRole: Option<string>, v: VacancyItem, response: ApplyResponse)
      returns (request: Option<Option<string>>, alert: string)
      modifies this
      ensures request.Some? <==> isAuthenticated && userRole == Some(Freelancer)
      ensures request.Some? ==> request.value == ApplyTarget(v) && alert == ApplyMessage(response)
      ensures !isAuthenticated ==> alert == SignInFirst
      ensures isAuthenticated && userRole != Some(Freelancer) ==> alert == FreelancersOnlyLocal
      ensures if request.Some? && response.Applied? then !isModalOpen && selectedVacancy.None?
              else isModalOpen == old(isModalOpen) && selectedVacancy == old(selectedVacancy)
      ensures vacancies == old(vacancies) && filteredVacancies == old(filteredVacancies) && searchTerm == old(searchTerm)
    {
      if !isAuthenticated {
        return None, SignInFirst;
      }
      if userRole != Some(Freelancer) {
        return None, FreelancersOnlyLocal;
      }
      request := Some(ApplyTarget(v));
      alert := ApplyMessage(response);
      if response.Applied? {
        isModalOpen := false;
        selectedVacancy := None;
      }
    }
  }
}

/** A company's own vacancies: delete, open/close toggle and the action menu. */
module MyVacancies {
  import opened Wrappers
  import opened Seqs
  import opened VacancyCard

  const Closed: string := "cerrada"

  /** `estado === "abierta" ? "cerrada" : "abierta"`. */
  function ToggledEstado(estado: Option<string>): (e: string)
    ensures e == Closed <==> estado == Some(Open)
    ensures e == Open <==> estado != Some(Open)
  {
    if estado == Some(Open) then Closed else Open
  }

  /** Toggling twice restores exactly the two states the toggle produces. */
  lemma ToggleTwice(estado: Option<string>)
    ensures (estado == Some(Open) || estado == Some(Closed)) <==>
            Some(ToggledEstado(Some(ToggledEstado(estado)))) == estado
  {
  }

  /** The list with every entry carrying `id` given the new `estado`. */
  function WithEstado(vs: seq<VacancyItem>, id: Option<string>, estado: string): (r: seq<VacancyItem>)
    ensures |r| == |vs|
    ensures forall i :: 0 <= i < |vs| ==> r[i] == (if vs[i].id == id then vs[i].(estado := Some(estado)) else vs[i])
  {
    if vs == [] then []
    else [if vs[0].id == id then vs[0].(estado := Some(estado)) else vs[0]] + WithEstado(vs[1..], id, estado)
  }

  function NotWithId(id: Option<string>): VacancyItem -> bool {
    (v: VacancyItem) => v.id != id
  }

  /** `vacantes.filter(v => v.id !== vacante.id)`. */
  function WithoutId(vs: seq<VacancyItem>, id: Option<string>): (r: seq<VacancyItem>)
    ensures forall v :: v in r <==> v in vs && v.id != id
  {
    Filter(vs, NotWithId(id))
  }

  /** A toggle touches only the entries of that vacancy: removing them from
      the toggled list gives the same list as removing them from the old one. */
  lemma {:induction false} ToggleOnlyTouchesItsEntries(vs: seq<VacancyItem>, id: Option<string>, estado: string)
    ensures WithoutId(WithEstado(vs, id, estado), id) == WithoutId(vs, id)
  {
    if vs != [] {
      var w := WithEstado(vs, id, estado);
      assert w == [w[0]] + w[1..];
      assert w[1..] == WithEstado(vs[1..], id, estado);
      assert w[0].id == vs[0].id;
      ToggleOnlyTouchesItsEntries(vs[1..], id, estado);
      FilterAppend([w[0]], w[1..], NotWithId(id));
      FilterAppend([vs[0]], vs[1..], NotWithId(id));
      assert vs == [vs[0]] + vs[1..];
      if vs[0].id == id {
        assert Filter([w[0]], NotWithId(id)) == [] == Filter([vs[0]], NotWithId(id));
      } else {
        assert w[0] == vs[0];
      }
    }
  }

  /** The three-dot menu: the id of the vacancy whose menu is open. */
  function ToggledMenu(menu: Option<Option<string>>, id: Option<string>): (m: Option<Option<string>>)
    ensures m.None? <==> menu == Some(id)
    ensures m.Some? ==> m.value == id
  {
    if menu == Some(id) then None else Some(id)
  }

  class MyVacanciesList {
    var vacantes: seq<VacancyItem>
    var menuAbierto: Option<Option<string>>

    constructor ()
      ensures vacantes == [] && menuAbierto.None?
    {
      vacantes, menuAbierto := [], None;
    }

    method ToggleMenu(id: Option<string>)
      modifies this
      ensures menuAbierto == ToggledMenu(old(menuAbierto), id) && vacantes == old(vacantes)
    {
      menuAbierto := if menuAbierto == Some(id) then None else Some(id);
    }

    /** `handleToggleEstado` after the user answered the confirmation
        (`confirmed`) and, if asked, the API answered (`apiOk`).  Returns
        whether the API was called. */
    method HandleToggleEstado(v: VacancyItem, confirmed: bool, apiOk: bool) returns (called: bool)
      modifies this
      ensures called == confirmed
      ensures vacantes == if confirmed && apiOk then WithEstado(old(vacantes), v.id, ToggledEstado(v.estado))
                          else old(vacantes)
      ensures menuAbierto == old(menuAbierto)
    {
      var nuevo := ToggledEstado(v.estado);
      if !confirmed {
        return false;
      }
      called := true;
      if apiOk {
        vacantes := WithEstado(vacantes, v.id, nuevo);
      }
    }

    /** `handleDelete`'s local path (no `onDelete` from the parent). */
    method HandleDelete(v: VacancyItem, confirmed: bool, apiOk: bool) returns (called: bool)
      modifies this
      ensures called == confirmed
      ensures vacantes == if confirmed && apiOk then WithoutId(old(vacantes), v.id) else old(vacantes)
      ensures menuAbierto == old(menuAbierto)
    {
      if !confirmed {
        return false;
      }
      called := true;
      if apiOk {
        vacantes := Filter(vacantes, NotWithId(v.id));
      }
    }

    /** `handleDeleteClick` / `handleToggleClick` / `handleEdit`: each closes
        the menu first. */
    method CloseMenu()
      modifies this
      ensures menuAbierto.None? && vacantes == old(vacantes)
    {
      menuAbierto := None;
    }
  }
}
