/** The vacancy card shown in every vacancy list: its open/closed state, who
    may apply from it, and its "time ago" label.  `isAuthenticated` and
    `userRole` come from the authentication context. */
module VacancyCard {
  import opened Wrappers
  import opened Text

  /** A vacancy as the client receives it; every field may be missing. */
  datatype VacancyItem = VacancyItem(
    id: Option<string>, idVac: Option<string>, nombre: Option<string>,
    estado: Option<string>, estadoVac: Option<string>, salario: Option<int>)

  const Freelancer: string := "FreeLancer"
  const Open: string := "abierta"

  /** JavaScript truthiness of an optional string: present and non-empty. */
  predicate TruthyText(s: Option<string>) {
    s.Some? && s.value != ""
  }

  /** `estado || estado_vac || "abierta"`. */
  function CardState(v: VacancyItem): (s: string)
    ensures TruthyText(v.estado) ==> s == v.estado.value
    ensures !TruthyText(v.estado) && TruthyText(v.estadoVac) ==> s == v.estadoVac.value
    ensures !TruthyText(v.estado) && !TruthyText(v.estadoVac) ==> s == Open
  {
    if TruthyText(v.estado) then v.estado.value
    else if TruthyText(v.estadoVac) then v.estadoVac.value
    else Open
  }

  /** The vacancy counts as open iff its state lower-cases to "abierta". */
  predicate IsActive(v: VacancyItem) {
    Lower(CardState(v)) == Open
  }

  predicate CanApply(isAuthenticated: bool, userRole: Option<string>, v: VacancyItem) {
    isAuthenticated && userRole == Some(Freelancer) && IsActive(v)
  }

  /** `showApplyButton && (canApply || !isAuthenticated || userRole === "FreeLancer")`. */
  predicate ShouldShowButton(showApplyButton: bool, isAuthenticated: bool, userRole: Option<string>, v: VacancyItem) {
    showApplyButton && (CanApply(isAuthenticated, userRole, v) || !isAuthenticated || userRole == Some(Freelancer))
  }

  /** The button shows exactly to visitors and to freelancers: the `canApply`
      disjunct adds nothing, so a signed-in company never sees it, whatever
      the vacancy's state. */
  lemma ButtonAudience(showApplyButton: bool, isAuthenticated: bool, userRole: Option<string>, v: VacancyItem)
    ensures ShouldShowButton(showApplyButton, isAuthenticated, userRole, v) <==>
            showApplyButton && (!isAuthenticated || userRole == Some(Freelancer))
  {
  }

  /** A missing state, or any capitalisation of "abierta", reads as open. */
  lemma OpenSpellings(v: VacancyItem)
    requires !TruthyText(v.estado) && !TruthyText(v.estadoVac)
    ensures IsActive(v)
    ensures IsActive(v.(estado := Some("ABIERTA"))) && IsActive(v.(estado := Some("Abierta")))
    ensures !IsActive(v.(estado := Some("cerrada")))
  {
    LowerOpenSpellings();
    assert CardState(v) == Open;
    assert CardState(v.(estado := Some("ABIERTA"))) == "ABIERTA";
    assert CardState(v.(estado := Some("Abierta"))) == "Abierta";
    var c := "cerrada";
    assert CardState(v.(estado := Some(c))) == c;
    assert Lower(c)[0] == LowerChar(c[0]) == 'c';
  }

  lemma LowerOpenSpellings()
    ensures Lower(Open) == Open && Lower("ABIERTA") == Open && Lower("Abierta") == Open
  {
    LowerOfSpelling(Open);
    LowerOfSpelling("ABIERTA");
    LowerOfSpelling("Abierta");
  }

  lemma LowerOfSpelling(u: string)
    requires |u| == |Open|
    requires forall i :: 0 <= i < |u| ==> LowerChar(u[i]) == Open[i]
    ensures Lower(u) == Open
  {
  }

  /** What a click on "Postularse" does. */
  datatype ApplyClick =
    | AlertSignIn          // "Debes iniciar sesión como FreeLancer para postularte"
    | AlertFreelancersOnly // "Solo los FreeLancers pueden postularse a vacantes"
    | CallOnApply          // onApply(vacante)
    | LogOnly              // no callback: console.log only

  /** `handleApply`: the sign-in check, then the role check, then the callback. */
  function HandleApply(isAuthenticated: bool, userRole: Option<string>, hasOnApply: bool): (r: ApplyClick)
    ensures r == CallOnApply <==> isAuthenticated && userRole == Some(Freelancer) && hasOnApply
    ensures r == AlertSignIn <==> !isAuthenticated
    ensures r == AlertFreelancersOnly <==> isAuthenticated && userRole != Some(Freelancer)
  {
    if !isAuthenticated then AlertSignIn
    else if userRole != Some(Freelancer) then AlertFreelancersOnly
    else if hasOnApply then CallOnApply
    else LogOnly
  }

  /** The button is disabled unless `canApply`; so a click that gets through
      never raises either alert. */
  lemma EnabledButtonNeverAlerts(isAuthenticated: bool, userRole: Option<string>, v: VacancyItem, hasOnApply: bool)
    requires CanApply(isAuthenticated, userRole, v)
    ensures HandleApply(isAuthenticated, userRole, hasOnApply) == (if hasOnApply then CallOnApply else LogOnly)
  {
  }

  // ---------------------------------------------------------------------
  // getTimeAgo, over the difference in whole calendar days.

  /** The label for a publication `days` calendar days ago; `None` when the
      vacancy has no publication date. */
  function TimeAgo(days: Option<int>): (r: Option<string>)
    ensures r.None? <==> days.None?
    ensures days == Some(0) ==> r == Some("Hoy")
    ensures days == Some(1) ==> r == Some("Hace 1 día")
    ensures days.Some? && days.value < 7 && days.value != 0 && days.value != 1 ==>
      r == Some("Hace " + IntToString(days.value) + " días")
    ensures days.Some? && 7 <= days.value < 30 ==> r == Some("Hace " + IntToString(days.value / 7) + " semanas")
    ensures days.Some? && days.value >= 30 ==> r == Some("Hace " + IntToString(days.value / 30) + " meses")
  {
    match days
    case None => None
    case Some(d) =>
      if d == 0 then Some("Hoy")
      else if d == 1 then Some("Hace 1 día")
      else if d < 7 then Some("Hace " + IntToString(d) + " días")
      else if d < 30 then Some("Hace " + IntToString(d / 7) + " semanas")
      else Some("Hace " + IntToString(d / 30) + " meses")
  }

  /** The week count shown is always 1 to 4 and the month count at least 1,
      and `Math.floor` agrees with the division used, the day count being
      positive there. */
  lemma TimeAgoCounts(d: int)
    ensures 7 <= d < 30 ==> 1 <= d / 7 <= 4 && (d / 7) * 7 <= d < (d / 7 + 1) * 7
    ensures d >= 30 ==> d / 30 >= 1 && (d / 30) * 30 <= d < (d / 30 + 1) * 30
  {
  }

  /** A publication date in the future (a negative difference) is labelled
      as that many days ago, sign included. */
  lemma FutureDateLabel()
    ensures TimeAgo(Some(-2)) == Some("Hace -2 días")
  {
    assert DigitChar(2) == '2';
    assert NatToString(2) == "2";
    assert IntToString(-2) == "-2";
    assert "Hace " + "-2" + " días" == "Hace -2 días";
  }

  /** `formatSalary`: the amount handed to the currency formatter, or `None`
      (`null`) for a missing or zero salary; the locale rendering itself is
      not modelled. */
  function SalaryToFormat(salary: Option<int>): (r: Option<int>)
    ensures r.None? <==> salary.None? || salary.value == 0
    ensures r.Some? ==> r == salary
  {
    if salary.None? || salary.value == 0 then None else salary
  }
}
