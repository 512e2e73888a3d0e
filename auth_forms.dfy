/** The registration form: tracking whether the two password fields match,
    the checks before the request, and the reset when the success modal
    closes.  `registerError` is the outcome of the request: `None` when the
    server accepted it, otherwise the text the alert shows. */
module RegisterForm {
  import opened Wrappers

  const RoleFreelancer: string := "freelancer"
  const RoleCompany: string := "empresa"
  const LoginRoute: string := "/login"
  const AcceptTermsFirst: string := "Debes aceptar los Términos y Condiciones para continuar"
  const PasswordsDiffer: string := "Las contraseñas no coinciden"
  const RegisterFailed: string := "Error al registrar usuario: "
  const TryAgain: string := "Intenta nuevamente"

  /** The alert after a failed registration: the server's or the network's
      message, or `TryAgain` when that message is empty (JavaScript's `||`). */
  function RegisterAlert(message: string): (a: string)
    ensures RegisterFailed <= a
    ensures message != "" ==> a[|RegisterFailed|..] == message
    ensures message == "" ==> a[|RegisterFailed|..] == TryAgain
  {
    RegisterFailed + (if message != "" then message else TryAgain)
  }

  /** The flag set after editing one password field to `value` while the
      other holds `other`: false iff `other` is non-empty and differs. */
  function MatchAfterEdit(other: string, value: string): (m: bool)
    ensures !m <==> other != "" && value != other
  {
    !(other != "" && value != other)
  }

  /** The flag agrees with the fields whenever both are filled in. */
  predicate Tracked(password: string, confirm: string, passwordsMatch: bool) {
    password != "" && confirm != "" ==> (passwordsMatch <==> password == confirm)
  }

  /** The mismatch message under the fields. */
  predicate ShowsMismatch(password: string, confirm: string, passwordsMatch: bool) {
    !passwordsMatch && password != "" && confirm != ""
  }

  /** Editing either field keeps the flag in step with the fields. */
  lemma EditsKeepTracked(password: string, confirm: string, value: string)
    ensures Tracked(value, confirm, MatchAfterEdit(confirm, value))
    ensures Tracked(password, value, MatchAfterEdit(password, value))
  {
  }

  /** With the flag in step, the message shows exactly when both fields are
      filled in and differ. */
  lemma MismatchShownIffDiffer(password: string, confirm: string, passwordsMatch: bool)
    requires Tracked(password, confirm, passwordsMatch)
    ensures ShowsMismatch(password, confirm, passwordsMatch) <==> password != "" && confirm != "" && password != confirm
  {
  }

  /** The alert that blocks the submission, if any: the terms first, then
      the two fields compared directly (not through the flag). */
  function SubmitBlock(acceptTerms: bool, password: string, confirm: string): (r: Option<string>)
    ensures r.None? <==> acceptTerms && password == confirm
    ensures !acceptTerms ==> r == Some(AcceptTermsFirst)
    ensures acceptTerms && password != confirm ==> r == Some(PasswordsDiffer)
  {
    if !acceptTerms then Some(AcceptTermsFirst)
    else if password != confirm then Some(PasswordsDiffer)
    else None
  }

  /** A visible mismatch message always blocks the submission; the converse
      fails: a filled password with an empty confirmation shows no message
      but is still refused. */
  lemma MismatchShownBlocksSubmit(acceptTerms: bool, password: string, confirm: string, passwordsMatch: bool)
    requires Tracked(password, confirm, passwordsMatch)
    ensures ShowsMismatch(password, confirm, passwordsMatch) ==> SubmitBlock(acceptTerms, password, confirm).Some?
    ensures !ShowsMismatch("abc", "", MatchAfterEdit("abc", "")) && SubmitBlock(true, "abc", "").Some?
  {
  }

  /** The body of the registration request. */
  datatype RegisterRequest = RegisterRequest(nombre: string, email: string, password: string, rol: string)

  class Form {
    var nombre: string
    var email: string
    var password: string
    var confirmPassword: string
    var acceptTerms: bool
    var passwordsMatch: bool
    var rol: string
    var showSuccessModal: bool
    var registeredUserName: string
    var navigation: Option<string>

    predicate Valid()
      reads this
    {
      Tracked(password, confirmPassword, passwordsMatch) && (rol == RoleFreelancer || rol == RoleCompany)
    }

    constructor ()
      ensures Valid() && nombre == "" && email == "" && password == "" && confirmPassword == ""
      ensures !acceptTerms && passwordsMatch && rol == RoleFreelancer
      ensures !showSuccessModal && registeredUserName == "" && navigation.None?
    {
      nombre, email, password, confirmPassword := "", "", "", "";
      acceptTerms, passwordsMatch, rol := false, true, RoleFreelancer;
      showSuccessModal, registeredUserName, navigation := false, "", None;
    }

    method HandlePasswordChange(value: string)
      requires Valid()
      modifies this
      ensures Valid()
      ensures password == value && passwordsMatch == MatchAfterEdit(confirmPassword, value)
      ensures confirmPassword == old(confirmPassword) && rol == old(rol) && acceptTerms == old(acceptTerms)
      ensures nombre == old(nombre) && email == old(email) && showSuccessModal == old(showSuccessModal)
      ensures registeredUserName == old(registeredUserName) && navigation == old(navigation)
    {
      password := value;
      if confirmPassword != "" && value != confirmPassword {
        passwordsMatch := false;
      } else {
        passwordsMatch := true;
      }
    }

    method HandleConfirmPasswordChange(value: string)
      requires Valid()
      modifies this
      ensures Valid()
      ensures confirmPassword == value && passwordsMatch == MatchAfterEdit(password, value)
      ensures password == old(password) && rol == old(rol) && acceptTerms == old(acceptTerms)
      ensures nombre == old(nombre) && email == old(email) && showSuccessModal == old(showSuccessModal)
      ensures registeredUserName == old(registeredUserName) && navigation == old(navigation)
    {
      confirmPassword := value;
      if password != "" && value != password {
        passwordsMatch := false;
      } else {
        passwordsMatch := true;
      }
    }

    /** The radio buttons offer only the two roles. */
    method ChooseRole(company: bool)
      requires Valid()
      modifies this
      ensures Valid() && rol == (if company then RoleCompany else RoleFreelancer)
      ensures password == old(password) && confirmPassword == old(confirmPassword)
      ensures passwordsMatch == old(passwordsMatch) && acceptTerms == old(acceptTerms)
      ensures nombre == old(nombre) && email == old(email) && showSuccessModal == old(showSuccessModal)
      ensures registeredUserName == old(registeredUserName) && navigation == old(navigation)
    {
      rol := if company then RoleCompany else RoleFreelancer;
    }

    /** `handleSubmit`: returns the request sent, if any, and the alert shown. */
    method HandleSubmit(registerError: Option<string>) returns (request: Option<RegisterRequest>, alert: Option<string>)
      requires Valid()
      modifies this
      ensures Valid()
      ensures request.Some? <==> SubmitBlock(acceptTerms, password, confirmPassword).None?
      ensures request.None? ==> alert == SubmitBlock(acceptTerms, password, confirmPassword)
      ensures request.Some? ==> request.value == RegisterRequest(nombre, email, password, rol)
      ensures request.Some? && registerError.Some? ==> alert == Some(RegisterAlert(registerError.value))
      ensures if request.Some? && registerError.None? then
                alert.None? && showSuccessModal && registeredUserName == nombre
              else
                showSuccessModal == old(showSuccessModal) && registeredUserName == old(registeredUserName)
      ensures nombre == old(nombre) && email == old(email) && password == old(password)
      ensures confirmPassword == old(confirmPassword) && passwordsMatch == old(passwordsMatch)
      ensures acceptTerms == old(acceptTerms) && rol == old(rol) && navigation == old(navigation)
    {
      if !acceptTerms {
        return None, Some(AcceptTermsFirst);
      }
      if password != confirmPassword {
        return None, Some(PasswordsDiffer);
      }
      request := Some(RegisterRequest(nombre, email, password, rol));
      if registerError.None? {
        registeredUserName := nombre;
        showSuccessModal := true;
        alert := None;
      } else {
        alert := Some(RegisterAlert(registerError.value));
      }
    }

    /** `handleSuccessModalClose`: clears the form except the confirmation
      field and the match flag, and goes to the login page. */
    method HandleSuccessModalClose()
      requires Valid()
      modifies this
      ensures Valid()
      ensures !showSuccessModal && nombre == "" && email == "" && password == "" && !acceptTerms
      ensures rol == RoleFreelancer && navigation == Some(LoginRoute)
      ensures confirmPassword == old(confirmPassword) && passwordsMatch == old(passwordsMatch)
      ensures registeredUserName == old(registeredUserName)
    {
      showSuccessModal := false;
      nombre := "";
      email := "";
      password := "";
      acceptTerms := false;
      rol := RoleFreelancer;
      navigation := Some(LoginRoute);
    }
  }

  /** After the reset the stale confirmation shows no mismatch message, but
      blocks the next submission until it is retyped: a confirmation "abc"
      left behind refuses a new password "xyz". */
  lemma StaleConfirmationBlocks()
    ensures !ShowsMismatch("", "abc", false)
    ensures SubmitBlock(true, "xyz", "abc") == Some(PasswordsDiffer)
    ensures ShowsMismatch("xyz", "abc", MatchAfterEdit("abc", "xyz"))
  {
  }
}

/** The page that sets a new password from a reset link: the token taken
    from the link, the checks in order before the request, and the messages
    shown after it.  The server's answer is an input. */
module ResetPasswordPage {
  import opened Wrappers
  import PasswordReset

  const LoginRoute: string := "/login"
  const MinLength: int := 6
  const MissingToken: string := "Token inválido o faltante"
  const TooShort: string := "La contraseña debe tener al menos 6 caracteres"
  const PasswordsDiffer: string := "Las contraseñas no coinciden"
  const InvalidToken: string := "Token inválido"
  const ResetFailed: string := "Error al restablecer la contraseña. El enlace puede haber expirado."

  /** JavaScript's `length`: UTF-16 code units, two for a character outside
      the Basic Multilingual Plane. */
  function Utf16Length(s: string): (n: nat)
    ensures |s| <= n <= 2 * |s|
  {
    if s == [] then 0
    else (if s[0] as int > 0xFFFF then 2 else 1) + Utf16Length(s[1..])
  }

  /** The checks of `handleSubmit`, in order; `None` when the request is sent. */
  function Validate(password: string, confirm: string, token: string): (r: Option<string>)
    ensures r.None? <==> Utf16Length(password) >= MinLength && password == confirm && token != ""
    ensures Utf16Length(password) < MinLength ==> r == Some(TooShort)
    ensures Utf16Length(password) >= MinLength && password != confirm ==> r == Some(PasswordsDiffer)
    ensures Utf16Length(password) >= MinLength && password == confirm && token == "" ==> r == Some(InvalidToken)
  {
    if Utf16Length(password) < MinLength then Some(TooShort)
    else if password != confirm then Some(PasswordsDiffer)
    else if token == "" then Some(InvalidToken)
    else None
  }

  /** Every password long enough for the server is long enough for the page. */
  lemma ServerLengthSuffices(password: string)
    requires |password| >= PasswordReset.MinPasswordLength
    ensures Utf16Length(password) >= MinLength
  {
  }

  /** The converse fails: three characters outside the Basic Multilingual
      Plane count as six on the page but as three on the server, which
      refuses them. */
  lemma PageAcceptsWhatServerRefuses()
    ensures var p := "\U{1F600}\U{1F600}\U{1F600}";
      Utf16Length(p) == MinLength && |p| < PasswordReset.MinPasswordLength &&
      Validate(p, p, "t").None?
  {
    var p := "\U{1F600}\U{1F600}\U{1F600}";
    assert p[1..][1..][1..] == [];
  }

  /** The server's answer. */
  datatype ResetResponse = ResetOk(message: Option<string>) | ResetError(error: Option<string>)

  class Page {
    var password: string
    var confirmPassword: string
    var message: string
    var error: string
    var loading: bool
    var token: string
    var navigation: Option<string>

    constructor ()
      ensures password == "" && confirmPassword == "" && message == "" && error == ""
      ensures !loading && token == "" && navigation.None?
    {
      password, confirmPassword, message, error := "", "", "", "";
      loading, token, navigation := false, "", None;
    }

    /** The inputs and the button are disabled while loading or without a token. */
    predicate Disabled()
      reads this
    {
      loading || token == ""
    }

    /** The effect reading the `token` query parameter: a missing or empty
        one leaves the page without a token and shows the error. */
    method CaptureToken(param: Option<string>)
      modifies this
      ensures if param.None? || param.value == "" then error == MissingToken && token == old(token)
              else token == param.value && error == old(error)
      ensures password == old(password) && confirmPassword == old(confirmPassword)
      ensures message == old(message) && loading == old(loading) && navigation == old(navigation)
    {
      if param.None? || param.value == "" {
        error := MissingToken;
      } else {
        token := param.value;
      }
    }

    method SetPassword(value: string)
      modifies this
      ensures password == value && confirmPassword == old(confirmPassword) && token == old(token)
      ensures message == old(message) && error == old(error) && loading == old(loading)
      ensures navigation == old(navigation)
    {
      password := value;
    }

    method SetConfirmPassword(value: string)
      modifies this
      ensures confirmPassword == value && password == old(password) && token == old(token)
      ensures message == old(message) && error == old(error) && loading == old(loading)
      ensures navigation == old(navigation)
    {
      confirmPassword := value;
    }

    /** `handleSubmit`: returns the (token, password) pair sent, if any.
        `response` is the server's answer to it. */
    method HandleSubmit(response: ResetResponse) returns (sent: Option<(string, string)>)
      modifies this
      ensures sent.Some? <==> Validate(old(password), old(confirmPassword), token).None?
      ensures sent.Some? ==> sent.value == (token, old(password))
      ensures sent.None? ==>
        error == Validate(old(password), old(confirmPassword), token).value && message == "" &&
        password == old(password) && confirmPassword == old(confirmPassword) &&
        loading == old(loading) && navigation == old(navigation)
      ensures sent.Some? ==> !loading
      ensures sent.Some? && response.ResetOk? ==>
        message == response.message.GetOr("") && error == "" &&
        password == "" && confirmPassword == "" && navigation == Some(LoginRoute)
      ensures sent.Some? && response.ResetError? ==>
        message == "" && error == (if response.error.Some? && response.error.value != "" then response.error.value else ResetFailed) &&
        password == old(password) && confirmPassword == old(confirmPassword) && navigation == old(navigation)
      ensures token == old(token)
    {
      error := "";
      message := "";
      if Utf16Length(password) < MinLength {
        error := TooShort;
        return None;
      }
      if password != confirmPassword {
        error := PasswordsDiffer;
        return None;
      }
      if token == "" {
        error := InvalidToken;
        return None;
      }
      loading := true;
      sent := Some((token, password));
      match response {
        case ResetOk(m) =>
          message := m.GetOr("");
          password := "";
          confirmPassword := "";
          navigation := Some(LoginRoute);
        case ResetError(e) =>
          error := if e.Some? && e.value != "" then e.value else ResetFailed;
      }
      loading := false;
    }
  }

  /** A page opened without a token stays disabled and every submission
      stops at a check before any request. */
  lemma NoTokenNoRequest(password: string, confirm: string)
    ensures Validate(password, confirm, "").Some?
  {
  }
}
