/**
 * The login page: field validation, the backend's answer (student role or not),
 * the error message shown on failure, and the password visibility toggle.
 * The backend call itself is outside the model; its two callbacks are methods
 * that take the response or the error as a parameter.
 */
module Login {
  import opened Wrappers
  import opened SessionStore
  import opened Guards

  const EmptyFieldsMessage := "Veuillez remplir tous les champs."
  const NotStudentMessage := "Vous n'avez pas les droits nécessaires pour accéder à cette application. Seuls les étudiants peuvent se connecter."
  const BadCredentialsMessage := "Email ou mot de passe incorrect."
  const UnexpectedErrorMessage := "Une erreur est survenue. Veuillez réessayer."

  /** The backend's answer to `POST /auth/login`; `roles` may be missing. */
  datatype LoginResponse = LoginResponse(
    localId: string,
    nom: string,
    prenom: string,
    email: string,
    username: string,
    userType: string,
    roles: Option<seq<string>>,
    token: string)

  /** An HTTP failure: `error.error` is the decoded body, which may carry a `message`. */
  datatype ErrorBody = ErrorBody(message: Option<string>)
  datatype HttpError = HttpError(error: Option<ErrorBody>)

  /** The response carries a student role (`response.roles || []`). */
  predicate IsStudentResponse(response: LoginResponse) {
    HasStudentRole(response.roles.GetOr([]))
  }

  /** The session record saved after a successful login. */
  function SessionRecord(response: LoginResponse): (d: StudentDetail)
    requires IsStudentResponse(response)
    ensures d.isLoggedIn
    ensures d.roles == RoleList(response.roles.value)
    ensures d.localId == response.localId && d.token == response.token && d.email == response.email
  {
    StudentDetail(
      isLoggedIn := true,
      email := response.email,
      localId := response.localId,
      nom := response.nom,
      prenom := response.prenom,
      userType := response.userType,
      roles := RoleList(response.roles.value),
      token := response.token,
      username := response.username)
  }

  /** The message shown for a failed login: the backend's own message when it has one. */
  function LoginErrorMessage(e: HttpError): (m: string)
    ensures e.error.Some? && Truthy(e.error.value.message) ==> m == e.error.value.message.value
    ensures !(e.error.Some? && Truthy(e.error.value.message)) ==> m == BadCredentialsMessage
    ensures m != ""
  {
    if e.error.Some? && Truthy(e.error.value.message) then e.error.value.message.value
    else BadCredentialsMessage
  }

  /** A record written by a successful login is one the guards admit and keep. */
  lemma LoginRecordAdmitted(response: LoginResponse)
    requires IsStudentResponse(response)
    ensures Admitted(Parsed(SessionRecord(response)))
    ensures AfterGuard(Parsed(SessionRecord(response))) == Parsed(SessionRecord(response))
  {
  }

  class LoginPage {
    var showPassword: bool
    var email: string
    var password: string
    var errorMessage: string
    var isLoading: bool

    constructor ()
      ensures !showPassword && email == "" && password == ""
      ensures errorMessage == "" && !isLoading
    {
      showPassword := false;
      email := "";
      password := "";
      errorMessage := "";
      isLoading := false;
    }

    /** `togglePasswordVisibility`: flips `showPassword` and nothing else. */
    method TogglePasswordVisibility()
      modifies this
      ensures showPassword == !old(showPassword)
      ensures email == old(email) && password == old(password)
      ensures errorMessage == old(errorMessage) && isLoading == old(isLoading)
    {
      showPassword := !showPassword;
    }

    /**
     * `onLogin` up to the backend call: returns whether the call is issued.
     * `callThrows` says whether issuing it throws synchronously.
     */
    method OnLogin(callThrows: bool) returns (requested: bool)
      modifies this
      ensures requested <==> email != "" && password != "" && !callThrows
      ensures requested ==> errorMessage == "" && isLoading
      ensures (email == "" || password == "") ==> errorMessage == EmptyFieldsMessage && !isLoading
      ensures email != "" && password != "" && callThrows ==> errorMessage == UnexpectedErrorMessage && !isLoading
      ensures email == old(email) && password == old(password) && showPassword == old(showPassword)
    {
      errorMessage := "";
      isLoading := true;
      if email == "" || password == "" {
        errorMessage := EmptyFieldsMessage;
        isLoading := false;
        return false;
      }
      if callThrows {
        errorMessage := UnexpectedErrorMessage;
        isLoading := false;
        return false;
      }
      return true;
    }

    /** The `next` callback: accept students only, and save their session record. */
    method OnLoginResponse(response: LoginResponse, storage: Storage)
      modifies this, storage
      ensures !isLoading
      ensures !IsStudentResponse(response) ==>
        errorMessage == NotStudentMessage && storage.studentDetail == old(storage.studentDetail)
      ensures IsStudentResponse(response) ==>
        && errorMessage == old(errorMessage)
        && storage.studentDetail == Parsed(SessionRecord(response))
        && Admitted(storage.studentDetail)
      ensures email == old(email) && password == old(password) && showPassword == old(showPassword)
    {
      var roles := response.roles.GetOr([]);
      if !HasStudentRole(roles) {
        errorMessage := NotStudentMessage;
        isLoading := false;
        return;
      }
      storage.studentDetail := Parsed(SessionRecord(response));
      LoginRecordAdmitted(response);
      isLoading := false;
    }

    /** The `error` callback. */
    method OnLoginError(e: HttpError)
      modifies this
      ensures errorMessage == LoginErrorMessage(e) && !isLoading
      ensures email == old(email) && password == old(password) && showPassword == old(showPassword)
    {
      if e.error.Some? && Truthy(e.error.value.message) {
        errorMessage := e.error.value.message.value;
      } else {
        errorMessage := BadCredentialsMessage;
      }
      isLoading := false;
    }
  }
}
