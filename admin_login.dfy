/**
 * components/AdminLogin.tsx: the admin login form. A token whose role is
 * SuperAdmin or Admin routes to that area; every failure becomes one of a
 * few fixed messages, chosen from what the thrown error's text parses to.
 */
module AdminLogin {
  import opened Common

  const PasswordMessage := "Parola en az 6 karakter olmalıdır."
  const EmailMessage := "Geçerli bir email adresi girin."
  const WrongCredentials := "Email veya parola hatalıdır."
  const GenericMessage := "Bir hata oluştu. Lütfen tekrar deneyin."
  const UnknownRole := "Bilinmeyen bir rol tespit edildi."

  /** Which of `errors.Password` and `errors.Email` are truthy. */
  datatype ErrorFields = ErrorFields(password: bool, email: bool)

  /**
   * What `JSON.parse(error.message)` gives, as far as the handler looks at
   * it: no JSON at all, `null`, a number, string or boolean, or an object
   * with a truthy `errors` (or none) and a truthy `errorMessage` (or not).
   */
  datatype Parsed =
    | NotJson
    | JsonNull
    | JsonScalar
    | JsonObject(errors: Option<ErrorFields>, hasErrorMessage: bool)

  /** What reached the catch block: an Error with its message and what that message parses to, or anything else. */
  datatype Thrown = ErrorWith(message: string, parsed: Parsed) | NotAnError

  /** What adminAPI.login produced: its `data` (a token, "" when absent), or a throw. */
  datatype LoginReply = LoginData(data: string) | LoginThrew(thrown: Thrown)

  /** The error the handler throws itself for an unknown role; its text is not JSON. */
  const UnknownRoleThrow := ErrorWith(UnknownRole, NotJson)

  /**
   * The catch block (lines 48-70). Reading a property of `null` throws,
   * which lands in the inner catch like text that is not JSON. An
   * `errors` object naming neither field leaves the message unset.
   */
  function MessageFor(thrown: Thrown): (r: Option<string>)
    ensures thrown.NotAnError? || thrown.message == "" ==> r == Some(GenericMessage)
    ensures thrown.ErrorWith? && thrown.message != "" && (thrown.parsed.NotJson? || thrown.parsed.JsonNull?) ==>
              r == Some(WrongCredentials)
    ensures r.None? <==>
              thrown.ErrorWith? && thrown.message != "" && thrown.parsed.JsonObject? &&
              thrown.parsed.errors.Some? && !thrown.parsed.errors.value.password && !thrown.parsed.errors.value.email
    ensures r.Some? ==> r.value in {PasswordMessage, EmailMessage, WrongCredentials, GenericMessage}
  {
    match thrown
    case NotAnError => Some(GenericMessage)
    case ErrorWith(message, parsed) =>
      if message == "" then Some(GenericMessage)
      else
        match parsed
        case NotJson => Some(WrongCredentials)
        case JsonNull => Some(WrongCredentials)
        case JsonScalar => Some(GenericMessage)
        case JsonObject(errors, hasErrorMessage) =>
          if errors.Some? then
            if errors.value.password then Some(PasswordMessage)
            else if errors.value.email then Some(EmailMessage)
            else None
          else if hasErrorMessage then Some(WrongCredentials)
          else Some(GenericMessage)
  }

  /**
   * The field errors the server names: the password message wins over the
   * email message, and `errors` takes precedence over `errorMessage`.
   */
  lemma FieldErrorPrecedence(message: string, email: bool, hasErrorMessage: bool)
    requires message != ""
    ensures MessageFor(ErrorWith(message, JsonObject(Some(ErrorFields(true, email)), hasErrorMessage))) ==
              Some(PasswordMessage)
    ensures MessageFor(ErrorWith(message, JsonObject(Some(ErrorFields(false, true)), hasErrorMessage))) ==
              Some(EmailMessage)
    ensures MessageFor(ErrorWith(message, JsonObject(None, true))) == Some(WrongCredentials)
    ensures MessageFor(ErrorWith(message, JsonObject(None, false))) == Some(GenericMessage)
  {
  }

  /** An unknown role is reported as wrong credentials, since its text does not parse. */
  lemma UnknownRoleReadsAsWrongCredentials()
    ensures MessageFor(UnknownRoleThrow) == Some(WrongCredentials)
  {
  }

  /**
   * What adminAPI.login throws on a failed response: "Giriş başarısız: "
   * followed by the server's text. It starts with a letter, so it never
   * parses as JSON.
   */
  function LoginThrow(errorText: string): (r: Thrown)
    ensures r.ErrorWith? && r.message != "" && r.parsed.NotJson?
  {
    ErrorWith("Giriş başarısız: " + errorText, NotJson)
  }

  /** Whatever the server answers, a failed login through adminAPI reads as wrong credentials. */
  lemma LoginFailureReadsAsWrongCredentials(errorText: string)
    ensures MessageFor(LoginThrow(errorText)) == Some(WrongCredentials)
  {
  }

  /** Where a token with this role is sent (lines 40-46); None for any other role. */
  function Destination(role: Option<string>): (r: Option<string>)
    ensures r.Some? <==> role == Some("SuperAdmin") || role == Some("Admin")
    ensures r.Some? ==> r.value == "/super-admin" || r.value == "/admin"
    ensures role == Some("Admin") ==> r == Some("/admin")
  {
    if role == Some("SuperAdmin") then Some("/super-admin")
    else if role == Some("Admin") then Some("/admin")
    else None
  }

  class AdminLoginForm {
    var errorMessage: Option<string>
    var storedToken: Option<string>
    var navigations: seq<Target>
    /** The (email, password) pairs sent to adminAPI.login. */
    var requests: seq<(string, string)>

    /** The initial state (line 22): no message. */
    constructor ()
      ensures errorMessage == None && storedToken == None && navigations == [] && requests == []
    {
      errorMessage := None;
      storedToken := None;
      navigations := [];
      requests := [];
    }

    /**
     * onSubmit (lines 33-71) on input that passed the form's validation.
     * `role` is what the returned token decodes to. The message is cleared
     * first; a reply without data stores and routes nothing; a token is
     * stored before its role is looked at.
     */
    method OnSubmit(email: string, password: string, reply: LoginReply, role: Option<string>)
      modifies this
      ensures requests == old(requests) + [(email, password)]
      ensures reply.LoginData? && reply.data == "" ==>
                errorMessage == None && storedToken == old(storedToken) && navigations == old(navigations)
      ensures reply.LoginData? && reply.data != "" ==> storedToken == Some(reply.data)
      ensures reply.LoginData? && reply.data != "" && Destination(role).Some? ==>
                errorMessage == None && navigations == old(navigations) + [PathOnly(Destination(role).value)]
      ensures reply.LoginData? && reply.data != "" && Destination(role).None? ==>
                errorMessage == Some(WrongCredentials) && navigations == old(navigations)
      ensures reply.LoginThrew? ==>
                errorMessage == MessageFor(reply.thrown) && storedToken == old(storedToken) &&
                navigations == old(navigations)
    {
      errorMessage := None;
      requests := requests + [(email, password)];
      match reply
      case LoginData(data) =>
        if data != "" {
          storedToken := Some(data);
          if role == Some("SuperAdmin") {
            navigations := navigations + [PathOnly("/super-admin")];
          } else if role == Some("Admin") {
            navigations := navigations + [PathOnly("/admin")];
          } else {
            errorMessage := MessageFor(UnknownRoleThrow);
          }
        }
      case LoginThrew(thrown) =>
        errorMessage := MessageFor(thrown);
    }
  }
}
