/**
 * The sign-in form (src/pages/LoginPage.tsx): an empty-field guard before
 * any call, then `signIn`, a move to the dashboard on success and a message
 * chosen by the error code on failure. `signIn` itself re-throws whatever
 * the authentication service throws, so it is the `signIn` parameter here.
 */
module LoginPage {
  import opened Results
  import opened JsValues
  import AuthService

  const FillInBothMessage: string := "Por favor, preencha o e-mail e a senha."
  const LoginDefaultMessage: string := "Falha ao fazer login. Verifique suas credenciais."
  const BadCredentialsMessage: string := "E-mail ou senha inválidos."
  const InvalidEmailMessage: string := "Formato de e-mail inválido."

  /** What the page does: show an error, or move to a route. */
  datatype LoginView = LoginError(message: string) | NavigateTo(path: string)

  /** The codes that all mean "these credentials do not open an account". */
  predicate BadCredentialCode(code: Value) {
    code in {Str("auth/user-not-found"), Str("auth/wrong-password"), Str("auth/invalid-credential")}
  }

  /** The message for a sign-in error; only its `code` matters. */
  function LoginErrorMessage(e: AuthService.Thrown): (m: string)
    ensures BadCredentialCode(e.code) ==> m == BadCredentialsMessage
    ensures e.code == Str("auth/invalid-email") ==> m == InvalidEmailMessage
    ensures !BadCredentialCode(e.code) && e.code != Str("auth/invalid-email") ==> m == LoginDefaultMessage
  {
    if BadCredentialCode(e.code) then BadCredentialsMessage
    else if e.code == Str("auth/invalid-email") then InvalidEmailMessage
    else LoginDefaultMessage
  }

  /**
   * `handleSubmit`: an empty e-mail or password is refused before `signIn`
   * is called; otherwise success goes to `/dashboard` and failure shows the
   * message for the error.
   */
  function HandleLogin(email: string, password: string,
                       signIn: (string, string) -> Result<AuthService.Credential, AuthService.Thrown>): (v: LoginView)
    ensures email == "" || password == "" ==> v == LoginError(FillInBothMessage)
    ensures email != "" && password != "" ==>
              (v == NavigateTo("/dashboard") <==> signIn(email, password).Ok?)
    ensures email != "" && password != "" && signIn(email, password).Err? ==>
              v == LoginError(LoginErrorMessage(signIn(email, password).error))
  {
    if email == "" || password == "" then LoginError(FillInBothMessage)
    else match signIn(email, password)
      case Ok(_) => NavigateTo("/dashboard")
      case Err(e) => LoginError(LoginErrorMessage(e))
  }

  /** An empty field is refused without calling the service: any two services give the same outcome. */
  lemma EmptyFieldMakesNoAttempt(email: string, password: string,
                                 s1: (string, string) -> Result<AuthService.Credential, AuthService.Thrown>,
                                 s2: (string, string) -> Result<AuthService.Credential, AuthService.Thrown>)
    requires email == "" || password == ""
    ensures HandleLogin(email, password, s1) == HandleLogin(email, password, s2)
  {
  }

  /**
   * The page does not reveal whether the e-mail exists: an unknown user and
   * a wrong password look the same, whatever the error's message says.
   */
  lemma UnknownUserLooksLikeWrongPassword(m1: Value, m2: Value)
    ensures LoginErrorMessage(AuthService.Thrown(Str("auth/user-not-found"), m1))
            == LoginErrorMessage(AuthService.Thrown(Str("auth/wrong-password"), m2))
  {
  }

  /** Every failure shows one of three texts. */
  lemma FailureMessages(e: AuthService.Thrown)
    ensures LoginErrorMessage(e) in {BadCredentialsMessage, InvalidEmailMessage, LoginDefaultMessage}
  {
  }
}
