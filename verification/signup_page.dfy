/**
 * The sign-up form (src/pages/SignupPage.tsx): three checks in a fixed order
 * before any call, then `signUp` with the trimmed company code, and the
 * choice of the message shown when it throws.
 */
module SignupPage {
  import opened Results
  import opened JsStrings
  import opened JsValues
  import opened Store
  import CloudFunctions
  import AuthService

  const PasswordMismatchMessage: string := "As senhas não coincidem."
  const PasswordTooShortMessage: string := "A senha deve ter pelo menos 6 caracteres."
  const CompanyCodeRequiredMessage: string := "Por favor, insira o Código da Empresa."
  const SignupDefaultMessage: string := "Falha ao criar conta. Tente novamente mais tarde."
  const EmailInUseMessage: string := "Este endereço de e-mail já está em uso."
  const InvalidEmailMessage: string := "Formato de e-mail inválido."
  const WeakPasswordMessage: string := "A senha é muito fraca. Use pelo menos 6 caracteres."
  const CreatedAlert: string := "Conta criada com sucesso! Por favor, faça login."

  /** The text the page looks for in an error message to recognise a bad company code. */
  const InvalidCodeMarker: string := "Código da empresa inválido"

  /** The shortest password the page accepts. */
  const MinPasswordLength: nat := 6

  datatype SignupForm = SignupForm(email: string, password: string, confirmPassword: string, companyCode: string)

  /** The first failing check, in the page's order: confirmation, length, company code. */
  function ValidateSignup(f: SignupForm): (r: Option<string>)
    ensures f.password != f.confirmPassword ==> r == Some(PasswordMismatchMessage)
    ensures f.password == f.confirmPassword && |f.password| < MinPasswordLength ==> r == Some(PasswordTooShortMessage)
    ensures f.password == f.confirmPassword && |f.password| >= MinPasswordLength ==>
              (r.Some? <==> IsBlank(f.companyCode)) && (r.Some? ==> r.value == CompanyCodeRequiredMessage)
  {
    if f.password != f.confirmPassword then Some(PasswordMismatchMessage)
    else if |f.password| < MinPasswordLength then Some(PasswordTooShortMessage)
    else if Trim(f.companyCode) == "" then Some(CompanyCodeRequiredMessage)
    else None
  }

  /** The message for an auth error code, when the page knows it. */
  function AuthCodeMessage(code: Value): (m: Option<string>)
    ensures code == Str("auth/email-already-in-use") ==> m == Some(EmailInUseMessage)
    ensures code == Str("auth/invalid-email") ==> m == Some(InvalidEmailMessage)
    ensures code == Str("auth/weak-password") ==> m == Some(WeakPasswordMessage)
    ensures m.Some? <==> code in {Str("auth/email-already-in-use"), Str("auth/invalid-email"), Str("auth/weak-password")}
  {
    if code == Str("auth/email-already-in-use") then Some(EmailInUseMessage)
    else if code == Str("auth/invalid-email") then Some(InvalidEmailMessage)
    else if code == Str("auth/weak-password") then Some(WeakPasswordMessage)
    else None
  }

  /** The error carries a non-empty string message that names the bad company code. */
  predicate NamesInvalidCode(e: AuthService.Thrown) {
    e.message.Str? && e.message.s != "" && Includes(e.message.s, InvalidCodeMarker)
  }

  /**
   * The `catch` block as written: the auth-code `switch` is reached only
   * when the error has no non-empty string message.
   */
  function SignupErrorMessageAsWritten(e: AuthService.Thrown): (m: string)
    ensures e.message.Str? && e.message.s != "" ==>
              m == if Includes(e.message.s, InvalidCodeMarker) then e.message.s else SignupDefaultMessage
    ensures !(e.message.Str? && e.message.s != "") ==> m == AuthCodeMessage(e.code).GetOr(SignupDefaultMessage)
  {
    if Truthy(e.message) && e.message.Str? then
      (if Includes(e.message.s, InvalidCodeMarker) then e.message.s else SignupDefaultMessage)
    else if Truthy(e.code) then AuthCodeMessage(e.code).GetOr(SignupDefaultMessage)
    else SignupDefaultMessage
  }

  /**
   * As written, every error with a non-empty message other than the company
   * code one shows the default text, whatever its code. Firebase Auth errors
   * always carry such a message, so the code mapping never applies to them.
   */
  lemma AuthCodesUnreachableAsWritten(e: AuthService.Thrown)
    requires e.message.Str? && e.message.s != "" && !NamesInvalidCode(e)
    ensures SignupErrorMessageAsWritten(e) == SignupDefaultMessage
  {
  }

  /** The concrete case: an e-mail already in use shows the generic failure text. */
  lemma EmailInUseShowsDefaultAsWritten()
    ensures var e := AuthService.Thrown(Str("auth/email-already-in-use"),
                                        Str("Firebase: Error (auth/email-already-in-use)."));
            SignupErrorMessageAsWritten(e) == SignupDefaultMessage
  {
    var s := "Firebase: Error (auth/email-already-in-use).";
    assert 'C' !in s;
    assert InvalidCodeMarker[0] == 'C';
    assert !Includes(s, InvalidCodeMarker);
  }

  /**
   * The message the page shows, as its comments describe it: the company
   * code message when the error names it, else the message for a known auth
   * code, else the default text.
   */
  function SignupErrorMessage(e: AuthService.Thrown): (m: string)
    ensures NamesInvalidCode(e) ==> m == e.message.s
    ensures !NamesInvalidCode(e) && AuthCodeMessage(e.code).Some? ==> m == AuthCodeMessage(e.code).value
    ensures !NamesInvalidCode(e) && AuthCodeMessage(e.code).None? ==> m == SignupDefaultMessage
  {
    if NamesInvalidCode(e) then e.message.s
    else AuthCodeMessage(e.code).GetOr(SignupDefaultMessage)
  }

  /** Both readings agree on errors that have no non-empty string message. */
  lemma ReadingsAgreeWithoutMessage(e: AuthService.Thrown)
    requires !(e.message.Str? && e.message.s != "")
    ensures SignupErrorMessage(e) == SignupErrorMessageAsWritten(e)
  {
  }

  /** The error `signUp` throws for an unknown code names the bad company code. */
  lemma InvalidCompanyCodeNamed()
    ensures NamesInvalidCode(AuthService.InvalidCompanyCode)
    ensures SignupErrorMessage(AuthService.InvalidCompanyCode) == AuthService.InvalidCompanyCodeMessage
  {
    var s := AuthService.InvalidCompanyCodeMessage;
    assert s == InvalidCodeMarker + " ou não encontrado.";
    assert OccursAt(s, InvalidCodeMarker, 0);
  }

  /** A Firebase error with a known code shows that code's message. */
  lemma KnownCodeShown(code: string, message: string)
    requires code in {"auth/email-already-in-use", "auth/invalid-email", "auth/weak-password"}
    requires !Includes(message, InvalidCodeMarker)
    ensures SignupErrorMessage(AuthService.Thrown(Str(code), Str(message))) == AuthCodeMessage(Str(code)).value
  {
  }

  /** What the page ends with: an error to show, or the success alert and a move to `/login`. */
  datatype SignupView = SignupView(error: Option<string>, alert: Option<string>, navigateTo: Option<string>,
                                   backend: AuthService.Backend)

  /**
   * `handleSubmit` as written: the checks, then `signUp` with the trimmed
   * code; a failure shows what the `catch` block as written chooses.
   */
  function HandleSignup(b: AuthService.Backend, f: SignupForm, lookupFault: CloudFunctions.Fault,
                        createUser: (string, string) -> AuthService.CreateOutcome,
                        writeFault: Option<AuthService.Thrown>, now: int): (v: SignupView)
    ensures ValidateSignup(f).Some? ==> v == SignupView(ValidateSignup(f), None, None, b)
    ensures ValidateSignup(f).None? ==>
              var r := AuthService.SignUp(b, f.email, f.password, Trim(f.companyCode), lookupFault, createUser, writeFault, now);
              && v.backend == r.backend
              && (r.result.Ok? ==> v.error.None? && v.alert == Some(CreatedAlert) && v.navigateTo == Some("/login"))
              && (r.result.Err? ==> v.error == Some(SignupErrorMessageAsWritten(r.result.error)) && v.navigateTo.None?)
  {
    match ValidateSignup(f)
    case Some(message) => SignupView(Some(message), None, None, b)
    case None =>
      var r := AuthService.SignUp(b, f.email, f.password, Trim(f.companyCode), lookupFault, createUser, writeFault, now);
      match r.result
      case Ok(_) => SignupView(None, Some(CreatedAlert), Some("/login"), r.backend)
      case Err(e) => SignupView(Some(SignupErrorMessageAsWritten(e)), None, None, r.backend)
  }

  /** `handleSubmit` with the `catch` block as its comments describe it. */
  function HandleSignupIntended(b: AuthService.Backend, f: SignupForm, lookupFault: CloudFunctions.Fault,
                                createUser: (string, string) -> AuthService.CreateOutcome,
                                writeFault: Option<AuthService.Thrown>, now: int): (v: SignupView)
    ensures ValidateSignup(f).Some? ==> v == SignupView(ValidateSignup(f), None, None, b)
    ensures ValidateSignup(f).None? ==>
              var r := AuthService.SignUp(b, f.email, f.password, Trim(f.companyCode), lookupFault, createUser, writeFault, now);
              && v.backend == r.backend
              && (r.result.Ok? ==> v.error.None? && v.alert == Some(CreatedAlert) && v.navigateTo == Some("/login"))
              && (r.result.Err? ==> v.error == Some(SignupErrorMessage(r.result.error)) && v.navigateTo.None?)
  {
    match ValidateSignup(f)
    case Some(message) => SignupView(Some(message), None, None, b)
    case None =>
      var r := AuthService.SignUp(b, f.email, f.password, Trim(f.companyCode), lookupFault, createUser, writeFault, now);
      match r.result
      case Ok(_) => SignupView(None, Some(CreatedAlert), Some("/login"), r.backend)
      case Err(e) => SignupView(Some(SignupErrorMessage(e)), None, None, r.backend)
  }

  /**
   * The page as written and as intended differ only in the error text: the
   * same accounts and profiles are written, the same success is announced,
   * and the texts agree whenever the error carries no non-empty message or
   * names the bad company code.
   */
  lemma ReadingsDifferOnlyInText(b: AuthService.Backend, f: SignupForm, lookupFault: CloudFunctions.Fault,
                                 createUser: (string, string) -> AuthService.CreateOutcome,
                                 writeFault: Option<AuthService.Thrown>, now: int)
    ensures var v := HandleSignup(b, f, lookupFault, createUser, writeFault, now);
            var w := HandleSignupIntended(b, f, lookupFault, createUser, writeFault, now);
            && v.backend == w.backend && v.alert == w.alert && v.navigateTo == w.navigateTo
            && (v.error.Some? <==> w.error.Some?)
    ensures ValidateSignup(f).None? ==>
              var r := AuthService.SignUp(b, f.email, f.password, Trim(f.companyCode), lookupFault, createUser, writeFault, now);
              r.result.Err? && (!(r.result.error.message.Str? && r.result.error.message.s != "") || NamesInvalidCode(r.result.error))
              ==> HandleSignup(b, f, lookupFault, createUser, writeFault, now)
                  == HandleSignupIntended(b, f, lookupFault, createUser, writeFault, now)
  {
    if ValidateSignup(f).None? {
      var r := AuthService.SignUp(b, f.email, f.password, Trim(f.companyCode), lookupFault, createUser, writeFault, now);
      if r.result.Err? {
        var e := r.result.error;
        assert HandleSignup(b, f, lookupFault, createUser, writeFault, now)
               == SignupView(Some(SignupErrorMessageAsWritten(e)), None, None, r.backend);
        assert HandleSignupIntended(b, f, lookupFault, createUser, writeFault, now)
               == SignupView(Some(SignupErrorMessage(e)), None, None, r.backend);
      }
    }
  }

  /**
   * As written, a sign-up that Firebase refuses because the e-mail is taken
   * shows the generic failure text, not the e-mail-in-use message.
   */
  lemma EmailTakenShowsDefaultAsWritten(b: AuthService.Backend, f: SignupForm,
                                        createUser: (string, string) -> AuthService.CreateOutcome, now: int)
    requires ValidateSignup(f).None?
    requires AuthService.SignUp(b, f.email, f.password, Trim(f.companyCode), None, createUser, None, now).result
             == Err(AuthService.Thrown(Str("auth/email-already-in-use"), Str("Firebase: Error (auth/email-already-in-use).")))
    ensures HandleSignup(b, f, None, createUser, None, now).error == Some(SignupDefaultMessage)
    ensures HandleSignupIntended(b, f, None, createUser, None, now).error == Some(EmailInUseMessage)
  {
    var m := "Firebase: Error (auth/email-already-in-use).";
    var e := AuthService.Thrown(Str("auth/email-already-in-use"), Str(m));
    assert 'C' !in m;
    assert InvalidCodeMarker[0] == 'C';
    assert !Includes(m, InvalidCodeMarker);
    EmailInUseShowsDefaultAsWritten();
    KnownCodeShown("auth/email-already-in-use", m);
    assert SignupErrorMessageAsWritten(e) == SignupDefaultMessage;
    assert SignupErrorMessage(e) == EmailInUseMessage;
  }

  /** A rejected form calls nothing: the outcome does not depend on the account service at all. */
  lemma RejectedFormCallsNothing(b: AuthService.Backend, f: SignupForm, lookupFault: CloudFunctions.Fault,
                                 c1: (string, string) -> AuthService.CreateOutcome,
                                 c2: (string, string) -> AuthService.CreateOutcome,
                                 writeFault: Option<AuthService.Thrown>, now: int)
    requires ValidateSignup(f).Some?
    ensures HandleSignup(b, f, lookupFault, c1, writeFault, now) == HandleSignup(b, f, None, c2, None, now)
    ensures HandleSignup(b, f, lookupFault, c1, writeFault, now).backend == b
  {
  }

  /**
   * Surrounding blanks in the company code make no difference: the form with
   * the code trimmed passes or fails the checks alike and sends the same code,
   * so by `SameSubmission` it ends the same way.
   */
  lemma TrimmedCodeValidatesAlike(f: SignupForm)
    ensures var g := f.(companyCode := Trim(f.companyCode));
            ValidateSignup(g) == ValidateSignup(f) && Trim(g.companyCode) == Trim(f.companyCode)
  {
    TrimIdempotent(f.companyCode);
  }

  /** Two forms that pass or fail the checks alike and carry the same e-mail, password and trimmed code act the same. */
  lemma SameSubmission(b: AuthService.Backend, f: SignupForm, g: SignupForm, lookupFault: CloudFunctions.Fault,
                       createUser: (string, string) -> AuthService.CreateOutcome,
                       writeFault: Option<AuthService.Thrown>, now: int)
    requires ValidateSignup(g) == ValidateSignup(f)
    requires g.email == f.email && g.password == f.password && Trim(g.companyCode) == Trim(f.companyCode)
    ensures HandleSignup(b, g, lookupFault, createUser, writeFault, now)
            == HandleSignup(b, f, lookupFault, createUser, writeFault, now)
  {
  }
}
