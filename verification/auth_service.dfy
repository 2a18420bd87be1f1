/**
 * Account creation (src/services/authService.ts): `signUp` finds the company
 * by its access code before anything is created, then creates the
 * authentication account, then writes the user profile `users/{uid}`. There
 * is no rollback: a failed profile write leaves the account without a
 * profile.
 */
module AuthService {
  import opened Results
  import opened JsStrings
  import opened JsValues
  import opened Store
  import CloudFunctions
  import FirestoreService

  /** A thrown JavaScript error: its `code` (undefined for a plain `Error`) and its `message`. */
  datatype Thrown = Thrown(code: Value, message: Value)

  const InvalidCompanyCodeMessage: string := "Código da empresa inválido ou não encontrado."

  /** The error `signUp` throws when no company has the code: a plain `Error`. */
  const InvalidCompanyCode: Thrown := Thrown(Undef, Str(InvalidCompanyCodeMessage))

  /** What `createUserWithEmailAndPassword` answers: the new account, or the error it throws. */
  datatype CreateOutcome = Created(uid: string, email: Value) | CreateFailed(error: Thrown)

  /** The signed-in account a successful sign-up returns. */
  datatype Credential = Credential(uid: string, email: Value)

  /** The authentication accounts (their uids, in creation order) and the database. */
  datatype Backend = Backend(db: Db, accounts: seq<string>)

  datatype SignUpResult = SignUpResult(result: Result<Credential, Thrown>, backend: Backend)

  /** The profile written for a new user; `createdAt` is the client clock's `Timestamp.now()`. */
  function UserProfile(email: Value, companyId: string, now: int): (p: Record)
    ensures p.Keys == {"email", "companyId", "role", "createdAt"}
    ensures p["email"] == email && p["companyId"] == Str(companyId)
    ensures p["role"] == Str("member") && p["createdAt"] == Time(now)
  {
    map["email" := email, "companyId" := Str(companyId), "role" := Str("member"), "createdAt" := Time(now)]
  }

  /**
   * `signUp(email, password, companyCode)`. `createUser` stands for
   * `createUserWithEmailAndPassword`, `writeFault` for a failing `setDoc`;
   * every error is re-thrown unchanged.
   */
  function SignUp(b: Backend, email: string, password: string, companyCode: string,
                  lookupFault: CloudFunctions.Fault, createUser: (string, string) -> CreateOutcome,
                  writeFault: Option<Thrown>, now: int): (r: SignUpResult)
    ensures FirestoreService.FindCompanyByCode(b.db, companyCode, lookupFault).None? ==>
              r == SignUpResult(Err(InvalidCompanyCode), b)
    ensures FirestoreService.FindCompanyByCode(b.db, companyCode, lookupFault).Some? ==>
              match createUser(email, password)
              case CreateFailed(e) => r == SignUpResult(Err(e), b)
              case Created(uid, userEmail) =>
                && r.backend.accounts == b.accounts + [uid]
                && (writeFault.Some? ==> r.result == Err(writeFault.value) && r.backend.db == b.db)
                && (writeFault.None? ==>
                      && r.result == Ok(Credential(uid, userEmail))
                      && r.backend.db == b.db.(users := SetDoc(b.db.users, uid,
                           UserProfile(userEmail, FirestoreService.FindCompanyByCode(b.db, companyCode, lookupFault).value.id, now))))
  {
    match FirestoreService.FindCompanyByCode(b.db, companyCode, lookupFault)
    case None => SignUpResult(Err(InvalidCompanyCode), b)
    case Some(company) =>
      match createUser(email, password)
      case CreateFailed(e) => SignUpResult(Err(e), b)
      case Created(uid, userEmail) =>
        var withAccount := b.(accounts := b.accounts + [uid]);
        if writeFault.Some? then SignUpResult(Err(writeFault.value), withAccount)
        else
          var users := SetDoc(b.db.users, uid, UserProfile(userEmail, company.id, now));
          SignUpResult(Ok(Credential(uid, userEmail)), withAccount.(db := b.db.(users := users)))
  }

  /**
   * A successful sign-up leaves a profile keyed by the new uid that names a
   * company whose access code is the one given, with the `member` role; no
   * other profile changes.
   */
  lemma SignedUpUserBelongsToCompany(b: Backend, email: string, password: string, companyCode: string,
                                     lookupFault: CloudFunctions.Fault, createUser: (string, string) -> CreateOutcome,
                                     now: int)
    requires SignUp(b, email, password, companyCode, lookupFault, createUser, None, now).result.Ok?
    ensures var r := SignUp(b, email, password, companyCode, lookupFault, createUser, None, now);
            var uid := r.result.value.uid;
            && lookupFault.None? && companyCode != ""
            && Lookup(r.backend.db.users, uid).Some?
            && var profile := Lookup(r.backend.db.users, uid).value;
               && profile["role"] == Str("member")
               && (exists c :: c in b.db.companies && Get(c.data, "accessCode") == Str(companyCode)
                               && profile["companyId"] == Str(c.id))
               && forall other :: other != uid ==> Lookup(r.backend.db.users, other) == Lookup(b.db.users, other)
  {
    var company := FirestoreService.FindCompanyByCode(b.db, companyCode, lookupFault).value;
    assert company in b.db.companies;
  }

  /** No company for the code: no account is created and nothing is written. */
  lemma UnknownCodeCreatesNothing(b: Backend, email: string, password: string, companyCode: string,
                                  createUser: (string, string) -> CreateOutcome, writeFault: Option<Thrown>, now: int)
    requires forall c :: c in b.db.companies ==> Get(c.data, "accessCode") != Str(companyCode)
    ensures SignUp(b, email, password, companyCode, None, createUser, writeFault, now)
            == SignUpResult(Err(InvalidCompanyCode), b)
  {
  }

  /**
   * A failing profile write after the account exists leaves the account in
   * place with no profile (when it had none before): nothing is rolled back.
   */
  lemma FailedProfileWriteOrphansAccount(b: Backend, email: string, password: string, companyCode: string,
                                         createUser: (string, string) -> CreateOutcome, e: Thrown, now: int)
    requires FirestoreService.FindCompanyByCode(b.db, companyCode, None).Some?
    requires createUser(email, password).Created?
    requires Lookup(b.db.users, createUser(email, password).uid).None?
    ensures var r := SignUp(b, email, password, companyCode, None, createUser, Some(e), now);
            var uid := createUser(email, password).uid;
            && r.result == Err(e)
            && uid in r.backend.accounts
            && Lookup(r.backend.db.users, uid).None?
  {
  }
}
