/**
 * Registration, login and logout (AuthenticationViewModel): the ordered input checks made
 * before any backend call, and the mapping of backend exceptions to status messages.
 * `isEmail` stands for the platform's email-address pattern.
 */
module Authentication {
  import opened Wrappers
  import opened Text
  import opened Resources
  import opened Firebase

  /** The shortest password registration accepts. */
  const MinPasswordLength: nat := 8

  /** Status messages that report success rather than an error. */
  predicate IsSuccess(r: StringRes) {
    r == SuccessRegistration || r == SuccessLogin || r == SuccessLogout || r == PasswordChangeSuccess
  }

  predicate AnyBlank(firstname: string, lastname: string, email: string, password: string, confirmPassword: string) {
    IsBlank(firstname) || IsBlank(lastname) || IsBlank(email) || IsBlank(password) || IsBlank(confirmPassword)
  }

  /**
   * The checks `registerUser` makes before contacting the backend, in their order: the first
   * failing one gives the status; None lets the registration proceed.
   */
  function RegistrationError(firstname: string, lastname: string, email: string, password: string,
                             confirmPassword: string, isEmail: string -> bool): (r: Option<StringRes>)
    ensures r == Some(ErrorEmptyFields) <==> AnyBlank(firstname, lastname, email, password, confirmPassword)
    ensures r == Some(ErrorInvalidEmail) <==>
              !AnyBlank(firstname, lastname, email, password, confirmPassword) && !isEmail(email)
    ensures r == Some(ErrorPasswordMismatch) <==>
              !AnyBlank(firstname, lastname, email, password, confirmPassword) && isEmail(email)
              && password != confirmPassword
    ensures r == Some(ErrorShortPassword) <==>
              !AnyBlank(firstname, lastname, email, password, confirmPassword) && isEmail(email)
              && password == confirmPassword && Utf16Length(password) < MinPasswordLength
    ensures r.None? <==>
              !AnyBlank(firstname, lastname, email, password, confirmPassword) && isEmail(email)
              && password == confirmPassword && Utf16Length(password) >= MinPasswordLength
  {
    if AnyBlank(firstname, lastname, email, password, confirmPassword) then Some(ErrorEmptyFields)
    else if !isEmail(email) then Some(ErrorInvalidEmail)
    else if password != confirmPassword then Some(ErrorPasswordMismatch)
    else if Utf16Length(password) < MinPasswordLength then Some(ErrorShortPassword)
    else None
  }

  /** A password of exactly eight non-blank characters passes every check when the rest is valid. */
  lemma EightCharactersAccepted(firstname: string, lastname: string, email: string, password: string,
                                isEmail: string -> bool)
    requires !IsBlank(firstname) && !IsBlank(lastname) && !IsBlank(email) && !IsBlank(password)
    requires isEmail(email) && Utf16Length(password) == 8
    ensures RegistrationError(firstname, lastname, email, password, password, isEmail).None?
  {
  }

  /**
   * The length is counted in UTF-16 code units: four characters outside the Basic Multilingual
   * Plane make a password long enough.
   */
  lemma FourAstralCharactersAccepted(firstname: string, lastname: string, email: string,
                                     isEmail: string -> bool)
    requires !IsBlank(firstname) && !IsBlank(lastname) && !IsBlank(email) && isEmail(email)
    ensures var password := "\U{1F600}\U{1F600}\U{1F600}\U{1F600}";
            |password| == 4 && RegistrationError(firstname, lastname, email, password, password, isEmail).None?
  {
    var password := "\U{1F600}\U{1F600}\U{1F600}\U{1F600}";
    assert !IsWhitespace(password[0]);
  }

  /** The checks of `loginUser`: blank fields first, then the email pattern. */
  function LoginError(email: string, password: string, isEmail: string -> bool): (r: Option<StringRes>)
    ensures r == Some(ErrorEmptyEmailPassword) <==> IsBlank(email) || IsBlank(password)
    ensures r == Some(ErrorInvalidEmail) <==> !IsBlank(email) && !IsBlank(password) && !isEmail(email)
    ensures r.None? <==> !IsBlank(email) && !IsBlank(password) && isEmail(email)
  {
    if IsBlank(email) || IsBlank(password) then Some(ErrorEmptyEmailPassword)
    else if !isEmail(email) then Some(ErrorInvalidEmail)
    else None
  }

  /** The `catch` of `registerUser`: only a collision is told apart. */
  function RegistrationFailureMessage(e: Exception): (r: StringRes)
    ensures r == ErrorEmailAlreadyInUse <==> e.AuthException? && e.kind == UserCollision
    ensures r != ErrorEmailAlreadyInUse ==> r == ErrorRegistrationFailed
  {
    if e.AuthException? && e.kind == UserCollision then ErrorEmailAlreadyInUse else ErrorRegistrationFailed
  }

  /** `mapFirebaseError`: the subclasses first, then the error code of a generic auth exception. */
  function MapFirebaseError(e: Exception): (r: StringRes)
    ensures !IsSuccess(r)
    ensures r == ErrorIncorrectPassword <==> e.AuthException? && e.kind == InvalidCredentials
    ensures r == ErrorUserNotFound <==>
              e.AuthException? && e.kind == InvalidUser && e.errorCode == "ERROR_USER_NOT_FOUND"
    ensures r == ErrorUserDisabled <==>
              e.AuthException? && e.kind == InvalidUser && e.errorCode == "ERROR_USER_DISABLED"
    ensures r == ErrorInvalidUser <==>
              e.AuthException? && e.kind == InvalidUser
              && e.errorCode != "ERROR_USER_NOT_FOUND" && e.errorCode != "ERROR_USER_DISABLED"
    ensures r == ErrorEmailAlreadyInUse <==>
              e.AuthException? && (e.kind == UserCollision
                                   || (e.kind == GenericAuth && e.errorCode == "ERROR_EMAIL_ALREADY_IN_USE"))
    ensures r == ErrorAuthentication <==>
              e.AuthException? && e.kind == GenericAuth && e.errorCode != "ERROR_EMAIL_ALREADY_IN_USE"
    ensures r == ErrorUnknown <==> e.OtherException?
  {
    match e
    case AuthException(kind, errorCode, _) =>
      (match kind
       case InvalidCredentials => ErrorIncorrectPassword
       case InvalidUser =>
         if errorCode == "ERROR_USER_NOT_FOUND" then ErrorUserNotFound
         else if errorCode == "ERROR_USER_DISABLED" then ErrorUserDisabled
         else ErrorInvalidUser
       case UserCollision => ErrorEmailAlreadyInUse
       case GenericAuth =>
         if errorCode == "ERROR_EMAIL_ALREADY_IN_USE" then ErrorEmailAlreadyInUse else ErrorAuthentication)
    case OtherException(_) => ErrorUnknown
  }

  /** Subclasses are matched before the error code is read: the code of a subclass never matters. */
  lemma SubclassDecidesBeforeCode(kind: AuthKind, code1: string, code2: string, m1: Option<string>, m2: Option<string>)
    requires kind == InvalidCredentials || kind == UserCollision
    ensures MapFirebaseError(AuthException(kind, code1, m1)) == MapFirebaseError(AuthException(kind, code2, m2))
  {
  }

  /**
   * Registration and login read a generic auth exception differently: with the code
   * "ERROR_EMAIL_ALREADY_IN_USE", login reports the email as taken, registration as a failure.
   */
  lemma GenericCollisionCodeReadDifferently(m: Option<string>)
    ensures var e := AuthException(GenericAuth, "ERROR_EMAIL_ALREADY_IN_USE", m);
            MapFirebaseError(e) == ErrorEmailAlreadyInUse && RegistrationFailureMessage(e) == ErrorRegistrationFailed
  {
  }

  /** Some user profile already carries this email (the `whereEqualTo("email", email)` query). */
  predicate EmailTaken(users: map<string, User>, email: string) {
    exists uid :: uid in users && users[uid].email == email
  }

  /** The outcome of `createUserWithEmailAndPassword`: the new account's uid, a null user, or an exception. */
  datatype CreateOutcome = Created(uid: string) | CreatedWithoutUser | CreateFailed(e: Exception)

  /** The outcome of `signInWithEmailAndPassword`. */
  datatype SignInOutcome = SignedIn(user: AuthUser) | SignInFailed(e: Exception)

  /** The state of `AuthenticationViewModel`. */
  class AuthenticationState {
    var authStatus: Option<StringRes>

    constructor ()
      ensures authStatus == None
    {
      authStatus := None;
    }

    /**
     * `registerUser`. `lookup` is the outcome of the email query, `create` that of the account
     * creation, and `profileWrite` that of writing the profile document. Returns whether
     * `onSuccess` was called.
     */
    method RegisterUser(backend: Backend, firstname: string, lastname: string, email: string,
                        password: string, confirmPassword: string, isEmail: string -> bool,
                        lookup: Step, create: CreateOutcome, profileWrite: Step)
      returns (succeeded: bool)
      requires create.Created? ==> create.uid !in backend.passwords
      modifies this`authStatus, backend`currentUser, backend`passwords, backend`users
      ensures var check := RegistrationError(firstname, lastname, email, password, confirmPassword, isEmail);
              check.Some? ==> authStatus == check
      ensures var proceeds := RegistrationError(firstname, lastname, email, password, confirmPassword, isEmail).None?
                              && lookup.Ok? && !EmailTaken(old(backend.users), email);
              && (proceeds && create.Created? ==>
                    && backend.passwords == old(backend.passwords)[create.uid := password]
                    && backend.currentUser == Some(AuthUser(create.uid, Some(email)))
                    && (profileWrite.Ok? ==>
                          backend.users == old(backend.users)[create.uid := User(firstname, lastname, email)]
                          && authStatus == Some(SuccessRegistration) && succeeded)
                    && (profileWrite.Err? ==>
                          backend.users == old(backend.users)
                          && authStatus == Some(RegistrationFailureMessage(profileWrite.e)) && !succeeded))
              && (!(proceeds && create.Created?) ==>
                    backend.currentUser == old(backend.currentUser) && backend.passwords == old(backend.passwords)
                    && backend.users == old(backend.users) && !succeeded)
      ensures RegistrationError(firstname, lastname, email, password, confirmPassword, isEmail).None? ==>
                && (lookup.Err? ==> authStatus == Some(RegistrationFailureMessage(lookup.e)))
                && (lookup.Ok? && EmailTaken(old(backend.users), email) ==> authStatus == Some(ErrorEmailExists))
                && (lookup.Ok? && !EmailTaken(old(backend.users), email) ==>
                      && (create.CreatedWithoutUser? ==> authStatus == Some(ErrorRegistrationFailed))
                      && (create.CreateFailed? ==> authStatus == Some(RegistrationFailureMessage(create.e))))
    {
      succeeded := false;
      authStatus := None;
      var check := RegistrationError(firstname, lastname, email, password, confirmPassword, isEmail);
      if check.Some? {
        authStatus := check;
        return;
      }
      if lookup.Err? {
        authStatus := Some(RegistrationFailureMessage(lookup.e));
        return;
      }
      if EmailTaken(backend.users, email) {
        authStatus := Some(ErrorEmailExists);
        return;
      }
      match create {
        case CreateFailed(e) =>
          authStatus := Some(RegistrationFailureMessage(e));
        case CreatedWithoutUser =>
          authStatus := Some(RegistrationFailureMessage(Failure("User not found after registration")));
        case Created(uid) =>
          backend.passwords := backend.passwords[uid := password];
          backend.currentUser := Some(AuthUser(uid, Some(email)));
          if profileWrite.Err? {
            authStatus := Some(RegistrationFailureMessage(profileWrite.e));
            return;
          }
          backend.users := backend.users[uid := User(firstname, lastname, email)];
          authStatus := Some(SuccessRegistration);
          succeeded := true;
      }
    }

    /**
     * `loginUser`. `signIn` is the outcome of the sign-in call. Returns whether `onSuccess`
     * was called.
     */
    method LoginUser(backend: Backend, email: string, password: string, isEmail: string -> bool,
                     signIn: SignInOutcome)
      returns (succeeded: bool)
      modifies this`authStatus, backend`currentUser
      ensures var check := LoginError(email, password, isEmail);
              && (check.Some? ==> authStatus == check && backend.currentUser == old(backend.currentUser))
              && (check.None? && signIn.SignedIn? ==>
                    authStatus == Some(SuccessLogin) && backend.currentUser == Some(signIn.user))
              && (check.None? && signIn.SignInFailed? ==>
                    authStatus == Some(MapFirebaseError(signIn.e)) && backend.currentUser == old(backend.currentUser))
              && (succeeded <==> check.None? && signIn.SignedIn?)
    {
      succeeded := false;
      authStatus := None;
      var check := LoginError(email, password, isEmail);
      if check.Some? {
        authStatus := check;
        return;
      }
      match signIn {
        case SignedIn(user) =>
          backend.currentUser := Some(user);
          authStatus := Some(SuccessLogin);
          succeeded := true;
        case SignInFailed(e) =>
          authStatus := Some(MapFirebaseError(e));
      }
    }

    method Logout(backend: Backend)
      modifies this`authStatus, backend`currentUser
      ensures backend.currentUser == None && authStatus == Some(SuccessLogout)
    {
      backend.currentUser := None;
      authStatus := Some(SuccessLogout);
    }

    method ClearStatus()
      modifies this`authStatus
      ensures authStatus == None
    {
      authStatus := None;
    }
  }
}
