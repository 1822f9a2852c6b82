/**
 * The server actions: each handler validates its form input against a
 * schema, reads or writes the session around calls to the identity service,
 * and answers with a result or a coded error. Every handler is given the
 * outcome of each service call it may make; a pure function states its
 * effect (result, calls made, session writes) and a method of `Handlers`
 * performs it on the session store.
 */
module Actions {
  import opened Wrappers
  import opened AuthTypes
  import AuthErrors
  import AuthHelpers
  import JsStrings
  import opened Session

  // ---------------------------------------------------------------------------
  // Results and errors

  /** The `code` of an `ActionError` thrown by a handler. */
  datatype ActionCode =
    | Unauthorized | RegistrationFailed | LoginFailed | LogoutFailed | RecoveryFailed
    | UpdatePasswordFailed | UpdateMetadataFailed | UpdateCompleteProfileFailed
    | GetProfileFailed | GetPermissionsFailed
  {
    function Name(): string
    {
      match this
      case Unauthorized => "UNAUTHORIZED"
      case RegistrationFailed => "REGISTRATION_FAILED"
      case LoginFailed => "LOGIN_FAILED"
      case LogoutFailed => "LOGOUT_FAILED"
      case RecoveryFailed => "RECOVERY_FAILED"
      case UpdatePasswordFailed => "UPDATE_PASSWORD_FAILED"
      case UpdateMetadataFailed => "UPDATE_METADATA_FAILED"
      case UpdateCompleteProfileFailed => "UPDATE_COMPLETE_PROFILE_FAILED"
      case GetProfileFailed => "GET_PROFILE_FAILED"
      case GetPermissionsFailed => "GET_PERMISSIONS_FAILED"
    }
  }

  /** A form field a schema constrains. */
  datatype Field =
    | Email | Password | FirstName | LastName | Phone | AvatarUrl | Timezone | Language | DateOfBirth
    | Gender | EmergencyContactName | EmergencyContactPhone | EmergencyContactRelation
    | InsuranceProvider | InsurancePolicyNumber | PreferredLanguage

  /**
   * How a call fails: the framework rejects input that fails the schema
   * (code BAD_REQUEST, listing the failing fields), or the handler throws.
   */
  datatype ActionFailure =
    | InputError(fields: seq<Field>)
    | ActionError(code: ActionCode, message: string)
  {
    function Code(): string
    {
      match this
      case InputError(_) => "BAD_REQUEST"
      case ActionError(code, _) => code.Name()
    }
  }

  datatype Reply =
    | Done(message: string)
    | ProfileReply(profile: UserProfile)
    | PermissionsReply(permissions: UserPermissions)

  type Outcome = Result<Reply, ActionFailure>

  /** What one handler call amounts to. */
  datatype Effect = Effect(outcome: Outcome, calls: seq<ServiceCall>, writes: seq<SessionOp>)

  const RegisteredMessage := "Usuario registrado exitosamente"
  const LoggedInMessage := "Sesión iniciada exitosamente"
  const LoggedOutMessage := "Sesión cerrada exitosamente"
  const RecoveryMessage := "Se ha enviado un email para recuperar la contraseña"
  const PasswordUpdatedMessage := "Contraseña actualizada exitosamente"
  const ProfileUpdatedMessage := "Perfil actualizado exitosamente"
  const CompleteProfileUpdatedMessage := "Perfil completo actualizado exitosamente"
  const NotSignedInMessage := "Debes estar autenticado para realizar esta acción"

  /** The service failed: the handler rethrows with its own code and the error's raw message. */
  function Rethrow(code: ActionCode, e: AuthErrors.AuthError): ActionFailure
  {
    ActionError(code, e.message)
  }

  function NotSignedIn(): ActionFailure
  {
    ActionError(Unauthorized, NotSignedInMessage)
  }

  // ---------------------------------------------------------------------------
  // Input schemas. The library's email and URL checks are parameters.

  datatype RegisterInput = RegisterInput(email: string, password: string, first_name: string, last_name: string, phone: string)

  datatype LoginInput = LoginInput(email: string, password: string)

  /** The complete-profile form; absent lists and bio take their schema defaults. */
  datatype CompleteProfileInput = CompleteProfileInput(
    first_name: string,
    last_name: string,
    phone: string,
    avatar_url: string,
    timezone: string,
    language: string,
    date_of_birth: string,
    gender: string,
    emergency_contact_name: string,
    emergency_contact_phone: string,
    emergency_contact_relation: string,
    allergies: Option<seq<string>>,
    current_medications: Option<seq<string>>,
    conditions: Option<seq<string>>,
    surgeries: Option<seq<string>>,
    insurance_provider: string,
    insurance_policy_number: string,
    preferred_language: string,
    bio: Option<string>)

  /** `z.string().min(n)`: at least n UTF-16 code units. */
  predicate MinLength(s: string, n: nat)
  {
    JsStrings.JsLength(s) >= n
  }

  /** `min(1)` is non-emptiness. */
  lemma MinLengthOne(s: string)
    ensures MinLength(s, 1) <==> s != ""
  {
  }

  function Check(ok: bool, f: Field): (r: seq<Field>)
    ensures f in r <==> !ok
    ensures |r| <= 1 && forall k :: 0 <= k < |r| ==> r[k] == f
  {
    if ok then [] else [f]
  }

  predicate IsGender(g: string)
  {
    g == "M" || g == "F" || g == "Other"
  }

  /** The issues `registerSchema` reports: password of at least six units, non-empty names and phone. */
  function RegisterIssues(i: RegisterInput, isEmail: string -> bool): (r: seq<Field>)
    ensures r == [] <==> isEmail(i.email) && MinLength(i.password, 6) && i.first_name != "" && i.last_name != "" && i.phone != ""
    ensures Password in r <==> JsStrings.JsLength(i.password) < 6
  {
    MinLengthOne(i.first_name);
    MinLengthOne(i.last_name);
    MinLengthOne(i.phone);
    Check(isEmail(i.email), Email) + Check(MinLength(i.password, 6), Password)
    + Check(MinLength(i.first_name, 1), FirstName) + Check(MinLength(i.last_name, 1), LastName)
    + Check(MinLength(i.phone, 1), Phone)
  }

  /** `loginSchema` only asks for a non-empty password. */
  function LoginIssues(i: LoginInput, isEmail: string -> bool): (r: seq<Field>)
    ensures r == [] <==> isEmail(i.email) && i.password != ""
  {
    MinLengthOne(i.password);
    Check(isEmail(i.email), Email) + Check(MinLength(i.password, 1), Password)
  }

  function RecoverIssues(email: string, isEmail: string -> bool): (r: seq<Field>)
    ensures r == [] <==> isEmail(email)
  {
    Check(isEmail(email), Email)
  }

  function UpdatePasswordIssues(password: string): (r: seq<Field>)
    ensures r == [] <==> MinLength(password, 6)
  {
    Check(MinLength(password, 6), Password)
  }

  function MetadataIssues(m: ProfileMetadata, isUrl: string -> bool): (r: seq<Field>)
    ensures r == [] <==> m.first_name != "" && m.last_name != "" && m.phone != "" && isUrl(m.avatar_url)
  {
    MinLengthOne(m.first_name);
    MinLengthOne(m.last_name);
    MinLengthOne(m.phone);
    Check(MinLength(m.first_name, 1), FirstName) + Check(MinLength(m.last_name, 1), LastName)
    + Check(MinLength(m.phone, 1), Phone) + Check(isUrl(m.avatar_url), AvatarUrl)
  }

  /** The personal part of `updateCompleteProfileSchema`. */
  function PersonalIssues(p: CompleteProfileInput, isUrl: string -> bool): (r: seq<Field>)
    ensures r == [] <==>
      && p.first_name != "" && p.last_name != "" && p.phone != "" && isUrl(p.avatar_url)
      && p.timezone != "" && p.language != "" && p.date_of_birth != ""
    ensures Gender !in r
  {
    Check(p.first_name != "", FirstName) + Check(p.last_name != "", LastName) + Check(p.phone != "", Phone)
    + Check(isUrl(p.avatar_url), AvatarUrl) + Check(p.timezone != "", Timezone) + Check(p.language != "", Language)
    + Check(p.date_of_birth != "", DateOfBirth)
  }

  /** Gender and the emergency contact. */
  function ContactIssues(p: CompleteProfileInput): (r: seq<Field>)
    ensures r == [] <==>
      && IsGender(p.gender)
      && p.emergency_contact_name != "" && p.emergency_contact_phone != "" && p.emergency_contact_relation != ""
    ensures Gender in r <==> !IsGender(p.gender)
  {
    Check(IsGender(p.gender), Gender)
    + Check(p.emergency_contact_name != "", EmergencyContactName)
    + Check(p.emergency_contact_phone != "", EmergencyContactPhone)
    + Check(p.emergency_contact_relation != "", EmergencyContactRelation)
  }

  /** Insurance and preferred language. */
  function InsuranceIssues(p: CompleteProfileInput): (r: seq<Field>)
    ensures r == [] <==> p.insurance_provider != "" && p.insurance_policy_number != "" && p.preferred_language != ""
    ensures Gender !in r
  {
    Check(p.insurance_provider != "", InsuranceProvider)
    + Check(p.insurance_policy_number != "", InsurancePolicyNumber)
    + Check(p.preferred_language != "", PreferredLanguage)
  }

  /** Every required text field non-empty, a valid avatar URL, and gender one of M, F, Other. */
  function CompleteProfileIssues(p: CompleteProfileInput, isUrl: string -> bool): (r: seq<Field>)
    ensures r == [] <==>
      && p.first_name != "" && p.last_name != "" && p.phone != "" && isUrl(p.avatar_url)
      && p.timezone != "" && p.language != "" && p.date_of_birth != "" && IsGender(p.gender)
      && p.emergency_contact_name != "" && p.emergency_contact_phone != "" && p.emergency_contact_relation != ""
      && p.insurance_provider != "" && p.insurance_policy_number != "" && p.preferred_language != ""
    ensures Gender in r <==> !IsGender(p.gender)
  {
    PersonalIssues(p, isUrl) + ContactIssues(p) + InsuranceIssues(p)
  }

  /** The parsed profile: schema defaults filled in. */
  function WithDefaults(p: CompleteProfileInput): (c: CompleteProfile)
    // A missing list or bio takes the schema default; a given one is passed on unchanged.
    ensures c.allergies == (if p.allergies.Some? then p.allergies.value else [])
    ensures c.current_medications == (if p.current_medications.Some? then p.current_medications.value else [])
    ensures c.conditions == (if p.conditions.Some? then p.conditions.value else [])
    ensures c.surgeries == (if p.surgeries.Some? then p.surgeries.value else [])
    ensures c.bio == (if p.bio.Some? then p.bio.value else "")
    // Every other field is copied.
    ensures c.first_name == p.first_name && c.last_name == p.last_name && c.phone == p.phone
    ensures c.avatar_url == p.avatar_url && c.timezone == p.timezone && c.language == p.language
    ensures c.date_of_birth == p.date_of_birth && c.gender == p.gender
    ensures c.emergency_contact_name == p.emergency_contact_name
    ensures c.emergency_contact_phone == p.emergency_contact_phone
    ensures c.emergency_contact_relation == p.emergency_contact_relation
    ensures c.insurance_provider == p.insurance_provider && c.insurance_policy_number == p.insurance_policy_number
    ensures c.preferred_language == p.preferred_language
  {
    CompleteProfile(
      p.first_name, p.last_name, p.phone, p.avatar_url, p.timezone, p.language, p.date_of_birth, p.gender,
      p.emergency_contact_name, p.emergency_contact_phone, p.emergency_contact_relation,
      p.allergies.GetOr([]), p.current_medications.GetOr([]), p.conditions.GetOr([]), p.surgeries.GetOr([]),
      p.insurance_provider, p.insurance_policy_number, p.preferred_language, p.bio.GetOr(""))
  }

  // ---------------------------------------------------------------------------
  // The handlers, as effects

  /**
   * `register`: sign up, fetch permissions, store the session user. Any
   * service failure is rethrown as REGISTRATION_FAILED before the session is
   * written.
   */
  function RegisterEffect(
    i: RegisterInput, isEmail: string -> bool,
    signup: Result<AuthResponse, AuthErrors.AuthError>,
    perms: Result<UserPermissions, AuthErrors.AuthError>): (e: Effect)
    ensures e.outcome.Success? <==> RegisterIssues(i, isEmail) == [] && signup.Success? && perms.Success?
    ensures e.outcome.Success? ==>
      e.writes == [Wrote(AuthHelpers.ToSessionUser(signup.value, perms.value.permissions))]
    ensures e.outcome.Failure? ==> e.writes == []
    ensures RegisterIssues(i, isEmail) == [] && signup.Failure? ==>
      e.outcome == Failure(ActionError(RegistrationFailed, signup.error.message))
    ensures RegisterIssues(i, isEmail) == [] && signup.Success? && perms.Failure? ==>
      e.outcome == Failure(ActionError(RegistrationFailed, perms.error.message))
    ensures RegisterIssues(i, isEmail) != [] ==> e == Effect(Failure(InputError(RegisterIssues(i, isEmail))), [], [])
  {
    var issues := RegisterIssues(i, isEmail);
    if issues != [] then Effect(Failure(InputError(issues)), [], [])
    else
      var call := Register(i.email, i.password, RegisterData(i.first_name, i.last_name, i.phone));
      match signup
      case Failure(err) => Effect(Failure(Rethrow(RegistrationFailed, err)), [call], [])
      case Success(r) =>
        var calls := [call, GetUserPermissions(r.access_token)];
        match perms
        case Failure(err) => Effect(Failure(Rethrow(RegistrationFailed, err)), calls, [])
        case Success(p) =>
          Effect(Success(Done(RegisteredMessage)), calls, [Wrote(AuthHelpers.ToSessionUser(r, p.permissions))])
  }

  /** `login`: the same shape as `register`, rethrowing as LOGIN_FAILED. */
  function LoginEffect(
    i: LoginInput, isEmail: string -> bool,
    signin: Result<AuthResponse, AuthErrors.AuthError>,
    perms: Result<UserPermissions, AuthErrors.AuthError>): (e: Effect)
    ensures e.outcome.Success? <==> LoginIssues(i, isEmail) == [] && signin.Success? && perms.Success?
    ensures e.outcome.Success? ==>
      e.writes == [Wrote(AuthHelpers.ToSessionUser(signin.value, perms.value.permissions))]
    ensures e.outcome.Failure? ==> e.writes == []
    ensures LoginIssues(i, isEmail) == [] && signin.Failure? ==>
      e.outcome == Failure(ActionError(LoginFailed, signin.error.message))
    ensures LoginIssues(i, isEmail) == [] && signin.Success? && perms.Failure? ==>
      e.outcome == Failure(ActionError(LoginFailed, perms.error.message))
    ensures LoginIssues(i, isEmail) != [] ==> e == Effect(Failure(InputError(LoginIssues(i, isEmail))), [], [])
  {
    var issues := LoginIssues(i, isEmail);
    if issues != [] then Effect(Failure(InputError(issues)), [], [])
    else
      var call := Login(i.email, i.password);
      match signin
      case Failure(err) => Effect(Failure(Rethrow(LoginFailed, err)), [call], [])
      case Success(r) =>
        var calls := [call, GetUserPermissions(r.access_token)];
        match perms
        case Failure(err) => Effect(Failure(Rethrow(LoginFailed, err)), calls, [])
        case Success(p) =>
          Effect(Success(Done(LoggedInMessage)), calls, [Wrote(AuthHelpers.ToSessionUser(r, p.permissions))])
  }

  /**
   * `logout`: the provider is told only when a user is stored; the session is
   * destroyed exactly once either way, and a provider failure still surfaces
   * as LOGOUT_FAILED.
   */
  function LogoutEffect(stored: Option<SessionUser>, signout: Option<AuthErrors.AuthError>): (e: Effect)
    ensures e.writes == [Destroyed]
    ensures e.calls == (if stored.Some? then [Logout(stored.value.access_token)] else [])
    ensures e.outcome.Failure? <==> stored.Some? && signout.Some?
    ensures e.outcome.Failure? ==> e.outcome.error == ActionError(LogoutFailed, signout.value.message)
  {
    match stored
    case None => Effect(Success(Done(LoggedOutMessage)), [], [Destroyed])
    case Some(u) =>
      var calls := [Logout(u.access_token)];
      match signout
      case Some(err) => Effect(Failure(Rethrow(LogoutFailed, err)), calls, [Destroyed])
      case None => Effect(Success(Done(LoggedOutMessage)), calls, [Destroyed])
  }

  /** `recoverPassword`: one call, no session access. */
  function RecoverPasswordEffect(email: string, isEmail: string -> bool, sent: Option<AuthErrors.AuthError>): (e: Effect)
    ensures e.writes == []
    ensures e.outcome.Success? <==> isEmail(email) && sent.None?
    ensures isEmail(email) && sent.Some? ==> e.outcome == Failure(ActionError(RecoveryFailed, sent.value.message))
    ensures RecoverIssues(email, isEmail) != [] ==> e == Effect(Failure(InputError(RecoverIssues(email, isEmail))), [], [])
  {
    var issues := RecoverIssues(email, isEmail);
    if issues != [] then Effect(Failure(InputError(issues)), [], [])
    else
      var calls := [RecoverPassword(email)];
      match sent
      case Some(err) => Effect(Failure(Rethrow(RecoveryFailed, err)), calls, [])
      case None => Effect(Success(Done(RecoveryMessage)), calls, [])
  }

  /** Handlers that need a signed-in user: UNAUTHORIZED, with no call, when none is stored. */
  predicate RejectsAnonymous(e: Effect)
  {
    e.outcome == Failure(NotSignedIn()) && e.calls == [] && e.writes == []
  }

  /** `updatePassword`: never writes the session. */
  function UpdatePasswordEffect(stored: Option<SessionUser>, password: string, updated: Option<AuthErrors.AuthError>): (e: Effect)
    ensures e.writes == []
    ensures UpdatePasswordIssues(password) == [] && stored.None? ==> RejectsAnonymous(e)
    ensures e.outcome.Success? <==> MinLength(password, 6) && stored.Some? && updated.None?
    ensures e.outcome.Success? ==> e.calls == [UpdatePassword(password, stored.value.access_token)]
    ensures UpdatePasswordIssues(password) == [] && stored.Some? && updated.Some? ==>
      e.outcome == Failure(ActionError(UpdatePasswordFailed, updated.value.message))
    ensures UpdatePasswordIssues(password) != [] ==> e == Effect(Failure(InputError(UpdatePasswordIssues(password))), [], [])
  {
    var issues := UpdatePasswordIssues(password);
    if issues != [] then Effect(Failure(InputError(issues)), [], [])
    else match stored
      case None => Effect(Failure(NotSignedIn()), [], [])
      case Some(u) =>
        var calls := [UpdatePassword(password, u.access_token)];
        match updated
        case Some(err) => Effect(Failure(Rethrow(UpdatePasswordFailed, err)), calls, [])
        case None => Effect(Success(Done(PasswordUpdatedMessage)), calls, [])
  }

  /**
   * `updateUserMetadata`: on success the stored user is rewritten with the new
   * first and last name and nothing else changed; on failure the session is
   * left alone.
   */
  function UpdateMetadataEffect(
    stored: Option<SessionUser>, m: ProfileMetadata, isUrl: string -> bool,
    updated: Option<AuthErrors.AuthError>): (e: Effect)
    ensures MetadataIssues(m, isUrl) == [] && stored.None? ==> RejectsAnonymous(e)
    ensures e.outcome.Success? <==> MetadataIssues(m, isUrl) == [] && stored.Some? && updated.None?
    ensures e.outcome.Success? ==>
      && e.writes == [Wrote(stored.value.(first_name := m.first_name, last_name := m.last_name))]
      && e.calls == [UpdateUserMetadata(m, stored.value.access_token)]
    ensures e.outcome.Failure? ==> e.writes == []
    ensures MetadataIssues(m, isUrl) == [] && stored.Some? && updated.Some? ==>
      e.outcome == Failure(ActionError(UpdateMetadataFailed, updated.value.message))
    ensures MetadataIssues(m, isUrl) != [] ==> e == Effect(Failure(InputError(MetadataIssues(m, isUrl))), [], [])
  {
    var issues := MetadataIssues(m, isUrl);
    if issues != [] then Effect(Failure(InputError(issues)), [], [])
    else match stored
      case None => Effect(Failure(NotSignedIn()), [], [])
      case Some(u) =>
        var calls := [UpdateUserMetadata(m, u.access_token)];
        match updated
        case Some(err) => Effect(Failure(Rethrow(UpdateMetadataFailed, err)), calls, [])
        case None =>
          var renamed := u.(first_name := m.first_name, last_name := m.last_name);
          Effect(Success(Done(ProfileUpdatedMessage)), calls, [Wrote(renamed)])
  }

  /** `updateCompleteProfile`: sends the parsed profile; never writes the session. */
  function UpdateCompleteProfileEffect(
    stored: Option<SessionUser>, p: CompleteProfileInput, isUrl: string -> bool,
    updated: Option<AuthErrors.AuthError>): (e: Effect)
    ensures e.writes == []
    ensures CompleteProfileIssues(p, isUrl) == [] && stored.None? ==> RejectsAnonymous(e)
    ensures e.outcome.Success? <==> CompleteProfileIssues(p, isUrl) == [] && stored.Some? && updated.None?
    ensures CompleteProfileIssues(p, isUrl) == [] && stored.Some? ==>
      e.calls == [UpdateCompleteProfile(WithDefaults(p), stored.value.access_token)]
    ensures CompleteProfileIssues(p, isUrl) == [] && stored.Some? && updated.Some? ==>
      e.outcome == Failure(ActionError(UpdateCompleteProfileFailed, updated.value.message))
    ensures CompleteProfileIssues(p, isUrl) != [] ==> e == Effect(Failure(InputError(CompleteProfileIssues(p, isUrl))), [], [])
  {
    var issues := CompleteProfileIssues(p, isUrl);
    if issues != [] then Effect(Failure(InputError(issues)), [], [])
    else match stored
      case None => Effect(Failure(NotSignedIn()), [], [])
      case Some(u) =>
        var calls := [UpdateCompleteProfile(WithDefaults(p), u.access_token)];
        match updated
        case Some(err) => Effect(Failure(Rethrow(UpdateCompleteProfileFailed, err)), calls, [])
        case None => Effect(Success(Done(CompleteProfileUpdatedMessage)), calls, [])
  }

  /** `getCurrentUserProfile`: returns the fetched profile; never writes the session. */
  function GetCurrentUserProfileEffect(stored: Option<SessionUser>, fetched: Result<UserProfile, AuthErrors.AuthError>): (e: Effect)
    ensures e.writes == []
    ensures stored.None? ==> RejectsAnonymous(e)
    ensures stored.Some? ==> e.calls == [GetCurrentUserProfile(stored.value.access_token)]
    ensures stored.Some? && fetched.Success? ==> e.outcome == Success(ProfileReply(fetched.value))
    ensures stored.Some? && fetched.Failure? ==> e.outcome == Failure(ActionError(GetProfileFailed, fetched.error.message))
  {
    match stored
    case None => Effect(Failure(NotSignedIn()), [], [])
    case Some(u) =>
      var calls := [GetCurrentUserProfile(u.access_token)];
      match fetched
      case Failure(err) => Effect(Failure(Rethrow(GetProfileFailed, err)), calls, [])
      case Success(profile) => Effect(Success(ProfileReply(profile)), calls, [])
  }

  /** `getUserPermissions`: returns the fetched permissions; never writes the session. */
  function GetUserPermissionsEffect(stored: Option<SessionUser>, fetched: Result<UserPermissions, AuthErrors.AuthError>): (e: Effect)
    ensures e.writes == []
    ensures stored.None? ==> RejectsAnonymous(e)
    ensures stored.Some? ==> e.calls == [GetUserPermissions(stored.value.access_token)]
    ensures stored.Some? && fetched.Success? ==> e.outcome == Success(PermissionsReply(fetched.value))
    ensures stored.Some? && fetched.Failure? ==> e.outcome == Failure(ActionError(GetPermissionsFailed, fetched.error.message))
  {
    match stored
    case None => Effect(Failure(NotSignedIn()), [], [])
    case Some(u) =>
      var calls := [GetUserPermissions(u.access_token)];
      match fetched
      case Failure(err) => Effect(Failure(Rethrow(GetPermissionsFailed, err)), calls, [])
      case Success(perms) => Effect(Success(PermissionsReply(perms)), calls, [])
  }

  /** A failed login or registration reports the service's technical message, not its user message. */
  lemma LoginFailureCarriesRawMessage(
    i: LoginInput, isEmail: string -> bool, err: AuthErrors.AuthError,
    perms: Result<UserPermissions, AuthErrors.AuthError>)
    requires LoginIssues(i, isEmail) == []
    ensures LoginEffect(i, isEmail, Failure(err), perms).outcome.error.message == err.message
    ensures LoginEffect(i, isEmail, Failure(err), perms).outcome.error.Code() == "LOGIN_FAILED"
  {
  }

  // ---------------------------------------------------------------------------
  // The handlers, on the session

  /** The action context: the session store and the log of service calls. */
  class Handlers {
    const session: SessionStore
    var calls: seq<ServiceCall>

    ghost predicate Valid()
      reads this, session
    {
      session.Valid()
    }

    constructor(session: SessionStore)
      requires session.Valid()
      ensures this.session == session && calls == []
      ensures Valid()
    {
      this.session := session;
      calls := [];
    }

    /** Performs one effect: appends its calls and applies its writes. */
    method Perform(e: Effect) returns (outcome: Outcome)
      requires Valid()
      requires e.writes == [] || e.writes == [Destroyed] || exists u :: e.writes == [Wrote(u)]
      modifies this, session
      ensures Valid()
      ensures outcome == e.outcome && calls == old(calls) + e.calls
      ensures session.history == old(session.history) + e.writes
      ensures session.user == Replay(old(session.user), e.writes)
    {
      calls := calls + e.calls;
      if e.writes == [Destroyed] {
        session.Destroy();
      } else if e.writes != [] {
        session.Set(e.writes[0].user);
        assert e.writes == [Wrote(e.writes[0].user)];
      }
      outcome := e.outcome;
    }

    method Register(
      i: RegisterInput, isEmail: string -> bool,
      signup: Result<AuthResponse, AuthErrors.AuthError>, perms: Result<UserPermissions, AuthErrors.AuthError>)
      returns (outcome: Outcome)
      requires Valid()
      modifies this, session
      ensures Valid()
      ensures var e := RegisterEffect(i, isEmail, signup, perms);
        && outcome == e.outcome && calls == old(calls) + e.calls
        && session.history == old(session.history) + e.writes && session.user == Replay(old(session.user), e.writes)
    {
      outcome := Perform(RegisterEffect(i, isEmail, signup, perms));
    }

    method Login(
      i: LoginInput, isEmail: string -> bool,
      signin: Result<AuthResponse, AuthErrors.AuthError>, perms: Result<UserPermissions, AuthErrors.AuthError>)
      returns (outcome: Outcome)
      requires Valid()
      modifies this, session
      ensures Valid()
      ensures var e := LoginEffect(i, isEmail, signin, perms);
        && outcome == e.outcome && calls == old(calls) + e.calls
        && session.history == old(session.history) + e.writes && session.user == Replay(old(session.user), e.writes)
    {
      outcome := Perform(LoginEffect(i, isEmail, signin, perms));
    }

    method Logout(signout: Option<AuthErrors.AuthError>) returns (outcome: Outcome)
      requires Valid()
      modifies this, session
      ensures Valid()
      ensures var e := LogoutEffect(old(session.user), signout);
        && outcome == e.outcome && calls == old(calls) + e.calls
        && session.history == old(session.history) + [Destroyed] && session.user == None
    {
      var stored := session.Get();
      outcome := Perform(LogoutEffect(stored, signout));
    }

    method RecoverPassword(email: string, isEmail: string -> bool, sent: Option<AuthErrors.AuthError>)
      returns (outcome: Outcome)
      requires Valid()
      modifies this
      ensures Valid()
      ensures var e := RecoverPasswordEffect(email, isEmail, sent);
        outcome == e.outcome && calls == old(calls) + e.calls
    {
      var e := RecoverPasswordEffect(email, isEmail, sent);
      calls := calls + e.calls;
      outcome := e.outcome;
    }

    method UpdatePassword(password: string, updated: Option<AuthErrors.AuthError>) returns (outcome: Outcome)
      requires Valid()
      modifies this
      ensures Valid()
      ensures var e := UpdatePasswordEffect(session.user, password, updated);
        outcome == e.outcome && calls == old(calls) + e.calls
    {
      var stored := session.Get();
      var e := UpdatePasswordEffect(stored, password, updated);
      calls := calls + e.calls;
      outcome := e.outcome;
    }

    method UpdateUserMetadata(m: ProfileMetadata, isUrl: string -> bool, updated: Option<AuthErrors.AuthError>)
      returns (outcome: Outcome)
      requires Valid()
      modifies this, session
      ensures Valid()
      ensures var e := UpdateMetadataEffect(old(session.user), m, isUrl, updated);
        && outcome == e.outcome && calls == old(calls) + e.calls
        && session.history == old(session.history) + e.writes && session.user == Replay(old(session.user), e.writes)
    {
      var stored := session.Get();
      outcome := Perform(UpdateMetadataEffect(stored, m, isUrl, updated));
    }

    method UpdateCompleteProfile(p: CompleteProfileInput, isUrl: string -> bool, updated: Option<AuthErrors.AuthError>)
      returns (outcome: Outcome)
      requires Valid()
      modifies this
      ensures Valid()
      ensures var e := UpdateCompleteProfileEffect(session.user, p, isUrl, updated);
        outcome == e.outcome && calls == old(calls) + e.calls
    {
      var stored := session.Get();
      var e := UpdateCompleteProfileEffect(stored, p, isUrl, updated);
      calls := calls + e.calls;
      outcome := e.outcome;
    }

    method GetCurrentUserProfile(fetched: Result<UserProfile, AuthErrors.AuthError>) returns (outcome: Outcome)
      requires Valid()
      modifies this
      ensures Valid()
      ensures var e := GetCurrentUserProfileEffect(session.user, fetched);
        outcome == e.outcome && calls == old(calls) + e.calls
    {
      var stored := session.Get();
      var e := GetCurrentUserProfileEffect(stored, fetched);
      calls := calls + e.calls;
      outcome := e.outcome;
    }

    method GetUserPermissions(fetched: Result<UserPermissions, AuthErrors.AuthError>) returns (outcome: Outcome)
      requires Valid()
      modifies this
      ensures Valid()
      ensures var e := GetUserPermissionsEffect(session.user, fetched);
        outcome == e.outcome && calls == old(calls) + e.calls
    {
      var stored := session.Get();
      var e := GetUserPermissionsEffect(stored, fetched);
      calls := calls + e.calls;
      outcome := e.outcome;
    }
  }
}
