/**
 * The authentication endpoints (backend/api/endpoints/auth_api.py): error
 * mapping to HTTP status codes and the formatting of the service's
 * dictionary into the response body.
 */
module AuthApi {
  import opened Wrappers
  import opened AuthService

  const BadRequest := 400
  const Unauthorized := 401
  const InternalError := 500
  const AuthErrorPrefix := "Authentication error: "
  const InvalidCredentials := "Invalid email or password"
  const LogoutFailed := "Failed to log out"
  const LogoutSuccess := "Successfully logged out"
  const PasswordResetSent := "Password reset email sent"
  const Bearer := "bearer"

  /** The exceptions that reach `handle_auth_error`. */
  datatype Exception =
    | ValueError(text: string)
    | OtherError(text: string)
      /** The `HTTPException(500, LOGOUT_FAILED)` that `logout` raises inside its own `try`. */
    | LogoutHttpException

  datatype HttpError = HttpError(status: int, detail: string)

  /** `str(e)`; an `HTTPException` prints as "<status>: <detail>". */
  function ExceptionText(e: Exception): string {
    match e
    case ValueError(t) => t
    case OtherError(t) => t
    case LogoutHttpException => "500: " + LogoutFailed
  }

  /** `handle_auth_error`: a `ValueError` is a 400 with its own text, anything else a 500 with a prefix. */
  function HandleAuthError(e: Exception): (r: HttpError)
    ensures r.status == BadRequest <==> e.ValueError?
    ensures r.status == InternalError <==> !e.ValueError?
    ensures e.ValueError? ==> r.detail == e.text
    ensures !e.ValueError? ==> r.detail == AuthErrorPrefix + ExceptionText(e)
  {
    if e.ValueError? then HttpError(BadRequest, e.text)
    else HttpError(InternalError, AuthErrorPrefix + ExceptionText(e))
  }

  datatype UserResponse = UserResponse(id: string, email: string, fullName: string, createdAt: string)
  datatype TokenResponse = TokenResponse(accessToken: string, refreshToken: string, tokenType: string)
  datatype AuthResponse = AuthResponse(user: UserResponse, token: TokenResponse)

  /**
   * The `full_name` of the response: the dictionary's own value when truthy,
   * otherwise the metadata's `full_name` when the metadata is a dict (`None`
   * when the key is missing), passed through `str`.
   */
  function ResponseFullName(u: UserDict): (name: string)
    ensures Truthy(u.fullName) ==> name == u.fullName.text
    ensures !Truthy(u.fullName) && u.userMetadata.MetaDict? ==>
      name == PyText(Get(u.userMetadata.entries, FullNameKey, PyNone))
    ensures !Truthy(u.fullName) && !u.userMetadata.MetaDict? ==> name == PyText(u.fullName)
  {
    if Truthy(u.fullName) then u.fullName.text
    else if u.userMetadata.MetaDict? then PyText(Get(u.userMetadata.entries, FullNameKey, PyNone))
    else PyText(u.fullName)
  }

  /** `format_auth_response`: the token is filled only from a session with a truthy access token, and is always "bearer". */
  function FormatAuthResponse(result: AuthDict): (r: AuthResponse)
    ensures r.user == UserResponse(result.user.id, result.user.email, ResponseFullName(result.user), result.user.createdAt)
    ensures r.token.tokenType == Bearer
    ensures result.session.Some? && result.session.value.accessToken != "" ==>
      r.token == TokenResponse(result.session.value.accessToken, result.session.value.refreshToken, Bearer)
    ensures result.session.None? || result.session.value.accessToken == "" ==> r.token == TokenResponse("", "", Bearer)
  {
    var token :=
      if result.session.Some? && result.session.value.accessToken != "" then
        TokenResponse(result.session.value.accessToken, result.session.value.refreshToken, Bearer)
      else TokenResponse("", "", Bearer);
    AuthResponse(UserResponse(result.user.id, result.user.email, ResponseFullName(result.user), result.user.createdAt), token)
  }

  /** A user whose metadata lacks `full_name` is answered with the name "None". */
  lemma MissingFullNameIsNone(user: User, session: Option<SessionObj>)
    requires user.metadata.MetaDict? && FullNameKey !in user.metadata.entries
    ensures FormatAuthResponse(BuildAuthDict(user, session)).user.fullName == "None"
  {
    var d := BuildAuthDict(user, session);
    assert d.user.fullName == PyStr("");
    assert !Truthy(d.user.fullName);
  }

  /** A non-empty `full_name` in the metadata reaches the response unchanged. */
  lemma FullNameCarriedThrough(user: User, session: Option<SessionObj>, name: string)
    requires user.metadata.MetaDict? && FullNameKey in user.metadata.entries
    requires user.metadata.entries[FullNameKey] == PyStr(name) && name != ""
    ensures FormatAuthResponse(BuildAuthDict(user, session)).user.fullName == name
  {
    var d := BuildAuthDict(user, session);
    assert d.user.fullName == PyStr(name);
  }

  /** String or absent metadata gives the name "None" too, since it becomes an empty dict. */
  lemma NonDictMetadataNameIsNone(user: User, session: Option<SessionObj>)
    requires user.metadata.MetaStr? || user.metadata.MetaNone?
    ensures FormatAuthResponse(BuildAuthDict(user, session)).user.fullName == "None"
  {
    var d := BuildAuthDict(user, session);
    assert d.user.userMetadata == MetaDict(map[]);
    assert d.user.fullName == PyStr("");
  }

  /** The provider's tokens reach the response exactly when its session has a non-empty access token. */
  lemma TokensCarriedThrough(user: User, session: Option<SessionObj>)
    ensures var t := FormatAuthResponse(BuildAuthDict(user, session)).token;
      t.accessToken != "" <==> session.Some? && session.value.accessToken.Some? && session.value.accessToken.value != ""
    ensures var t := FormatAuthResponse(BuildAuthDict(user, session)).token;
      t.accessToken != "" ==>
        t.accessToken == session.value.accessToken.value && t.refreshToken == session.value.refreshToken.GetOr("")
  {
    var d := BuildAuthDict(user, session);
    assert d.session == SessionDict(session);
  }

  /** `POST /signup`: a service error is a 400 carrying the service's text. */
  function SignupEndpoint(reply: Result<AuthReply, string>): (r: Result<AuthResponse, HttpError>)
    ensures Signup(reply).Ok? ==> r == Ok(FormatAuthResponse(Signup(reply).value))
    ensures Signup(reply).Err? ==> r == Err(HttpError(BadRequest, Signup(reply).error))
  {
    match Signup(reply)
    case Ok(d) => Ok(FormatAuthResponse(d))
    case Err(t) => Err(HandleAuthError(ValueError(t)))
  }

  /** `POST /login`: every service error becomes the same 401, whatever its text. */
  function LoginEndpoint(reply: Result<AuthReply, string>): (r: Result<AuthResponse, HttpError>)
    ensures Login(reply).Ok? ==> r == Ok(FormatAuthResponse(Login(reply).value))
    ensures Login(reply).Err? ==> r == Err(HttpError(Unauthorized, InvalidCredentials))
  {
    match Login(reply)
    case Ok(d) => Ok(FormatAuthResponse(d))
    case Err(_) => Err(HttpError(Unauthorized, InvalidCredentials))
  }

  /** Login failures do not reveal why: two different failures give the same answer. */
  lemma LoginFailuresIndistinguishable(a: Result<AuthReply, string>, b: Result<AuthReply, string>)
    requires Login(a).Err? && Login(b).Err?
    ensures LoginEndpoint(a) == LoginEndpoint(b)
  {
  }

  /**
   * `POST /logout`: `signOutOk` is what the service's `logout` returned.
   * A failure raises an `HTTPException` inside the `try`, which the handler
   * wraps again.
   */
  function LogoutEndpoint(signOutOk: bool): (r: Result<string, HttpError>)
    ensures signOutOk ==> r == Ok(LogoutSuccess)
    ensures !signOutOk ==> r == Err(HttpError(InternalError, AuthErrorPrefix + ("500: " + LogoutFailed)))
  {
    if signOutOk then Ok(LogoutSuccess) else Err(HandleAuthError(LogoutHttpException))
  }

  /** `POST /reset-password`: the service's result is ignored, so the answer is always the same. */
  function ResetPasswordEndpoint(sendOk: bool): (r: Result<string, HttpError>)
    ensures r == Ok(PasswordResetSent)
  {
    Ok(PasswordResetSent)
  }
}
