/**
 * The authentication service (backend/services/auth_service.py): turns the
 * identity provider's answers to sign-up and sign-in into the dictionary the
 * endpoints format, and turns every failure into a `ValueError` whose text
 * carries a fixed prefix.
 *
 * The identity provider's calls are parameters: `Ok(reply)` for the object
 * it returned, `Err(text)` for an exception whose `str` is `text`.
 */
module AuthService {
  import opened Wrappers

  const RegistrationFailed := "Registration failed"
  const AuthenticationFailed := "Authentication failed"
  const CouldNotCreateUser := "Could not create user"
  const InvalidCredentialsReason := "Invalid credentials"
  const FullNameKey := "full_name"

  /** The Python values a metadata entry can hold. */
  datatype PyValue = PyNone | PyStr(text: string)

  /** Python truthiness of a metadata value. */
  predicate Truthy(v: PyValue) {
    v.PyStr? && v.text != ""
  }

  /** `str(v)`. */
  function PyText(v: PyValue): (s: string)
    ensures v.PyNone? ==> s == "None"
    ensures v.PyStr? ==> s == v.text
  {
    match v
    case PyNone => "None"
    case PyStr(t) => t
  }

  /** The `user_metadata` attribute: a dict, a string, `None`, or some other object. */
  datatype Metadata = MetaDict(entries: map<string, PyValue>) | MetaStr(text: string) | MetaNone | MetaOther

  /** The user and session objects of the provider's reply; a missing token attribute is `None`. */
  datatype User = User(id: string, email: string, metadata: Metadata, createdAt: string)
  datatype SessionObj = SessionObj(accessToken: Option<string>, refreshToken: Option<string>)
  datatype AuthReply = AuthReply(user: Option<User>, session: Option<SessionObj>)

  /** The `"session"` entry: `None` for the empty dict. */
  datatype TokenPair = TokenPair(accessToken: string, refreshToken: string)
  datatype UserDict = UserDict(id: string, email: string, userMetadata: Metadata, fullName: PyValue, createdAt: string)
  datatype AuthDict = AuthDict(user: UserDict, session: Option<TokenPair>)

  /** A string or `None` metadata becomes the empty dict; anything else is kept. */
  function NormalisedMetadata(m: Metadata): (r: Metadata)
    ensures !r.MetaStr? && !r.MetaNone?
    ensures m.MetaStr? || m.MetaNone? ==> r == MetaDict(map[])
    ensures m.MetaDict? || m.MetaOther? ==> r == m
  {
    match m
    case MetaStr(_) => MetaDict(map[])
    case MetaNone => MetaDict(map[])
    case _ => m
  }

  /** `dict.get(key, default)`. */
  function Get(entries: map<string, PyValue>, key: string, default: PyValue): (v: PyValue)
    ensures key in entries ==> v == entries[key]
    ensures key !in entries ==> v == default
  {
    if key in entries then entries[key] else default
  }

  /** The session dict: filled only when the session has a truthy access token; a falsy refresh token becomes `""`. */
  function SessionDict(session: Option<SessionObj>): (r: Option<TokenPair>)
    ensures r.Some? <==> session.Some? && session.value.accessToken.Some? && session.value.accessToken.value != ""
    ensures r.Some? ==> r.value.accessToken == session.value.accessToken.value && r.value.accessToken != ""
    ensures r.Some? ==> r.value.refreshToken == session.value.refreshToken.GetOr("")
  {
    match session
    case None => None
    case Some(s) =>
      match s.accessToken
      case Some(a) =>
        if a != "" then Some(TokenPair(a, s.refreshToken.GetOr(""))) else None
      case None => None
  }

  /** `_build_auth_dict`: the user's fields, the normalised metadata, its `full_name` (default `""`) and the session dict. */
  function BuildAuthDict(user: User, session: Option<SessionObj>): (r: AuthDict)
    ensures r.user.id == user.id && r.user.email == user.email && r.user.createdAt == user.createdAt
    ensures r.user.userMetadata == NormalisedMetadata(user.metadata)
    ensures r.user.userMetadata.MetaDict? ==> r.user.fullName == Get(r.user.userMetadata.entries, FullNameKey, PyStr(""))
    ensures !r.user.userMetadata.MetaDict? ==> r.user.fullName == PyStr("")
    ensures r.session == SessionDict(session)
  {
    var meta := NormalisedMetadata(user.metadata);
    var fullName := if meta.MetaDict? then Get(meta.entries, FullNameKey, PyStr("")) else PyStr("");
    AuthDict(UserDict(user.id, user.email, meta, fullName, user.createdAt), SessionDict(session))
  }

  /** The text of a `ValueError` raised with `prefix` around the text `reason`. */
  function Failure(prefix: string, reason: string): string {
    prefix + ": " + reason
  }

  /**
   * `signup`: a reply without a user raises inside the `try`, so its text is
   * wrapped twice; an exception from the provider is wrapped once.
   */
  function Signup(reply: Result<AuthReply, string>): (r: Result<AuthDict, string>)
    ensures r.Ok? <==> reply.Ok? && reply.value.user.Some?
    ensures r.Ok? ==> r.value == BuildAuthDict(reply.value.user.value, reply.value.session)
    ensures reply.Err? ==> r == Err(Failure(RegistrationFailed, reply.error))
    ensures reply.Ok? && reply.value.user.None? ==>
      r == Err(Failure(RegistrationFailed, Failure(RegistrationFailed, CouldNotCreateUser)))
  {
    match reply
    case Err(e) => Err(Failure(RegistrationFailed, e))
    case Ok(a) =>
      match a.user
      case None => Err(Failure(RegistrationFailed, Failure(RegistrationFailed, CouldNotCreateUser)))
      case Some(u) => Ok(BuildAuthDict(u, a.session))
  }

  /** `login`: both a user and a session are required; failures are wrapped as in `Signup`. */
  function Login(reply: Result<AuthReply, string>): (r: Result<AuthDict, string>)
    ensures r.Ok? <==> reply.Ok? && reply.value.user.Some? && reply.value.session.Some?
    ensures r.Ok? ==> r.value == BuildAuthDict(reply.value.user.value, reply.value.session)
    ensures reply.Err? ==> r == Err(Failure(AuthenticationFailed, reply.error))
    ensures reply.Ok? && (reply.value.user.None? || reply.value.session.None?) ==>
      r == Err(Failure(AuthenticationFailed, Failure(AuthenticationFailed, InvalidCredentialsReason)))
  {
    match reply
    case Err(e) => Err(Failure(AuthenticationFailed, e))
    case Ok(a) =>
      if a.user.None? || a.session.None? then
        Err(Failure(AuthenticationFailed, Failure(AuthenticationFailed, InvalidCredentialsReason)))
      else Ok(BuildAuthDict(a.user.value, a.session))
  }

  /** Every sign-up error text starts with the registration prefix. */
  lemma SignupErrorsArePrefixed(reply: Result<AuthReply, string>)
    ensures Signup(reply).Err? ==> Signup(reply).error[..|RegistrationFailed| + 2] == RegistrationFailed + ": "
  {
  }

  /** A successful login always carries a session dict whose access token is non-empty, or none at all. */
  lemma LoginSessionTokens(reply: Result<AuthReply, string>)
    ensures Login(reply).Ok? && Login(reply).value.session.Some? ==> Login(reply).value.session.value.accessToken != ""
  {
  }
}
