/**
 * The route guard (frontend/src/components/ProtectedRoute.jsx): a stored
 * token that is missing or expired is removed and the visitor is sent to
 * the login page; otherwise the protected page is shown.
 *
 * Decoding the token's payload (`atob` then `JSON.parse`) is the parameter
 * `decode`, `None` where either throws; the clock is the parameter `now`
 * in milliseconds.
 */
module RouteGuard {
  import opened Wrappers
  import opened Text

  const LoginPath := "/login"

  /**
   * A decoded payload: `JsNull` for `null`, whose `.exp` throws; any other
   * value with its `exp` property, `None` when it has none.
   */
  datatype Payload = JsNull | JsValue(exp: Option<int>)

  /** The second `.`-separated segment, `None` when the token has no `.` (its decoding then throws). */
  function PayloadSegment(token: string): (seg: Option<string>)
    ensures seg.Some? <==> '.' in token
    ensures seg.Some? ==> '.' !in seg.value
  {
    var parts := Split(token, '.');
    JoinSplit(token, '.');
    if |parts| >= 2 then
      assert token[|parts[0]|] == '.' by {
        assert token == parts[0] + ['.'] + Join(parts[1..], ['.']);
      }
      Some(parts[1])
    else
      assert parts == [parts[0]];
      None
  }

  /**
   * `isTokenExpired`: a truthy `exp` (non-zero) whose milliseconds lie
   * before `now` is expired, and so is any token that cannot be decoded.
   */
  function IsTokenExpired(token: string, decode: string -> Option<Payload>, now: int): (expired: bool)
    ensures PayloadSegment(token).None? ==> expired
    ensures PayloadSegment(token).Some? ==>
      var p := decode(PayloadSegment(token).value);
      expired <==> p.None? || p.value.JsNull? || (p.value.exp.Some? && p.value.exp.value != 0 && p.value.exp.value * 1000 < now)
  {
    match PayloadSegment(token)
    case None => true
    case Some(seg) =>
      match decode(seg)
      case None => true
      case Some(p) =>
        match p
        case JsNull => true
        case JsValue(exp) => exp.Some? && exp.value != 0 && exp.value * 1000 < now
  }

  /** Once expired, a token stays expired as the clock moves on. */
  lemma ExpiryIsMonotone(token: string, decode: string -> Option<Payload>, now1: int, now2: int)
    requires now1 <= now2 && IsTokenExpired(token, decode, now1)
    ensures IsTokenExpired(token, decode, now2)
  {
  }

  /** A payload without `exp`, or with `exp` 0, never expires. */
  lemma NoExpiryNeverExpires(token: string, decode: string -> Option<Payload>, now: int)
    requires PayloadSegment(token).Some?
    requires decode(PayloadSegment(token).value) == Some(JsValue(None))
          || decode(PayloadSegment(token).value) == Some(JsValue(Some(0)))
    ensures !IsTokenExpired(token, decode, now)
  {
  }

  /** The page the guard settles on. */
  datatype View = RenderChildren | Redirect(path: string)

  /** The browser's `localStorage` entry `token`. */
  class TokenStorage {
    var token: Option<string>

    constructor (token: Option<string>)
      ensures this.token == token
    {
      this.token := token;
    }
  }

  /** A stored token lets the page through when it is non-empty and not expired. */
  predicate Admits(token: Option<string>, decode: string -> Option<Payload>, now: int) {
    token.Some? && token.value != "" && !IsTokenExpired(token.value, decode, now)
  }

  /** `ProtectedRoute`: renders the page for an admitted token; otherwise clears the token and redirects. */
  method ProtectedRoute(storage: TokenStorage, decode: string -> Option<Payload>, now: int) returns (view: View)
    modifies storage
    ensures Admits(old(storage.token), decode, now) ==> view == RenderChildren && storage.token == old(storage.token)
    ensures !Admits(old(storage.token), decode, now) ==> view == Redirect(LoginPath) && storage.token == None
  {
    var token := storage.token;
    if token.None? || token.value == "" || IsTokenExpired(token.value, decode, now) {
      storage.token := None;
      return Redirect(LoginPath);
    }
    return RenderChildren;
  }

  /**
   * The guard settles after one run: running it again with the same clock
   * renders the same view, and the token stays where the first run left it.
   */
  method GuardSettles(storage: TokenStorage, decode: string -> Option<Payload>, now: int)
    returns (first: View, second: View)
    modifies storage
    ensures second == first
    ensures first == RenderChildren <==> Admits(old(storage.token), decode, now)
    ensures storage.token == if Admits(old(storage.token), decode, now) then old(storage.token) else None
  {
    first := ProtectedRoute(storage, decode, now);
    second := ProtectedRoute(storage, decode, now);
  }
}
