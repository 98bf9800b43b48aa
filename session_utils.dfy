/** The session helpers shared by the routes: issuing a session cookie and reading a token. */
module SessionUtils {
  import opened Wrappers
  import Js
  import Jwt
  import Cookies

  /** The `TOKEN_OPTIONS` of `createSessionHeader`: tokens it issues expire after twelve hours. */
  const TokenOptions := Jwt.SignOptions(Some("12h"))

  const SetCookie := "Set-Cookie"

  /**
   * The session record after a sign-in: the parsed record, or `{}` when there is none,
   * with `userId` and `token` overwritten and every other field kept.
   */
  function WithSession(parsed: Option<Cookies.Record>, userId: string, token: string): (r: Cookies.Record)
    ensures Cookies.UserIdKey in r && r[Cookies.UserIdKey] == userId
    ensures Cookies.TokenKey in r && r[Cookies.TokenKey] == token
    ensures parsed.None? ==> r.Keys == {Cookies.UserIdKey, Cookies.TokenKey}
    ensures parsed.Some? ==> r.Keys == parsed.value.Keys + {Cookies.UserIdKey, Cookies.TokenKey}
    ensures parsed.Some? ==> forall k :: k in parsed.value && k != Cookies.UserIdKey && k != Cookies.TokenKey ==>
                               r[k] == parsed.value[k]
  {
    var base := if parsed.Some? then parsed.value else map[];
    base[Cookies.UserIdKey := userId][Cookies.TokenKey := token]
  }

  /**
   * `createSessionHeader(cookies, userId)`: parses the request's cookie, stamps it with the
   * user id and a fresh twelve-hour token signed over `{ sub: userId }`, and answers the
   * header object `{ 'Set-Cookie': serialized record }`. None: `jwt.sign` threw because the
   * secret is not set.
   */
  method CreateSessionHeader(jwt: Jwt.Library, session: Cookies.Session, secret: Option<string>,
                             cookies: Option<string>, userId: string)
    returns (header: Option<map<string, string>>)
    ensures header.None? <==> !Js.Truthy(secret)
    ensures header.Some? ==> header.value.Keys == {SetCookie}
    ensures header.Some? ==>
      header.value[SetCookie] ==
        session.serialize(Some(WithSession(session.parse(cookies), userId,
                                           jwt.sign(Jwt.SubjectClaim(userId), TokenOptions, secret.value))),
                          Cookies.Defaults)
  {
    var tokenPayload := Jwt.SubjectClaim(userId);
    var parsed := session.parse(cookies);
    var sessionCookie: Cookies.Record := if parsed.Some? then parsed.value else map[];
    sessionCookie := sessionCookie[Cookies.UserIdKey := userId];
    var token := Jwt.Sign(jwt, tokenPayload, secret, TokenOptions);
    if token.None? {
      return None;
    }
    sessionCookie := sessionCookie[Cookies.TokenKey := token.value];
    header := Some(map[SetCookie := session.serialize(Some(sessionCookie), Cookies.Defaults)]);
  }

  /**
   * `getSessionData(token)`: the verified payload, or None for the `false` it answers
   * instead of letting any verification error escape.
   */
  function GetSessionData(jwt: Jwt.Library, token: Option<string>, secret: Option<string>): (r: Option<Jwt.Payload>)
    ensures r.None? <==> !Js.Truthy(token) || !Js.Truthy(secret) || jwt.check(token.value, secret.value).None?
    ensures r.Some? ==> r == jwt.check(token.value, secret.value)
  {
    match Jwt.Verify(jwt, token, secret)
    case None => None
    case Some(payload) => Some(payload)
  }

  /** A token just issued for `userId` reads back, with the same secret, as a session of `userId`. */
  lemma IssuedTokenReadsBack(jwt: Jwt.Library, secret: Option<string>, options: Jwt.SignOptions, userId: string)
    requires jwt.RoundTrips() && Js.Truthy(secret)
    ensures var data := GetSessionData(jwt, Some(jwt.sign(Jwt.SubjectClaim(userId), options, secret.value)), secret);
            data.Some? && data.value.sub == Some(userId)
  {
    var p := Jwt.SubjectClaim(userId);
    assert jwt.sign(p, options, secret.value) != "";
  }
}
