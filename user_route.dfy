/** The loader of `/user/:userId`: the account page, shown only to its own user. */
module UserRoute {
  import opened Wrappers
  import opened Http
  import Js
  import Jwt
  import Cookies

  const SecretMissing := "SECRET_KEY is not set"
  const SignInPath := "/sign-in"

  /** `{ userId }`, the loader data of the account page. */
  datatype UserData = UserData(userId: string)

  /** The canonical account page of a token subject (`undefined` when the token has none). */
  function UserPath(sub: Option<string>): string
  {
    "/user/" + Js.Template(sub)
  }

  /** The token carried by the request's session cookie, verified. */
  function SessionOf(jwt: Jwt.Library, session: Cookies.Session, secret: Option<string>,
                     cookieHeader: Option<string>): Option<Jwt.Payload>
  {
    Jwt.Verify(jwt, Cookies.Field(session.parse(cookieHeader), Cookies.TokenKey), secret)
  }

  /**
   * `loader({ request, params })`: a missing secret throws; a token that does not verify
   * (absent cookie or token included) sends to the sign-in page and clears the cookie;
   * a token of another subject sends to that subject's page; otherwise the page loads.
   */
  function Loader(jwt: Jwt.Library, session: Cookies.Session, secret: Option<string>,
                  cookieHeader: Option<string>, userId: string): (r: Response<UserData>)
    ensures r.Throw? <==> !Js.Truthy(secret)
    ensures r.Throw? ==> r.message == SecretMissing
    ensures Js.Truthy(secret) && SessionOf(jwt, session, secret, cookieHeader).None? ==>
              r == Redirect(SignInPath, Some(session.Clearing()))
    ensures r.Redirect? && r.setCookie.Some? ==> SessionOf(jwt, session, secret, cookieHeader).None?
    ensures r.Redirect? && r.setCookie.None? ==>
              var data := SessionOf(jwt, session, secret, cookieHeader);
              data.Some? && data.value.sub != Some(userId) && r.location == UserPath(data.value.sub)
    ensures r.Return? ==>
              var data := SessionOf(jwt, session, secret, cookieHeader);
              data.Some? && data.value.sub == Some(userId) && r.value.userId == userId
    ensures Js.Truthy(secret) && SessionOf(jwt, session, secret, cookieHeader).Some? ==>
              (r.Return? <==> SessionOf(jwt, session, secret, cookieHeader).value.sub == Some(userId))
  {
    if !Js.Truthy(secret) then Throw(SecretMissing)
    else
      var sessionData := SessionOf(jwt, session, secret, cookieHeader);
      if sessionData.None? then Redirect(SignInPath, Some(session.Clearing()))
      else if sessionData.value.sub != Some(userId) then Redirect(UserPath(sessionData.value.sub), None)
      else Return(UserData(userId))
  }

  /**
   * The redirect to another subject's page is canonical: the same request sent to the
   * page it names loads that page.
   */
  lemma RedirectSettles(jwt: Jwt.Library, session: Cookies.Session, secret: Option<string>,
                        cookieHeader: Option<string>, userId: string, sub: string)
    requires Loader(jwt, session, secret, cookieHeader, userId) == Redirect(UserPath(Some(sub)), None)
    requires SessionOf(jwt, session, secret, cookieHeader).value.sub == Some(sub)
    ensures Loader(jwt, session, secret, cookieHeader, sub) == Return(UserData(sub))
  {
  }
}
