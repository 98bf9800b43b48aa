/** The `/sign-in` route: its loader and its form action. */
module SignInRoute {
  import opened Wrappers
  import opened Http
  import Js
  import Jwt
  import Cookies
  import Db
  import Schema
  import SessionUtils
  import SignInValidation
  import SignInServices
  import UserRoute

  /** `new Response(null, { headers: { 'Set-Cookie': … } })`: an empty body with a cookie. */
  datatype EmptyResponse = EmptyResponse(setCookie: string)

  /** `{ fieldErrors, invalidCredentials }`, what a failed sign-in answers. */
  datatype ActionData = ActionData(fieldErrors: Schema.FieldErrors, invalidCredentials: bool)

  /**
   * `loader({ request })`: a cookie that already names a user sends to that user's page;
   * any other request gets an empty response that clears the cookie.
   */
  function Loader(session: Cookies.Session, cookieHeader: Option<string>): (r: Response<EmptyResponse>)
    ensures !r.Throw?
    ensures var userId := Cookies.Field(session.parse(cookieHeader), Cookies.UserIdKey);
            (r.Redirect? <==> Js.Truthy(userId)) &&
            (r.Redirect? ==> r == Redirect(UserRoute.UserPath(userId), None))
    ensures r.Return? ==> r.value.setCookie == session.Clearing()
  {
    var userId := Cookies.Field(session.parse(cookieHeader), Cookies.UserIdKey);
    if Js.Truthy(userId) then Redirect(UserRoute.UserPath(userId), None)
    else Return(EmptyResponse(session.Clearing()))
  }

  /** The session record a successful sign-in of `userId` writes: the cookie's record stamped with an unexpiring token. */
  function SignedInRecord(jwt: Jwt.Library, session: Cookies.Session, secret: string,
                          cookieHeader: Option<string>, userId: string): Cookies.Record
  {
    SessionUtils.WithSession(session.parse(cookieHeader), userId, jwt.sign(Jwt.SubjectClaim(userId), Jwt.NoOptions, secret))
  }

  /**
   * `action({ request })`: secret check, then the form's fields, then the user looked up by
   * e-mail, then the password; only then is the session cookie written.
   */
  method Action(jwt: Jwt.Library, session: Cookies.Session, store: Db.Store,
                verifyPassword: (string, string) -> bool, secret: Option<string>,
                cookieHeader: Option<string>, email: string, password: string)
    returns (r: Response<ActionData>)
    ensures r.Throw? <==> !Js.Truthy(secret)
    ensures r.Throw? ==> r.message == UserRoute.SecretMissing
    ensures var form := SignInValidation.SignInData(email, password);
            Js.Truthy(secret) && (email == "" || password == "") ==>
              r == Return(ActionData(SignInValidation.FieldErrorsOf(form), false))
    ensures Js.Truthy(secret) && email != "" && password != "" ==>
              var verdict := SignInServices.ValidateUser(store.findUserByEmail(email), password, verifyPassword);
              (verdict.Rejected? ==> r == Return(ActionData(map[], true))) &&
              (verdict.UserId? ==> r == Redirect(UserRoute.UserPath(Some(verdict.id)),
                                                 Some(session.serialize(Some(SignedInRecord(jwt, session, secret.value, cookieHeader, verdict.id)),
                                                                        Cookies.Defaults))))
    ensures r.Return? ==> (r.value.invalidCredentials <==> r.value.fieldErrors == map[])
  {
    if !Js.Truthy(secret) {
      return Throw(UserRoute.SecretMissing);
    }
    var form := SignInValidation.SignInData(email, password);
    if !SignInValidation.Valid(form) {
      return Return(ActionData(SignInValidation.FieldErrorsOf(form), false));
    }
    var user := store.findUserByEmail(email);
    if user.None? {
      return Return(ActionData(map[], true));
    }
    if !verifyPassword(user.value.password, password) {
      return Return(ActionData(map[], true));
    }
    var parsed := session.parse(cookieHeader);
    var sessionCookie: Cookies.Record := if parsed.Some? then parsed.value else map[];
    sessionCookie := sessionCookie[Cookies.UserIdKey := user.value.id];
    sessionCookie := sessionCookie[Cookies.TokenKey := jwt.sign(Jwt.SubjectClaim(user.value.id), Jwt.NoOptions, secret.value)];
    r := Redirect("/user/" + user.value.id, Some(session.serialize(Some(sessionCookie), Cookies.Defaults)));
  }

  /**
   * The cookie a successful sign-in writes opens the signed-in user's own account page,
   * and sends that user from the sign-in page straight there.
   */
  lemma {:induction false} SignedInUserReachesOwnPage(jwt: Jwt.Library, session: Cookies.Session, secret: Option<string>,
                                                      cookieHeader: Option<string>, userId: string)
    requires jwt.RoundTrips() && session.RoundTrips() && Js.Truthy(secret)
    ensures var header := session.serialize(Some(SignedInRecord(jwt, session, secret.value, cookieHeader, userId)), Cookies.Defaults);
            UserRoute.Loader(jwt, session, secret, Some(header), userId) == Return(UserRoute.UserData(userId)) &&
            (userId != "" ==> Loader(session, Some(header)) == Redirect(UserRoute.UserPath(Some(userId)), None))
  {
    var record := SignedInRecord(jwt, session, secret.value, cookieHeader, userId);
    var header := session.serialize(Some(record), Cookies.Defaults);
    assert session.parse(Some(header)) == Some(record);
    SessionUtils.IssuedTokenReadsBack(jwt, secret, Jwt.NoOptions, userId);
  }
}
