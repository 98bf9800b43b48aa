/** The loader of `/todos/:userId`: the todo list page, shown only to its own user. */
module TodosRoute {
  import opened Wrappers
  import opened Http
  import Js
  import Jwt
  import Cookies
  import UserRoute

  /** `{}`, the loader data of the list page. */
  datatype TodosData = TodosData

  /** The canonical list page of a token subject. */
  function TodosPath(sub: Option<string>): string
  {
    "/todos/" + Js.Template(sub)
  }

  /**
   * `loader({ request, params })`: the same guard as the account page, whose canonical
   * redirect goes to the subject's list page.
   */
  function Loader(jwt: Jwt.Library, session: Cookies.Session, secret: Option<string>,
                  cookieHeader: Option<string>, userId: string): (r: Response<TodosData>)
    ensures r.Throw? <==> !Js.Truthy(secret)
    ensures r.Throw? ==> r.message == UserRoute.SecretMissing
    ensures Js.Truthy(secret) && UserRoute.SessionOf(jwt, session, secret, cookieHeader).None? ==>
              r == Redirect(UserRoute.SignInPath, Some(session.Clearing()))
    ensures r.Redirect? && r.setCookie.Some? ==> UserRoute.SessionOf(jwt, session, secret, cookieHeader).None?
    ensures r.Redirect? && r.setCookie.None? ==>
              var data := UserRoute.SessionOf(jwt, session, secret, cookieHeader);
              data.Some? && data.value.sub != Some(userId) && r.location == TodosPath(data.value.sub)
    ensures r.Return? <==>
              Js.Truthy(secret) && UserRoute.SessionOf(jwt, session, secret, cookieHeader).Some? &&
              UserRoute.SessionOf(jwt, session, secret, cookieHeader).value.sub == Some(userId)
  {
    if !Js.Truthy(secret) then Throw(UserRoute.SecretMissing)
    else
      var sessionData := UserRoute.SessionOf(jwt, session, secret, cookieHeader);
      if sessionData.None? then Redirect(UserRoute.SignInPath, Some(session.Clearing()))
      else if sessionData.value.sub != Some(userId) then Redirect(TodosPath(sessionData.value.sub), None)
      else Return(TodosData)
  }

  /** The list page and the account page admit exactly the same requests. */
  lemma SameGuardAsUserPage(jwt: Jwt.Library, session: Cookies.Session, secret: Option<string>,
                            cookieHeader: Option<string>, userId: string)
    ensures Loader(jwt, session, secret, cookieHeader, userId).Return? <==>
            UserRoute.Loader(jwt, session, secret, cookieHeader, userId).Return?
    ensures Loader(jwt, session, secret, cookieHeader, userId).Throw? <==>
            UserRoute.Loader(jwt, session, secret, cookieHeader, userId).Throw?
  {
  }
}
