/** The loader of `/todos/:userId/todo/:todoId`: one todo, for editing. */
module TodoRoute {
  import opened Wrappers
  import opened Http
  import Js
  import Jwt
  import Cookies
  import Db
  import SessionUtils
  import UserRoute
  import TodosRoute

  /** The canonical page of a todo for a token subject; the todo id is kept. */
  function TodoPath(sub: Option<string>, todoId: string): string
  {
    TodosRoute.TodosPath(sub) + "/todo/" + todoId
  }

  /** The session of the request as `getSessionData` reads it: the secret is not checked first. */
  function SessionOf(jwt: Jwt.Library, session: Cookies.Session, secret: Option<string>,
                     cookieHeader: Option<string>): Option<Jwt.Payload>
  {
    SessionUtils.GetSessionData(jwt, Cookies.Field(session.parse(cookieHeader), Cookies.TokenKey), secret)
  }

  /**
   * `loader({ request, params })` as written: the session guard, then the todo looked up by
   * its id alone; an unknown id sends back to the list page; a found todo is returned as is.
   */
  function Loader(jwt: Jwt.Library, session: Cookies.Session, store: Db.Store, secret: Option<string>,
                  cookieHeader: Option<string>, userId: string, todoId: string): (r: Response<Db.Todo>)
    ensures !r.Throw?
    ensures SessionOf(jwt, session, secret, cookieHeader).None? <==>
              r == Redirect(UserRoute.SignInPath, Some(session.Clearing()))
    ensures !Js.Truthy(secret) ==> r == Redirect(UserRoute.SignInPath, Some(session.Clearing()))
    ensures SessionOf(jwt, session, secret, cookieHeader).Some? &&
            SessionOf(jwt, session, secret, cookieHeader).value.sub != Some(userId) ==>
              r == Redirect(TodoPath(SessionOf(jwt, session, secret, cookieHeader).value.sub, todoId), None)
    ensures SessionOf(jwt, session, secret, cookieHeader).Some? &&
            SessionOf(jwt, session, secret, cookieHeader).value.sub == Some(userId) ==>
              (r.Return? <==> store.findTodo(todoId).Some?) &&
              (r.Return? ==> r.value == store.findTodo(todoId).value) &&
              (!r.Return? ==> r == Redirect(TodosRoute.TodosPath(Some(userId)), None))
    ensures r.Return? && store.Consistent() ==> r.value.id == todoId
  {
    var sessionData := SessionOf(jwt, session, secret, cookieHeader);
    if sessionData.None? then Redirect(UserRoute.SignInPath, Some(session.Clearing()))
    else if sessionData.value.sub != Some(userId) then Redirect(TodoPath(sessionData.value.sub, todoId), None)
    else
      var todo := store.findTodo(todoId);
      if todo.None? then Redirect(TodosRoute.TodosPath(sessionData.value.sub), None)
      else Return(todo.value)
  }

  /** The guard runs before the lookup: a request it turns away answers the same whatever the database holds. */
  lemma GuardPrecedesLookup(jwt: Jwt.Library, session: Cookies.Session, store1: Db.Store, store2: Db.Store,
                            secret: Option<string>, cookieHeader: Option<string>, userId: string, todoId: string)
    requires SessionOf(jwt, session, secret, cookieHeader).None? ||
             SessionOf(jwt, session, secret, cookieHeader).value.sub != Some(userId)
    ensures Loader(jwt, session, store1, secret, cookieHeader, userId, todoId) ==
            Loader(jwt, session, store2, secret, cookieHeader, userId, todoId)
  {
  }

  /**
   * The lookup filters on the todo id alone: user `A`, signed in and on their own URL,
   * is served the todo `t1` of user `B`.
   */
  lemma LoaderServesForeignTodo()
    ensures var t := Db.Todo("t1", "B's todo", None, 1, None, "B");
            var jwt := Jwt.Library((p, o, k) => "token-A", (tok, k) => Some(Jwt.SubjectClaim("A")));
            var session := Cookies.Session(h => Some(map[Cookies.TokenKey := "token-A"]), (r, o) => "");
            var store := Db.Store(e => None, id => if id == "t1" then Some(t) else None);
            var r := Loader(jwt, session, store, Some("secret"), Some("session=..."), "A", "t1");
            r == Return(t) && r.value.userId != "A"
  {
  }

  /**
   * The loader with the lookup scoped to the session's user (`where: { id, userId }`): a todo
   * of another user is treated like an unknown id.
   */
  function OwnerScopedLoader(jwt: Jwt.Library, session: Cookies.Session, store: Db.Store, secret: Option<string>,
                             cookieHeader: Option<string>, userId: string, todoId: string): (r: Response<Db.Todo>)
    ensures r.Return? ==> SessionOf(jwt, session, secret, cookieHeader).Some? &&
                          SessionOf(jwt, session, secret, cookieHeader).value.sub == Some(r.value.userId)
    ensures r.Return? ==> r.value.userId == userId
    ensures SessionOf(jwt, session, secret, cookieHeader).Some? &&
            SessionOf(jwt, session, secret, cookieHeader).value.sub == Some(userId) &&
            store.findTodo(todoId).Some? && store.findTodo(todoId).value.userId != userId ==>
              r == Redirect(TodosRoute.TodosPath(Some(userId)), None)
  {
    var sessionData := SessionOf(jwt, session, secret, cookieHeader);
    if sessionData.None? then Redirect(UserRoute.SignInPath, Some(session.Clearing()))
    else if sessionData.value.sub != Some(userId) then Redirect(TodoPath(sessionData.value.sub, todoId), None)
    else
      var todo := store.findTodo(todoId);
      if todo.None? || todo.value.userId != userId then Redirect(TodosRoute.TodosPath(sessionData.value.sub), None)
      else Return(todo.value)
  }

  /** Scoping the lookup changes nothing for a user's own todos. */
  lemma OwnerScopedAgreesOnOwnTodos(jwt: Jwt.Library, session: Cookies.Session, store: Db.Store, secret: Option<string>,
                                    cookieHeader: Option<string>, userId: string, todoId: string)
    requires store.findTodo(todoId).Some? ==> store.findTodo(todoId).value.userId == userId
    ensures OwnerScopedLoader(jwt, session, store, secret, cookieHeader, userId, todoId) ==
            Loader(jwt, session, store, secret, cookieHeader, userId, todoId)
  {
  }
}
