/** The application root: its loader and the error boundary's text. */
module Root {
  import opened Wrappers
  import opened Http
  import Js

  const SecretMissing := "SECRET_KEY environment variable is not set."
  const SessionMarker := "session="

  /** `{ sessionExists }`: absent (undefined) when the request has no Cookie header. */
  datatype RootData = RootData(sessionExists: Option<bool>)

  /**
   * `loader({ request })`: throws without a secret; otherwise says whether the Cookie
   * header contains `session=` anywhere.
   */
  function Loader(secret: Option<string>, cookieHeader: Option<string>): (r: Response<RootData>)
    ensures r.Throw? <==> !Js.Truthy(secret)
    ensures r.Throw? ==> r.message == SecretMissing
    ensures !r.Redirect?
    ensures r.Return? ==> (r.value.sessionExists.None? <==> cookieHeader.None?)
  {
    if !Js.Truthy(secret) then Throw(SecretMissing)
    else if cookieHeader.None? then Return(RootData(None))
    else Return(RootData(Some(Js.Includes(cookieHeader.value, SessionMarker))))
  }

  /** A session counts as present exactly when `session=` occurs somewhere in the header. */
  lemma {:induction false} SessionExistsIffMarker(secret: Option<string>, header: string)
    requires Js.Truthy(secret)
    ensures Loader(secret, Some(header)).value.sessionExists == Some(true) <==>
            exists i :: Js.OccursAt(header, SessionMarker, i)
  {
    Js.IncludesIffOccurs(header, SessionMarker);
  }

  /** The test is a substring test: another cookie whose name ends in `session` counts too. */
  lemma {:induction false} LookalikeCookieCounts(secret: Option<string>)
    requires Js.Truthy(secret)
    ensures Loader(secret, Some("mysession=1")).value.sessionExists == Some(true)
  {
    SessionExistsIffMarker(secret, "mysession=1");
    assert Js.OccursAt("mysession=1", SessionMarker, 2);
  }

  /** What the error boundary receives. */
  datatype BoundaryError =
    | RouteErrorResponse(status: int, statusText: string)
    | ErrorInstance(message: string, stack: Option<string>)
    | OtherValue

  /** The heading, the paragraph and the stack trace (shown when present) of the error page. */
  datatype ErrorPage = ErrorPage(message: string, details: string, stack: Option<string>)

  const DefaultMessage := "Oops!"
  const DefaultDetails := "An unexpected error occurred."
  const NotFoundDetails := "The requested page could not be found."

  /** `ErrorBoundary({ error })`, with `import.meta.env.DEV` as `dev`. */
  function ErrorBoundary(error: BoundaryError, dev: bool): (r: ErrorPage)
    ensures r.message in {DefaultMessage, "404", "Error"}
    ensures r.message == "404" <==> error.RouteErrorResponse? && error.status == 404
    ensures r.message == "404" ==> r.details == NotFoundDetails
    ensures r.message == "Error" <==> error.RouteErrorResponse? && error.status != 404
    ensures r.message == "Error" ==> r.details == (if error.statusText != "" then error.statusText else DefaultDetails)
    ensures r.message == DefaultMessage ==>
              r.details == (if dev && error.ErrorInstance? then error.message else DefaultDetails)
    ensures r.stack.Some? ==> dev && error.ErrorInstance? && r.stack == error.stack
    ensures dev && error.ErrorInstance? ==> r.stack == error.stack
  {
    var message := DefaultMessage;
    var details := DefaultDetails;
    if error.RouteErrorResponse? then
      ErrorPage(if error.status == 404 then "404" else "Error",
                if error.status == 404 then NotFoundDetails
                else if error.statusText != "" then error.statusText
                else details,
                None)
    else if dev && error.ErrorInstance? then
      ErrorPage(message, error.message, error.stack)
    else
      ErrorPage(message, details, None)
  }
}
