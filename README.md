# Todoing: session guard, sign-in and form rules, in Dafny

Todoing is a small multi-user todo application. A user signs in with an e-mail and a
password. The server then writes a `session` cookie holding `{ userId, token }`, where
`token` is a signed token whose subject (`sub`) is the user id. Every protected page
(`/user/:userId`, `/todos/:userId`, `/todos/:userId/todo/:todoId`) verifies that token on
each request and compares its subject with the user id in the URL. A request that fails
the check is redirected; it never reaches the page's data.

This project models the decision logic around that mechanism:

- the session helpers;
- the route loaders that guard the pages;
- the sign-in loader and action, and the credential check;
- the three form validators;
- the priority chip;
- the root loader and the error boundary's text.

The libraries the application calls are parameters of the model, so the proofs hold
whatever they do:

- `Jwt.Library` holds `sign` and `check` of jsonwebtoken.
- `Cookies.Session` holds `parse` and `serialize` of a `session` cookie helper. The source
  imports `session` from two modules, `~/utils/cookies` (utils.ts, todo.tsx) and
  `~/utils/cookies.server` (user.tsx, todos.tsx, sign-in.tsx); every member takes its own
  `Session` argument, so the model does not assume the two are one. The one lemma that passes
  a single `Session` to two routes, `SignInRoute.SignedInUserReachesOwnPage`, joins sign-in
  and the account page, which both use `~/utils/cookies.server`.
- `Db.Store` holds the two `findFirst` lookups.
- A `(hash, password) -> bool` function stands for `argon2.verify`.
- A `string -> bool` function stands for the schema library's e-mail syntax check.
- The `SECRET_KEY` environment variable is an `Option<string>` argument.

Two facts are stated about the libraries as predicates, and lemmas assume them where they
need them:

- `Jwt.Library.RoundTrips`: a fresh token checks back, under its own secret, to its subject.
- `Cookies.Session.RoundTrips`: the header a browser sends back after `serialize(r)`
  parses to `r`.

jsonwebtoken throws before it checks anything when the token or the secret is absent or
empty. That guard is written out in `Jwt.Verify` and `Jwt.Sign`, because "no cookie means
redirect to sign-in" depends on it.

Modules follow the source files:

| module | source file |
|---|---|
| `SessionUtils` | `app/features/shared/utils.ts` |
| `UserRoute` | `app/routes/user.tsx` |
| `TodosRoute` | `app/routes/todos.tsx` |
| `TodoRoute` | `app/routes/todo.tsx` |
| `SignInServices` | `app/features/sign-in/services.ts` |
| `SignInRoute` | `app/routes/sign-in.tsx` |
| `SignInValidation` | `app/features/sign-in/validation.ts` |
| `TodosValidation` | `app/features/todos/validation.ts` |
| `UserValidation` | `app/features/user/validation.ts` |
| `Priority` | `app/components/priority.tsx` |
| `Root` | `app/root.tsx` |

Some modules stand for the libraries the source uses:

- `Schema` holds the part of the schema library the forms use. Every check of a string
  field runs, the failing checks' messages are kept in order, and lengths count UTF-16 code
  units.
- `Js` holds the JavaScript semantics the source relies on: truthiness, template literals
  and `String.prototype.includes`.
- `Jwt`, `Cookies`, `Db` and `Http` hold the collaborators and the loader responses.

`createSessionHeader` and the sign-in action change the parsed cookie object in place.
Both are methods that reassign a local record (`map<string, string>`) field by field. The
object is freshly parsed and not shared, so nothing is aliased. The rest is pure code and is
modelled as functions.

Three behaviours of the code are easy to miss:

- The single-todo loader does not check the secret first. A missing secret makes
  `getSessionData` answer `false`, so the request is redirected to sign-in rather than
  failing.
- The sign-in action signs its token with no expiry option. Only `createSessionHeader`
  passes `expiresIn: '12h'`.
- The single-todo loader looks the todo up by id alone (see Findings).

A token without a `sub` claim redirects to `/user/undefined`, and that page redirects to
itself. `UserRoute.RedirectSettles` therefore assumes a subject. The application never
issues such a token.

## Model

| member | source | states |
|---|---|---|
| `Jwt.Verify` | app/routes/user.tsx:40-48 | an absent or empty token, or an absent or empty secret, fails verification; with both present and non-empty, the outcome is exactly the library's check of that token under that secret |
| `Jwt.Sign` | app/features/shared/utils.ts:21 | signing yields a token exactly when the secret is set (it throws otherwise), and that token is the library's signature of the payload with the given options under the secret |
| `Js.IncludesIffOccurs` | app/root.tsx:43 | the left-to-right `includes` scan answers true exactly when the needle occurs at some index |
| `SessionUtils.WithSession` | app/features/shared/utils.ts:18-21 | the stamped record has `userId` equal to the given id and `token` equal to the given token; every other field of the parsed record keeps its value; an absent record starts from `{}`, so only those two keys exist |
| `SessionUtils.CreateSessionHeader` | app/features/shared/utils.ts:10-24 | throws exactly when the secret is unset; otherwise the header object has the single key `Set-Cookie`, holding the serialized stamped record whose token is signed over `{ sub: userId }` with `expiresIn: '12h'` |
| `SessionUtils.GetSessionData` | app/features/shared/utils.ts:30-36 | answers `false` (None) exactly when the token or secret is missing or the check fails, and otherwise the checked payload unchanged; it never throws |
| `SessionUtils.IssuedTokenReadsBack` | app/features/shared/utils.ts:15-32 | a token just issued for a user id reads back through `getSessionData` as a session whose subject is that id |
| `UserRoute.Loader` | app/routes/user.tsx:26-57 | throws exactly when the secret is unset; a failed verification redirects to `/sign-in` with the clearing cookie; another subject redirects to `/user/<sub>` with no cookie change; data comes back only for a verified token whose subject equals the URL's id, and that data is the id |
| `UserRoute.RedirectSettles` | app/routes/user.tsx:50-56 | the redirect to another subject's page is canonical: the same request sent to that page loads it |
| `TodosRoute.Loader` | app/routes/todos.tsx:13-42 | throws exactly when the secret is unset; a failed verification redirects to `/sign-in` clearing the cookie; another subject redirects to `/todos/<sub>`; `{}` comes back exactly when the verified subject equals the URL's id |
| `TodosRoute.SameGuardAsUserPage` | app/routes/todos.tsx:14-41 | the list page throws and admits requests exactly as the account page does |
| `TodoRoute.Loader` | app/routes/todo.tsx:16-46 | never throws; a falsy session (including an unset secret) redirects to `/sign-in` clearing the cookie; another subject redirects to `/todos/<sub>/todo/<todoId>`, keeping the todo id; on a matching subject, an unknown id redirects to `/todos/<userId>` and a found todo is returned unchanged, carrying the requested id |
| `TodoRoute.GuardPrecedesLookup` | app/routes/todo.tsx:21-39 | a request the guard turns away gets the same answer whatever the database holds, so the lookup happens only after the guard |
| `TodoRoute.LoaderServesForeignTodo` | app/routes/todo.tsx:35-45 | user A, signed in and on their own URL, is served a todo owned by user B |
| `TodoRoute.OwnerScopedLoader` | app/routes/todo.tsx:35-45 | with the lookup scoped to the session's user, a returned todo always belongs to the verified subject and to the URL's user, and another user's todo is redirected to `/todos/<userId>` as if not found |
| `TodoRoute.OwnerScopedAgreesOnOwnTodos` | app/routes/todo.tsx:35-45 | when the todo is absent or belongs to the URL's user, the scoped loader answers exactly as the loader as written |
| `SignInServices.ValidateUser` | app/features/sign-in/services.ts:10-23 | no user gives `false` whatever the password checker says; the answer is the user's id exactly when a user exists and the password matches, and `false` otherwise (never `true`) |
| `SignInRoute.Loader` | app/routes/sign-in.tsx:32-47 | never throws; redirects to `/user/<userId>` exactly when the cookie's `userId` is truthy; otherwise an empty response carrying the clearing cookie |
| `SignInRoute.Action` | app/routes/sign-in.tsx:53-109 | throws exactly when the secret is unset, whatever the form holds; an empty e-mail or password returns that form's field errors with `invalidCredentials: false`, whatever the database holds; with both fields filled in, it redirects exactly when `validateUser` accepts the looked-up user; an unknown e-mail and a wrong password both give `{ fieldErrors: {}, invalidCredentials: true }`; success redirects to `/user/<id>` with the stamped record serialized, its token signed over `{ sub: id }` with no options |
| `SignInRoute.SignedInUserReachesOwnPage` | app/routes/sign-in.tsx:98-108 | the cookie a successful sign-in writes opens that user's own account page, and sends the user from the sign-in page straight there |
| `Schema.Utf16LengthBounds` | app/features/user/validation.ts:7 | a string's length in UTF-16 code units lies between its character count and twice that, and is zero only for the empty string |
| `Schema.Messages` | app/features/user/validation.ts:5-12 | a field reports at most one message per check, and no message exactly when every check passes |
| `Schema.FailingCheckReported` | app/features/user/validation.ts:5-12 | every failing check's message is reported, so all checks of a field run |
| `Schema.ReportedMessageFails` | app/features/user/validation.ts:5-12 | every reported message belongs to a failing check |
| `SignInValidation.FieldErrorsOf` | app/features/sign-in/validation.ts:4-13 | error keys are a subset of `{email, password}`; a key is present exactly when that field is empty, and its messages are then `['Required']`; the map is empty exactly when the parse succeeds |
| `SignInValidation.ValidateSignInData` | app/features/sign-in/validation.ts:19-31 | the result's field errors are the schema's, and are empty exactly when both fields are non-empty |
| `SignInValidation.AnyNonEmptyEmailPasses` | app/features/sign-in/validation.ts:5 | `abc` passes as an e-mail; an empty e-mail gives exactly `{ email: ['Required'] }` |
| `TodosValidation.FieldErrorsOf` | app/features/todos/validation.ts:4-13 | error keys are a subset of `{todoName, todoPriority}`; a key is present exactly when that field is empty, with `['Required']`; the map is empty exactly when the parse succeeds |
| `TodosValidation.ValidateAddTodoData` | app/features/todos/validation.ts:19-31 | the field errors are empty exactly when both fields are non-empty |
| `TodosValidation.PriorityNotRangeChecked` | app/features/todos/validation.ts:6 | the priority `'7'` passes: there is no range check |
| `UserValidation.FieldErrorsOf` | app/features/user/validation.ts:4-13 | keys are a subset of `{name, email}`; `name` fails exactly when it is over 50 code units or has a character outside the class, and lists 'Cannot exceed 50 characters' and then the letters message for each rule it breaks; `email` fails exactly when it is empty or not an e-mail; an empty one lists 'Required' first; a non-empty bad one gives exactly `['Invalid email']` |
| `UserValidation.ValidateUserInfoData` | app/features/user/validation.ts:25-37 | the field errors are empty exactly when the name is at most 50 code units from the allowed class and the e-mail is non-empty and valid |
| `UserValidation.LongNameRejected` | app/features/user/validation.ts:7 | a name of more than 50 characters is rejected with 'Cannot exceed 50 characters' |
| `UserValidation.NameClassEdges` | app/features/user/validation.ts:8-11 | digits, `×` and `÷` are outside the name class while `À`, `ÿ` and the apostrophe are in it; an empty name is accepted; `R2` gives exactly the letters message |
| `Priority.Priority` | app/components/priority.tsx:7-29 | every integer gets exactly one chip: 1 gives High/danger, 2 gives Medium/warning, and every other code (3, 0, negatives) gives Low/primary |
| `Root.Loader` | app/root.tsx:35-45 | throws exactly when the secret is unset and never redirects; `sessionExists` is undefined exactly when the request has no Cookie header |
| `Root.SessionExistsIffMarker` | app/root.tsx:40-44 | `sessionExists` is true exactly when `session=` occurs somewhere in the Cookie header |
| `Root.LookalikeCookieCounts` | app/root.tsx:43 | `mysession=1` counts as a session |
| `Root.ErrorBoundary` | app/root.tsx:93-108 | a 404 route error gives '404' and the not-found text; any other route error gives 'Error' with its status text, or the default text when that is empty; anything else keeps 'Oops!' with the default text, or the error's own message for an `Error` in development; a stack appears only for an `Error` in development, and such an error's own stack is always the one shown |

## Findings

| source | as written | input that shows it | evidently intended | confidence | as-written member | corrected member |
|---|---|---|---|---|---|---|
| app/routes/todo.tsx:35-39 | the todo is looked up with `where: { id: params.todoId }` only | user A holds a valid session and requests `/todos/A/todo/t1`, where `t1` is owned by user B: B's todo is returned for editing | the lookup is scoped to the verified subject as well (`where: { id, userId }`), and another user's todo is treated as not found | medium, not executed | `TodoRoute.LoaderServesForeignTodo` | `TodoRoute.OwnerScopedLoader` |

## Left out

- Cryptography: argon2 hashing and the token's signature are abstract functions. A malformed hash that makes `argon2.verify` throw is not modelled: the check answers a boolean.
- Time: tokens are checked without a clock. The `expiresIn: '12h'` option is carried as data, and expiry is left to the abstract `check`.
- Cookie format: the cookie's encoding, signing and attributes are abstract. Record fields are strings, so a non-string `userId` value's truthiness is not modelled. The browser's echo of a `Set-Cookie` header as a `Cookie` header is taken to be the identity.
- Database: the Prisma lookups are abstract functions. `Db.Store.Consistent` states only that a found row carries the key that was asked for.
- Schema library: its e-mail syntax is an abstract predicate. Non-string form values (`formData.get` returning `null`) and the messages the library emits for them are not modelled; form fields are strings.
- `Priority.Priority`: the `number` argument is modelled as an integer, so fractional codes and `NaN` (which also show Low) are not covered.
- `Root.ErrorBoundary`: the error is one of three cases; a falsy error value falls under "anything else".
- Token payloads: `jwt.verify` payloads are objects with an optional `sub`; a string payload, which the route loaders and `getSessionData` would also receive, is not modelled.
- `process.env`: the secret is passed in as an argument.
- `async`/`await`: every handler is sequential.
- The route actions other than sign-in (updating account details, adding, editing and deleting todos) are not part of this model. The same holds for sign-out, the route table, the database seeds, date parsing and formatting, and all rendering components.
