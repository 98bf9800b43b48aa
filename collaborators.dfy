/** Optional values: a JavaScript value that is either present or `undefined`/`null`. */
module Wrappers {
  datatype Option<+T> = None | Some(value: T)
}

/** The few JavaScript semantics the application relies on. */
module Js {
  import opened Wrappers

  /** Truthiness of a value that is a string or absent: present and non-empty. */
  predicate Truthy(s: Option<string>)
  {
    s.Some? && s.value != ""
  }

  /** A template-literal hole `${v}` for a value that is a string or `undefined`. */
  function Template(v: Option<string>): string
  {
    if v.Some? then v.value else "undefined"
  }

  /** `needle` occurs in `s` starting at index `i`. */
  ghost predicate OccursAt(s: string, needle: string, i: int)
  {
    0 <= i && i + |needle| <= |s| && s[i..i + |needle|] == needle
  }

  /** `String.prototype.includes`: scan the positions of `s` from the left. */
  function Includes(s: string, needle: string): bool
    decreases |s|
  {
    if |needle| <= |s| && s[..|needle|] == needle then true
    else if s == [] then false
    else Includes(s[1..], needle)
  }

  /** An occurrence in the tail of `s` is an occurrence in `s` one position later. */
  lemma OccursInTail(s: string, needle: string, j: int)
    requires s != []
    ensures OccursAt(s[1..], needle, j) <==> j >= 0 && OccursAt(s, needle, j + 1)
  {
    if 0 <= j && j + |needle| <= |s| - 1 {
      assert s[1..][j..j + |needle|] == s[j + 1..j + 1 + |needle|];
    }
  }

  /** The scan finds the needle exactly when it occurs somewhere. */
  lemma {:induction false} IncludesIffOccurs(s: string, needle: string)
    ensures Includes(s, needle) <==> exists i :: OccursAt(s, needle, i)
    decreases |s|
  {
    if |needle| <= |s| && s[..|needle|] == needle {
      assert OccursAt(s, needle, 0);
    } else if s == [] {
      assert forall i :: !OccursAt(s, needle, i);
    } else {
      IncludesIffOccurs(s[1..], needle);
      if Includes(s[1..], needle) {
        var j :| OccursAt(s[1..], needle, j);
        OccursInTail(s, needle, j);
      } else if exists i :: OccursAt(s, needle, i) {
        var i :| OccursAt(s, needle, i);
        assert i != 0;
        OccursInTail(s, needle, i - 1);
      }
    }
  }
}

/**
 * The token library (jsonwebtoken). Signing and checking a signature are abstract;
 * what the library does before it checks anything (refuse an absent or empty token or
 * secret) is written out, because the route loaders depend on it.
 */
module Jwt {
  import opened Wrappers
  import Js

  /** Decoded claims: the subject and every other claim the library adds (iat, exp). */
  datatype Payload = Payload(sub: Option<string>, claims: map<string, string>)

  /** The options object of `jwt.sign`; only `expiresIn` is ever given. */
  datatype SignOptions = SignOptions(expiresIn: Option<string>)

  const NoOptions := SignOptions(None)

  /** The payload `{ sub: userId }` the application signs. */
  function SubjectClaim(userId: string): Payload
  {
    Payload(Some(userId), map[])
  }

  /**
   * `sign(payload, options, secret)` produces a token; `check(token, secret)` yields the
   * decoded payload, or None where `jwt.verify` throws (bad signature, malformed, expired).
   */
  datatype Library = Library(sign: (Payload, SignOptions, string) -> string,
                             check: (string, string) -> Option<Payload>)
  {
    /** A freshly issued token is non-empty and, checked with its own secret, yields its subject. */
    ghost predicate RoundTrips()
    {
      forall p: Payload, o: SignOptions, k: string ::
        k != "" && p.sub.Some? ==>
          sign(p, o, k) != "" && check(sign(p, o, k), k).Some? && check(sign(p, o, k), k).value.sub == p.sub
    }
  }

  /** `jwt.sign(payload, secret, options)`; None where it throws because the secret is missing. */
  function Sign(lib: Library, payload: Payload, secret: Option<string>, options: SignOptions): (r: Option<string>)
    ensures r.Some? <==> Js.Truthy(secret)
    ensures Js.Truthy(secret) ==> r == Some(lib.sign(payload, options, secret.value))
  {
    if Js.Truthy(secret) then Some(lib.sign(payload, options, secret.value)) else None
  }

  /** `jwt.verify(token, secret)`; None where it throws. */
  function Verify(lib: Library, token: Option<string>, secret: Option<string>): (r: Option<Payload>)
    ensures !Js.Truthy(token) || !Js.Truthy(secret) ==> r.None?
    ensures Js.Truthy(token) && Js.Truthy(secret) ==> r == lib.check(token.value, secret.value)
  {
    if Js.Truthy(token) && Js.Truthy(secret) then lib.check(token.value, secret.value) else None
  }
}

/** The `session` cookie helper: a record of string fields behind an abstract parse/serialize. */
module Cookies {
  import opened Wrappers

  type Record = map<string, string>

  const UserIdKey := "userId"
  const TokenKey := "token"

  /** The options argument of `session.serialize`. */
  datatype SerializeOptions = Defaults | MaxAge(seconds: int)

  /** `session.parse` of a Cookie header (absent when the request has none) and `session.serialize`. */
  datatype Session = Session(parse: Option<string> -> Option<Record>,
                             serialize: (Option<Record>, SerializeOptions) -> string)
  {
    /** `session.serialize(null, { maxAge: 0 })`: the cookie that clears the session. */
    function Clearing(): string
    {
      serialize(None, MaxAge(0))
    }

    /** The header a browser sends back after `serialize(record)` parses to that record. */
    ghost predicate RoundTrips()
    {
      forall r: Record :: parse(Some(serialize(Some(r), Defaults))) == Some(r)
    }
  }

  /** `record?.[key]` */
  function Field(record: Option<Record>, key: string): Option<string>
  {
    if record.Some? && key in record.value then Some(record.value[key]) else None
  }
}

/** The rows the application reads from the database, and the two lookups it makes. */
module Db {
  import opened Wrappers

  datatype User = User(id: string, name: Option<string>, email: string, password: string)

  datatype Todo = Todo(id: string, name: string, description: Option<string>, priority: int,
                       deadline: Option<string>, userId: string)

  /** `db.user.findFirst({ where: { email } })` and `db.todo.findFirst({ where: { id } })`. */
  datatype Store = Store(findUserByEmail: string -> Option<User>, findTodo: string -> Option<Todo>)
  {
    /** Every lookup answers with a row that carries the key it was asked for. */
    ghost predicate Consistent()
    {
      && (forall e: string :: findUserByEmail(e).Some? ==> findUserByEmail(e).value.email == e)
      && (forall id: string :: findTodo(id).Some? ==> findTodo(id).value.id == id)
    }
  }
}

/** What a route loader or action hands back to the router. */
module Http {
  import opened Wrappers

  /** An exception, `redirect(location, { headers: { 'Set-Cookie': … } })`, or data. */
  datatype Response<T> = Throw(message: string) | Redirect(location: string, setCookie: Option<string>) | Return(value: T)
}
