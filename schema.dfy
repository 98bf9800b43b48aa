/**
 * The part of the schema library the forms use: string fields with a list of checks.
 * Every check of a field runs, and the messages of the failing ones are kept in order;
 * a field with no message is left out of the field-keyed error map.
 */
module Schema {
  /** One rule of a string field; each carries the message it reports on failure. */
  datatype Check =
    | Min(length: nat, message: string)
    | Max(length: nat, message: string)
    | Regex(matches: string -> bool, message: string)
    | Email(isEmail: string -> bool, message: string)

  /** A JavaScript string's `length`: characters outside the basic plane take two code units. */
  function Utf16Length(s: string): nat
  {
    if s == [] then 0 else (if s[0] as int >= 0x1_0000 then 2 else 1) + Utf16Length(s[1..])
  }

  /** A string is at least as long in code units as in characters, and empty exactly when it has no code units. */
  lemma {:induction false} Utf16LengthBounds(s: string)
    ensures |s| <= Utf16Length(s) <= 2 * |s|
    ensures Utf16Length(s) == 0 <==> s == []
  {
    if s != [] {
      Utf16LengthBounds(s[1..]);
    }
  }

  predicate Passes(c: Check, value: string)
  {
    match c
    case Min(n, _) => Utf16Length(value) >= n
    case Max(n, _) => Utf16Length(value) <= n
    case Regex(matches, _) => matches(value)
    case Email(isEmail, _) => isEmail(value)
  }

  /** The messages of the failing checks, in the order the checks are declared. */
  function Messages(checks: seq<Check>, value: string): (r: seq<string>)
    ensures |r| <= |checks|
    ensures r == [] <==> forall i :: 0 <= i < |checks| ==> Passes(checks[i], value)
  {
    if checks == [] then []
    else
      var rest := Messages(checks[1..], value);
      assert forall i :: 1 <= i < |checks| ==> checks[i] == checks[1..][i - 1];
      if Passes(checks[0], value) then rest else [checks[0].message] + rest
  }

  /** Every failing check reports its message. */
  lemma {:induction false} FailingCheckReported(checks: seq<Check>, value: string, i: nat)
    requires i < |checks| && !Passes(checks[i], value)
    ensures checks[i].message in Messages(checks, value)
  {
    if i > 0 {
      FailingCheckReported(checks[1..], value, i - 1);
    }
  }

  /** Every reported message is the message of a failing check. */
  lemma {:induction false} ReportedMessageFails(checks: seq<Check>, value: string, m: string)
    requires m in Messages(checks, value)
    ensures exists i :: 0 <= i < |checks| && !Passes(checks[i], value) && checks[i].message == m
  {
    if !Passes(checks[0], value) && m == checks[0].message {
    } else {
      ReportedMessageFails(checks[1..], value, m);
      var i :| 0 <= i < |checks[1..]| && !Passes(checks[1..][i], value) && checks[1..][i].message == m;
      assert checks[i + 1] == checks[1..][i];
    }
  }

  /** The messages of a field with a single check. */
  lemma MessagesOfOne(c: Check, value: string)
    ensures Messages([c], value) == if Passes(c, value) then [] else [c.message]
  {
    assert [c][1..] == [];
  }

  /** The messages of a field with two checks: both run, the first one's message comes first. */
  lemma MessagesOfTwo(c1: Check, c2: Check, value: string)
    ensures Messages([c1, c2], value) ==
              (if Passes(c1, value) then [] else [c1.message]) + (if Passes(c2, value) then [] else [c2.message])
  {
    assert [c1, c2][1..] == [c2];
    MessagesOfOne(c2, value);
  }

  type FieldErrors = map<string, seq<string>>

  /** Adds a field's messages to the error map, unless it has none. */
  function Put(errors: FieldErrors, field: string, messages: seq<string>): (r: FieldErrors)
    ensures field in r <==> field in errors || messages != []
    ensures messages != [] ==> r[field] == messages
    ensures forall f :: f != field ==> (f in r <==> f in errors) && (f in r ==> r[f] == errors[f])
  {
    if messages == [] then errors else errors[field := messages]
  }

  /** `{ fieldErrors }`, the `BaseValidation` record. */
  datatype BaseValidation = BaseValidation(fieldErrors: FieldErrors)

  /**
   * `{ validationErrors }`, what a form validator answers: its `fieldErrors` start as `{}` and
   * are overwritten with the flattened errors when the parse fails.
   */
  datatype Validation = Validation(validationErrors: BaseValidation)

}
