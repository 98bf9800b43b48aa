/** `userInfoSchema` and `validateUserInfoData`: the account form. */
module UserValidation {
  import opened Schema

  const NameField := "name"
  const EmailField := "email"
  const MaxName := 50
  const TooLong := "Cannot exceed 50 characters"
  const BadCharacters := "Can only include letters, spaces, hyphens and apostrophes"
  const Required := "Required"
  const InvalidEmail := "Invalid email"

  /** The class `[A-Za-zÀ-ÖØ-öø-ÿ' -]`: ASCII letters, the Latin-1 letters except × and ÷, apostrophe, space, hyphen. */
  predicate NameChar(c: char)
  {
    || ('A' <= c <= 'Z') || ('a' <= c <= 'z')
    || (0xC0 <= c as int <= 0xD6) || (0xD8 <= c as int <= 0xF6) || (0xF8 <= c as int <= 0xFF)
    || c == '\'' || c == ' ' || c == '-'
  }

  /** `/^[A-Za-zÀ-ÖØ-öø-ÿ' -]*$/.test(s)` */
  predicate NamePattern(s: string)
  {
    forall i :: 0 <= i < |s| ==> NameChar(s[i])
  }

  /** `name: z.string().max(50, …).regex(…, …)` */
  const NameChecks := [Max(MaxName, TooLong), Regex(NamePattern, BadCharacters)]

  /** `email: z.string().min(1, 'Required').email('Invalid email')`, with the library's e-mail syntax abstract. */
  function EmailChecks(isEmail: string -> bool): seq<Check>
  {
    [Min(1, Required), Email(isEmail, InvalidEmail)]
  }

  datatype UserInfoData = UserInfoData(name: string, email: string)

  /** `userInfoSchema.safeParse(data).success` */
  predicate Valid(data: UserInfoData, isEmail: string -> bool)
  {
    Messages(NameChecks, data.name) == [] && Messages(EmailChecks(isEmail), data.email) == []
  }

  /** `error.flatten().fieldErrors` of `userInfoSchema.safeParse(data)`. */
  function FieldErrorsOf(data: UserInfoData, isEmail: string -> bool): (r: FieldErrors)
    ensures r.Keys <= {NameField, EmailField}
    ensures NameField in r <==> Utf16Length(data.name) > MaxName || !NamePattern(data.name)
    ensures Utf16Length(data.name) > MaxName ==> TooLong in r[NameField]
    ensures !NamePattern(data.name) ==> BadCharacters in r[NameField]
    ensures NameField in r ==> r[NameField] == (if Utf16Length(data.name) > MaxName then [TooLong] else []) +
                                               (if NamePattern(data.name) then [] else [BadCharacters])
    ensures EmailField in r <==> data.email == "" || !isEmail(data.email)
    ensures data.email == "" ==> r[EmailField] == [Required] + (if isEmail("") then [] else [InvalidEmail])
    ensures data.email != "" && !isEmail(data.email) ==> r[EmailField] == [InvalidEmail]
    ensures r == map[] <==> Valid(data, isEmail)
  {
    Utf16LengthBounds(data.email);
    MessagesOfTwo(Max(MaxName, TooLong), Regex(NamePattern, BadCharacters), data.name);
    MessagesOfTwo(Min(1, Required), Email(isEmail, InvalidEmail), data.email);
    Put(Put(map[], NameField, Messages(NameChecks, data.name)),
        EmailField, Messages(EmailChecks(isEmail), data.email))
  }

  /** `validateUserInfoData(data)`: empty field errors exactly when both fields satisfy their rules. */
  function ValidateUserInfoData(data: UserInfoData, isEmail: string -> bool): (r: Validation)
    ensures r.validationErrors.fieldErrors == FieldErrorsOf(data, isEmail)
    ensures r.validationErrors.fieldErrors == map[] <==>
              Utf16Length(data.name) <= MaxName && NamePattern(data.name) && data.email != "" && isEmail(data.email)
  {
    Utf16LengthBounds(data.email);
    Validation(BaseValidation(if Valid(data, isEmail) then map[] else FieldErrorsOf(data, isEmail)))
  }

  /** A name of more than fifty characters is too long, whatever they are. */
  lemma {:induction false} LongNameRejected(data: UserInfoData, isEmail: string -> bool)
    requires |data.name| > MaxName
    ensures NameField in FieldErrorsOf(data, isEmail) && TooLong in FieldErrorsOf(data, isEmail)[NameField]
  {
    Utf16LengthBounds(data.name);
  }

  /** Digits, × and ÷ fall outside the class; the empty name is accepted. */
  lemma NameClassEdges(isEmail: string -> bool, email: string)
    requires email != "" && isEmail(email)
    ensures !NameChar('7') && !NameChar(0xD7 as char) && !NameChar(0xF7 as char)
    ensures NameChar(0xC0 as char) && NameChar(0xFF as char) && NameChar('\'')
    ensures ValidateUserInfoData(UserInfoData("", email), isEmail).validationErrors.fieldErrors == map[]
    ensures FieldErrorsOf(UserInfoData("R2", email), isEmail) == map[NameField := [BadCharacters]]
  {
    assert !NamePattern("R2") by {
      assert !NameChar("R2"[1]);
    }
    assert Utf16Length("R2") == 2;
    var r := FieldErrorsOf(UserInfoData("R2", email), isEmail);
    assert r.Keys == {NameField};
    assert r[NameField] == [BadCharacters];
  }
}
