/** `signInSchema` and `validateSignInData`: both fields required, nothing else checked. */
module SignInValidation {
  import opened Schema

  const EmailField := "email"
  const PasswordField := "password"
  const Required := "Required"

  /** `email: z.string().min(1, 'Required')`; the password has the same rule. */
  const RequiredChecks := [Min(1, Required)]

  /** The sign-in form: the `email` and `password` fields. */
  datatype SignInData = SignInData(email: string, password: string)

  /** `signInSchema.safeParse(data).success` */
  predicate Valid(data: SignInData)
  {
    Messages(RequiredChecks, data.email) == [] && Messages(RequiredChecks, data.password) == []
  }

  /** `error.flatten().fieldErrors` of `signInSchema.safeParse(data)`. */
  function FieldErrorsOf(data: SignInData): (r: FieldErrors)
    ensures r.Keys <= {EmailField, PasswordField}
    ensures EmailField in r <==> data.email == ""
    ensures PasswordField in r <==> data.password == ""
    ensures EmailField in r ==> r[EmailField] == [Required]
    ensures PasswordField in r ==> r[PasswordField] == [Required]
    ensures r == map[] <==> Valid(data)
  {
    Utf16LengthBounds(data.email);
    Utf16LengthBounds(data.password);
    MessagesOfOne(Min(1, Required), data.email);
    MessagesOfOne(Min(1, Required), data.password);
    Put(Put(map[], EmailField, Messages(RequiredChecks, data.email)),
        PasswordField, Messages(RequiredChecks, data.password))
  }

  /** `validateSignInData(data)`: empty field errors exactly when both fields are filled in. */
  function ValidateSignInData(data: SignInData): (r: Validation)
    ensures r.validationErrors.fieldErrors == FieldErrorsOf(data)
    ensures r.validationErrors.fieldErrors == map[] <==> data.email != "" && data.password != ""
  {
    Validation(BaseValidation(if Valid(data) then map[] else FieldErrorsOf(data)))
  }

  /** No format check: `abc` is an acceptable e-mail. */
  lemma AnyNonEmptyEmailPasses()
    ensures ValidateSignInData(SignInData("abc", "x")).validationErrors.fieldErrors == map[]
    ensures ValidateSignInData(SignInData("", "x")).validationErrors.fieldErrors == map[EmailField := [Required]]
  {
  }
}
