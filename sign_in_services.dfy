/** `validateUser`: the credential decision of a sign-in. */
module SignInServices {
  import opened Wrappers
  import Db

  /** The `false | string` answer: `false`, or the id of the user whose password matched. */
  datatype Validated = Rejected | UserId(id: string)

  /**
   * `validateUser(user, password)`, with `argon2.verify(hash, plain)` as `verifyPassword`:
   * no user is rejected without checking a password, a mismatch is rejected, a match
   * answers the user's id.
   */
  function ValidateUser(user: Option<Db.User>, password: string, verifyPassword: (string, string) -> bool): (r: Validated)
    ensures user.None? ==> r == Rejected
    ensures r.UserId? <==> user.Some? && verifyPassword(user.value.password, password)
    ensures r.UserId? ==> r.id == user.value.id
  {
    if user.None? then Rejected
    else if !verifyPassword(user.value.password, password) then Rejected
    else UserId(user.value.id)
  }
}
