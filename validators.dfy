/** `validate_username` of users/validators.py: the one reserved username. */
module Validators {
  import opened Wrappers

  /** The username that would collide with the `/users/me/` profile path. */
  const RESERVED_USERNAME: string := "me"

  const RESERVED_USERNAME_MESSAGE: string := "You can't create a user named me"

  /**
   * Returns the value unchanged, or the validation error for the reserved
   * name. The comparison is plain string equality.
   */
  function ValidateUsername(value: string): (r: Result<string, string>)
    ensures r.Ok? <==> value != RESERVED_USERNAME
    ensures r.Ok? ==> r.value == value
    ensures r.Err? ==> r.error == RESERVED_USERNAME_MESSAGE
  {
    if RESERVED_USERNAME == value then Err(RESERVED_USERNAME_MESSAGE) else Ok(value)
  }

  /** No case folding and no prefix match: only the exact value "me" is refused. */
  lemma OnlyExactMeIsRefused()
    ensures ValidateUsername("me").Err?
    ensures ValidateUsername("Me") == Ok("Me")
    ensures ValidateUsername("ME") == Ok("ME")
    ensures ValidateUsername("me1") == Ok("me1")
    ensures ValidateUsername("") == Ok("")
  {
  }

  /** The validator keeps no state: validating an accepted value again gives the same answer. */
  lemma ValidateUsernameIdempotent(value: string)
    requires ValidateUsername(value).Ok?
    ensures ValidateUsername(ValidateUsername(value).value) == ValidateUsername(value)
  {
  }
}
