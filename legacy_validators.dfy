/** The older copy of `validate_username`, api/validators.py. */
module LegacyValidators {
  import opened Wrappers
  import Validators

  const RESERVED_USERNAME_MESSAGE: string := "Вы не можете создать пользователя с именем me"

  /** Same test as the newer copy; only the error text differs. */
  function ValidateUsername(value: string): (r: Result<string, string>)
    ensures r.Ok? <==> value != "me"
    ensures r.Ok? ==> r.value == value
    ensures r.Err? ==> r.error == RESERVED_USERNAME_MESSAGE
  {
    if "me" == value then Err(RESERVED_USERNAME_MESSAGE) else Ok(value)
  }

  /** Both copies accept and refuse exactly the same values, and return the same accepted value. */
  lemma SameVerdictAsValidators(value: string)
    ensures ValidateUsername(value).Ok? <==> Validators.ValidateUsername(value).Ok?
    ensures ValidateUsername(value).Ok? ==> ValidateUsername(value) == Validators.ValidateUsername(value)
  {
  }
}
