/**
 * The custom user model `UserYamDb` of users/models.py: the closed set of role
 * values, the default a new account gets, and the three derived role tests
 * `is_admin`, `is_moderator` and `is_user` that every access decision uses.
 */
module UserModel {
  import opened Wrappers

  /** Primary key of a user row. */
  type UserId = nat

  // The values stored in the `role` column (UserRole.ADMIN / USER / MODERATOR).
  const ADMIN: string := "admin"
  const USER: string := "user"
  const MODERATOR: string := "moderator"

  /** The `role` field's default. */
  const DEFAULT_ROLE: string := USER

  /** `UserRole`, the text choices of the `role` column. */
  datatype UserRole = Admin | User | Moderator {
    function Value(): string {
      match this
      case Admin => ADMIN
      case User => USER
      case Moderator => MODERATOR
    }
  }

  /** The choice whose stored value is `s`, if any. */
  function RoleFromValue(s: string): (r: Option<UserRole>)
    ensures r.Some? ==> r.value.Value() == s
    ensures r.None? ==> forall role: UserRole :: role.Value() != s
  {
    if s == ADMIN then Some(Admin)
    else if s == USER then Some(User)
    else if s == MODERATOR then Some(Moderator)
    else None
  }

  /** The choice values are pairwise distinct, so a role is recovered from its value. */
  lemma RoleValueRoundTrip(role: UserRole)
    ensures RoleFromValue(role.Value()) == Some(role)
  {
  }

  /** `role` holds one of the declared choices. */
  predicate IsChoice(role: string) {
    RoleFromValue(role).Some?
  }

  /**
   * One row of the user table. The row's identity (its primary key) is kept
   * outside, as the key of the table map.
   */
  datatype Account = Account(
    username: string,
    email: string,
    firstName: string,
    lastName: string,
    bio: string,
    role: string,
    isSuperuser: bool,
    isStaff: bool,
    confirmationCode: string)

  /** The row `get_or_create(username=..., email=...)` inserts: every other field at its default. */
  function NewAccount(username: string, email: string): (a: Account)
    ensures a.username == username && a.email == email
    ensures a.role == DEFAULT_ROLE && IsChoice(a.role)
    ensures !a.isSuperuser && !a.isStaff
    ensures a.bio == "" && a.firstName == "" && a.lastName == "" && a.confirmationCode == ""
  {
    Account(username, email, "", "", "", DEFAULT_ROLE, false, false, "")
  }

  /** `is_admin`: the admin role, or either of Django's two privilege flags. */
  predicate IsAdmin(a: Account) {
    a.role == ADMIN || a.isSuperuser || a.isStaff
  }

  /** `is_moderator` */
  predicate IsModerator(a: Account) {
    a.role == MODERATOR
  }

  /** `is_user` */
  predicate IsUser(a: Account) {
    a.role == USER
  }

  /** For a role among the choices, exactly one of the three role tests holds. */
  lemma ExactlyOneRoleTest(a: Account)
    requires IsChoice(a.role)
    ensures a.role == ADMIN ==> !IsModerator(a) && !IsUser(a)
    ensures IsModerator(a) ==> a.role != ADMIN && !IsUser(a)
    ensures IsUser(a) ==> a.role != ADMIN && !IsModerator(a)
    ensures a.role == ADMIN || IsModerator(a) || IsUser(a)
  {
  }

  /** A role outside the choices passes none of the three role tests. */
  lemma UnknownRolePassesNoRoleTest(a: Account)
    requires !IsChoice(a.role)
    ensures a.role != ADMIN && !IsModerator(a) && !IsUser(a)
  {
  }

  /** A moderator is an admin only through the staff or superuser flag. */
  lemma ModeratorIsNotAdmin(a: Account)
    requires IsModerator(a) && !a.isStaff && !a.isSuperuser
    ensures !IsAdmin(a)
  {
  }

  /** A superuser is an admin whatever the role column holds. */
  lemma SuperuserIsAdmin(a: Account)
    requires a.isSuperuser
    ensures IsAdmin(a)
  {
  }

  /** A freshly signed-up account is a plain user with no privileges. */
  lemma NewAccountIsPlainUser(username: string, email: string)
    ensures IsUser(NewAccount(username, email))
    ensures !IsAdmin(NewAccount(username, email)) && !IsModerator(NewAccount(username, email))
  {
  }
}
