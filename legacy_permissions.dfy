/**
 * The older revision of the permission classes, api/permissions.py. It spells
 * out `or is_superuser` next to `is_admin`; the lemmas show this changes
 * nothing, because `is_admin` already includes the superuser flag.
 */
module LegacyPermissions {
  import opened UserModel
  import opened Requests
  import Permissions

  /** IsAdmin.has_permission: `authenticated and (is_admin or is_superuser)`. */
  predicate AdminHasPermission(c: Caller) {
    c.Authenticated? && (IsAdmin(c.account) || c.account.isSuperuser)
  }

  /** IsAuthorModeratorAdminOrReadOnly.has_permission: `(user and authenticated) or safe`. */
  predicate AuthorHasPermission(m: Method, c: Caller) {
    c.Authenticated? || IsSafe(m)
  }

  /** IsAuthorModeratorAdminOrReadOnly.has_object_permission. */
  function AuthorObjectPermission(m: Method, c: Caller, author: UserId): Permissions.Verdict {
    if IsSafe(m) then Permissions.Allow
    else match c
      case Anonymous => Permissions.Raise
      case Authenticated(id, a) =>
        if IsAdmin(a) || IsModerator(a) || id == author then Permissions.Allow else Permissions.Deny
  }

  /**
   * IsAdminOrReadOnly.has_permission. Python's `and` binds tighter than `or`,
   * so the expression reads `safe or (authenticated and (is_admin or is_superuser))`.
   */
  predicate AdminOrReadOnlyHasPermission(m: Method, c: Caller) {
    IsSafe(m) || (c.Authenticated? && (IsAdmin(c.account) || c.account.isSuperuser))
  }

  /** The extra superuser test is redundant: both IsAdmin revisions agree on every caller. */
  lemma AdminAgreesWithV1(c: Caller)
    ensures AdminHasPermission(c) <==> Permissions.AdminHasPermission(c)
  {
  }

  /** Both IsAdminOrReadOnly revisions agree on every method and caller. */
  lemma AdminOrReadOnlyAgreesWithV1(m: Method, c: Caller)
    ensures AdminOrReadOnlyHasPermission(m, c) <==> Permissions.AdminOrReadOnlyHasPermission(m, c)
  {
  }

  /** Both author-check revisions agree, at the collection and at the object level. */
  lemma AuthorChecksAgreeWithV1(m: Method, c: Caller, author: UserId)
    ensures AuthorHasPermission(m, c) <==> Permissions.AuthorHasPermission(m, c)
    ensures AuthorObjectPermission(m, c, author) == Permissions.AuthorObjectPermission(m, c, author)
  {
  }

  /**
   * The object-level check allows safe methods, admins, moderators and the
   * object's author, and nobody else.
   */
  lemma ObjectCheckAllowsExactly(m: Method, c: Caller, author: UserId)
    ensures AuthorObjectPermission(m, c, author) == Permissions.Allow <==>
      IsSafe(m) || (c.Authenticated? && (IsAdmin(c.account) || IsModerator(c.account) || c.id == author))
  {
  }

  /** No class here lets an anonymous caller use an unsafe method. */
  lemma AnonymousNeverMutates(m: Method)
    requires !IsSafe(m)
    ensures !AdminHasPermission(Anonymous)
    ensures !AuthorHasPermission(m, Anonymous)
    ensures !AdminOrReadOnlyHasPermission(m, Anonymous)
  {
  }
}
