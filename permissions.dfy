/**
 * The three permission classes of api/v1/permissions.py as decision functions
 * of (method, caller) and, for the object-level check, the target's author.
 */
module Permissions {
  import opened UserModel
  import opened Requests

  /**
   * Outcome of an object-level check. `Raise` stands for the AttributeError
   * Python raises when the expression asks the anonymous user for `is_admin`,
   * a property only the custom user model has.
   */
  datatype Verdict = Allow | Deny | Raise

  /** IsAdmin.has_permission */
  predicate AdminHasPermission(c: Caller) {
    c.Authenticated? && IsAdmin(c.account)
  }

  /**
   * IsAuthorModeratorAdminOrReadOnly.has_permission. `request.user` is an
   * object and always truthy, so `user and user.is_authenticated` is just the
   * authentication test.
   */
  predicate AuthorHasPermission(m: Method, c: Caller) {
    c.Authenticated? || IsSafe(m)
  }

  /** IsAuthorModeratorAdminOrReadOnly.has_object_permission, with `or` evaluated left to right. */
  function AuthorObjectPermission(m: Method, c: Caller, author: UserId): Verdict {
    if IsSafe(m) then Allow
    else match c
      case Anonymous => Raise
      case Authenticated(id, a) =>
        if IsAdmin(a) || IsModerator(a) || id == author then Allow else Deny
  }

  /** IsAdminOrReadOnly.has_permission: `safe or (authenticated and is_admin)`. */
  predicate AdminOrReadOnlyHasPermission(m: Method, c: Caller) {
    IsSafe(m) || (c.Authenticated? && IsAdmin(c.account))
  }

  /** IsAdmin passes exactly for authenticated admins. */
  lemma AdminPermissionCharacterised(c: Caller)
    ensures AdminHasPermission(c) <==> exists id, a :: c == Authenticated(id, a) && IsAdmin(a)
  {
    if AdminHasPermission(c) {
      assert c == Authenticated(c.id, c.account);
    }
  }

  /** The collection-level author check lets everyone read and every authenticated caller do anything. */
  lemma AuthorCollectionCheck(m: Method, c: Caller)
    ensures IsSafe(m) ==> AuthorHasPermission(m, c)
    ensures c.Authenticated? ==> AuthorHasPermission(m, c)
    ensures !IsSafe(m) && c.Anonymous? ==> !AuthorHasPermission(m, c)
  {
  }

  /** Reading an object is always allowed, whoever asks. */
  lemma SafeObjectAccessAllowed(m: Method, c: Caller, author: UserId)
    requires IsSafe(m)
    ensures AuthorObjectPermission(m, c, author) == Allow
  {
  }

  /** Admins and moderators may change any review or comment. */
  lemma StaffMayEditAnything(m: Method, id: UserId, a: Account, author: UserId)
    requires IsAdmin(a) || IsModerator(a)
    ensures AuthorObjectPermission(m, Authenticated(id, a), author) == Allow
  {
  }

  /** An author may change their own content. */
  lemma AuthorMayEditOwn(m: Method, id: UserId, a: Account)
    ensures AuthorObjectPermission(m, Authenticated(id, a), id) == Allow
  {
  }

  /** A plain user, with neither flag, may change an object exactly when they wrote it. */
  lemma PlainUserEditsOnlyOwn(m: Method, id: UserId, a: Account, author: UserId)
    requires !IsSafe(m) && IsUser(a) && !a.isStaff && !a.isSuperuser
    ensures AuthorObjectPermission(m, Authenticated(id, a), author) == Allow <==> id == author
    ensures id != author ==> AuthorObjectPermission(m, Authenticated(id, a), author) == Deny
  {
  }

  /**
   * The collection-level check alone does not authorise a change: a plain
   * user passes it for an unsafe method but is denied at the object.
   */
  lemma CollectionCheckIsNotEnough(m: Method, id: UserId, a: Account, author: UserId)
    requires !IsSafe(m) && IsUser(a) && !a.isStaff && !a.isSuperuser && id != author
    ensures AuthorHasPermission(m, Authenticated(id, a))
    ensures AuthorObjectPermission(m, Authenticated(id, a), author) == Deny
  {
  }

  /**
   * The framework runs `has_permission` before `has_object_permission`; once
   * the former has passed, the object check never reaches the attribute error.
   */
  lemma GuardedObjectCheckNeverRaises(m: Method, c: Caller, author: UserId)
    requires AuthorHasPermission(m, c)
    ensures AuthorObjectPermission(m, c, author) != Raise
  {
  }

  /** IsAdminOrReadOnly lets everyone read and only authenticated admins write. */
  lemma AdminOrReadOnlyCharacterised(m: Method, c: Caller)
    ensures IsSafe(m) ==> AdminOrReadOnlyHasPermission(m, c)
    ensures !IsSafe(m) ==> (AdminOrReadOnlyHasPermission(m, c) <==> AdminHasPermission(c))
  {
  }

  /** No class lets an anonymous caller use an unsafe method. */
  lemma AnonymousNeverMutates(m: Method)
    requires !IsSafe(m)
    ensures !AdminHasPermission(Anonymous)
    ensures !AuthorHasPermission(m, Anonymous)
    ensures !AdminOrReadOnlyHasPermission(m, Anonymous)
  {
  }

  /** Whoever passes IsAdmin passes IsAdminOrReadOnly for every method. */
  lemma AdminPassesAdminOrReadOnly(m: Method, c: Caller)
    requires AdminHasPermission(c)
    ensures AdminOrReadOnlyHasPermission(m, c)
  {
  }
}
