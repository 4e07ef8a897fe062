/**
 * What a view sees of an incoming request once the framework has parsed and
 * authenticated it: the HTTP method and the caller; and the error responses
 * the views produce.
 */
module Requests {
  import opened UserModel

  datatype Method = GET | HEAD | OPTIONS | POST | PUT | PATCH | DELETE

  /** Django REST framework's SAFE_METHODS. */
  predicate IsSafe(m: Method) {
    m == GET || m == HEAD || m == OPTIONS
  }

  /**
   * `request.user`: the anonymous user, or a user row loaded by the
   * authentication backend, with its primary key. Two callers are "the same
   * user" when their primary keys agree (Django compares model instances by pk).
   */
  datatype Caller = Anonymous | Authenticated(id: UserId, account: Account)

  /** The error responses of the views. */
  datatype ApiError =
    | FieldsInvalid(fields: set<string>)                  // serializer field validation, 400
    | ValidationError(errors: map<string, seq<string>>)   // errors the views and validate() write, 400
    | NotAuthenticated                                    // 401
    | PermissionDenied                                    // 403
    | NotFound                                            // get_object_or_404, 404
    | MethodNotAllowed                                    // 405
    | ServerError                                         // an uncaught exception, 500

  function Status(e: ApiError): (code: int)
    ensures 400 <= code < 600
  {
    match e
    case FieldsInvalid(_) => 400
    case ValidationError(_) => 400
    case NotAuthenticated => 401
    case PermissionDenied => 403
    case NotFound => 404
    case MethodNotAllowed => 405
    case ServerError => 500
  }

  /** The refusal the framework sends when a permission check fails. */
  function Denial(c: Caller): (e: ApiError)
    ensures c.Anonymous? <==> Status(e) == 401
    ensures c.Authenticated? <==> Status(e) == 403
  {
    if c.Authenticated? then PermissionDenied else NotAuthenticated
  }
}
