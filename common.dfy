/** Values shared by the two route handlers: the authenticated principal, the
    tenant resolved from the request, and the error taxonomy with the HTTP
    status each error is answered with. */
module Common {

  datatype Option<+T> = None | Some(value: T)

  /** Roles a user can hold. */
  datatype Role = SuperAdmin | Editor | Viewer

  /** The `user` of a session: the id recorded as uploader, and the role the
      guards look at. */
  datatype Principal = Principal(id: string, role: Role)

  /** A tenant as resolved from the request's domain. */
  datatype Tenant = Tenant(id: string, domain: string)

  /** Every way a handler can refuse a request. */
  datatype Failure =
    | Unauthorized     // no session on a read handler
    | Forbidden        // no session, or a VIEWER, on a write handler
    | TenantNotFound
    | NoFile
    | FileTooLarge
    | TypeNotAllowed
    | ValidationError  // the request body does not match the page schema
    | Conflict         // a page with the same tenant, slug and locale exists
    | Internal         // anything caught by a handler's catch-all
  {
    /** The HTTP status the handler answers with. */
    function Status(): (code: int)
      ensures code in {400, 401, 403, 404, 409, 500}
      ensures code == 400 <==> (NoFile? || FileTooLarge? || TypeNotAllowed? || ValidationError?)
    {
      match this
      case Unauthorized => 401
      case Forbidden => 403
      case TenantNotFound => 404
      case NoFile => 400
      case FileTooLarge => 400
      case TypeNotAllowed => 400
      case ValidationError => 400
      case Conflict => 409
      case Internal => 500
    }
  }

  datatype Result<+T> = Ok(value: T) | Err(error: Failure)

  predicate StartsWith(s: string, prefix: string) {
    |prefix| <= |s| && s[..|prefix|] == prefix
  }

  /** The guard of both write handlers: a session whose role is not VIEWER. */
  predicate CanWrite(session: Option<Principal>) {
    session.Some? && session.value.role != Viewer
  }
}
