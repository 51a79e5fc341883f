/** The permission classes of api/users/permissions.py, over the requesting
    user (anonymous, or an authenticated user with a role) and the request
    method. The user's role is the stored choice value of
    api/users/models.py: "admin" or "user". */
module Permissions {

  import opened Common

  const AdminRole: string := "admin"
  const UserRole: string := "user"

  /** `request.user`: Django's anonymous user, or a stored user. */
  datatype RequestUser = AnonymousUser | Member(id: Id, role: string)
  {
    predicate IsAuthenticated()
    {
      Member?
    }
  }

  /** REST framework's `SAFE_METHODS`. */
  predicate SafeMethod(httpMethod: string)
  {
    httpMethod in {"GET", "HEAD", "OPTIONS"}
  }

  /** `IsAdmin.has_permission`: only an authenticated user can be an admin. */
  predicate IsAdmin(u: RequestUser)
    ensures IsAdmin(u) ==> u.IsAuthenticated()
  {
    u.IsAuthenticated() && u.role == AdminRole
  }

  /** `IsSelfOrAdmin.has_object_permission` as written: the role is read
      before anything else, and the anonymous user has no `role` attribute,
      so an anonymous request raises AttributeError. `obj` is the id of the
      user object asked for. */
  function IsSelfOrAdminAsWritten(u: RequestUser, obj: Id): (r: Outcome<bool>)
    ensures u.AnonymousUser? <==> r == Raised(AttributeError)
    ensures u.Member? ==> r == Ok(u.role == AdminRole || obj == u.id)
  {
    match u
    case AnonymousUser => Raised(AttributeError)
    case Member(id, role) => if role == AdminRole then Ok(true) else Ok(obj == id)
  }

  /** `IsSelfOrAdmin.has_object_permission` as its documentation intends:
      an admin, or the user the object is. An anonymous user is never
      granted, and an admin always is. */
  predicate IsSelfOrAdmin(u: RequestUser, obj: Id)
    ensures IsSelfOrAdmin(u, obj) ==> u.IsAuthenticated()
    ensures IsAdmin(u) ==> IsSelfOrAdmin(u, obj)
  {
    match u
    case AnonymousUser => false
    case Member(id, role) => role == AdminRole || obj == id
  }

  /** An anonymous request for a user object makes the written check raise,
      where the intended check refuses it; for authenticated users the two
      agree, and the intended check grants every admin and, for other users,
      exactly their own object. */
  lemma IsSelfOrAdminDiscrepancy(obj: Id)
    ensures IsSelfOrAdminAsWritten(AnonymousUser, obj) == Raised(AttributeError)
    ensures !IsSelfOrAdmin(AnonymousUser, obj)
    ensures forall u: RequestUser | u.Member? :: IsSelfOrAdminAsWritten(u, obj) == Ok(IsSelfOrAdmin(u, obj))
    ensures forall u: RequestUser | u.Member? && u.role == AdminRole :: IsSelfOrAdmin(u, obj)
    ensures forall u: RequestUser | u.Member? && u.role != AdminRole :: IsSelfOrAdmin(u, obj) <==> obj == u.id
  {
  }

  /** `IsAdminOrReadOnly.has_permission`: never for an anonymous user,
      always for an admin. */
  predicate IsAdminOrReadOnly(u: RequestUser, httpMethod: string)
    ensures IsAdminOrReadOnly(u, httpMethod) ==> u.IsAuthenticated()
    ensures IsAdmin(u) ==> IsAdminOrReadOnly(u, httpMethod)
  {
    if SafeMethod(httpMethod) then u.IsAuthenticated() else u.IsAuthenticated() && u.role == AdminRole
  }

  /** Safe methods need authentication only, others the admin role too; an
      anonymous user passes neither admin check. */
  lemma PermissionFacts(u: RequestUser, httpMethod: string)
    ensures SafeMethod(httpMethod) ==> (IsAdminOrReadOnly(u, httpMethod) <==> u.IsAuthenticated())
    ensures !SafeMethod(httpMethod) ==> (IsAdminOrReadOnly(u, httpMethod) <==> IsAdmin(u))
    ensures !u.IsAuthenticated() ==> !IsAdmin(u) && !IsAdminOrReadOnly(u, httpMethod)
    ensures IsAdmin(u) ==> IsAdminOrReadOnly(u, httpMethod)
  {
  }
}
