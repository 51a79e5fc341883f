/** The user views of api/users/views.py: the permission each `UserViewSet`
    action gets, and the branch structure of the login and token-refresh
    views. Token issue, token refresh, password checking and request
    validation are library code and enter as parameters; a cookie is its
    name and value (its lifetime and flags are left out). */
module UserViews {

  import opened Common
  import opened Http
  import opened Permissions

  /** The permission classes the view set chooses from. */
  datatype PermissionClass = IsAdminClass | IsSelfOrAdminClass | IsAuthenticatedClass

  /** `UserViewSet.get_permissions()`: one permission class per action. */
  function PermissionsFor(action: string): (ps: seq<PermissionClass>)
    ensures |ps| == 1
    ensures action == "list" <==> ps == [IsAdminClass]
    ensures action in {"retrieve", "update", "partial_update", "destroy"} <==> ps == [IsSelfOrAdminClass]
    ensures ps == [IsAuthenticatedClass] <==> action != "list" && action !in {"retrieve", "update", "partial_update", "destroy"}
  {
    if action == "list" then [IsAdminClass]
    else if action in ["retrieve", "update", "partial_update", "destroy"] then [IsSelfOrAdminClass]
    else [IsAuthenticatedClass]
  }

  /** Whether a request passes its action's permission: the view-level check
      (`has_permission`; `IsSelfOrAdmin` keeps the default, which grants),
      then, for an action on one user object, the object-level check. No
      action is permitted to an anonymous user. */
  predicate Permitted(action: string, u: RequestUser, obj: Option<Id>)
    ensures Permitted(action, u, obj) ==> u.IsAuthenticated()
  {
    match PermissionsFor(action)[0]
    case IsAdminClass => IsAdmin(u)
    case IsAuthenticatedClass => u.IsAuthenticated()
    case IsSelfOrAdminClass => obj.Some? && IsSelfOrAdmin(u, obj.value)
  }

  /** Listing users needs an admin; reading or changing one user needs that
      user or an admin; every other action (such as `create`) any
      authenticated user. */
  lemma PermittedByAction(action: string, u: RequestUser, obj: Id)
    ensures action == "list" ==> (Permitted(action, u, Some(obj)) <==> u.Member? && u.role == AdminRole)
    ensures action in {"retrieve", "update", "partial_update", "destroy"} ==>
      (Permitted(action, u, Some(obj)) <==> u.Member? && (u.role == AdminRole || u.id == obj))
    ensures action != "list" && action !in {"retrieve", "update", "partial_update", "destroy"} ==>
      (Permitted(action, u, Some(obj)) <==> u.Member?)
  {
  }

  // ---------------------------------------------------------------------------
  // Cookies

  /** A cookie set on the response. */
  datatype Cookie = Cookie(name: string, value: string)

  /** `SIMPLE_JWT['AUTH_COOKIE']` and `SIMPLE_JWT['AUTH_COOKIE_REFRESH']`. */
  datatype CookieNames = CookieNames(access: string, refresh: string)

  /** A response together with the cookies it sets, in order. */
  datatype CookieResponse = CookieResponse(response: Response<Id>, cookies: seq<Cookie>)

  // ---------------------------------------------------------------------------
  // RefreshTokenView.post

  /** `RefreshTokenView.post`. `refresh` stands for
      `get_refreshed_tokens_sync`: the new access token and, when the token
      library rotates it, a new refresh token; or the exception it raises.
      The view has no authentication classes, so the AuthenticationFailed
      it lets escape is served as 403, not 401. */
  function RefreshPost(cookies: map<string, string>, names: CookieNames,
                       refresh: string -> Outcome<(string, Option<string>)>): (r: Outcome<CookieResponse>)
    ensures r.Raised? ==> r.error.AuthenticationFailed? && ServedStatus(r.error, false) == FORBIDDEN
  {
    var token := Field(cookies, names.refresh);
    if !Given(token) then Raised(AuthenticationFailed("Refresh token is missing."))
    else match refresh(token.value)
      case Raised(AuthenticationFailed(m)) => Raised(AuthenticationFailed(m))
      case Raised(_) => Raised(AuthenticationFailed("Refresh token is invalid or expired."))
      case Ok((access, rotated)) =>
        var rest := if Given(rotated) then [Cookie(names.refresh, rotated.value)] else [];
        Ok(CookieResponse(Response(OK, Message("message", "Access token refreshed.")), [Cookie(names.access, access)] + rest))
  }

  /** Without a refresh cookie the view refuses before refreshing. A
      successful refresh answers 200 and always sets the access cookie first,
      and the refresh cookie exactly when a new refresh token came back. An
      authentication failure of the refresh passes through unchanged; any
      other failure becomes "invalid or expired". */
  lemma RefreshPostOutcomes(cookies: map<string, string>, names: CookieNames,
                            refresh: string -> Outcome<(string, Option<string>)>)
    ensures !Given(Field(cookies, names.refresh)) ==>
      RefreshPost(cookies, names, refresh) == Raised(AuthenticationFailed("Refresh token is missing."))
    ensures Given(Field(cookies, names.refresh)) ==>
      var attempt := refresh(cookies[names.refresh]);
      var r := RefreshPost(cookies, names, refresh);
      (attempt.Ok? <==> r.Ok?)
      && (attempt.Ok? ==>
            r.value.response == Response(OK, Message("message", "Access token refreshed."))
            && |r.value.cookies| >= 1 && r.value.cookies[0] == Cookie(names.access, attempt.value.0)
            && (|r.value.cookies| == 2 <==> Given(attempt.value.1))
            && (Given(attempt.value.1) ==> r.value.cookies[1] == Cookie(names.refresh, attempt.value.1.value))
            && |r.value.cookies| <= 2)
      && (attempt.Raised? && attempt.error.AuthenticationFailed? ==> r == Raised(attempt.error))
      && (attempt.Raised? && !attempt.error.AuthenticationFailed? ==>
            r == Raised(AuthenticationFailed("Refresh token is invalid or expired.")))
  {
  }

  // ---------------------------------------------------------------------------
  // LoginView.post

  /** `LoginView.post`. `valid` is the request serializer's verdict (its
      failure is the ValidationError that REST framework answers with 400);
      `authenticate` returns the user the credentials identify; `issue`
      gives the access and refresh tokens of a user. The success body is the
      user's id (the serialized user is left out). */
  function LoginPost(data: map<string, string>, valid: bool, names: CookieNames,
                     authenticate: (Option<string>, Option<string>) -> Option<Id>,
                     issue: Id -> (string, string)): (r: Outcome<CookieResponse>)
    ensures r.Raised? <==> !valid
    ensures r.Raised? ==> r.error.ValidationError? && ServedStatus(r.error, false) == BAD_REQUEST
    ensures r.Ok? ==> r.value.response.status in {OK, BAD_REQUEST}
  {
    if !valid then Raised(ValidationError("invalid login request"))
    else match authenticate(Field(data, "username"), Field(data, "password"))
      case Some(user) =>
        var (access, refreshToken) := issue(user);
        Ok(CookieResponse(Response(OK, Data(user)), [Cookie(names.access, access), Cookie(names.refresh, refreshToken)]))
      case None => Ok(CookieResponse(Response(BAD_REQUEST, Message("error", "Invalid credentials.")), []))
  }

  /** Cookies are set only when the credentials identify a user, and then
      both of them, with that user's tokens; otherwise the answer is 400 and
      sets nothing. */
  lemma LoginPostOutcomes(data: map<string, string>, valid: bool, names: CookieNames,
                          authenticate: (Option<string>, Option<string>) -> Option<Id>,
                          issue: Id -> (string, string))
    ensures !valid ==> LoginPost(data, valid, names, authenticate, issue).Raised?
    ensures valid ==>
      var r := LoginPost(data, valid, names, authenticate, issue);
      var user := authenticate(Field(data, "username"), Field(data, "password"));
      r.Ok?
      && (user.Some? ==>
            r.value.response.status == OK
            && r.value.cookies == [Cookie(names.access, issue(user.value).0), Cookie(names.refresh, issue(user.value).1)])
      && (user.None? ==> r.value == CookieResponse(Response(BAD_REQUEST, Message("error", "Invalid credentials.")), []))
      && (r.value.cookies != [] <==> user.Some?)
  {
  }
}
