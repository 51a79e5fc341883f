/** HTTP responses as the views build them (`Response(data, status=...)`),
    and the status Django REST framework serves when a view raises. */
module Http {

  import opened Common

  const OK: int := 200
  const CREATED: int := 201
  const ACCEPTED: int := 202
  const BAD_REQUEST: int := 400
  const UNAUTHORIZED: int := 401
  const FORBIDDEN: int := 403
  const NOT_FOUND: int := 404
  const CONFLICT: int := 409
  const SERVER_ERROR: int := 500

  /** A response body: a one-entry object such as `{"detail": "..."}`, the
      data a helper returned, or `None` (an empty body). */
  datatype Body<T> = Message(key: string, text: string) | Data(data: T) | NoBody

  datatype Response<T> = Response(status: int, body: Body<T>)

  /** The status served for an exception a view lets escape. REST framework
      answers `AuthenticationFailed` with 401 when the view has an
      authentication class to name in the `WWW-Authenticate` header
      (`authenticates`), and with 403 when it has none
      (`authentication_classes = []`); it answers a `ValidationError` with
      400 and `Http404` with 404; anything else is a server error. */
  function ServedStatus(e: Exception, authenticates: bool): (status: int)
    ensures status in {UNAUTHORIZED, FORBIDDEN, BAD_REQUEST, NOT_FOUND, SERVER_ERROR}
    ensures e.AuthenticationFailed? ==> status == (if authenticates then UNAUTHORIZED else FORBIDDEN)
    ensures e.ValidationError? ==> status == BAD_REQUEST
    ensures e.Http404? ==> status == NOT_FOUND
    ensures status == SERVER_ERROR <==> !(e.AuthenticationFailed? || e.ValidationError? || e.Http404?)
  {
    match e
    case AuthenticationFailed(_) => if authenticates then UNAUTHORIZED else FORBIDDEN
    case ValidationError(_) => BAD_REQUEST
    case Http404 => NOT_FOUND
    case _ => SERVER_ERROR
  }

  /** The status the client sees for a view's outcome, for a view that keeps
      the default authentication classes. */
  function Served<T>(o: Outcome<Response<T>>): (status: int)
    ensures o.Ok? ==> status == o.value.status
    ensures o.Raised? ==> status in {UNAUTHORIZED, BAD_REQUEST, NOT_FOUND, SERVER_ERROR}
  {
    match o
    case Ok(r) => r.status
    case Raised(e) => ServedStatus(e, true)
  }

  /** What a view leaves behind: its outcome (a response, or an exception
      it lets escape) and the state of the store it writes. */
  datatype Handled<T, S> = Handled(outcome: Outcome<Response<T>>, state: S)

  /** The response a helper's listing becomes: its data, or an empty body
      where the helper returned None. */
  function ListingBody<T>(listing: Option<T>): (b: Body<T>)
    ensures listing.Some? <==> b.Data?
    ensures listing.Some? ==> b.data == listing.value
    ensures listing.None? ==> b.NoBody?
  {
    if listing.Some? then Data(listing.value) else NoBody
  }
}
