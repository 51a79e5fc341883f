/** Values shared by every part of the model: optional values, the JSON-like
    payloads that travel on the event bus, the exceptions the Python code
    raises, and an outcome type for operations that may raise. */
module Common {

  /** Python's `None` / a present value. */
  datatype Option<T> = None | Some(value: T)

  /** Identifiers. UUID primary keys and integer user ids are both modelled as
      natural numbers; their textual form is decimal (see `Text.NatToString`). */
  type Id = nat

  /** A JSON-compatible value, as carried in event payloads and response bodies. */
  datatype Value =
    | Null
    | Bool(b: bool)
    | Int(i: int)
    | Str(s: string)
    | List(items: seq<Value>)
    | Dict(entries: map<string, Value>)

  /** Python truthiness (`bool(v)`): None, False, 0, "", [] and {} are false. */
  predicate Truthy(v: Value)
  {
    match v
    case Null => false
    case Bool(b) => b
    case Int(i) => i != 0
    case Str(s) => s != ""
    case List(xs) => xs != []
    case Dict(m) => m != map[]
  }

  /** `d.get(k)`: the value stored under `k`, or None. */
  function Lookup(d: map<string, Value>, k: string): (v: Value)
    ensures k !in d ==> v == Null
    ensures k in d ==> v == d[k]
  {
    if k in d then d[k] else Null
  }

  /** `d.get(k, default)`. */
  function LookupOr(d: map<string, Value>, k: string, default: Value): (v: Value)
    ensures k !in d ==> v == default
    ensures k in d ==> v == d[k]
  {
    if k in d then d[k] else default
  }

  /** `request.data.get(k)` on a request body whose values are strings. */
  function Field(data: map<string, string>, k: string): (f: Option<string>)
    ensures f.Some? <==> k in data
    ensures f.Some? ==> f.value == data[k]
  {
    if k in data then Some(data[k]) else None
  }

  /** `not x` is false for an optional string: present and non-empty. */
  predicate Given(f: Option<string>)
  {
    f.Some? && f.value != ""
  }

  /** The exceptions that the modelled code raises or catches. */
  datatype Exception =
    | ValueError(message: string)
    | DoesNotExist
    | Http404
    | IntegrityError
    | PermissionError(message: string)
    | AuthenticationFailed(message: string)
    | RuntimeError(message: string)
    | ValidationError(message: string)
    | TypeError
    | ImportError
    | AttributeError
    | KeyError
    | DatabaseError
    | FieldError

  /** The result of an operation that either returns a value or raises. */
  datatype Outcome<T> = Ok(value: T) | Raised(error: Exception)

  /** `[f(x) for x in xs]`. */
  function MapSeq<A, B>(f: A -> B, xs: seq<A>): (ys: seq<B>)
    ensures |ys| == |xs|
    ensures forall i | 0 <= i < |xs| :: ys[i] == f(xs[i])
  {
    if xs == [] then [] else [f(xs[0])] + MapSeq(f, xs[1..])
  }
}
