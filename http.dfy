// The shape every controller answers with: a status code and either the data
// it returns or the reason it refused; an exception no handler catches becomes
// Spring's default 500 answer, with the exception's message (None for a null
// dereference).
module Http {
  import opened Common

  const StatusOk := 200
  const StatusCreated := 201
  const StatusNoContent := 204
  const StatusBadRequest := 400
  const StatusUnauthorized := 401
  const StatusForbidden := 403
  const StatusNotFound := 404
  const StatusServerError := 500

  datatype Response<T, E> =
    | Answer(status: int, data: T)
    | Refused(status: int, reason: E)
    | Crashed(cause: Option<string>)
  {
    function Status(): int
    {
      match this
      case Answer(s, _) => s
      case Refused(s, _) => s
      case Crashed(_) => StatusServerError
    }
  }

  /** What a call to another service gives back: a 2xx answer with a body, whose
      "data" entry may be absent; an answer that is not 2xx or has no body; or an
      exception. */
  datatype Fetch<D> = Answered(data: Option<D>) | BadAnswer | Threw

  /** A value inside a JSON body another service sends: an integral number, a
      string, null, or anything else (a boolean, an object, a list). */
  datatype Json = JNum(n: int) | JStr(s: string) | JNull | JOther

  /** A JSON object as a `Map<String, Object>`. */
  type JsonObject = map<string, Json>

  /** `get`: null for an absent key. */
  function Field(o: JsonObject, key: string): (v: Json)
    ensures key !in o ==> v == JNull
  {
    if key in o then o[key] else JNull
  }

  /** `(Number) v` followed by `longValue()` for a value that may be null: None
      for null, and a class-cast failure (Err) for anything but a number. */
  function NumberOrNull(v: Json): (r: Result<Option<int>>)
    ensures r.Ok? <==> v.JNum? || v.JNull?
    ensures r == Ok(None) <==> v.JNull?
    ensures v.JNum? ==> r == Ok(Some(v.n))
  {
    match v
    case JNum(n) => Ok(Some(n))
    case JNull => Ok(None)
    case _ => Err("ClassCastException")
  }

  /** `(String) v` for a value that may be null. */
  function StringOrNull(v: Json): (r: Result<Option<string>>)
    ensures r.Ok? <==> v.JStr? || v.JNull?
    ensures v.JStr? ==> r == Ok(Some(v.s))
    ensures v.JNull? ==> r == Ok(None)
    ensures r.Err? ==> r.error == "ClassCastException"
  {
    match v
    case JStr(s) => Ok(Some(s))
    case JNull => Ok(None)
    case _ => Err("ClassCastException")
  }

  /** The `(String)` cast of a field does not throw: it holds a string or null. */
  predicate Castable(o: JsonObject, key: string) { Field(o, key).JStr? || Field(o, key).JNull? }
}
