/**
 * What a network call can come back with, and the `{ message, status }` normalisation that every
 * query and mutation applies in its `catch` block.
 */
module Http {
  import opened Wrappers

  /** The parts of `error.response` that are read: its status and `data.message`. */
  datatype Response = Response(status: int, message: Option<string>)

  /** A rejected call: an `AxiosError` (with or without a response) or any other thrown value. */
  datatype Failure = AxiosFailure(response: Option<Response>) | OtherFailure

  /** The outcome of one request: the response data, or the failure it was rejected with. */
  datatype Transport<+T> = Delivered(data: T) | Failed(failure: Failure)

  /** The plain object `{ message, status }` the query layer throws. */
  datatype AppError = AppError(message: string, status: int)

  const UnexpectedMessage := "An unexpected error occurred"

  /** `error.response?.status === 401` */
  predicate IsUnauthorized(f: Failure) {
    f.AxiosFailure? && f.response.Some? && f.response.value.status == 401
  }

  /** The message the server sent, when there is a response carrying a non-empty one. */
  function ServerMessage(f: Failure): (m: Option<string>)
    ensures m.Some? ==> f.AxiosFailure? && f.response.Some? && f.response.value.message == m && m.value != ""
    ensures f.AxiosFailure? && f.response.Some? && f.response.value.message.Some? && f.response.value.message.value != "" ==>
              m == f.response.value.message
  {
    if f.AxiosFailure? && f.response.Some? && f.response.value.message.Some? && f.response.value.message.value != ""
    then f.response.value.message
    else None
  }

  /**
   * The `catch` block shared by the queries: for an `AxiosError`, `response.data.message || fallback`
   * and `response.status || 500`; for anything else, the generic message and 500.
   */
  function Normalise(f: Failure, fallback: string): (e: AppError)
    ensures f.OtherFailure? ==> e == AppError(UnexpectedMessage, 500)
    ensures f.AxiosFailure? ==> e.message == ServerMessage(f).GetOr(fallback)
    ensures f.AxiosFailure? && f.response.Some? && f.response.value.status != 0 ==> e.status == f.response.value.status
    ensures f.AxiosFailure? && (f.response.None? || f.response.value.status == 0) ==> e.status == 500
    ensures fallback != "" ==> e.message != ""
    ensures e.status != 0
    ensures e.status == 401 <==> IsUnauthorized(f)
  {
    match f
    case OtherFailure => AppError(UnexpectedMessage, 500)
    case AxiosFailure(resp) =>
      var message := match resp
        case Some(r) => if r.message.Some? && r.message.value != "" then r.message.value else fallback
        case None => fallback;
      var status := match resp
        case Some(r) => if r.status != 0 then r.status else 500
        case None => 500;
      AppError(message, status)
  }

  /** A call wrapped by a query function: the data on success, the normalised error otherwise. */
  function Settle<T>(t: Transport<T>, fallback: string): (r: Result<T, AppError>)
    ensures t.Delivered? ==> r == Success(t.data)
    ensures t.Failed? ==> r == Failure(Normalise(t.failure, fallback))
  {
    match t
    case Delivered(d) => Success(d)
    case Failed(f) => Failure(Normalise(f, fallback))
  }
}
