/** Optional values and fetch outcomes shared by every store. */
module Wrappers {

  /** A value that may be missing (`undefined` / `null` in the application). */
  datatype Option<T> = None | Some(value: T)

  /** The outcome of an asynchronous asset fetch: the rows that arrived or an error. */
  datatype Fetch<T> = Loaded(data: T) | FetchFailed

  function ValueOr<T>(o: Option<T>, default: T): (r: T)
    ensures o.Some? ==> r == o.value
    ensures o.None? ==> r == default
  {
    match o
    case Some(v) => v
    case None => default
  }
}
