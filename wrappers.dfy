/** Optional values, standing for JavaScript's `undefined`/`null` and for
    query results whose `data` may be missing. */
module Wrappers {

  datatype Option<+T> = None | Some(value: T) {

    /** The value, or `default` when there is none (JavaScript's `x ?? d`). */
    function GetOr(default: T): T {
      match this
      case Some(v) => v
      case None => default
    }
  }

  /** What a store query hands back: its `error` was set, or its `data`, which
      may be null. */
  datatype Query<+T> = QueryError | QueryData(data: Option<T>)

  /** `x || 0` on an optional number: a missing value and a zero both give 0. */
  function OrZero(x: Option<real>): real {
    x.GetOr(0.0)
  }
}
