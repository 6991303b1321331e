/** Optional values: a present value or JavaScript's null/undefined. */
module Wrappers {

  datatype Option<+T> = None | Some(value: T)

  /** JavaScript's `a || b` when `a` is either absent or a truthy value:
      every colour mode string is non-empty, so a present one is kept. */
  function Or<T>(a: Option<T>, b: Option<T>): Option<T>
  {
    if a.Some? then a else b
  }
}
