/** Optional values: a DOM lookup or a storage read that may find nothing. */
module Wrappers {
  datatype Option<+T> = None | Some(value: T)

  /**
   * `!value` for a nullable string, as `localStorage.getItem` and
   * `FormData.get` return: `null` or the empty string.
   */
  predicate Falsy(v: Option<string>)
  {
    v == None || v == Some("")
  }
}
