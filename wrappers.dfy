/** Optional values, standing for the source's `undefined`/`null` fields. */
module Wrappers {

  datatype Option<+T> = None | Some(value: T)

  /** JavaScript truthiness of an optional string: present and not "". */
  predicate IsNonEmpty(s: Option<string>)
  {
    s.Some? && s.value != ""
  }
}
