/** Optional values and the fields of a partial record. */
module Wrappers {

  /** A value that may be absent: a TypeScript optional property (`x?: T`). */
  datatype Option<+T> = None | Some(value: T) {
    /** `x ?? default` */
    function GetOr(default: T): T {
      match this
      case Some(v) => v
      case None => default
    }
  }

  /**
   * One property of a `Partial<T>` record used in an object spread:
   * either the key is absent (`Keep`, the spread leaves the old value)
   * or it is present with a value (`Set`, the spread overwrites).
   */
  datatype Field<+T> = Keep | Set(value: T) {
    /** The value a spread `{ ...base, ...patch }` leaves in this property. */
    function Or(base: T): T {
      match this
      case Set(v) => v
      case Keep => base
    }
  }
}
