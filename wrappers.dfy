/** Optional values: Java's nullable references. */
module Wrappers {

  /** `None` stands for a Java `null` (an absent parameter, header or property). */
  datatype Option<+T> = None | Some(value: T) {

    /** Returns the value, or `default` when it is absent. */
    function GetOr(default: T): T {
      match this
      case Some(v) => v
      case None => default
    }
  }
}
