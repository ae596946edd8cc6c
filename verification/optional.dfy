/** The optional values that stand for Kotlin's nullable types (`Int?`, `Boolean?`, `Intent?`). */
module Optional {

  /** `None` is Kotlin's `null`; `Some(v)` is a non-null `v`. */
  datatype Option<+T> = None | Some(value: T) {

    /** The value, or `default` when absent: Kotlin's elvis operator `?: default`. */
    function GetOr(default: T): T
    {
      match this
      case Some(v) => v
      case None => default
    }
  }
}
