/** The optional-value wrapper used for TypeScript's `?` fields and for NaN results. */
module Wrappers {

  datatype Option<+T> = None | Some(value: T) {

    /**
     * The wrapped value, or `default` when there is none. Used for
     * `previousPassportExpiry || ''`, where an absent value and an empty one both give `''`.
     */
    function GetOr(default: T): T {
      match this
      case Some(v) => v
      case None => default
    }
  }
}
