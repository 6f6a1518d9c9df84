/** Values shared by every part of the storefront model. */
module Common {

  /** A document identifier as the database hands it out; fresh ones come from a counter. */
  type ObjectId = nat

  /** A value that may be absent: an unset request field, a missing document. */
  datatype Option<+T> = None | Some(value: T) {
    function GetOr(default: T): T {
      if Some? then value else default
    }
  }

  /** Either a value or the reason there is none. */
  datatype Result<+T, +E> = Success(value: T) | Failure(error: E)
}
