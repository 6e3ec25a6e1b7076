/** Small value types shared by the whole model. */
module Common {

  /** Swift's `Optional`. */
  datatype Option<T> = None | Some(value: T) {
    function GetOr(default: T): T {
      match this
      case Some(v) => v
      case None => default
    }
  }

  /**
   * What a key of the preferences store (UserDefaults) holds: nothing, a blob
   * that does not decode to the expected type, or an encoded value.
   * JSON encoding is abstracted away: encoding a value and decoding it again
   * gives the value back.
   */
  datatype Stored<T> = Absent | Undecodable | Saved(value: T) {
    /** The decoded value, or `fallback` when there is none. */
    function DecodedOr(fallback: T): T {
      if Saved? then value else fallback
    }
  }
}
