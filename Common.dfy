/** Small value types shared by every module of the converter. */
module Common {

  /** Python's `None` or a value. */
  datatype Option<T> = None | Some(value: T)

  /** Why scanning a stub file aborts. */
  datatype Failure =
    /** A line dereferences `current_comment` while it is still `None`
        (no documentation block opened before it). */
    | NoComment

  datatype Result<T> = Ok(value: T) | Err(error: Failure)

  /** Python truthiness of an optional string: `None` and `''` are both false. */
  predicate Truthy(o: Option<string>) {
    o.Some? && o.value != ""
  }
}
