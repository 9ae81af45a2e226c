/** Value types shared by the guild-member entity: the integer widths of the
    wire format, the "omitted vs present" marker of optional payload fields,
    a nullable reference, and the outcome of a call that may fail. */
module Wire {

  /** An unsigned 64-bit integer (`ulong`): snowflake ids and permission bits. */
  type UInt64 = x: int | 0 <= x < 0x1_0000_0000_0000_0000

  /** A signed 64-bit integer (`long`): a timestamp in ticks. */
  type Int64 = x: int | -0x8000_0000_0000_0000 <= x < 0x8000_0000_0000_0000

  /** A field of a payload that the server may omit. `Unspecified` means the
      field was left out; `Specified(v)` means it was sent, whatever `v` is
      (an explicit null or empty value is still `Specified`). */
  datatype Optional<T> = Unspecified | Specified(value: T) {

    predicate IsSpecified() {
      Specified?
    }

    /** The value if the field was sent, the current value otherwise. */
    function MergeInto(current: T): (r: T)
      ensures IsSpecified() ==> r == value
      ensures !IsSpecified() ==> r == current
    {
      match this
      case Specified(v) => v
      case Unspecified => current
    }
  }

  /** A reference that may be null: `None` stands for null. */
  datatype Option<T> = None | Some(value: T)

  /** The outcome of a call that either yields a value or raises an error. */
  datatype Result<T, E> = Ok(value: T) | Err(error: E)
}
