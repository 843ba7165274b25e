/** Small value types shared by every part of the model. */
module Wrappers {

  /** A value that may be absent: JavaScript's `T | null` and `T | undefined`. */
  datatype Option<+T> = None | Some(value: T)

  /**
    * What a `localStorage.getItem` followed by `JSON.parse` yields for one key:
    * nothing stored (or the empty string, which the source treats as falsy),
    * a string that does not parse, or a decoded value. The JSON codec itself is
    * not modelled: a value written with `Saved(v)` reads back as `Saved(v)`.
    */
  datatype Stored<+T> = Missing | Malformed | Saved(value: T)

  /** A toast notification: title, description, and whether it uses the destructive style. */
  datatype Toast = Toast(title: string, description: string, destructive: bool)
}
