/** Small shared vocabulary: an optional value and an octet. */
module Prelude {

  /** A value that may be absent (a JavaScript property that is not set). */
  datatype Option<+T> = None | Some(value: T)

  /** One octet of a Node.js Buffer. */
  type byte = x: int | 0 <= x < 256
}
