/** Values shared by every part of the client model: optional values, bytes,
    Go strings seen as bytes, and opaque error causes. */
module Common {

  datatype Option<+T> = None | Some(value: T)

  /** One octet; a Go `[]byte` is a `bytes`. */
  type byte = x: int | 0 <= x < 256

  type bytes = seq<byte>

  /** A lower-level error (from the URL parser, a JSON codec, the transport, the
      context), known only by its message. */
  datatype Cause = Cause(message: string)

  /** A value or the error that prevented it. */
  datatype Result<+T> = Ok(value: T) | Err(cause: Cause)

  /** Go's `string(b)`: a Go string holds the bytes verbatim, one char per byte here. */
  function BytesToString(b: bytes): (s: string)
    ensures |s| == |b|
    ensures forall i :: 0 <= i < |b| ==> s[i] as int == b[i]
  {
    seq(|b|, i requires 0 <= i < |b| => b[i] as char)
  }

  /** A Go pointer: a cell whose content the callee overwrites in place. */
  class Ref<T> {
    var value: T

    constructor (v: T)
      ensures value == v
    {
      value := v;
    }
  }
}
