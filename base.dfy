/** Types shared by the whole model: the C and Go integer widths the source
    uses, an optional value, Go error values, and the outcome of a Go call
    that may panic instead of returning. */
module Base {

  /** C.int: a 32-bit signed integer. */
  newtype int32 = x: int | -0x8000_0000 <= x < 0x8000_0000

  /** Go's uint16, the width of an RTP sequence number. */
  newtype uint16 = x: int | 0 <= x < 0x1_0000

  /** One byte of a packet or of a C buffer. */
  newtype byte = x: int | 0 <= x < 0x100

  const INT32_MIN: int32 := -0x8000_0000

  /** A failing libav return code: the callers take their error branch
      exactly when a C function returns a code below zero. */
  type NegativeCode = c: int32 | c < 0 witness -1

  datatype Option<+T> = None | Some(value: T)

  /** A non-nil Go `error`, as far as the callers in this repository look at it:
      `io.EOF`, an error made by `av_err` from a libav code (its text is
      `AvErrors.AvErrText`), or any other error, known by its text. */
  datatype GoError =
    | EOF
    | AvFailure(prefix: string, code: int32)
    | Message(text: string)

  /** The outcome of a Go call: it returns a value, or it panics. */
  datatype Call<+T> = Returns(value: T) | Panics(reason: string)

  /** A Go string viewed as text, one character per byte. */
  function BytesToString(b: seq<byte>): (s: string)
    ensures |s| == |b|
    ensures forall i :: 0 <= i < |b| ==> s[i] as int == b[i] as int
  {
    seq(|b|, i requires 0 <= i < |b| => (b[i] as int) as char)
  }

  ghost predicate NoDuplicates<T>(s: seq<T>)
  {
    forall i, j :: 0 <= i < j < |s| ==> s[i] != s[j]
  }
}
