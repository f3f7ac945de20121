/** Values shared by the rules-engine bridge, the frontend bridge and the
    example game: integer widths, the error type the capability methods
    return, and what a trampoline hands back to the host. */
module Common {

  datatype Option<T> = None | Some(value: T)

  datatype Result<T, E> = Ok(value: T) | Err(error: E)

  const U8_MODULUS: nat := 0x100
  const U16_MODULUS: nat := 0x1_0000
  const U32_MODULUS: nat := 0x1_0000_0000
  const U64_MODULUS: nat := 0x1_0000_0000_0000_0000

  type byte = b: int | 0 <= b < U8_MODULUS
  /** A byte of a C string's content: the terminator is the only zero byte. */
  type NonZeroByte = b: int | 0 < b < U8_MODULUS witness 1
  type u8 = n: int | 0 <= n < U8_MODULUS
  type u16 = n: int | 0 <= n < U16_MODULUS
  type u32 = n: int | 0 <= n < U32_MODULUS
  type u64 = n: int | 0 <= n < U64_MODULUS

  /** A player id of the plugin API (`player_id`, one byte). */
  type PlayerId = u8
  /** A move code of the plugin API (`move_code`, 64 bits). */
  type MoveCode = u64

  /** The failure kinds a capability method reports (Rust `ErrorCode`).
      Only the kinds the modelled code names are listed; `OtherCode`
      stands for the remaining ones of the error module. */
  datatype ErrorCode =
    | FeatureUnsupported
    | InvalidInput
    | InvalidOptions
    | InvalidLegacy
    | OtherCode(raw: nat)

  /** A failure with its human-readable message (Rust `Error`). */
  datatype Error = Error(code: ErrorCode, message: string)

  /** What a trampoline does when it finishes: it returns `ERR_OK`, it
      returns an error code, or it aborts (a Rust panic inside an
      `extern "C"` function ends the process). */
  datatype Status = Success | Failure(code: ErrorCode) | Abort(reason: string)

  /** One call of a user method through `&mut self`: the object after the
      call and what the call returned.  The object may have changed even
      when the call failed. */
  datatype Step<S, R> = Step(next: S, result: Result<R, Error>)

  /** One call of a user method that pushes into an output buffer: the
      object after the call, the elements it pushed, in order, and whether
      it then reported a failure. */
  datatype Fill<S, T> = Fill(next: S, pushed: seq<T>, result: Result<(), Error>)

  function Min(a: int, b: int): (m: int)
    ensures m <= a && m <= b && (m == a || m == b)
  {
    if a <= b then a else b
  }
}
