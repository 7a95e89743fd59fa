/** Types shared by the components of the script runner: optional values,
    results carrying an error, bytes, the engine's 32-bit size type and its
    integer return codes. */
module Common {

  datatype Option<+T> = None | Some(value: T) {
    function GetOr(default: T): T {
      match this
      case Some(v) => v
      case None => default
    }
  }

  datatype Result<+T, +E> = Ok(value: T) | Err(error: E)

  /** An `unsigned char`. */
  newtype byte = x: int | 0 <= x < 256

  const UINT_LIMIT: int := 0x1_0000_0000

  /** The engine's `asUINT`, a 32-bit unsigned size. */
  type AsUint = x: nat | x < UINT_LIMIT

  /** A block of bytes the engine hands over in one `Write` call. */
  type Chunk = s: seq<byte> | |s| < UINT_LIMIT

  /** `asSUCCESS` and `asERROR` of the engine's interface. */
  const AS_SUCCESS: int := 0
  const AS_ERROR: int := -1
}
