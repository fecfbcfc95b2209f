/** Types shared by every module: results, bytes and the fixed-capacity buffers of the transport. */
module Base {

  datatype Option<+T> = None | Some(value: T) {
    function GetOr(default: T): T {
      match this
      case Some(v) => v
      case None => default
    }
  }

  datatype Result<+T, +E> = Ok(value: T) | Err(error: E)

  newtype byte = b: int | 0 <= b < 256

  type Bytes = seq<byte>

  /** Capacity of the GATT data buffers. */
  const MAX_MTU_SIZE: nat := 512

  function Zeros(n: nat): (z: Bytes)
    ensures |z| == n
    ensures forall i | 0 <= i < n :: z[i] == 0
  {
    seq(n, _ => 0 as byte)
  }

  /** `Vec::resize_default`: truncated, or padded with zeros, to length `n`. */
  function Resized(v: Bytes, n: nat): (r: Bytes)
    ensures |r| == n
    ensures forall i | 0 <= i < n :: r[i] == if i < |v| then v[i] else 0
  {
    if n <= |v| then v[..n] else v + Zeros(n - |v|)
  }

  /** A one-slot buffer seen as the list of packets it holds: an empty buffer holds none. */
  function Slot(buffer: Bytes): seq<Bytes> {
    if buffer == [] then [] else [buffer]
  }

  /** The distinct values of a `u64`. */
  const U64_VALUES: nat := 0x1_0000_0000_0000_0000

  /** The distinct values of a `usize` on the 32-bit ESP32 family. */
  const USIZE_VALUES: nat := 0x1_0000_0000

  /** What `n` increments of a wrapping `usize` that starts at zero leave in it. */
  function Wrapped(n: nat): (g: nat)
    ensures g < USIZE_VALUES
  {
    n % USIZE_VALUES
  }

  function Elements<T>(s: seq<T>): set<T> {
    set x | x in s
  }

  predicate DupFree<T(==)>(s: seq<T>) {
    forall i, j | 0 <= i < j < |s| :: s[i] != s[j]
  }
}
