/** Types every part of the model shares. */
module Common {
  datatype Option<+T> = None | Some(value: T)

  type byte = b: int | 0 <= b < 256

  type Chunk = seq<byte>

  /** The one-byte connection id that multiplexes a peer link. */
  type ConnId = n: int | 0 <= n < 256
}
