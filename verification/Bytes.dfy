/** Bytes and strings of bytes. */
module Bytes {
  newtype byte = x: int | 0 <= x < 256

  type bytes = seq<byte>

  datatype Option<+T> = None | Some(value: T)

  function Max(a: nat, b: nat): nat {
    if a < b then b else a
  }

  /** Concatenation of a list of messages, in order. */
  function Joined(ms: seq<bytes>): bytes {
    if ms == [] then [] else ms[0] + Joined(ms[1..])
  }
}
