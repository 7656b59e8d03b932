/** Byte buffers filled in place. */
module Buffers {
  import opened Prelude

  /** Copy `src` into `buffer` from offset `at`. */
  method CopyInto(buffer: array<byte>, at: nat, src: Bytes)
    requires at + |src| <= buffer.Length
    modifies buffer
    ensures buffer[..] == old(buffer[..at]) + src + old(buffer[at + |src|..])
  {
    for i := 0 to |src|
      invariant buffer[..] == old(buffer[..at]) + src[..i] + old(buffer[at + i..])
    {
      buffer[at + i] := src[i];
    }
  }
}
