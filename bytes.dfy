/**
 * Bytes on the serial line, the failure-carrying wrappers the model uses for
 * the source's exceptions and absent values, and the XOR fold that both
 * checksum routines of the program compute.
 */
module Bytes {

  /** One octet, `quint8` in the program. */
  type byte = bv8

  datatype Option<+T> = None | Some(value: T)

  datatype Result<+T, +E> = Ok(value: T) | Err(error: E)

  /**
   * XOR of every byte of `s`, folded from the first byte to the last,
   * starting from 0: the value the checksum loops accumulate.
   */
  function XorFold(s: seq<byte>): byte
  {
    if |s| == 0 then 0 else XorFold(s[..|s| - 1]) ^ s[|s| - 1]
  }

  /** One step of the accumulation loops: extending a prefix by one byte. */
  lemma XorFoldPrefixStep(s: seq<byte>, i: nat)
    requires i < |s|
    ensures XorFold(s[..i + 1]) == XorFold(s[..i]) ^ s[i]
  {
    assert s[..i + 1][..i] == s[..i];
  }
}
