/** Byte strings, and the flat-file meaning of a positional write and of a truncation. */
module FlatFile {
  type Byte = bv8
  type Bytes = seq<Byte>

  function Max(a: int, b: int): int { if a < b then b else a }

  function Min(a: int, b: int): int { if a < b then a else b }

  /** The integer value of `math.Ceil(a / b)`. */
  function CeilDiv(a: nat, b: nat): nat
    requires b > 0
  {
    (a + b - 1) / b
  }

  function Zeros(n: nat): Bytes { seq(n, _ => 0) }

  /** `make([]byte, n)` followed by `copy(buffer, s)`: s cut or zero-filled to n bytes. */
  function Resized(s: Bytes, n: nat): Bytes
  {
    if n <= |s| then s[..n] else s + Zeros(n - |s|)
  }

  /** `copy(buffer[at:], s)` for an s that fits. */
  function Overlay(buffer: Bytes, at: nat, s: Bytes): Bytes
    requires at + |s| <= |buffer|
  {
    buffer[..at] + s + buffer[at + |s|..]
  }

  /** pwrite() of the System Interfaces volume of POSIX.1-2017: a write past the end leaves a
      gap of zero bytes, and writing no bytes has no effect. */
  function PWrite(was: Bytes, offset: nat, data: Bytes): Bytes
  {
    if data == [] then was
    else Overlay(Resized(was, Max(|was|, offset + |data|)), offset, data)
  }

  /** ftruncate() of the same volume. */
  function FTruncate(was: Bytes, size: nat): Bytes { Resized(was, size) }
}
