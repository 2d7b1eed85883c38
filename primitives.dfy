/** Fixed-width machine values of the EVM: bytes, addresses, 64- and 256-bit words. */
module Primitives {

  type Byte = bv8

  /** A 20-byte account address. */
  type Address = a: seq<Byte> | |a| == 20 witness seq(20, _ => 0 as bv8)

  /** A 32-byte hash (`B256`). */
  type Hash = h: seq<Byte> | |h| == 32 witness seq(32, _ => 0 as bv8)

  const MaxU64: nat := 0xFFFF_FFFF_FFFF_FFFF
  const MaxU256: nat := 0xFFFF_FFFF_FFFF_FFFF_FFFF_FFFF_FFFF_FFFF_FFFF_FFFF_FFFF_FFFF_FFFF_FFFF_FFFF_FFFF

  type U64 = n: nat | n <= MaxU64
  type U256 = n: nat | n <= MaxU256

  /** `n` zero bytes. */
  function Zeros(n: nat): (z: seq<Byte>)
    ensures |z| == n && forall i :: 0 <= i < n ==> z[i] == 0
  {
    seq(n, _ => 0 as bv8)
  }

  predicate IsAscii(s: string) {
    forall i :: 0 <= i < |s| ==> s[i] as int < 128
  }

  /** The ASCII encoding of `s`, one byte per character. */
  function AsciiBytes(s: string): (b: seq<Byte>)
    requires IsAscii(s)
    ensures |b| == |s| && forall i :: 0 <= i < |s| ==> b[i] as int == s[i] as int
  {
    seq(|s|, i requires 0 <= i < |s| => s[i] as int as bv8)
  }
}
