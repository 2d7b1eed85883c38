/**
 * The executor's ABI utilities: the two well-known addresses and the in-place rewrite
 * of `hardhat/console.log` selectors into the selectors the generated call bindings expect.
 */
module ExecutorAbi {
  import opened Primitives

  /** The cheatcode handler address, 0x7109709ECfa91a80626fF3989D68f67F5b1DD12D (HEVM's). */
  const CheatcodeAddress: Address := [
    0x71, 0x09, 0x70, 0x9E, 0xcf, 0xa9, 0x1a, 0x80, 0x62, 0x6f, 0xf3, 0x98, 0x9d, 0x68, 0xf6, 0x7f,
    0x5b, 0x1d, 0xd1, 0x2d]

  /** The Hardhat console address, 0x000000000000000000636F6e736F6c652e6c6f67. */
  const HardhatConsoleAddress: Address := [
    0x00, 0x00, 0x00, 0x00, 0x00, 0x00, 0x00, 0x00, 0x00, 0x63, 0x6f, 0x6e, 0x73, 0x6f, 0x6c, 0x65,
    0x2e, 0x6c, 0x6f, 0x67]

  /** The Hardhat console address is nine zero bytes followed by the ASCII text "console.log". */
  lemma HardhatConsoleAddressSpellsConsoleLog()
    ensures IsAscii("console.log")
    ensures HardhatConsoleAddress == Zeros(9) + AsciiBytes("console.log")
  {
  }

  /** A 4-byte function selector. */
  type Selector = s: seq<Byte> | |s| == 4 witness [0, 0, 0, 0]

  /** The table of `hardhat/console.log` selectors (signatures written with `uint`/`int`)
      to the selectors of the same calls written with `uint256`/`int256`. Its entries are
      not part of this model: every statement below holds for any such table. */
  type PatchTable = map<Selector, Selector>

  /** What the buffer `input` holds after patching: the 4-byte prefix is replaced by its
      table entry when there is one; anything shorter than a selector, or with an unknown
      prefix, stays as it is. */
  function Patched(input: seq<Byte>, table: PatchTable): seq<Byte> {
    if |input| < 4 then input
    else if input[..4] in table then table[input[..4]] + input[4..]
    else input
  }

  /** Rewrites the selector at the start of `input` in place when the table knows it. */
  method PatchHardhatConsoleSelector(input: array<Byte>, table: PatchTable)
    modifies input
    ensures input[..] == Patched(old(input[..]), table)
  {
    if input.Length < 4 {
      return;
    }
    var selector := input[..4];
    if selector in table {
      var abigen := table[selector];
      for i := 0 to 4
        invariant input[..i] == abigen[..i]
        invariant input[i..] == old(input[i..])
      {
        input[i] := abigen[i];
      }
    }
  }

  /** Patching never changes the length of the buffer. */
  lemma PatchPreservesLength(input: seq<Byte>, table: PatchTable)
    ensures |Patched(input, table)| == |input|
  {
  }

  /** A buffer shorter than a selector is returned unchanged. */
  lemma PatchIgnoresShortInput(input: seq<Byte>, table: PatchTable)
    requires |input| < 4
    ensures Patched(input, table) == input
  {
  }

  /** The bytes after the selector are never touched. */
  lemma PatchKeepsArguments(input: seq<Byte>, table: PatchTable)
    requires |input| >= 4
    ensures Patched(input, table)[4..] == input[4..]
  {
  }

  /** A known selector is replaced by its table entry. */
  lemma PatchReplacesKnownSelector(input: seq<Byte>, table: PatchTable)
    requires |input| >= 4 && input[..4] in table
    ensures Patched(input, table)[..4] == table[input[..4]]
  {
  }

  /** A buffer whose prefix is not a key of the table is left entirely unchanged. */
  lemma PatchKeepsUnknownSelector(input: seq<Byte>, table: PatchTable)
    requires |input| >= 4 && input[..4] !in table
    ensures Patched(input, table) == input
  {
  }

  /** Patching the bare 4-byte key of any table entry yields exactly the entry's value. */
  lemma PatchMapsEveryEntry(table: PatchTable)
    ensures forall hh :: hh in table ==> Patched(hh, table) == table[hh]
  {
    forall hh | hh in table
      ensures Patched(hh, table) == table[hh]
    {
      assert hh[..4] == hh;
      assert hh[4..] == [];
    }
  }
}
