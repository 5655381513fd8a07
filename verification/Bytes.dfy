/** Bytes, padding and big-endian numbers. */
module Bytes {
  type Byte = b: int | 0 <= b < 256

  type Data = seq<Byte>

  function Zeros(n: nat): (s: Data)
    ensures |s| == n
  {
    seq(n, _ => 0)
  }

  /** A multiple of `k`, one of the alignments in use. */
  predicate Aligned(n: nat, k: nat) { if k == 8 then n % 8 == 0 else if k == 4 then n % 4 == 0 else if k == 2 then n % 2 == 0 else true }

  /** How many bytes bring `n` to a multiple of `k`, as the program computes it. */
  function Pad(n: nat, k: nat): (p: nat)
    ensures Aligned(n + p, k)
  {
    if k == 8 then Pad8(n) else if k == 4 then Pad4(n) else if k == 2 then Pad2(n) else 0
  }

  function Pad2(n: nat): (p: nat)
    ensures p < 2 && (n + p) % 2 == 0
  {
    (2 - n % 2) % 2
  }

  function Pad4(n: nat): (p: nat)
    ensures p < 4 && (n + p) % 4 == 0
  {
    (4 - n % 4) % 4
  }

  function Pad8(n: nat): (p: nat)
    ensures p < 8 && (n + p) % 8 == 0
  {
    (8 - n % 8) % 8
  }

  const LIMIT16: int := 0x1_0000
  const LIMIT32: int := 0x1_0000_0000

  /** `struct.pack("!H", n)` */
  function Pack16(n: nat): (s: Data)
    requires n < LIMIT16
    ensures |s| == 2
  {
    [n / 0x100, n % 0x100]
  }

  /** `struct.pack("!I", n)` */
  function Pack32(n: nat): (s: Data)
    requires n < LIMIT32
    ensures |s| == 4
  {
    [n / 0x100_0000, n / 0x1_0000 % 0x100, n / 0x100 % 0x100, n % 0x100]
  }

  function Unpack16(s: Data): (n: nat)
    requires |s| == 2
    ensures n < LIMIT16
  {
    s[0] as int * 0x100 + s[1] as int
  }

  function Unpack32(s: Data): (n: nat)
    requires |s| == 4
    ensures n < LIMIT32
  {
    s[0] as int * 0x100_0000 + s[1] as int * 0x1_0000 + s[2] as int * 0x100 + s[3] as int
  }

  lemma Unpack16OfPack(n: nat)
    requires n < LIMIT16
    ensures Unpack16(Pack16(n)) == n
  {
  }

  lemma Unpack32OfPack(n: nat)
    requires n < LIMIT32
    ensures Unpack32(Pack32(n)) == n
  {
    assert n / 0x100 / 0x100 == n / 0x1_0000 && n / 0x1_0000 / 0x100 == n / 0x100_0000;
  }
}
