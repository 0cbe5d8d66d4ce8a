/** 64-bit words stored in bytes, lowest byte first. */
module Bytes {
  newtype byte = x: int | 0 <= x < 256

  const TWO64: nat := 0x1_0000_0000_0000_0000

  /** The word at off. */
  function Word(m: seq<byte>, off: nat): nat
    requires off + 8 <= |m|
  {
    m[off] as nat + 0x100 * m[off + 1] as nat + 0x1_0000 * m[off + 2] as nat + 0x100_0000 * m[off + 3] as nat
    + 0x1_0000_0000 * m[off + 4] as nat + 0x100_0000_0000 * m[off + 5] as nat
    + 0x1_0000_0000_0000 * m[off + 6] as nat + 0x100_0000_0000_0000 * m[off + 7] as nat
  }

  /** m and m' differ at most in the word at off. */
  ghost predicate SameBut(m: seq<byte>, m': seq<byte>, off: nat) {
    |m'| == |m| && forall x :: 0 <= x < |m| && !(off <= x < off + 8) ==> m'[x] == m[x]
  }

  lemma SameWord(m: seq<byte>, m': seq<byte>, off: nat, o: nat)
    requires SameBut(m, m', off) && o + 8 <= |m| && (o + 8 <= off || off + 8 <= o)
    ensures Word(m', o) == Word(m, o)
  {
  }

  /** The lowest byte of w. */
  function Low(w: nat): byte { (w % 256) as byte }

  method Load(mem: array<byte>, off: nat) returns (w: nat)
    requires off + 8 <= mem.Length
    ensures w == Word(mem[..], off) && w < TWO64
  {
    w := mem[off] as nat + 0x100 * mem[off + 1] as nat
         + 0x1_0000 * mem[off + 2] as nat + 0x100_0000 * mem[off + 3] as nat
         + 0x1_0000_0000 * mem[off + 4] as nat + 0x100_0000_0000 * mem[off + 5] as nat
         + 0x1_0000_0000_0000 * mem[off + 6] as nat + 0x100_0000_0000_0000 * mem[off + 7] as nat;
  }

  method Store(mem: array<byte>, off: nat, w: nat)
    requires off + 8 <= mem.Length && w < TWO64
    modifies mem
    ensures Word(mem[..], off) == w && SameBut(old(mem[..]), mem[..], off)
  {
    var w1 := w / 256;
    var w2 := w1 / 256;
    var w3 := w2 / 256;
    var w4 := w3 / 256;
    var w5 := w4 / 256;
    var w6 := w5 / 256;
    var w7 := w6 / 256;
    mem[off], mem[off + 1], mem[off + 2], mem[off + 3] := Low(w), Low(w1), Low(w2), Low(w3);
    mem[off + 4], mem[off + 5], mem[off + 6], mem[off + 7] := Low(w4), Low(w5), Low(w6), Low(w7);
  }

  /** Only bytes from lo up to hi differ. */
  ghost predicate ChangedOnly(m: seq<byte>, m': seq<byte>, lo: nat, hi: nat) {
    |m'| == |m| && forall x :: 0 <= x < |m| && !(lo <= x < hi) ==> m'[x] == m[x]
  }

  /** n bytes at to in m' are those at from in m. */
  ghost predicate Copied(m: seq<byte>, from: nat, m': seq<byte>, to: nat, n: nat) {
    from + n <= |m| && to + n <= |m'| && m'[to..to + n] == m[from..from + n]
  }

  /** memcpy between two stretches that do not overlap. */
  method Copy(mem: array<byte>, dst: nat, src: nat, n: nat)
    requires src + n <= mem.Length && dst + n <= mem.Length && (src + n <= dst || dst + n <= src)
    modifies mem
    ensures Copied(old(mem[..]), src, mem[..], dst, n) && ChangedOnly(old(mem[..]), mem[..], dst, dst + n)
  {
    var i := 0;
    while i < n
      invariant i <= n
      invariant mem[dst..dst + i] == old(mem[src..src + i])
      invariant forall x :: 0 <= x < mem.Length && !(dst <= x < dst + i) ==> mem[x] == old(mem[x])
    {
      mem[dst + i] := mem[src + i];
      i := i + 1;
    }
    assert mem[..][dst..dst + n] == mem[dst..dst + n] && old(mem[..])[src..src + n] == old(mem[src..src + n]);
  }
}
