/** Machine words as the ciphers use them: bytes, big-endian loads and stores, rotations.
    A 32-bit word is boxed in a datatype, so proofs about data flow compare whole words
    and only the lemmas about single operations look at bits. */
module Words {

  type byte = bv8

  datatype Word = Word(w: bv32)

  /** The error codes the setup routines return. */
  datatype Status = Ok | InvalidRounds | InvalidKeysize

  // ---- operations; addition and subtraction wrap around as unsigned C arithmetic does ----

  function Add(a: Word, b: Word): Word { Word(a.w + b.w) }

  function Sub(a: Word, b: Word): Word { Word(a.w - b.w) }

  function Xor(a: Word, b: Word): Word { Word(a.w ^ b.w) }

  function Or(a: Word, b: Word): Word { Word(a.w | b.w) }

  function And(a: Word, b: Word): Word { Word(a.w & b.w) }

  function Rol(a: Word, n: bv6): Word
    requires n <= 32
  {
    Word((a.w << n) | (a.w >> (32 - n)))
  }

  lemma XorTwice(a: Word, b: Word)
    ensures Xor(Xor(a, b), b) == a
  {
  }

  /** What was added. */
  lemma XorDifference(a: Word, b: Word)
    ensures Xor(a, Xor(a, b)) == b
  {
  }

  lemma XorAssociative(a: Word, b: Word, c: Word)
    ensures Xor(Xor(a, b), c) == Xor(a, Xor(b, c))
  {
  }

  lemma XorCommutes(a: Word, b: Word)
    ensures Xor(a, b) == Xor(b, a)
  {
  }

  lemma XorShuffle(a: Word, b: Word, c: Word, d: Word)
    ensures Xor(Xor(a, b), Xor(c, d)) == Xor(Xor(a, c), Xor(b, d))
  {
    hide Xor;
    XorAssociative(a, b, Xor(c, d));
    XorAssociative(b, c, d);
    XorCommutes(b, c);
    XorAssociative(c, b, d);
    XorAssociative(a, c, Xor(b, d));
  }

  // ---- LOAD32H and STORE32H ----

  /** The byte of `x` that starts `shift` bits above its low end. */
  function ByteAt(x: Word, shift: bv6): byte
    requires shift <= 24
  {
    ((x.w >> shift) & 0xff) as byte
  }

  function Pack32(b0: byte, b1: byte, b2: byte, b3: byte): Word {
    Word(((b0 as bv32) << 24) | ((b1 as bv32) << 16) | ((b2 as bv32) << 8) | (b3 as bv32))
  }

  /** Four bytes, most significant first. */
  function Load32(s: seq<byte>): Word
    requires |s| == 4
  {
    Pack32(s[0], s[1], s[2], s[3])
  }

  function Store32(x: Word): (s: seq<byte>)
    ensures |s| == 4
  {
    [ByteAt(x, 24), ByteAt(x, 16), ByteAt(x, 8), ByteAt(x, 0)]
  }

  lemma LoadStore32(x: Word)
    ensures Load32(Store32(x)) == x
  {
  }

  lemma PackBytes(b0: byte, b1: byte, b2: byte, b3: byte)
    ensures ByteAt(Pack32(b0, b1, b2, b3), 24) == b0
    ensures ByteAt(Pack32(b0, b1, b2, b3), 16) == b1
    ensures ByteAt(Pack32(b0, b1, b2, b3), 8) == b2
    ensures ByteAt(Pack32(b0, b1, b2, b3), 0) == b3
  {
  }

  lemma StoreLoad32(s: seq<byte>)
    requires |s| == 4
    ensures Store32(Load32(s)) == s
  {
    PackBytes(s[0], s[1], s[2], s[3]);
  }

  method LoadWord(a: array<byte>, at: nat) returns (x: Word)
    requires at + 4 <= a.Length
    ensures x == Load32(a[at..at + 4])
  {
    x := Pack32(a[at], a[at + 1], a[at + 2], a[at + 3]);
  }

  method StoreWord(a: array<byte>, at: nat, x: Word)
    requires at + 4 <= a.Length
    modifies a
    ensures a[..at] == old(a[..at]) && a[at..at + 4] == Store32(x) && a[at + 4..] == old(a[at + 4..])
  {
    a[at] := ByteAt(x, 24);
    a[at + 1] := ByteAt(x, 16);
    a[at + 2] := ByteAt(x, 8);
    a[at + 3] := ByteAt(x, 0);
  }

  method StoreFour(dst: array<byte>, a: Word, b: Word, c: Word, d: Word)
    requires dst.Length >= 16
    modifies dst
    ensures dst[..16] == Store32(a) + Store32(b) + Store32(c) + Store32(d) && dst[16..] == old(dst[16..])
  {
    hide Store32;
    ghost var d0 := dst[..];
    StoreWord(dst, 0, a);
    assert dst[16..] == dst[4..][12..] == d0[16..];
    StoreWord(dst, 4, b);
    assert dst[16..] == dst[8..][8..] == d0[16..];
    assert dst[..8] == dst[..4] + dst[4..8];
    StoreWord(dst, 8, c);
    assert dst[16..] == dst[12..][4..] == d0[16..];
    assert dst[..12] == dst[..8] + dst[8..12];
    StoreWord(dst, 12, d);
    assert dst[..16] == dst[..12] + dst[12..16];
  }

  // ---- 64-bit blocks ----

  /** A 64-bit block as two words, most significant first. */
  datatype Block = Block(l: Word, r: Word)

  function LoadBlock(s: seq<byte>): Block
    requires |s| == 8
  {
    Block(Load32(s[..4]), Load32(s[4..]))
  }

  function StoreBlock(b: Block): (s: seq<byte>)
    ensures |s| == 8
  {
    Store32(b.l) + Store32(b.r)
  }

  lemma LoadStoreBlock(b: Block)
    ensures LoadBlock(StoreBlock(b)) == b
  {
    hide Load32, Store32;
    var s := StoreBlock(b);
    assert s[..4] == Store32(b.l) && s[4..] == Store32(b.r);
    LoadStore32(b.l);
    LoadStore32(b.r);
  }

  lemma StoreLoadBlock(s: seq<byte>)
    requires |s| == 8
    ensures StoreBlock(LoadBlock(s)) == s
  {
    hide Load32, Store32;
    StoreLoad32(s[..4]);
    StoreLoad32(s[4..]);
    assert s == s[..4] + s[4..];
  }

  /** Reads a block from the front of a buffer. */
  method ReadBlock(a: array<byte>) returns (b: Block)
    requires a.Length >= 8
    ensures b == LoadBlock(a[..8])
  {
    hide Load32;
    var l := LoadWord(a, 0);
    var r := LoadWord(a, 4);
    b := Block(l, r);
    assert a[..8][..4] == a[0..4] && a[..8][4..] == a[4..8];
  }

  /** Writes a block to the front of a buffer and nothing behind it. */
  method WriteBlock(a: array<byte>, b: Block)
    requires a.Length >= 8
    modifies a
    ensures a[..8] == StoreBlock(b)
    ensures a[8..] == old(a[8..])
  {
    hide Store32;
    StoreWord(a, 0, b.l);
    StoreWord(a, 4, b.r);
    assert a[..8] == a[..4] + a[4..8];
    assert a[8..] == old(a[4..])[4..];
  }
}
