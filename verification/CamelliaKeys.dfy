/** Camellia's key schedule (camellia.c): the byte-wise 128-bit rotation and the subkeys of section 2.2 of RFC 3713. */
module CamelliaKeys {
  import opened Words
  import opened Camellia

  // ---- rotation of a 128-bit number held in 16 big-endian bytes ----

  /** Bit k of a byte, counted from the high end. */
  predicate BitOf(x: byte, k: int)
    requires 0 <= k < 8
  {
    if k == 0 then x & 0x80 != 0 else if k == 1 then x & 0x40 != 0
    else if k == 2 then x & 0x20 != 0 else if k == 3 then x & 0x10 != 0
    else if k == 4 then x & 0x08 != 0 else if k == 5 then x & 0x04 != 0
    else if k == 6 then x & 0x02 != 0 else x & 0x01 != 0
  }

  /** Bit i of the number, counted from the high end. */
  predicate Bit(s: seq<byte>, i: int)
    requires |s| == 16 && 0 <= i < 128
  {
    BitOf(s[i / 8], i % 8)
  }

  function FromBits(b0: bool, b1: bool, b2: bool, b3: bool, b4: bool, b5: bool, b6: bool, b7: bool): byte {
    (if b0 then 0x80 else 0) | (if b1 then 0x40 else 0) | (if b2 then 0x20 else 0) | (if b3 then 0x10 else 0)
    | (if b4 then 0x08 else 0) | (if b5 then 0x04 else 0) | (if b6 then 0x02 else 0) | (if b7 then 0x01 else 0)
  }

  /** Rotation left by n: bit i of the result is bit i + n of s, cyclically. */
  function RotatedByte(s: seq<byte>, n: nat, x: int): byte
    requires |s| == 16 && 0 <= x < 16
  {
    var i := 8 * x + n;
    FromBits(Bit(s, i % 128), Bit(s, (i + 1) % 128), Bit(s, (i + 2) % 128), Bit(s, (i + 3) % 128),
             Bit(s, (i + 4) % 128), Bit(s, (i + 5) % 128), Bit(s, (i + 6) % 128), Bit(s, (i + 7) % 128))
  }

  function Rotate(s: seq<byte>, n: nat): (r: seq<byte>)
    requires |s| == 16
    ensures |r| == 16
  {
    seq(16, x requires 0 <= x < 16 => RotatedByte(s, n, x))
  }

  lemma BitsOfFromBits(b0: bool, b1: bool, b2: bool, b3: bool, b4: bool, b5: bool, b6: bool, b7: bool)
    ensures
      var x := FromBits(b0, b1, b2, b3, b4, b5, b6, b7);
      && BitOf(x, 0) == b0 && BitOf(x, 1) == b1 && BitOf(x, 2) == b2 && BitOf(x, 3) == b3
      && BitOf(x, 4) == b4 && BitOf(x, 5) == b5 && BitOf(x, 6) == b6 && BitOf(x, 7) == b7
  {
  }

  /** Bit k of byte x of the rotated number. */
  lemma RotatedByteBits(s: seq<byte>, n: nat, x: int, k: int)
    requires |s| == 16 && 0 <= x < 16 && 0 <= k < 8
    ensures BitOf(RotatedByte(s, n, x), k) == Bit(s, (8 * x + n + k) % 128)
  {
    hide BitOf, FromBits, Bit;
    var j := 8 * x + n;
    BitsOfFromBits(Bit(s, j % 128), Bit(s, (j + 1) % 128), Bit(s, (j + 2) % 128), Bit(s, (j + 3) % 128),
                   Bit(s, (j + 4) % 128), Bit(s, (j + 5) % 128), Bit(s, (j + 6) % 128), Bit(s, (j + 7) % 128));
  }

  /** What makes Rotate a rotation. */
  lemma RotateBits(s: seq<byte>, n: nat, i: int)
    requires |s| == 16 && 0 <= i < 128
    ensures Bit(Rotate(s, n), i) == Bit(s, (i + n) % 128)
  {
    hide BitOf, RotatedByte;
    var x, k := i / 8, i % 8;
    RotatedByteBits(s, n, x, k);
    assert 8 * x + n + k == i + n;
  }

  /** The expression of rot_128: the low part of one byte over the high part of the next. */
  function Straddle(hi: byte, lo: byte, b: bv4): byte
    requires b < 8
  {
    (hi << b) | (lo >> (8 - b))
  }

  /** Bit c of two adjacent bytes. */
  predicate PairBit(hi: byte, lo: byte, c: nat)
    requires c < 16
  {
    if c < 8 then BitOf(hi, c) else BitOf(lo, c - 8)
  }

  function Window(hi: byte, lo: byte, b: nat): byte
    requires b < 8
  {
    FromBits(PairBit(hi, lo, b), PairBit(hi, lo, b + 1), PairBit(hi, lo, b + 2), PairBit(hi, lo, b + 3),
             PairBit(hi, lo, b + 4), PairBit(hi, lo, b + 5), PairBit(hi, lo, b + 6), PairBit(hi, lo, b + 7))
  }

  /** The shift count as the code's machine word. */
  function Count(b: nat): (r: bv4)
    requires b < 8
    ensures r < 8
  {
    if b == 0 then 0 else if b == 1 then 1 else if b == 2 then 2 else if b == 3 then 3
    else if b == 4 then 4 else if b == 5 then 5 else if b == 6 then 6 else 7
  }

  lemma StraddleBits(hi: byte, lo: byte, b: bv4)
    requires b < 8
    ensures
      var t := Straddle(hi, lo, b);
      && (b == 0 ==> t == FromBits(BitOf(hi, 0), BitOf(hi, 1), BitOf(hi, 2), BitOf(hi, 3),
                               BitOf(hi, 4), BitOf(hi, 5), BitOf(hi, 6), BitOf(hi, 7)))
      && (b == 1 ==> t == FromBits(BitOf(hi, 1), BitOf(hi, 2), BitOf(hi, 3), BitOf(hi, 4),
                               BitOf(hi, 5), BitOf(hi, 6), BitOf(hi, 7), BitOf(lo, 0)))
      && (b == 2 ==> t == FromBits(BitOf(hi, 2), BitOf(hi, 3), BitOf(hi, 4), BitOf(hi, 5),
                               BitOf(hi, 6), BitOf(hi, 7), BitOf(lo, 0), BitOf(lo, 1)))
      && (b == 3 ==> t == FromBits(BitOf(hi, 3), BitOf(hi, 4), BitOf(hi, 5), BitOf(hi, 6),
                               BitOf(hi, 7), BitOf(lo, 0), BitOf(lo, 1), BitOf(lo, 2)))
      && (b == 4 ==> t == FromBits(BitOf(hi, 4), BitOf(hi, 5), BitOf(hi, 6), BitOf(hi, 7),
                               BitOf(lo, 0), BitOf(lo, 1), BitOf(lo, 2), BitOf(lo, 3)))
      && (b == 5 ==> t == FromBits(BitOf(hi, 5), BitOf(hi, 6), BitOf(hi, 7), BitOf(lo, 0),
                               BitOf(lo, 1), BitOf(lo, 2), BitOf(lo, 3), BitOf(lo, 4)))
      && (b == 6 ==> t == FromBits(BitOf(hi, 6), BitOf(hi, 7), BitOf(lo, 0), BitOf(lo, 1),
                               BitOf(lo, 2), BitOf(lo, 3), BitOf(lo, 4), BitOf(lo, 5)))
      && (b == 7 ==> t == FromBits(BitOf(hi, 7), BitOf(lo, 0), BitOf(lo, 1), BitOf(lo, 2),
                               BitOf(lo, 3), BitOf(lo, 4), BitOf(lo, 5), BitOf(lo, 6)))
  {
  }

  lemma StraddleIsWindow(hi: byte, lo: byte, b: nat)
    requires b < 8
    ensures Straddle(hi, lo, Count(b)) == Window(hi, lo, b)
  {
    hide BitOf, FromBits, Straddle;
    StraddleBits(hi, lo, Count(b));
  }

  /** Bit c, counted across bytes x+w and x+w+1 of the cyclic byte string. */
  lemma BitIndex(s: seq<byte>, x: nat, w: nat, c: nat)
    requires |s| == 16 && x < 16 && w < 16 && c < 16
    ensures Bit(s, (8 * x + (8 * w + c)) % 128) == PairBit(s[(x + w) % 16], s[(x + w + 1) % 16], c)
  {
    hide BitOf;
    if c < 8 {
      IndexParts(x + w, c);
    } else {
      IndexParts(x + w + 1, c - 8);
    }
  }

  lemma IndexParts(y: nat, c: nat)
    requires y < 32 && c < 8
    ensures (8 * y + c) % 128 == 8 * (y % 16) + c
    ensures (8 * (y % 16) + c) / 8 == y % 16 && (8 * (y % 16) + c) % 8 == c
  {
  }

  /** For every rotation count the byte expression of rot_128 is the byte of the rotated number. */
  lemma StraddleRotates(s: seq<byte>, w: nat, b: nat, x: nat)
    requires |s| == 16 && x < 16 && w < 16 && b < 8
    ensures Straddle(s[(x + w) % 16], s[(x + w + 1) % 16], Count(b)) == RotatedByte(s, 8 * w + b, x)
  {
    hide BitOf, FromBits, Bit, PairBit, Straddle, Count;
    StraddleIsWindow(s[(x + w) % 16], s[(x + w + 1) % 16], b);
    BitIndex(s, x, w, b);
    BitIndex(s, x, w, b + 1);
    BitIndex(s, x, w, b + 2);
    BitIndex(s, x, w, b + 3);
    BitIndex(s, x, w, b + 4);
    BitIndex(s, x, w, b + 5);
    BitIndex(s, x, w, b + 6);
    BitIndex(s, x, w, b + 7);
  }

  /** rot_128 into the scratch buffer at offset `at`; `count` is an unsigned int below 128. */
  method Rot128(input: array<byte>, count: nat, out: array<byte>, at: nat)
    requires input.Length == 16 && count < 128 && at + 16 <= out.Length && input != out
    modifies out
    ensures out[at..at + 16] == Rotate(input[..], count)
    ensures out[..at] == old(out[..at]) && out[at + 16..] == old(out[at + 16..])
  {
    hide RotatedByte, Straddle, Count;
    ghost var s := input[..];
    var w, b := count / 8, count % 8;
    for x := 0 to 16
      invariant forall m | 0 <= m < x :: out[at + m] == Rotate(s, count)[m]
      invariant out[..at] == old(out[..at]) && out[at + 16..] == old(out[at + 16..])
    {
      StraddleRotates(s, w, b, x);
      out[at + x] := Straddle(input[(x + w) % 16], input[(x + w + 1) % 16], Count(b));
    }
    assert out[at..at + 16] == Rotate(s, count);
  }

  // ---- 64- and 128-bit loads and stores ----

  function Load64(s: seq<byte>): Word64
    requires |s| == 8
  {
    Word64(Load32(s[..4]), Load32(s[4..]))
  }

  function Store64(x: Word64): (s: seq<byte>)
    ensures |s| == 8
  {
    Store32(x.hi) + Store32(x.lo)
  }

  function LoadPair(s: seq<byte>): Pair
    requires |s| == 16
  {
    Pair(Load64(s[..8]), Load64(s[8..]))
  }

  function StorePair(p: Pair): (s: seq<byte>)
    ensures |s| == 16
  {
    Store64(p.l) + Store64(p.r)
  }

  lemma LoadStore64(x: Word64)
    ensures Load64(Store64(x)) == x
  {
    hide Load32, Store32;
    var s := Store64(x);
    assert s[..4] == Store32(x.hi) && s[4..] == Store32(x.lo);
    LoadStore32(x.hi);
    LoadStore32(x.lo);
  }

  lemma StoreLoad64(s: seq<byte>)
    requires |s| == 8
    ensures Store64(Load64(s)) == s
  {
    hide Load32, Store32;
    StoreLoad32(s[..4]);
    StoreLoad32(s[4..]);
    assert s == s[..4] + s[4..];
  }

  lemma LoadStorePair(p: Pair)
    ensures LoadPair(StorePair(p)) == p
  {
    hide Load64, Store64;
    var s := StorePair(p);
    assert s[..8] == Store64(p.l) && s[8..] == Store64(p.r);
    LoadStore64(p.l);
    LoadStore64(p.r);
  }

  lemma StoreLoadPair(s: seq<byte>)
    requires |s| == 16
    ensures StorePair(LoadPair(s)) == s
  {
    hide Load64, Store64;
    StoreLoad64(s[..8]);
    StoreLoad64(s[8..]);
    assert s == s[..8] + s[8..];
  }

  method LoadWord64(a: array<byte>, at: nat) returns (x: Word64)
    requires at + 8 <= a.Length
    ensures x == Load64(a[at..at + 8])
  {
    hide Load32;
    var hi := LoadWord(a, at);
    var lo := LoadWord(a, at + 4);
    x := Word64(hi, lo);
    assert a[at..at + 8][..4] == a[at..at + 4] && a[at..at + 8][4..] == a[at + 4..at + 4 + 4];
  }

  method StoreWord64(a: array<byte>, at: nat, x: Word64)
    requires at + 8 <= a.Length
    modifies a
    ensures a[..at] == old(a[..at]) && a[at..at + 8] == Store64(x) && a[at + 8..] == old(a[at + 8..])
  {
    hide Store32;
    StoreWord(a, at, x.hi);
    ghost var m := a[..];
    StoreWord(a, at + 4, x.lo);
    ghost var n := a[..];
    assert n[..at] == n[..at + 4][..at] == m[..at];
    assert n[at..at + 8] == n[..at + 4][at..] + n[at + 4..at + 8];
    assert m[at + 4..][4..] == m[at + 8..];
  }

  // ---- the key material of section 2.2 ----

  const SIGMA: seq<Word64> := [
    Word64(Word(0xA09E667F), Word(0x3BCC908B)), Word64(Word(0xB67AE858), Word(0x4CAA73B2)),
    Word64(Word(0xC6EF372F), Word(0xE94F82BE)), Word64(Word(0x54FF53A5), Word(0xF1D36F1C)),
    Word64(Word(0x10E527FA), Word(0xDE682D1D)), Word64(Word(0xB05688C2), Word(0xB3E6C1FD))
  ]

  /** Two rounds keyed by the constants i and i+1. */
  function MixTwo(p: Pair, i: nat): Pair
    requires i < 5
  {
    Feistel(Feistel(p, SIGMA[i], 0), SIGMA[i + 1], 1)
  }

  function XorPair(p: Pair, q: Pair): Pair {
    Whiten(p, q.l, q.r)
  }

  function DeriveKA(kL: Pair, kR: Pair): Pair {
    MixTwo(XorPair(MixTwo(XorPair(kL, kR), 0), kL), 2)
  }

  function DeriveKB(kA: Pair, kR: Pair): Pair {
    MixTwo(XorPair(kA, kR), 4)
  }

  /** KL: the first 16 key bytes. */
  function KL(key: seq<byte>): (s: seq<byte>)
    requires |key| == 16 || |key| == 24 || |key| == 32
    ensures |s| == 16
  {
    key[..16]
  }

  function Flip(x: byte): byte { x ^ 0xff }

  function Complement(s: seq<byte>): (r: seq<byte>)
    ensures |r| == |s|
  {
    seq(|s|, i requires 0 <= i < |s| => Flip(s[i]))
  }

  /** KR: zero, the third key quarter and its complement, or the second half. */
  function KR(key: seq<byte>): (s: seq<byte>)
    requires |key| == 16 || |key| == 24 || |key| == 32
    ensures |s| == 16
  {
    if |key| == 16 then seq(16, i => 0)
    else if |key| == 24 then key[16..] + Complement(key[16..])
    else key[16..]
  }

  function KA(key: seq<byte>): (s: seq<byte>)
    requires |key| == 16 || |key| == 24 || |key| == 32
    ensures |s| == 16
  {
    StorePair(DeriveKA(LoadPair(KL(key)), LoadPair(KR(key))))
  }

  function KB(key: seq<byte>): (s: seq<byte>)
    requires |key| == 16 || |key| == 24 || |key| == 32
    ensures |s| == 16
  {
    StorePair(DeriveKB(LoadPair(KA(key)), LoadPair(KR(key))))
  }

  /** The high and the low half of a rotated 128-bit key variable. */
  function Hi(s: seq<byte>, n: nat): Word64
    requires |s| == 16
  {
    LoadPair(Rotate(s, n)).l
  }

  function Lo(s: seq<byte>, n: nat): Word64
    requires |s| == 16
  {
    LoadPair(Rotate(s, n)).r
  }

  /** The subkey tables of section 2.2, for 128-bit keys. */
  function Kw128(kL: seq<byte>, kA: seq<byte>): (r: seq<Word64>)
    requires |kL| == 16 && |kA| == 16
    ensures |r| == 4
  {
    [Hi(kL, 0), Lo(kL, 0), Hi(kA, 111), Lo(kA, 111)]
  }

  function K128(kL: seq<byte>, kA: seq<byte>): (r: seq<Word64>)
    requires |kL| == 16 && |kA| == 16
    ensures |r| == 18
  {
    [Hi(kA, 0), Lo(kA, 0), Hi(kL, 15), Lo(kL, 15), Hi(kA, 15), Lo(kA, 15),
     Hi(kL, 45), Lo(kL, 45), Hi(kA, 45), Lo(kL, 60), Hi(kA, 60), Lo(kA, 60),
     Hi(kL, 94), Lo(kL, 94), Hi(kA, 94), Lo(kA, 94), Hi(kL, 111), Lo(kL, 111)]
  }

  function Kl128(kL: seq<byte>, kA: seq<byte>): (r: seq<Word64>)
    requires |kL| == 16 && |kA| == 16
    ensures |r| == 4
  {
    [Hi(kA, 30), Lo(kA, 30), Hi(kL, 77), Lo(kL, 77)]
  }

  /** ... and for 192- and 256-bit keys. */
  function Kw256(kL: seq<byte>, kB: seq<byte>): (r: seq<Word64>)
    requires |kL| == 16 && |kB| == 16
    ensures |r| == 4
  {
    [Hi(kL, 0), Lo(kL, 0), Hi(kB, 111), Lo(kB, 111)]
  }

  function K256(kL: seq<byte>, kR: seq<byte>, kA: seq<byte>, kB: seq<byte>): (r: seq<Word64>)
    requires |kL| == 16 && |kR| == 16 && |kA| == 16 && |kB| == 16
    ensures |r| == 24
  {
    [Hi(kB, 0), Lo(kB, 0), Hi(kR, 15), Lo(kR, 15), Hi(kA, 15), Lo(kA, 15),
     Hi(kB, 30), Lo(kB, 30), Hi(kL, 45), Lo(kL, 45), Hi(kA, 45), Lo(kA, 45),
     Hi(kR, 60), Lo(kR, 60), Hi(kB, 60), Lo(kB, 60), Hi(kL, 77), Lo(kL, 77),
     Hi(kR, 94), Lo(kR, 94), Hi(kA, 94), Lo(kA, 94), Hi(kL, 111), Lo(kL, 111)]
  }

  function Kl256(kL: seq<byte>, kR: seq<byte>, kA: seq<byte>): (r: seq<Word64>)
    requires |kL| == 16 && |kR| == 16 && |kA| == 16
    ensures |r| == 6
  {
    [Hi(kR, 30), Lo(kR, 30), Hi(kL, 60), Lo(kL, 60), Hi(kA, 77), Lo(kA, 77)]
  }

  // ---- what the subkeys are, seen from outside ----

  lemma SameBits(x: byte, y: byte)
    requires forall k | 0 <= k < 8 :: BitOf(x, k) == BitOf(y, k)
    ensures x == y
  {
    assert BitOf(x, 0) == BitOf(y, 0) && BitOf(x, 1) == BitOf(y, 1) && BitOf(x, 2) == BitOf(y, 2) && BitOf(x, 3) == BitOf(y, 3);
    assert BitOf(x, 4) == BitOf(y, 4) && BitOf(x, 5) == BitOf(y, 5) && BitOf(x, 6) == BitOf(y, 6) && BitOf(x, 7) == BitOf(y, 7);
  }

  /** Rotating the rest of the way gives the number back. */
  lemma RotateBack(s: seq<byte>, n: nat)
    requires |s| == 16 && n <= 128
    ensures Rotate(Rotate(s, n), 128 - n) == s
  {
    hide BitOf, Rotate;
    var r := Rotate(Rotate(s, n), 128 - n);
    forall x | 0 <= x < 16
      ensures r[x] == s[x]
    {
      forall k | 0 <= k < 8
        ensures BitOf(r[x], k) == BitOf(s[x], k)
      {
        var i := 8 * x + k;
        RotateBits(Rotate(s, n), 128 - n, i);
        RotateBits(s, n, (i + (128 - n)) % 128);
        AroundOnce(i, n);
        assert i / 8 == x && i % 8 == k;
      }
      SameBits(r[x], s[x]);
    }
  }

  lemma AroundOnce(i: nat, n: nat)
    requires i < 128 && n <= 128
    ensures ((i + (128 - n)) % 128 + n) % 128 == i
  {
  }

  /** Two halves side by side, turned back by n. */
  function Unrotated(hi: Word64, lo: Word64, n: nat): (s: seq<byte>)
    requires n <= 128
  {
    Rotate(StorePair(Pair(hi, lo)), 128 - n)
  }

  lemma HalvesUnrotate(s: seq<byte>, n: nat)
    requires |s| == 16 && n <= 128
    ensures Unrotated(Hi(s, n), Lo(s, n), n) == s
  {
    hide Rotate, LoadPair, StorePair;
    StoreLoadPair(Rotate(s, n));
    RotateBack(s, n);
  }

  lemma UnrotatedZero(s: seq<byte>)
    requires |s| == 16
    ensures StorePair(Pair(Hi(s, 0), Lo(s, 0))) == s
  {
    hide Rotate, LoadPair, StorePair;
    RotateZero(s);
    StoreLoadPair(s);
  }

  /** The subkeys of a longer key, two by two, are key variables turned by the counts of section 2.2 of RFC 3713: turning
      them back gives these variables. */
  lemma Subkeys256TurnBack(kL: seq<byte>, kR: seq<byte>, kA: seq<byte>, kB: seq<byte>)
    requires |kL| == |kR| == |kA| == |kB| == 16
    ensures
      var kw, k, kl := Kw256(kL, kB), K256(kL, kR, kA, kB), Kl256(kL, kR, kA);
      && StorePair(Pair(kw[0], kw[1])) == kL && Unrotated(kw[2], kw[3], 111) == kB
      && StorePair(Pair(k[0], k[1])) == kB && Unrotated(k[2], k[3], 15) == kR && Unrotated(k[4], k[5], 15) == kA
      && Unrotated(k[6], k[7], 30) == kB && Unrotated(k[8], k[9], 45) == kL && Unrotated(k[10], k[11], 45) == kA
      && Unrotated(k[12], k[13], 60) == kR && Unrotated(k[14], k[15], 60) == kB && Unrotated(k[16], k[17], 77) == kL
      && Unrotated(k[18], k[19], 94) == kR && Unrotated(k[20], k[21], 94) == kA && Unrotated(k[22], k[23], 111) == kL
      && Unrotated(kl[0], kl[1], 30) == kR && Unrotated(kl[2], kl[3], 60) == kL && Unrotated(kl[4], kl[5], 77) == kA
  {
    hide Hi, Lo, StorePair, Unrotated;
    UnrotatedZero(kL);
    UnrotatedZero(kB);
    HalvesUnrotate(kB, 111);
    HalvesUnrotate(kR, 15);
    HalvesUnrotate(kA, 15);
    HalvesUnrotate(kB, 30);
    HalvesUnrotate(kL, 45);
    HalvesUnrotate(kA, 45);
    HalvesUnrotate(kR, 60);
    HalvesUnrotate(kB, 60);
    HalvesUnrotate(kL, 77);
    HalvesUnrotate(kR, 94);
    HalvesUnrotate(kA, 94);
    HalvesUnrotate(kL, 111);
    HalvesUnrotate(kR, 30);
    HalvesUnrotate(kL, 60);
    HalvesUnrotate(kA, 77);
  }

  /** The second key variable: nothing, the third key quarter with its complement, or the second key half. */
  lemma SecondHalf(key: seq<byte>, i: nat)
    requires i < 8
    ensures |key| == 16 ==> KR(key)[i] == KR(key)[8 + i] == 0
    ensures |key| == 24 ==> KR(key)[i] == key[16 + i] && Plus(KR(key)[i], KR(key)[8 + i]) == 0xff
    ensures |key| == 32 ==> KR(key)[i] == key[16 + i] && KR(key)[8 + i] == key[24 + i]
  {
    if |key| == 24 { FlipSum(key[16 + i]); }
  }

  lemma FlipSum(x: byte)
    ensures Plus(x, Flip(x)) == 0xff
  {
  }

  /** KA and KB come from KL and KR by two rounds at a time under the constants of section 2.2 of RFC 3713: taking these
      rounds off again leads back. */
  lemma DerivationUnwinds(kL: Pair, kR: Pair)
    ensures
      var s1, s2 := Word64(Word(0xA09E667F), Word(0x3BCC908B)), Word64(Word(0xB67AE858), Word(0x4CAA73B2));
      var s3, s4 := Word64(Word(0xC6EF372F), Word(0xE94F82BE)), Word64(Word(0x54FF53A5), Word(0xF1D36F1C));
      var s5, s6 := Word64(Word(0x10E527FA), Word(0xDE682D1D)), Word64(Word(0xB05688C2), Word(0xB3E6C1FD));
      var a := DeriveKA(kL, kR);
      var b := DeriveKB(a, kR);
      && XorPair(Feistel(Feistel(XorPair(Feistel(Feistel(a, s4, 1), s3, 0), kL), s2, 1), s1, 0), kR) == kL
      && XorPair(Feistel(Feistel(b, s6, 1), s5, 0), kR) == a
  {
    hide Feistel, Whiten;
    var x := XorPair(kL, kR);
    UnmixTwo(x, 0);
    WhitenTwice(kL, kR.l, kR.r);
    var y := XorPair(MixTwo(x, 0), kL);
    UnmixTwo(y, 2);
    WhitenTwice(MixTwo(x, 0), kL.l, kL.r);
    var a := DeriveKA(kL, kR);
    UnmixTwo(XorPair(a, kR), 4);
    WhitenTwice(a, kR.l, kR.r);
  }

  lemma UnmixTwo(p: Pair, i: nat)
    requires i < 5
    ensures Feistel(Feistel(MixTwo(p, i), SIGMA[i + 1], 1), SIGMA[i], 0) == p
  {
    hide Feistel;
    FeistelTwice(Feistel(p, SIGMA[i], 0), SIGMA[i + 1], 1);
    FeistelTwice(p, SIGMA[i], 0);
  }

  /** Rotation by 0 changes nothing, so the unrotated loads are the 0 entries of the tables. */
  lemma RotateZero(s: seq<byte>)
    requires |s| == 16
    ensures Rotate(s, 0) == s
  {
    hide RotatedByte, Straddle;
    forall x | 0 <= x < 16
      ensures RotatedByte(s, 0, x) == s[x]
    {
      StraddleRotates(s, 0, 0, x);
      StraddleZero(s[x], s[(x + 1) % 16]);
    }
  }

  lemma StraddleZero(hi: byte, lo: byte)
    ensures Straddle(hi, lo, 0) == hi
  {
  }
}
