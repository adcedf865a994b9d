/** The first vector of camellia_test (camellia.c), a 16-byte key: from the key to its subkeys and from the plaintext to the
    ciphertext. */
module CamelliaVector {
  import opened Words
  import opened Camellia
  import opened CamelliaKeys
  import opened CamelliaCipher
  import T = CamelliaTables

  /** Key and plaintext are the same. */
  const KEY: seq<byte> := [
    0x01, 0x23, 0x45, 0x67, 0x89, 0xab, 0xcd, 0xef, 0xfe, 0xdc, 0xba, 0x98, 0x76, 0x54, 0x32, 0x10]
  const CIPHERTEXT: seq<byte> := [
    0x67, 0x67, 0x31, 0x38, 0x54, 0x96, 0x69, 0x73, 0x08, 0x57, 0x06, 0x56, 0x48, 0xea, 0xbe, 0x43]

  function W(hi: bv32, lo: bv32): Word64 { Word64(Word(hi), Word(lo)) }

  function P(a: bv32, b: bv32, c: bv32, d: bv32): Pair { Pair(W(a, b), W(c, d)) }

  // ---- one round ----

  /** The bytes of a word, their S-box values and what the linear layer makes of them. */
  predicate Through(x: Word64, b: seq<byte>, t: seq<byte>, y: Word64)
    requires |b| == |t| == 8
  {
    && Loc(x, 1) == b[0] && Loc(x, 2) == b[1] && Loc(x, 3) == b[2] && Loc(x, 4) == b[3]
    && Loc(x, 5) == b[4] && Loc(x, 6) == b[5] && Loc(x, 7) == b[6] && Loc(x, 8) == b[7]
    && T.S1(b[0]) == t[0] && T.S2(b[1]) == t[1] && T.S3(b[2]) == t[2] && T.S4(b[3]) == t[3]
    && T.S2(b[4]) == t[4] && T.S3(b[5]) == t[5] && T.S4(b[6]) == t[6] && T.S1(b[7]) == t[7]
    && Diffuse(t[0], t[1], t[2], t[3], t[4], t[5], t[6], t[7]) == y
  }

  lemma ThroughF(x: Word64, b: seq<byte>, t: seq<byte>, y: Word64)
    requires |b| == |t| == 8 && Through(x, b, t, y)
    ensures F(x) == y
  {
    hide Loc, T.S1, T.S2, T.S3, T.S4, Diffuse;
  }

  // ---- the key variables ----

  const KA_BYTES: seq<byte> := [
    0xae, 0x71, 0xc3, 0xd5, 0x5b, 0xa6, 0xbf, 0x1d, 0x16, 0x92, 0x40, 0xa7, 0x95, 0xf8, 0x92, 0x56]

  lemma MixF0()
    ensures F(W(0xa1bd2318, 0xb2675d64)) == W(0x828787cc, 0x9eba002a)
    ensures F(W(0xca21d50c, 0xa4444188)) == W(0x3e0a9979, 0x813dfcd2)
  {
    hide F;
    ThroughF(W(0xa1bd2318, 0xb2675d64), [0xa1, 0xbd, 0x23, 0x18, 0xb2, 0x67, 0x5d, 0x64],
             [0x5c, 0x7d, 0xc7, 0xa6, 0xb1, 0x0e, 0x6f, 0xde], W(0x828787cc, 0x9eba002a));
    ThroughF(W(0xca21d50c, 0xa4444188), [0xca, 0x21, 0xd5, 0x0c, 0xa4, 0x44, 0x41, 0x88],
             [0xf9, 0x71, 0x23, 0xed, 0x9b, 0xfd, 0xa0, 0x54], W(0x3e0a9979, 0x813dfcd2));
  }

  lemma MixF1()
    ensures F(W(0xf8e5ae56, 0x68727e6c)) == W(0x9415c76b, 0x0b42927c)
    ensures F(W(0x426d1302, 0x642bfd4a)) == W(0x907b5aac, 0xda9b43cf)
  {
    hide F;
    ThroughF(W(0xf8e5ae56, 0x68727e6c), [0xf8, 0xe5, 0xae, 0x56, 0x68, 0x72, 0x7e, 0x6c],
             [0x15, 0xdd, 0xdf, 0x9d, 0x64, 0xe7, 0x77, 0x53], W(0x9415c76b, 0x0b42927c));
    ThroughF(W(0x426d1302, 0x642bfd4a), [0x42, 0x6d, 0x13, 0x02, 0x64, 0x2b, 0xfd, 0x4a],
             [0x9a, 0x30, 0xc9, 0xb3, 0xbd, 0xaf, 0xf4, 0x2b], W(0x907b5aac, 0xda9b43cf));
  }

  lemma FirstMix()
    ensures MixTwo(P(0x01234567, 0x89abcdef, 0xfedcba98, 0x76543210), 0) == P(0x3f29dc1e, 0x0896313d, 0x7c5b3d54, 0xe8ee323a)
  {
    hide F;
    MixF0();
  }

  lemma SecondMix()
    ensures MixTwo(P(0x3e0a9979, 0x813dfcd2, 0x828787cc, 0x9eba002a), 2) == P(0xae71c3d5, 0x5ba6bf1d, 0x169240a7, 0x95f89256)
  {
    hide F;
    MixF1();
  }

  lemma KeyLoads()
    ensures LoadPair(KEY) == P(0x01234567, 0x89abcdef, 0xfedcba98, 0x76543210)
    ensures StorePair(P(0xae71c3d5, 0x5ba6bf1d, 0x169240a7, 0x95f89256)) == KA_BYTES
  {
    var s := KEY;
    assert s[..8][..4] == [0x01, 0x23, 0x45, 0x67] && s[..8][4..] == [0x89, 0xab, 0xcd, 0xef];
    assert s[8..][..4] == [0xfe, 0xdc, 0xba, 0x98] && s[8..][4..] == [0x76, 0x54, 0x32, 0x10];
  }

  lemma ZeroLoads()
    ensures LoadPair(seq(16, i => 0)) == Pair(Word64(Word(0), Word(0)), Word64(Word(0), Word(0)))
  {
    var s: seq<byte> := seq(16, i => 0);
    assert s[..8][..4] == [0, 0, 0, 0] && s[..8][4..] == [0, 0, 0, 0];
    assert s[8..][..4] == [0, 0, 0, 0] && s[8..][4..] == [0, 0, 0, 0];
  }

  lemma KAIs()
    ensures |KEY| == 16 && KL(KEY) == KEY && KA(KEY) == KA_BYTES
  {
    hide LoadPair, StorePair, MixTwo;
    assert KEY[..16] == KEY;
    KeyLoads();
    ZeroLoads();
    FirstMix();
    SecondMix();
  }

  // ---- the rotations ----

  /** Sixteen bytes cut out of seventeen, b bits on. */
  predicate Straddles(t: seq<byte>, b: nat, r: seq<byte>)
    requires |t| == 17 && |r| == 16 && b < 8
  {
    && r[0] == Straddle(t[0], t[1], Count(b)) && r[1] == Straddle(t[1], t[2], Count(b))
    && r[2] == Straddle(t[2], t[3], Count(b)) && r[3] == Straddle(t[3], t[4], Count(b))
    && r[4] == Straddle(t[4], t[5], Count(b)) && r[5] == Straddle(t[5], t[6], Count(b))
    && r[6] == Straddle(t[6], t[7], Count(b)) && r[7] == Straddle(t[7], t[8], Count(b))
    && r[8] == Straddle(t[8], t[9], Count(b)) && r[9] == Straddle(t[9], t[10], Count(b))
    && r[10] == Straddle(t[10], t[11], Count(b)) && r[11] == Straddle(t[11], t[12], Count(b))
    && r[12] == Straddle(t[12], t[13], Count(b)) && r[13] == Straddle(t[13], t[14], Count(b))
    && r[14] == Straddle(t[14], t[15], Count(b)) && r[15] == Straddle(t[15], t[16], Count(b))
  }

  lemma StraddlesAt(t: seq<byte>, b: nat, r: seq<byte>, x: nat)
    requires |t| == 17 && |r| == 16 && b < 8 && x < 16 && Straddles(t, b, r)
    ensures r[x] == Straddle(t[x], t[x + 1], Count(b))
  {
    hide Straddle, Count;
  }

  lemma RotateIs(s: seq<byte>, w: nat, b: nat, t: seq<byte>, r: seq<byte>)
    requires |s| == |r| == 16 && w < 16 && b < 8 && t == s[w..] + s[..w] + [s[w]] && Straddles(t, b, r)
    ensures Rotate(s, 8 * w + b) == r
  {
    hide RotatedByte, Straddle, Count, Straddles;
    forall x | 0 <= x < 16
      ensures RotatedByte(s, 8 * w + b, x) == r[x]
    {
      StraddlesAt(t, b, r, x);
      StraddleRotates(s, w, b, x);
      assert t[x] == s[(x + w) % 16] && t[x + 1] == s[(x + w + 1) % 16];
    }
  }

  lemma PairLoads(s: seq<byte>, l0: Word, l1: Word, r0: Word, r1: Word)
    requires |s| == 16 && Load32(s[..4]) == l0 && Load32(s[4..8]) == l1 && Load32(s[8..12]) == r0 && Load32(s[12..]) == r1
    ensures LoadPair(s) == Pair(Word64(l0, l1), Word64(r0, r1))
  {
    hide Load32;
    assert s[..8][..4] == s[..4] && s[..8][4..] == s[4..8] && s[8..][..4] == s[8..12] && s[8..][4..] == s[12..];
  }

  lemma KL15Bytes()
    ensures Straddles([0x23, 0x45, 0x67, 0x89, 0xab, 0xcd, 0xef, 0xfe, 0xdc, 0xba, 0x98, 0x76, 0x54, 0x32, 0x10, 0x01, 0x23], 7,
                      [0xa2, 0xb3, 0xc4, 0xd5, 0xe6, 0xf7, 0xff, 0x6e, 0x5d, 0x4c, 0x3b, 0x2a, 0x19, 0x08, 0x00, 0x91])
  {
  }

  lemma KL15()
    ensures Hi(KEY, 15) == W(0xa2b3c4d5, 0xe6f7ff6e) && Lo(KEY, 15) == W(0x5d4c3b2a, 0x19080091)
  {
    hide Rotate, Straddles, LoadPair;
    var t: seq<byte>, r: seq<byte> := [0x23, 0x45, 0x67, 0x89, 0xab, 0xcd, 0xef, 0xfe, 0xdc, 0xba, 0x98, 0x76, 0x54, 0x32, 0x10, 0x01, 0x23],
      [0xa2, 0xb3, 0xc4, 0xd5, 0xe6, 0xf7, 0xff, 0x6e, 0x5d, 0x4c, 0x3b, 0x2a, 0x19, 0x08, 0x00, 0x91];
    assert t == KEY[1..] + KEY[..1] + [KEY[1]];
    KL15Bytes();
    RotateIs(KEY, 1, 7, t, r);
    assert r[..4] == [0xa2, 0xb3, 0xc4, 0xd5] && r[4..8] == [0xe6, 0xf7, 0xff, 0x6e] && r[8..12] == [0x5d, 0x4c, 0x3b, 0x2a] && r[12..] == [0x19, 0x08, 0x00, 0x91];
    PairLoads(r, Word(0xa2b3c4d5), Word(0xe6f7ff6e), Word(0x5d4c3b2a), Word(0x19080091));
  }

  lemma KL45Bytes()
    ensures Straddles([0xab, 0xcd, 0xef, 0xfe, 0xdc, 0xba, 0x98, 0x76, 0x54, 0x32, 0x10, 0x01, 0x23, 0x45, 0x67, 0x89, 0xab], 5,
                      [0x79, 0xbd, 0xff, 0xdb, 0x97, 0x53, 0x0e, 0xca, 0x86, 0x42, 0x00, 0x24, 0x68, 0xac, 0xf1, 0x35])
  {
  }

  lemma KL45()
    ensures Hi(KEY, 45) == W(0x79bdffdb, 0x97530eca) && Lo(KEY, 45) == W(0x86420024, 0x68acf135)
  {
    hide Rotate, Straddles, LoadPair;
    var t: seq<byte>, r: seq<byte> := [0xab, 0xcd, 0xef, 0xfe, 0xdc, 0xba, 0x98, 0x76, 0x54, 0x32, 0x10, 0x01, 0x23, 0x45, 0x67, 0x89, 0xab],
      [0x79, 0xbd, 0xff, 0xdb, 0x97, 0x53, 0x0e, 0xca, 0x86, 0x42, 0x00, 0x24, 0x68, 0xac, 0xf1, 0x35];
    assert t == KEY[5..] + KEY[..5] + [KEY[5]];
    KL45Bytes();
    RotateIs(KEY, 5, 5, t, r);
    assert r[..4] == [0x79, 0xbd, 0xff, 0xdb] && r[4..8] == [0x97, 0x53, 0x0e, 0xca] && r[8..12] == [0x86, 0x42, 0x00, 0x24] && r[12..] == [0x68, 0xac, 0xf1, 0x35];
    PairLoads(r, Word(0x79bdffdb), Word(0x97530eca), Word(0x86420024), Word(0x68acf135));
  }

  lemma KL60Bytes()
    ensures Straddles([0xef, 0xfe, 0xdc, 0xba, 0x98, 0x76, 0x54, 0x32, 0x10, 0x01, 0x23, 0x45, 0x67, 0x89, 0xab, 0xcd, 0xef], 4,
                      [0xff, 0xed, 0xcb, 0xa9, 0x87, 0x65, 0x43, 0x21, 0x00, 0x12, 0x34, 0x56, 0x78, 0x9a, 0xbc, 0xde])
  {
  }

  lemma KL60()
    ensures Hi(KEY, 60) == W(0xffedcba9, 0x87654321) && Lo(KEY, 60) == W(0x00123456, 0x789abcde)
  {
    hide Rotate, Straddles, LoadPair;
    var t: seq<byte>, r: seq<byte> := [0xef, 0xfe, 0xdc, 0xba, 0x98, 0x76, 0x54, 0x32, 0x10, 0x01, 0x23, 0x45, 0x67, 0x89, 0xab, 0xcd, 0xef],
      [0xff, 0xed, 0xcb, 0xa9, 0x87, 0x65, 0x43, 0x21, 0x00, 0x12, 0x34, 0x56, 0x78, 0x9a, 0xbc, 0xde];
    assert t == KEY[7..] + KEY[..7] + [KEY[7]];
    KL60Bytes();
    RotateIs(KEY, 7, 4, t, r);
    assert r[..4] == [0xff, 0xed, 0xcb, 0xa9] && r[4..8] == [0x87, 0x65, 0x43, 0x21] && r[8..12] == [0x00, 0x12, 0x34, 0x56] && r[12..] == [0x78, 0x9a, 0xbc, 0xde];
    PairLoads(r, Word(0xffedcba9), Word(0x87654321), Word(0x00123456), Word(0x789abcde));
  }

  lemma KL77Bytes()
    ensures Straddles([0xdc, 0xba, 0x98, 0x76, 0x54, 0x32, 0x10, 0x01, 0x23, 0x45, 0x67, 0x89, 0xab, 0xcd, 0xef, 0xfe, 0xdc], 5,
                      [0x97, 0x53, 0x0e, 0xca, 0x86, 0x42, 0x00, 0x24, 0x68, 0xac, 0xf1, 0x35, 0x79, 0xbd, 0xff, 0xdb])
  {
  }

  lemma KL77()
    ensures Hi(KEY, 77) == W(0x97530eca, 0x86420024) && Lo(KEY, 77) == W(0x68acf135, 0x79bdffdb)
  {
    hide Rotate, Straddles, LoadPair;
    var t: seq<byte>, r: seq<byte> := [0xdc, 0xba, 0x98, 0x76, 0x54, 0x32, 0x10, 0x01, 0x23, 0x45, 0x67, 0x89, 0xab, 0xcd, 0xef, 0xfe, 0xdc],
      [0x97, 0x53, 0x0e, 0xca, 0x86, 0x42, 0x00, 0x24, 0x68, 0xac, 0xf1, 0x35, 0x79, 0xbd, 0xff, 0xdb];
    assert t == KEY[9..] + KEY[..9] + [KEY[9]];
    KL77Bytes();
    RotateIs(KEY, 9, 5, t, r);
    assert r[..4] == [0x97, 0x53, 0x0e, 0xca] && r[4..8] == [0x86, 0x42, 0x00, 0x24] && r[8..12] == [0x68, 0xac, 0xf1, 0x35] && r[12..] == [0x79, 0xbd, 0xff, 0xdb];
    PairLoads(r, Word(0x97530eca), Word(0x86420024), Word(0x68acf135), Word(0x79bdffdb));
  }

  lemma KL94Bytes()
    ensures Straddles([0x98, 0x76, 0x54, 0x32, 0x10, 0x01, 0x23, 0x45, 0x67, 0x89, 0xab, 0xcd, 0xef, 0xfe, 0xdc, 0xba, 0x98], 6,
                      [0x1d, 0x95, 0x0c, 0x84, 0x00, 0x48, 0xd1, 0x59, 0xe2, 0x6a, 0xf3, 0x7b, 0xff, 0xb7, 0x2e, 0xa6])
  {
  }

  lemma KL94()
    ensures Hi(KEY, 94) == W(0x1d950c84, 0x0048d159) && Lo(KEY, 94) == W(0xe26af37b, 0xffb72ea6)
  {
    hide Rotate, Straddles, LoadPair;
    var t: seq<byte>, r: seq<byte> := [0x98, 0x76, 0x54, 0x32, 0x10, 0x01, 0x23, 0x45, 0x67, 0x89, 0xab, 0xcd, 0xef, 0xfe, 0xdc, 0xba, 0x98],
      [0x1d, 0x95, 0x0c, 0x84, 0x00, 0x48, 0xd1, 0x59, 0xe2, 0x6a, 0xf3, 0x7b, 0xff, 0xb7, 0x2e, 0xa6];
    assert t == KEY[11..] + KEY[..11] + [KEY[11]];
    KL94Bytes();
    RotateIs(KEY, 11, 6, t, r);
    assert r[..4] == [0x1d, 0x95, 0x0c, 0x84] && r[4..8] == [0x00, 0x48, 0xd1, 0x59] && r[8..12] == [0xe2, 0x6a, 0xf3, 0x7b] && r[12..] == [0xff, 0xb7, 0x2e, 0xa6];
    PairLoads(r, Word(0x1d950c84), Word(0x0048d159), Word(0xe26af37b), Word(0xffb72ea6));
  }

  lemma KL111Bytes()
    ensures Straddles([0x54, 0x32, 0x10, 0x01, 0x23, 0x45, 0x67, 0x89, 0xab, 0xcd, 0xef, 0xfe, 0xdc, 0xba, 0x98, 0x76, 0x54], 7,
                      [0x19, 0x08, 0x00, 0x91, 0xa2, 0xb3, 0xc4, 0xd5, 0xe6, 0xf7, 0xff, 0x6e, 0x5d, 0x4c, 0x3b, 0x2a])
  {
  }

  lemma KL111()
    ensures Hi(KEY, 111) == W(0x19080091, 0xa2b3c4d5) && Lo(KEY, 111) == W(0xe6f7ff6e, 0x5d4c3b2a)
  {
    hide Rotate, Straddles, LoadPair;
    var t: seq<byte>, r: seq<byte> := [0x54, 0x32, 0x10, 0x01, 0x23, 0x45, 0x67, 0x89, 0xab, 0xcd, 0xef, 0xfe, 0xdc, 0xba, 0x98, 0x76, 0x54],
      [0x19, 0x08, 0x00, 0x91, 0xa2, 0xb3, 0xc4, 0xd5, 0xe6, 0xf7, 0xff, 0x6e, 0x5d, 0x4c, 0x3b, 0x2a];
    assert t == KEY[13..] + KEY[..13] + [KEY[13]];
    KL111Bytes();
    RotateIs(KEY, 13, 7, t, r);
    assert r[..4] == [0x19, 0x08, 0x00, 0x91] && r[4..8] == [0xa2, 0xb3, 0xc4, 0xd5] && r[8..12] == [0xe6, 0xf7, 0xff, 0x6e] && r[12..] == [0x5d, 0x4c, 0x3b, 0x2a];
    PairLoads(r, Word(0x19080091), Word(0xa2b3c4d5), Word(0xe6f7ff6e), Word(0x5d4c3b2a));
  }

  lemma KA15Bytes()
    ensures Straddles([0x71, 0xc3, 0xd5, 0x5b, 0xa6, 0xbf, 0x1d, 0x16, 0x92, 0x40, 0xa7, 0x95, 0xf8, 0x92, 0x56, 0xae, 0x71], 7,
                      [0xe1, 0xea, 0xad, 0xd3, 0x5f, 0x8e, 0x8b, 0x49, 0x20, 0x53, 0xca, 0xfc, 0x49, 0x2b, 0x57, 0x38])
  {
  }

  lemma KA15()
    ensures Hi(KA_BYTES, 15) == W(0xe1eaadd3, 0x5f8e8b49) && Lo(KA_BYTES, 15) == W(0x2053cafc, 0x492b5738)
  {
    hide Rotate, Straddles, LoadPair;
    var t: seq<byte>, r: seq<byte> := [0x71, 0xc3, 0xd5, 0x5b, 0xa6, 0xbf, 0x1d, 0x16, 0x92, 0x40, 0xa7, 0x95, 0xf8, 0x92, 0x56, 0xae, 0x71],
      [0xe1, 0xea, 0xad, 0xd3, 0x5f, 0x8e, 0x8b, 0x49, 0x20, 0x53, 0xca, 0xfc, 0x49, 0x2b, 0x57, 0x38];
    assert t == KA_BYTES[1..] + KA_BYTES[..1] + [KA_BYTES[1]];
    KA15Bytes();
    RotateIs(KA_BYTES, 1, 7, t, r);
    assert r[..4] == [0xe1, 0xea, 0xad, 0xd3] && r[4..8] == [0x5f, 0x8e, 0x8b, 0x49] && r[8..12] == [0x20, 0x53, 0xca, 0xfc] && r[12..] == [0x49, 0x2b, 0x57, 0x38];
    PairLoads(r, Word(0xe1eaadd3), Word(0x5f8e8b49), Word(0x2053cafc), Word(0x492b5738));
  }

  lemma KA30Bytes()
    ensures Straddles([0xd5, 0x5b, 0xa6, 0xbf, 0x1d, 0x16, 0x92, 0x40, 0xa7, 0x95, 0xf8, 0x92, 0x56, 0xae, 0x71, 0xc3, 0xd5], 6,
                      [0x56, 0xe9, 0xaf, 0xc7, 0x45, 0xa4, 0x90, 0x29, 0xe5, 0x7e, 0x24, 0x95, 0xab, 0x9c, 0x70, 0xf5])
  {
  }

  lemma KA30()
    ensures Hi(KA_BYTES, 30) == W(0x56e9afc7, 0x45a49029) && Lo(KA_BYTES, 30) == W(0xe57e2495, 0xab9c70f5)
  {
    hide Rotate, Straddles, LoadPair;
    var t: seq<byte>, r: seq<byte> := [0xd5, 0x5b, 0xa6, 0xbf, 0x1d, 0x16, 0x92, 0x40, 0xa7, 0x95, 0xf8, 0x92, 0x56, 0xae, 0x71, 0xc3, 0xd5],
      [0x56, 0xe9, 0xaf, 0xc7, 0x45, 0xa4, 0x90, 0x29, 0xe5, 0x7e, 0x24, 0x95, 0xab, 0x9c, 0x70, 0xf5];
    assert t == KA_BYTES[3..] + KA_BYTES[..3] + [KA_BYTES[3]];
    KA30Bytes();
    RotateIs(KA_BYTES, 3, 6, t, r);
    assert r[..4] == [0x56, 0xe9, 0xaf, 0xc7] && r[4..8] == [0x45, 0xa4, 0x90, 0x29] && r[8..12] == [0xe5, 0x7e, 0x24, 0x95] && r[12..] == [0xab, 0x9c, 0x70, 0xf5];
    PairLoads(r, Word(0x56e9afc7), Word(0x45a49029), Word(0xe57e2495), Word(0xab9c70f5));
  }

  lemma KA45Bytes()
    ensures Straddles([0xa6, 0xbf, 0x1d, 0x16, 0x92, 0x40, 0xa7, 0x95, 0xf8, 0x92, 0x56, 0xae, 0x71, 0xc3, 0xd5, 0x5b, 0xa6], 5,
                      [0xd7, 0xe3, 0xa2, 0xd2, 0x48, 0x14, 0xf2, 0xbf, 0x12, 0x4a, 0xd5, 0xce, 0x38, 0x7a, 0xab, 0x74])
  {
  }

  lemma KA45()
    ensures Hi(KA_BYTES, 45) == W(0xd7e3a2d2, 0x4814f2bf) && Lo(KA_BYTES, 45) == W(0x124ad5ce, 0x387aab74)
  {
    hide Rotate, Straddles, LoadPair;
    var t: seq<byte>, r: seq<byte> := [0xa6, 0xbf, 0x1d, 0x16, 0x92, 0x40, 0xa7, 0x95, 0xf8, 0x92, 0x56, 0xae, 0x71, 0xc3, 0xd5, 0x5b, 0xa6],
      [0xd7, 0xe3, 0xa2, 0xd2, 0x48, 0x14, 0xf2, 0xbf, 0x12, 0x4a, 0xd5, 0xce, 0x38, 0x7a, 0xab, 0x74];
    assert t == KA_BYTES[5..] + KA_BYTES[..5] + [KA_BYTES[5]];
    KA45Bytes();
    RotateIs(KA_BYTES, 5, 5, t, r);
    assert r[..4] == [0xd7, 0xe3, 0xa2, 0xd2] && r[4..8] == [0x48, 0x14, 0xf2, 0xbf] && r[8..12] == [0x12, 0x4a, 0xd5, 0xce] && r[12..] == [0x38, 0x7a, 0xab, 0x74];
    PairLoads(r, Word(0xd7e3a2d2), Word(0x4814f2bf), Word(0x124ad5ce), Word(0x387aab74));
  }

  lemma KA60Bytes()
    ensures Straddles([0x1d, 0x16, 0x92, 0x40, 0xa7, 0x95, 0xf8, 0x92, 0x56, 0xae, 0x71, 0xc3, 0xd5, 0x5b, 0xa6, 0xbf, 0x1d], 4,
                      [0xd1, 0x69, 0x24, 0x0a, 0x79, 0x5f, 0x89, 0x25, 0x6a, 0xe7, 0x1c, 0x3d, 0x55, 0xba, 0x6b, 0xf1])
  {
  }

  lemma KA60()
    ensures Hi(KA_BYTES, 60) == W(0xd169240a, 0x795f8925) && Lo(KA_BYTES, 60) == W(0x6ae71c3d, 0x55ba6bf1)
  {
    hide Rotate, Straddles, LoadPair;
    var t: seq<byte>, r: seq<byte> := [0x1d, 0x16, 0x92, 0x40, 0xa7, 0x95, 0xf8, 0x92, 0x56, 0xae, 0x71, 0xc3, 0xd5, 0x5b, 0xa6, 0xbf, 0x1d],
      [0xd1, 0x69, 0x24, 0x0a, 0x79, 0x5f, 0x89, 0x25, 0x6a, 0xe7, 0x1c, 0x3d, 0x55, 0xba, 0x6b, 0xf1];
    assert t == KA_BYTES[7..] + KA_BYTES[..7] + [KA_BYTES[7]];
    KA60Bytes();
    RotateIs(KA_BYTES, 7, 4, t, r);
    assert r[..4] == [0xd1, 0x69, 0x24, 0x0a] && r[4..8] == [0x79, 0x5f, 0x89, 0x25] && r[8..12] == [0x6a, 0xe7, 0x1c, 0x3d] && r[12..] == [0x55, 0xba, 0x6b, 0xf1];
    PairLoads(r, Word(0xd169240a), Word(0x795f8925), Word(0x6ae71c3d), Word(0x55ba6bf1));
  }

  lemma KA94Bytes()
    ensures Straddles([0xa7, 0x95, 0xf8, 0x92, 0x56, 0xae, 0x71, 0xc3, 0xd5, 0x5b, 0xa6, 0xbf, 0x1d, 0x16, 0x92, 0x40, 0xa7], 6,
                      [0xe5, 0x7e, 0x24, 0x95, 0xab, 0x9c, 0x70, 0xf5, 0x56, 0xe9, 0xaf, 0xc7, 0x45, 0xa4, 0x90, 0x29])
  {
  }

  lemma KA94()
    ensures Hi(KA_BYTES, 94) == W(0xe57e2495, 0xab9c70f5) && Lo(KA_BYTES, 94) == W(0x56e9afc7, 0x45a49029)
  {
    hide Rotate, Straddles, LoadPair;
    var t: seq<byte>, r: seq<byte> := [0xa7, 0x95, 0xf8, 0x92, 0x56, 0xae, 0x71, 0xc3, 0xd5, 0x5b, 0xa6, 0xbf, 0x1d, 0x16, 0x92, 0x40, 0xa7],
      [0xe5, 0x7e, 0x24, 0x95, 0xab, 0x9c, 0x70, 0xf5, 0x56, 0xe9, 0xaf, 0xc7, 0x45, 0xa4, 0x90, 0x29];
    assert t == KA_BYTES[11..] + KA_BYTES[..11] + [KA_BYTES[11]];
    KA94Bytes();
    RotateIs(KA_BYTES, 11, 6, t, r);
    assert r[..4] == [0xe5, 0x7e, 0x24, 0x95] && r[4..8] == [0xab, 0x9c, 0x70, 0xf5] && r[8..12] == [0x56, 0xe9, 0xaf, 0xc7] && r[12..] == [0x45, 0xa4, 0x90, 0x29];
    PairLoads(r, Word(0xe57e2495), Word(0xab9c70f5), Word(0x56e9afc7), Word(0x45a49029));
  }

  lemma KA111Bytes()
    ensures Straddles([0xf8, 0x92, 0x56, 0xae, 0x71, 0xc3, 0xd5, 0x5b, 0xa6, 0xbf, 0x1d, 0x16, 0x92, 0x40, 0xa7, 0x95, 0xf8], 7,
                      [0x49, 0x2b, 0x57, 0x38, 0xe1, 0xea, 0xad, 0xd3, 0x5f, 0x8e, 0x8b, 0x49, 0x20, 0x53, 0xca, 0xfc])
  {
  }

  lemma KA111()
    ensures Hi(KA_BYTES, 111) == W(0x492b5738, 0xe1eaadd3) && Lo(KA_BYTES, 111) == W(0x5f8e8b49, 0x2053cafc)
  {
    hide Rotate, Straddles, LoadPair;
    var t: seq<byte>, r: seq<byte> := [0xf8, 0x92, 0x56, 0xae, 0x71, 0xc3, 0xd5, 0x5b, 0xa6, 0xbf, 0x1d, 0x16, 0x92, 0x40, 0xa7, 0x95, 0xf8],
      [0x49, 0x2b, 0x57, 0x38, 0xe1, 0xea, 0xad, 0xd3, 0x5f, 0x8e, 0x8b, 0x49, 0x20, 0x53, 0xca, 0xfc];
    assert t == KA_BYTES[13..] + KA_BYTES[..13] + [KA_BYTES[13]];
    KA111Bytes();
    RotateIs(KA_BYTES, 13, 7, t, r);
    assert r[..4] == [0x49, 0x2b, 0x57, 0x38] && r[4..8] == [0xe1, 0xea, 0xad, 0xd3] && r[8..12] == [0x5f, 0x8e, 0x8b, 0x49] && r[12..] == [0x20, 0x53, 0xca, 0xfc];
    PairLoads(r, Word(0x492b5738), Word(0xe1eaadd3), Word(0x5f8e8b49), Word(0x2053cafc));
  }

  lemma Unrotated()
    ensures Hi(KEY, 0) == W(0x01234567, 0x89abcdef) && Lo(KEY, 0) == W(0xfedcba98, 0x76543210)
    ensures Hi(KA_BYTES, 0) == W(0xae71c3d5, 0x5ba6bf1d) && Lo(KA_BYTES, 0) == W(0x169240a7, 0x95f89256)
  {
    hide LoadPair, StorePair, Rotate;
    RotateZero(KEY);
    RotateZero(KA_BYTES);
    KeyLoads();
    LoadStorePair(P(0xae71c3d5, 0x5ba6bf1d, 0x169240a7, 0x95f89256));
  }

  // ---- the subkeys ----

  const KW: seq<Word64> := [
    W(0x01234567, 0x89abcdef), W(0xfedcba98, 0x76543210), W(0x492b5738, 0xe1eaadd3), W(0x5f8e8b49, 0x2053cafc)]
  const KL4: seq<Word64> := [
    W(0x56e9afc7, 0x45a49029), W(0xe57e2495, 0xab9c70f5), W(0x97530eca, 0x86420024), W(0x68acf135, 0x79bdffdb)]
  const K18: seq<Word64> := [
    W(0xae71c3d5, 0x5ba6bf1d), W(0x169240a7, 0x95f89256), W(0xa2b3c4d5, 0xe6f7ff6e), W(0x5d4c3b2a, 0x19080091),
    W(0xe1eaadd3, 0x5f8e8b49), W(0x2053cafc, 0x492b5738), W(0x79bdffdb, 0x97530eca), W(0x86420024, 0x68acf135),
    W(0xd7e3a2d2, 0x4814f2bf), W(0x00123456, 0x789abcde), W(0xd169240a, 0x795f8925), W(0x6ae71c3d, 0x55ba6bf1),
    W(0x1d950c84, 0x0048d159), W(0xe26af37b, 0xffb72ea6), W(0xe57e2495, 0xab9c70f5), W(0x56e9afc7, 0x45a49029),
    W(0x19080091, 0xa2b3c4d5), W(0xe6f7ff6e, 0x5d4c3b2a)]

  /** The subkeys of the vector's key. */
  lemma SubkeysAre()
    ensures |KEY| == 16 && Kw128(KL(KEY), KA(KEY)) == KW && K128(KL(KEY), KA(KEY)) == K18 && Kl128(KL(KEY), KA(KEY)) == KL4
  {
    hide KL, KA, Hi, Lo;
    KAIs();
    Unrotated();
    KL15();
    KL45();
    KL60();
    KL77();
    KL94();
    KL111();
    KA15();
    KA30();
    KA45();
    KA60();
    KA94();
    KA111();
  }

  // ---- the rounds ----

  lemma GroupF0a()
    ensures F(W(0xae71c3d5, 0x5ba6bf1d)) == W(0x77933e47, 0x4a99fa36)
    ensures F(W(0x61017ee0, 0xdf616860)) == W(0xd5bd2469, 0x1d280080)
    ensures F(W(0x770ee0bc, 0xfbdfffee)) == W(0xb2429066, 0xdee25493)
  {
    hide F;
    ThroughF(W(0xae71c3d5, 0x5ba6bf1d), [0xae, 0x71, 0xc3, 0xd5, 0x5b, 0xa6, 0xbf, 0x1d],
             [0xbf, 0x88, 0x46, 0xf3, 0x62, 0x48, 0x50, 0x65], W(0x77933e47, 0x4a99fa36));
    ThroughF(W(0x61017ee0, 0xdf616860), [0x61, 0x01, 0x7e, 0xe0, 0xdf, 0x61, 0x68, 0x60],
             [0x58, 0x05, 0xb4, 0x79, 0xf5, 0x2c, 0x78, 0x14], W(0xd5bd2469, 0x1d280080));
    ThroughF(W(0x770ee0bc, 0xfbdfffee), [0x77, 0x0e, 0xe0, 0xbc, 0xfb, 0xdf, 0xff, 0xee],
             [0x91, 0x5d, 0x39, 0x08, 0xe9, 0x7d, 0x9e, 0xf1], W(0xb2429066, 0xdee25493));
  }

  lemma GroupF0b()
    ensures F(W(0x989d950b, 0x8d73ae34)) == W(0x4f6c7c91, 0x6fb82d9e)
    ensures F(W(0x7b3bf52b, 0x2d1ea657)) == W(0xc74c264c, 0xf87655ad)
    ensures F(W(0x22ce4291, 0x2526ac30)) == W(0xf38f7544, 0x58e23ccf)
  {
    hide F;
    ThroughF(W(0x989d950b, 0x8d73ae34), [0x98, 0x9d, 0x95, 0x0b, 0x8d, 0x73, 0xae, 0x34],
             [0x8a, 0x7e, 0xfb, 0xa5, 0xff, 0x59, 0x17, 0xd5], W(0x4f6c7c91, 0x6fb82d9e));
    ThroughF(W(0x7b3bf52b, 0x2d1ea657), [0x7b, 0x3b, 0xf5, 0x2b, 0x2d, 0x1e, 0xa6, 0x57],
             [0xa8, 0xad, 0xe4, 0x76, 0x8b, 0x49, 0xb1, 0x05], W(0xc74c264c, 0xf87655ad));
    ThroughF(W(0x22ce4291, 0x2526ac30), [0x22, 0xce, 0x42, 0x91, 0x25, 0x26, 0xac, 0x30],
             [0xaf, 0x69, 0x4d, 0x8f, 0xd7, 0x8f, 0xb7, 0xa6], W(0xf38f7544, 0x58e23ccf));
  }

  lemma Group0(k: seq<Word64>)
    requires |k| == 24 && k[..18] == K18
    ensures Six(P(0x00000000, 0x00000000, 0x00000000, 0x00000000), k, 0, 6) == P(0x695e2dbc, 0x2a7211d1, 0x029d886d, 0x6c0dfb08)
  {
    hide F, Feistel, Six;
    var p := P(0x00000000, 0x00000000, 0x00000000, 0x00000000);
    SixUnfold(p, k, 0);
    assert k[0] == k[..18][0] == W(0xae71c3d5, 0x5ba6bf1d);
    assert k[1] == k[..18][1] == W(0x169240a7, 0x95f89256);
    assert k[2] == k[..18][2] == W(0xa2b3c4d5, 0xe6f7ff6e);
    assert k[3] == k[..18][3] == W(0x5d4c3b2a, 0x19080091);
    assert k[4] == k[..18][4] == W(0xe1eaadd3, 0x5f8e8b49);
    assert k[5] == k[..18][5] == W(0x2053cafc, 0x492b5738);
    Rounds0();
  }

  lemma Rounds0()
    ensures Feistel(P(0x00000000, 0x00000000, 0x00000000, 0x00000000), W(0xae71c3d5, 0x5ba6bf1d), 0) == P(0x00000000, 0x00000000, 0x77933e47, 0x4a99fa36)
    ensures Feistel(P(0x00000000, 0x00000000, 0x77933e47, 0x4a99fa36), W(0x169240a7, 0x95f89256), 1) == P(0xd5bd2469, 0x1d280080, 0x77933e47, 0x4a99fa36)
    ensures Feistel(P(0xd5bd2469, 0x1d280080, 0x77933e47, 0x4a99fa36), W(0xa2b3c4d5, 0xe6f7ff6e), 2) == P(0xd5bd2469, 0x1d280080, 0xc5d1ae21, 0x947baea5)
    ensures Feistel(P(0xd5bd2469, 0x1d280080, 0xc5d1ae21, 0x947baea5), W(0x5d4c3b2a, 0x19080091), 3) == P(0x9ad158f8, 0x72902d1e, 0xc5d1ae21, 0x947baea5)
    ensures Feistel(P(0x9ad158f8, 0x72902d1e, 0xc5d1ae21, 0x947baea5), W(0xe1eaadd3, 0x5f8e8b49), 4) == P(0x9ad158f8, 0x72902d1e, 0x029d886d, 0x6c0dfb08)
    ensures Feistel(P(0x9ad158f8, 0x72902d1e, 0x029d886d, 0x6c0dfb08), W(0x2053cafc, 0x492b5738), 5) == P(0x695e2dbc, 0x2a7211d1, 0x029d886d, 0x6c0dfb08)
  {
    hide F;
    GroupF0a();
    GroupF0b();
  }

  lemma GroupF1a()
    ensures F(W(0xff05089e, 0x3db14413)) == W(0xb0ed505f, 0xda57d6fd)
    ensures F(W(0xdbaf23eb, 0x14f69de1)) == W(0x4f666c45, 0xf7595105)
    ensures F(W(0x1e3d39d2, 0x15afe963)) == W(0x224d9c4f, 0x4415e8f1)
  {
    hide F;
    ThroughF(W(0xff05089e, 0x3db14413), [0xff, 0x05, 0x08, 0x9e, 0x3d, 0xb1, 0x44, 0x13],
             [0x9e, 0x4e, 0x72, 0x56, 0xac, 0xcd, 0x54, 0x93], W(0xb0ed505f, 0xda57d6fd));
    ThroughF(W(0xdbaf23eb, 0x14f69de1), [0xdb, 0xaf, 0x23, 0xeb, 0x14, 0xf6, 0x9d, 0xe1],
             [0x42, 0xc5, 0xc7, 0xba, 0x8a, 0xa1, 0xd6, 0x07], W(0x4f666c45, 0xf7595105));
    ThroughF(W(0x1e3d39d2, 0x15afe963), [0x1e, 0x3d, 0x39, 0xd2, 0x15, 0xaf, 0xe9, 0x63],
             [0x92, 0xac, 0x80, 0x4a, 0x32, 0x71, 0x6a, 0x61], W(0x224d9c4f, 0x4415e8f1));
  }

  lemma GroupF1b()
    ensures F(W(0x7fb28bd6, 0x40d538fb)) == W(0xcc83ebce, 0xc86675e5)
    ensures F(W(0xd43454c4, 0xec82e71c)) == W(0xb22b639b, 0x588d74cd)
    ensures F(W(0xa76cc026, 0x35789b19)) == W(0x16d8f303, 0xb4ef9662)
  {
    hide F;
    ThroughF(W(0x7fb28bd6, 0x40d538fb), [0x7f, 0xb2, 0x8b, 0xd6, 0x40, 0xd5, 0x38, 0xfb],
             [0x50, 0xb1, 0xca, 0x7f, 0x17, 0x23, 0xfe, 0xf4], W(0xcc83ebce, 0xc86675e5));
    ThroughF(W(0xd43454c4, 0xec82e71c), [0xd4, 0x34, 0x54, 0xc4, 0xec, 0x82, 0xe7, 0x1c],
             [0xe7, 0xab, 0x1a, 0x5b, 0x78, 0x50, 0x59, 0x1d], W(0xb22b639b, 0x588d74cd));
    ThroughF(W(0xa76cc026, 0x35789b19), [0xa7, 0x6c, 0xc0, 0x26, 0x35, 0x78, 0x9b, 0x19],
             [0x33, 0xa6, 0xf4, 0xf0, 0x8e, 0x12, 0x3d, 0x0e], W(0x16d8f303, 0xb4ef9662));
  }

  lemma Group1(k: seq<Word64>)
    requires |k| == 24 && k[..18] == K18
    ensures Six(P(0x86b8f745, 0xaae24ad9, 0xed007390, 0xa60dba29), k, 1, 6) == P(0x138583cd, 0x2132f85b, 0xcd8bdc1b, 0x60c2f0e8)
  {
    hide F, Feistel, Six;
    var p := P(0x86b8f745, 0xaae24ad9, 0xed007390, 0xa60dba29);
    SixUnfold(p, k, 1);
    assert k[6] == k[..18][6] == W(0x79bdffdb, 0x97530eca);
    assert k[7] == k[..18][7] == W(0x86420024, 0x68acf135);
    assert k[8] == k[..18][8] == W(0xd7e3a2d2, 0x4814f2bf);
    assert k[9] == k[..18][9] == W(0x00123456, 0x789abcde);
    assert k[10] == k[..18][10] == W(0xd169240a, 0x795f8925);
    assert k[11] == k[..18][11] == W(0x6ae71c3d, 0x55ba6bf1);
    Rounds1();
  }

  lemma Rounds1()
    ensures Feistel(P(0x86b8f745, 0xaae24ad9, 0xed007390, 0xa60dba29), W(0x79bdffdb, 0x97530eca), 0) == P(0x86b8f745, 0xaae24ad9, 0x5ded23cf, 0x7c5a6cd4)
    ensures Feistel(P(0x86b8f745, 0xaae24ad9, 0x5ded23cf, 0x7c5a6cd4), W(0x86420024, 0x68acf135), 1) == P(0xc9de9b00, 0x5dbb1bdc, 0x5ded23cf, 0x7c5a6cd4)
    ensures Feistel(P(0xc9de9b00, 0x5dbb1bdc, 0x5ded23cf, 0x7c5a6cd4), W(0xd7e3a2d2, 0x4814f2bf), 2) == P(0xc9de9b00, 0x5dbb1bdc, 0x7fa0bf80, 0x384f8425)
    ensures Feistel(P(0xc9de9b00, 0x5dbb1bdc, 0x7fa0bf80, 0x384f8425), W(0x00123456, 0x789abcde), 3) == P(0x055d70ce, 0x95dd6e39, 0x7fa0bf80, 0x384f8425)
    ensures Feistel(P(0x055d70ce, 0x95dd6e39, 0x7fa0bf80, 0x384f8425), W(0xd169240a, 0x795f8925), 4) == P(0x055d70ce, 0x95dd6e39, 0xcd8bdc1b, 0x60c2f0e8)
    ensures Feistel(P(0x055d70ce, 0x95dd6e39, 0xcd8bdc1b, 0x60c2f0e8), W(0x6ae71c3d, 0x55ba6bf1), 5) == P(0x138583cd, 0x2132f85b, 0xcd8bdc1b, 0x60c2f0e8)
  {
    hide F;
    GroupF1a();
    GroupF1b();
  }

  lemma GroupF2a()
    ensures F(W(0x896272a6, 0x07782c92)) == W(0x72381196, 0x50358f5e)
    ensures F(W(0x2426c10d, 0x8f081350)) == W(0x3d68f605, 0xf0e7fbfb)
    ensures F(W(0x4ce1acb2, 0x5c4b76c5)) == W(0x6714ed54, 0xbc310864)
  {
    hide F;
    ThroughF(W(0x896272a6, 0x07782c92), [0x89, 0x62, 0x72, 0xa6, 0x07, 0x78, 0x2c, 0x92],
             [0x5b, 0x74, 0xe7, 0xb1, 0xcb, 0x12, 0x6d, 0x00], W(0x72381196, 0x50358f5e));
    ThroughF(W(0x2426c10d, 0x8f081350), [0x24, 0x26, 0xc1, 0x0d, 0x8f, 0x08, 0x13, 0x50],
             [0x7c, 0x3e, 0xbc, 0x4f, 0xa5, 0x72, 0x1f, 0xdf], W(0x3d68f605, 0xf0e7fbfb));
    ThroughF(W(0x4ce1acb2, 0x5c4b76c5), [0x4c, 0xe1, 0xac, 0xb2, 0x5c, 0x4b, 0x76, 0xc5],
             [0xf0, 0x0e, 0xce, 0x1b, 0xa3, 0x10, 0x3c, 0x6e], W(0x6714ed54, 0xbc310864));
  }

  lemma GroupF2b()
    ensures F(W(0xf7b170e5, 0x892aa5bb)) == W(0x0d9d1a06, 0xf3955a8f)
    ensures F(W(0xbd0a92b0, 0xa6f1986a)) == W(0x8f14b922, 0x79f2f132)
    ensures F(W(0xc8bb996e, 0xe830ff8a)) == W(0xf3db1f3e, 0x6cfb2800)
  {
    hide F;
    ThroughF(W(0xf7b170e5, 0x892aa5bb), [0xf7, 0xb1, 0x70, 0xe5, 0x89, 0x2a, 0xa5, 0xbb],
             [0xc1, 0x37, 0x7f, 0xb6, 0xb6, 0x6e, 0x20, 0x4b], W(0x0d9d1a06, 0xf3955a8f));
    ThroughF(W(0xbd0a92b0, 0xa6f1986a), [0xbd, 0x0a, 0x92, 0xb0, 0xa6, 0xf1, 0x98, 0x6a],
             [0xbe, 0xae, 0x00, 0x58, 0x21, 0x14, 0xe1, 0x9c], W(0x8f14b922, 0x79f2f132));
    ThroughF(W(0xc8bb996e, 0xe830ff8a), [0xc8, 0xbb, 0x99, 0x6e, 0xe8, 0x30, 0xff, 0x8a],
             [0x29, 0x96, 0x81, 0x88, 0x6c, 0x53, 0x9e, 0x1e], W(0xf3db1f3e, 0x6cfb2800));
  }

  lemma Group2(k: seq<Word64>)
    requires |k| == 24 && k[..18] == K18
    ensures Six(P(0x94f77e22, 0x0730fdcb, 0xb47423e0, 0x208ab2a8), k, 2, 6) == P(0x57d98d1f, 0x68b974bf, 0x2e4c6600, 0xb57cc4a0)
  {
    hide F, Feistel, Six;
    var p := P(0x94f77e22, 0x0730fdcb, 0xb47423e0, 0x208ab2a8);
    SixUnfold(p, k, 2);
    assert k[12] == k[..18][12] == W(0x1d950c84, 0x0048d159);
    assert k[13] == k[..18][13] == W(0xe26af37b, 0xffb72ea6);
    assert k[14] == k[..18][14] == W(0xe57e2495, 0xab9c70f5);
    assert k[15] == k[..18][15] == W(0x56e9afc7, 0x45a49029);
    assert k[16] == k[..18][16] == W(0x19080091, 0xa2b3c4d5);
    assert k[17] == k[..18][17] == W(0xe6f7ff6e, 0x5d4c3b2a);
    Rounds2();
  }

  lemma Rounds2()
    ensures Feistel(P(0x94f77e22, 0x0730fdcb, 0xb47423e0, 0x208ab2a8), W(0x1d950c84, 0x0048d159), 0) == P(0x94f77e22, 0x0730fdcb, 0xc64c3276, 0x70bf3df6)
    ensures Feistel(P(0x94f77e22, 0x0730fdcb, 0xc64c3276, 0x70bf3df6), W(0xe26af37b, 0xffb72ea6), 1) == P(0xa99f8827, 0xf7d70630, 0xc64c3276, 0x70bf3df6)
    ensures Feistel(P(0xa99f8827, 0xf7d70630, 0xc64c3276, 0x70bf3df6), W(0xe57e2495, 0xab9c70f5), 2) == P(0xa99f8827, 0xf7d70630, 0xa158df22, 0xcc8e3592)
    ensures Feistel(P(0xa99f8827, 0xf7d70630, 0xa158df22, 0xcc8e3592), W(0x56e9afc7, 0x45a49029), 3) == P(0xa4029221, 0x04425cbf, 0xa158df22, 0xcc8e3592)
    ensures Feistel(P(0xa4029221, 0x04425cbf, 0xa158df22, 0xcc8e3592), W(0x19080091, 0xa2b3c4d5), 4) == P(0xa4029221, 0x04425cbf, 0x2e4c6600, 0xb57cc4a0)
    ensures Feistel(P(0xa4029221, 0x04425cbf, 0x2e4c6600, 0xb57cc4a0), W(0xe6f7ff6e, 0x5d4c3b2a), 5) == P(0x57d98d1f, 0x68b974bf, 0x2e4c6600, 0xb57cc4a0)
  {
    hide F;
    GroupF2a();
    GroupF2b();
  }

  lemma Layers()
    ensures Layer(P(0x695e2dbc, 0x2a7211d1, 0x029d886d, 0x6c0dfb08), KL4, 0) == P(0x86b8f745, 0xaae24ad9, 0xed007390, 0xa60dba29)
    ensures Layer(P(0x138583cd, 0x2132f85b, 0xcd8bdc1b, 0x60c2f0e8), KL4, 1) == P(0x94f77e22, 0x0730fdcb, 0xb47423e0, 0x208ab2a8)
  {
  }

  lemma Whitened()
    ensures Whiten(P(0x01234567, 0x89abcdef, 0xfedcba98, 0x76543210), KW[0], KW[1]) == P(0x00000000, 0x00000000, 0x00000000, 0x00000000)
    ensures Swap(Whiten(P(0x57d98d1f, 0x68b974bf, 0x2e4c6600, 0xb57cc4a0), KW[3], KW[2])) == P(0x67673138, 0x54966973, 0x08570656, 0x48eabe43)
    ensures StorePair(P(0x67673138, 0x54966973, 0x08570656, 0x48eabe43)) == CIPHERTEXT
  {
  }

  /** Under these subkeys, whatever stands behind those that 18 rounds use, the plaintext becomes the ciphertext. */
  lemma KnownAnswer(k: seq<Word64>, kl: seq<Word64>)
    requires |k| == 24 && |kl| == 6 && k[..18] == K18 && kl[..4] == KL4
    ensures EncryptBytes(KEY, Subkeys(KW, k, kl), 3) == CIPHERTEXT
  {
    hide KL, KA, Kw128, K128, Kl128, Six, FL, FLInverse, LoadPair, StorePair, Groups, Whiten;
    KeyLoads();
    var s := Subkeys(KW, k, kl);
    var p := P(0x00000000, 0x00000000, 0x00000000, 0x00000000);
    GroupsUnfold(p, s);
    Group0(k);
    Group1(k);
    Group2(k);
    assert kl[0] == kl[..4][0] && kl[1] == kl[..4][1] && kl[2] == kl[..4][2] && kl[3] == kl[..4][3];
    Layers();
    Whitened();
  }
}
