/** DES as its standard (ANSI X3.92-1981, FIPS 46-3) defines it: the S-boxes and the permutation P, the key registers
    rotated step by step, sixteen rounds that exchange the halves, between the initial permutation and its inverse; and the
    proof that the packed, rotated form of des.c computes it. */
module DesStandard {
  import opened Words
  import opened DesKeys
  import opened DesPermutation
  import opened DesCipher
  import B = DesBoxes

  // ---- S-boxes ----

  /** Sixteen entries of four bits, the first one at the top. */
  function Entry(entries: bv64, column: bv6): bv32
    requires column < 16
  {
    ((entries >> (60 - 4 * column)) & 0xf) as bv32
  }

  /** The outer two bits of the input choose the row, the inner four the column. */
  function Chosen(x: bv6, row0: bv64, row1: bv64, row2: bv64, row3: bv64): bv32 {
    var column := (x >> 1) & 0xf;
    if x < 32 then Entry(if x & 1 == 0 then row0 else row1, column) else Entry(if x & 1 == 0 then row2 else row3, column)
  }

  function S1(x: bv6): bv32 {
    Chosen(x, 0xe4d12fb83a6c5907, 0x0f74e2d1a6cb9538, 0x41e8d62bfc973a50, 0xfc8249175b3ea06d)
  }

  function S2(x: bv6): bv32 {
    Chosen(x, 0xf18e6b34972dc05a, 0x3d47f28ec01a69b5, 0x0e7ba4d158c6932f, 0xd8a13f42b67c05e9)
  }

  function S3(x: bv6): bv32 {
    Chosen(x, 0xa09e63f51dc7b428, 0xd709346a285ecbf1, 0xd6498f30b12c5ae7, 0x1ad069874fe3b52c)
  }

  function S4(x: bv6): bv32 {
    Chosen(x, 0x7de3069a1285bc4f, 0xd8b56f03472c1ae9, 0xa690cb7df13e5284, 0x3f06a1d8945bc72e)
  }

  function S5(x: bv6): bv32 {
    Chosen(x, 0x2c417ab6853fd0e9, 0xeb2c47d150fa3986, 0x421bad78f9c5630e, 0xb8c71e2d6f09a453)
  }

  function S6(x: bv6): bv32 {
    Chosen(x, 0xc1af92680d34e75b, 0xaf427c9561de0b38, 0x9ef528c3704a1db6, 0x432c95fabe17608d)
  }

  function S7(x: bv6): bv32 {
    Chosen(x, 0x4b2ef08d3c975a61, 0xd0b7491ae35c2f86, 0x14bdc37eaf680592, 0x6bd814a7950fe23c)
  }

  function S8(x: bv6): bv32 {
    Chosen(x, 0xd2846fb1a93e50c7, 0x1fd8a374c56b0e92, 0x7b419ce206adf358, 0x21e74a8dfc90356b)
  }

  /** The four output bits of box g+1 at their place among the 32. */
  function SBox(g: bv6, x: bv6): Word
    requires g < 8
  {
    Word(if g == 0 then S1(x) << 28 else if g == 1 then S2(x) << 24 else if g == 2 then S3(x) << 20 else if g == 3 then S4(x) << 16
         else if g == 4 then S5(x) << 12 else if g == 5 then S6(x) << 8 else if g == 6 then S7(x) << 4 else S8(x))
  }

  // ---- the permutation P ----

  // The standard's table, four entries a line: each output bit, from the top, is the input bit that the table names,
  // 16, 7, 20, 21, 29, 12, 28, 17, 1, 15, 23, 26, 5, 18, 31, 10, 2, 8, 24, 14, 32, 27, 3, 9, 19, 13, 30, 6, 22, 11, 4, 25.

  function P1(x: bv32): bv32 { (((x >> 16) & 1) << 31) | (((x >> 25) & 1) << 30) | (((x >> 12) & 1) << 29) | (((x >> 11) & 1) << 28) }

  lemma P1Linear(x: bv32, y: bv32)
    ensures P1(Plus(x, y)) == Plus(P1(x), P1(y))
  {
  }

  function P2(x: bv32): bv32 { (((x >> 3) & 1) << 27) | (((x >> 20) & 1) << 26) | (((x >> 4) & 1) << 25) | (((x >> 15) & 1) << 24) }

  lemma P2Linear(x: bv32, y: bv32)
    ensures P2(Plus(x, y)) == Plus(P2(x), P2(y))
  {
  }

  function P3(x: bv32): bv32 { (((x >> 31) & 1) << 23) | (((x >> 17) & 1) << 22) | (((x >> 9) & 1) << 21) | (((x >> 6) & 1) << 20) }

  lemma P3Linear(x: bv32, y: bv32)
    ensures P3(Plus(x, y)) == Plus(P3(x), P3(y))
  {
  }

  function P4(x: bv32): bv32 { (((x >> 27) & 1) << 19) | (((x >> 14) & 1) << 18) | (((x >> 1) & 1) << 17) | (((x >> 22) & 1) << 16) }

  lemma P4Linear(x: bv32, y: bv32)
    ensures P4(Plus(x, y)) == Plus(P4(x), P4(y))
  {
  }

  function P5(x: bv32): bv32 { (((x >> 30) & 1) << 15) | (((x >> 24) & 1) << 14) | (((x >> 8) & 1) << 13) | (((x >> 18) & 1) << 12) }

  lemma P5Linear(x: bv32, y: bv32)
    ensures P5(Plus(x, y)) == Plus(P5(x), P5(y))
  {
  }

  function P6(x: bv32): bv32 { (((x >> 0) & 1) << 11) | (((x >> 5) & 1) << 10) | (((x >> 29) & 1) << 9) | (((x >> 23) & 1) << 8) }

  lemma P6Linear(x: bv32, y: bv32)
    ensures P6(Plus(x, y)) == Plus(P6(x), P6(y))
  {
  }

  function P7(x: bv32): bv32 { (((x >> 13) & 1) << 7) | (((x >> 19) & 1) << 6) | (((x >> 2) & 1) << 5) | (((x >> 26) & 1) << 4) }

  lemma P7Linear(x: bv32, y: bv32)
    ensures P7(Plus(x, y)) == Plus(P7(x), P7(y))
  {
  }

  function P8(x: bv32): bv32 { (((x >> 10) & 1) << 3) | (((x >> 21) & 1) << 2) | (((x >> 28) & 1) << 1) | (((x >> 7) & 1) << 0) }

  lemma P8Linear(x: bv32, y: bv32)
    ensures P8(Plus(x, y)) == Plus(P8(x), P8(y))
  {
  }

  /** Output bits 1 .. 16 and 17 .. 32; no two terms have a bit in common. */
  function PHigh(x: bv32): bv32 { Plus(Plus(P1(x), P2(x)), Plus(P3(x), P4(x))) }

  function PLow(x: bv32): bv32 { Plus(Plus(P5(x), P6(x)), Plus(P7(x), P8(x))) }

  function P(x: bv32): bv32 { Plus(PHigh(x), PLow(x)) }

  lemma PHighLinear(x: bv32, y: bv32)
    ensures PHigh(Plus(x, y)) == Plus(PHigh(x), PHigh(y))
  {
    hide Plus, P1, P2, P3, P4;
    P1Linear(x, y);
    P2Linear(x, y);
    P3Linear(x, y);
    P4Linear(x, y);
    FourSums(P1(x), P1(y), P2(x), P2(y), P3(x), P3(y), P4(x), P4(y));
  }

  lemma PLowLinear(x: bv32, y: bv32)
    ensures PLow(Plus(x, y)) == Plus(PLow(x), PLow(y))
  {
    hide Plus, P5, P6, P7, P8;
    P5Linear(x, y);
    P6Linear(x, y);
    P7Linear(x, y);
    P8Linear(x, y);
    FourSums(P5(x), P5(y), P6(x), P6(y), P7(x), P7(y), P8(x), P8(y));
  }

  lemma FourSums(a: bv32, a': bv32, b: bv32, b': bv32, c: bv32, c': bv32, d: bv32, d': bv32)
    ensures Plus(Plus(Plus(a, a'), Plus(b, b')), Plus(Plus(c, c'), Plus(d, d')))
         == Plus(Plus(Plus(a, b), Plus(c, d)), Plus(Plus(a', b'), Plus(c', d')))
  {
    hide Plus;
    PlusShuffle(a, a', b, b');
    PlusShuffle(c, c', d, d');
    PlusShuffle(Plus(a, b), Plus(a', b'), Plus(c, d), Plus(c', d'));
  }

  lemma PLinear(x: bv32, y: bv32)
    ensures P(Plus(x, y)) == Plus(P(x), P(y))
  {
    hide Plus, PHigh, PLow;
    PHighLinear(x, y);
    PLowLinear(x, y);
    PlusShuffle(PHigh(x), PHigh(y), PLow(x), PLow(y));
  }

  function Permute(a: Word): Word { Word(P(a.w)) }

  lemma PermuteLinear(a: Word, b: Word)
    ensures Permute(Xor(a, b)) == Xor(Permute(a), Permute(b))
  {
    hide P, Xor, Plus;
    PLinear(a.w, b.w);
    XorIsPlus(a.w, b.w);
    XorIsPlus(P(a.w), P(b.w));
    assert a == Word(a.w) && b == Word(b.w);
  }

  lemma Sp1(x: bv6)
    ensures B.Sp1(x) == TurnLeft(P(S1(x) << 28))
  {
  }

  lemma Sp2(x: bv6)
    ensures B.Sp2(x) == TurnLeft(P(S2(x) << 24))
  {
  }

  lemma Sp3(x: bv6)
    ensures B.Sp3(x) == TurnLeft(P(S3(x) << 20))
  {
  }

  lemma Sp4(x: bv6)
    ensures B.Sp4(x) == TurnLeft(P(S4(x) << 16))
  {
  }

  lemma Sp5(x: bv6)
    ensures B.Sp5(x) == TurnLeft(P(S5(x) << 12))
  {
  }

  lemma Sp6(x: bv6)
    ensures B.Sp6(x) == TurnLeft(P(S6(x) << 8))
  {
  }

  lemma Sp7(x: bv6)
    ensures B.Sp7(x) == TurnLeft(P(S7(x) << 4))
  {
  }

  lemma Sp8(x: bv6)
    ensures B.Sp8(x) == TurnLeft(P(S8(x)))
  {
  }

  // ---- the round function ----

  /** P of the word, rotated left by one place: how des.c keeps the halves. */
  function Spread(a: Word): Word { Rol(Permute(a), 1) }

  lemma RolIsTurn(x: bv32)
    ensures Rol(Word(x), 1) == Word(TurnLeft(x))
  {
  }

  lemma RolXor(a: Word, b: Word)
    ensures Rol(Xor(a, b), 1) == Xor(Rol(a, 1), Rol(b, 1))
  {
  }

  lemma SpreadLinear(a: Word, b: Word)
    ensures Spread(Xor(a, b)) == Xor(Spread(a), Spread(b))
  {
    hide Permute, Xor, Rol;
    PermuteLinear(a, b);
    RolXor(Permute(a), Permute(b));
  }

  /** The combined tables are the S-boxes followed by P, rotated. */
  lemma BoxIsSpread(g: bv6, x: bv6)
    requires g < 8
    ensures Box(g, x) == Spread(SBox(g, x))
  {
    hide P, TurnLeft, Rol, S1, S2, S3, S4, S5, S6, S7, S8, B.Sp1, B.Sp2, B.Sp3, B.Sp4, B.Sp5, B.Sp6, B.Sp7, B.Sp8;
    RolIsTurn(P(SBox(g, x).w));
    if g == 0 { Sp1(x); } else if g == 1 { Sp2(x); } else if g == 2 { Sp3(x); } else if g == 3 { Sp4(x); }
    else if g == 4 { Sp5(x); } else if g == 5 { Sp6(x); } else if g == 6 { Sp7(x); } else { Sp8(x); }
  }

  function Nibble(r: Word, raw0: Word, raw1: Word, g: bv6): Word
    requires g < 8
  {
    SBox(g, StandardIndex(r, raw0, raw1, g))
  }

  /** The outputs of the eight S-boxes side by side. */
  function Nibbles(r: Word, raw0: Word, raw1: Word): Word {
    Xor(Xor(Xor(Xor(Xor(Xor(Xor(Nibble(r, raw0, raw1, 0), Nibble(r, raw0, raw1, 1)), Nibble(r, raw0, raw1, 2)), Nibble(r, raw0, raw1, 3)),
            Nibble(r, raw0, raw1, 4)), Nibble(r, raw0, raw1, 5)), Nibble(r, raw0, raw1, 6)), Nibble(r, raw0, raw1, 7))
  }

  /** The cipher function of the standard: expansion, round key, S-boxes, P. */
  function StandardF(r: Word, raw0: Word, raw1: Word): Word {
    Permute(Nibbles(r, raw0, raw1))
  }

  lemma SumIsF(r: Word, raw0: Word, raw1: Word)
    ensures StandardSum(r, raw0, raw1) == Rol(StandardF(r, raw0, raw1), 1)
  {
    hide Xor, Spread, Box, SBox, StandardIndex;
    var i0, i1, i2, i3 := StandardIndex(r, raw0, raw1, 0), StandardIndex(r, raw0, raw1, 1), StandardIndex(r, raw0, raw1, 2), StandardIndex(r, raw0, raw1, 3);
    var i4, i5, i6, i7 := StandardIndex(r, raw0, raw1, 4), StandardIndex(r, raw0, raw1, 5), StandardIndex(r, raw0, raw1, 6), StandardIndex(r, raw0, raw1, 7);
    BoxIsSpread(0, i0);
    BoxIsSpread(1, i1);
    BoxIsSpread(2, i2);
    BoxIsSpread(3, i3);
    BoxIsSpread(4, i4);
    BoxIsSpread(5, i5);
    BoxIsSpread(6, i6);
    BoxIsSpread(7, i7);
    SpreadSum(Nibble(r, raw0, raw1, 0), Nibble(r, raw0, raw1, 1), Nibble(r, raw0, raw1, 2), Nibble(r, raw0, raw1, 3),
              Nibble(r, raw0, raw1, 4), Nibble(r, raw0, raw1, 5), Nibble(r, raw0, raw1, 6), Nibble(r, raw0, raw1, 7));
    assert Spread(Nibbles(r, raw0, raw1)) == Rol(StandardF(r, raw0, raw1), 1) by { SpreadIs(Nibbles(r, raw0, raw1)); }
  }

  lemma SpreadIs(a: Word)
    ensures Spread(a) == Rol(Permute(a), 1)
  {
  }

  lemma SpreadSum(a: Word, b: Word, c: Word, d: Word, e: Word, f: Word, g: Word, h: Word)
    ensures Spread(Xor(Xor(Xor(Xor(Xor(Xor(Xor(a, b), c), d), e), f), g), h))
         == Xor(Xor(Xor(Xor(Xor(Xor(Xor(Spread(a), Spread(b)), Spread(c)), Spread(d)), Spread(e)), Spread(f)), Spread(g)), Spread(h))
  {
    hide Xor, Spread;
    var s1 := Xor(a, b);
    var s2 := Xor(s1, c);
    var s3 := Xor(s2, d);
    var s4 := Xor(s3, e);
    var s5 := Xor(s4, f);
    var s6 := Xor(s5, g);
    SpreadLinear(a, b);
    SpreadLinear(s1, c);
    SpreadLinear(s2, d);
    SpreadLinear(s3, e);
    SpreadLinear(s4, f);
    SpreadLinear(s5, g);
    SpreadLinear(s6, h);
  }

  // ---- the round keys ----

  /** The permuted choices of the key as the standard prints them: bits are numbered from 1, the key's from 1 to 64. */
  function Choice1(): (s: seq<nat>)
    ensures |s| == 56
  {
    [57, 49, 41, 33, 25, 17,  9,  1, 58, 50, 42, 34, 26, 18] +
    [10,  2, 59, 51, 43, 35, 27, 19, 11,  3, 60, 52, 44, 36] +
    [63, 55, 47, 39, 31, 23, 15,  7, 62, 54, 46, 38, 30, 22] +
    [14,  6, 61, 53, 45, 37, 29, 21, 13,  5, 28, 20, 12,  4]
  }

  function Choice2(): (s: seq<nat>)
    ensures |s| == 48
  {
    [14, 17, 11, 24,  1,  5,  3, 28, 15,  6, 21, 10] +
    [23, 19, 12,  4, 26,  8, 16,  7, 27, 20, 13,  2] +
    [41, 52, 31, 37, 47, 55, 30, 40, 51, 45, 33, 48] +
    [44, 49, 39, 56, 34, 53, 46, 42, 50, 36, 29, 32]
  }

  predicate OneLess(p: seq<nat>, c: seq<nat>) {
    |p| == |c| && forall j | 0 <= j < |p| :: p[j] + 1 == c[j]
  }

  lemma OneLessBehind(p: seq<nat>, c: seq<nat>, q: seq<nat>, d: seq<nat>)
    requires OneLess(p, c) && OneLess(q, d)
    ensures OneLess(p + q, c + d)
  {
  }

  lemma OneLessAt(p: seq<nat>, c: seq<nat>, j: nat)
    requires OneLess(p, c) && j < |p|
    ensures |c| == |p| && p[j] + 1 == c[j]
  {
  }

  // The tables of des.c count from 0.

  lemma FirstRow0()
    ensures OneLess([56, 48, 40, 32, 24, 16, 8, 0, 57, 49, 41, 33, 25, 17],
                    [57, 49, 41, 33, 25, 17, 9, 1, 58, 50, 42, 34, 26, 18])
  {
  }

  lemma FirstRow1()
    ensures OneLess([9, 1, 58, 50, 42, 34, 26, 18, 10, 2, 59, 51, 43, 35],
                    [10, 2, 59, 51, 43, 35, 27, 19, 11, 3, 60, 52, 44, 36])
  {
  }

  lemma FirstRow2()
    ensures OneLess([62, 54, 46, 38, 30, 22, 14, 6, 61, 53, 45, 37, 29, 21],
                    [63, 55, 47, 39, 31, 23, 15, 7, 62, 54, 46, 38, 30, 22])
  {
  }

  lemma FirstRow3()
    ensures OneLess([13, 5, 60, 52, 44, 36, 28, 20, 12, 4, 27, 19, 11, 3],
                    [14, 6, 61, 53, 45, 37, 29, 21, 13, 5, 28, 20, 12, 4])
  {
  }

  lemma FirstChoice()
    ensures OneLess(PC1(), Choice1())
  {
    hide OneLess;
    var p0: seq<nat>, c0: seq<nat> := [56, 48, 40, 32, 24, 16, 8, 0, 57, 49, 41, 33, 25, 17],
      [57, 49, 41, 33, 25, 17, 9, 1, 58, 50, 42, 34, 26, 18];
    FirstRow0();
    var p1: seq<nat>, c1: seq<nat> := [9, 1, 58, 50, 42, 34, 26, 18, 10, 2, 59, 51, 43, 35],
      [10, 2, 59, 51, 43, 35, 27, 19, 11, 3, 60, 52, 44, 36];
    FirstRow1();
    var p2: seq<nat>, c2: seq<nat> := [62, 54, 46, 38, 30, 22, 14, 6, 61, 53, 45, 37, 29, 21],
      [63, 55, 47, 39, 31, 23, 15, 7, 62, 54, 46, 38, 30, 22];
    FirstRow2();
    var p3: seq<nat>, c3: seq<nat> := [13, 5, 60, 52, 44, 36, 28, 20, 12, 4, 27, 19, 11, 3],
      [14, 6, 61, 53, 45, 37, 29, 21, 13, 5, 28, 20, 12, 4];
    FirstRow3();
    OneLessBehind(p0, c0, p1, c1);
    OneLessBehind(p0 + p1, c0 + c1, p2, c2);
    OneLessBehind(p0 + p1 + p2, c0 + c1 + c2, p3, c3);
  }

  lemma SecondRow0()
    ensures OneLess([13, 16, 10, 23, 0, 4, 2, 27, 14, 5, 20, 9],
                    [14, 17, 11, 24, 1, 5, 3, 28, 15, 6, 21, 10])
  {
  }

  lemma SecondRow1()
    ensures OneLess([22, 18, 11, 3, 25, 7, 15, 6, 26, 19, 12, 1],
                    [23, 19, 12, 4, 26, 8, 16, 7, 27, 20, 13, 2])
  {
  }

  lemma SecondRow2()
    ensures OneLess([40, 51, 30, 36, 46, 54, 29, 39, 50, 44, 32, 47],
                    [41, 52, 31, 37, 47, 55, 30, 40, 51, 45, 33, 48])
  {
  }

  lemma SecondRow3()
    ensures OneLess([43, 48, 38, 55, 33, 52, 45, 41, 49, 35, 28, 31],
                    [44, 49, 39, 56, 34, 53, 46, 42, 50, 36, 29, 32])
  {
  }

  lemma SecondChoice()
    ensures OneLess(PC2(), Choice2())
  {
    hide OneLess;
    var p0: seq<nat>, c0: seq<nat> := [13, 16, 10, 23, 0, 4, 2, 27, 14, 5, 20, 9],
      [14, 17, 11, 24, 1, 5, 3, 28, 15, 6, 21, 10];
    SecondRow0();
    var p1: seq<nat>, c1: seq<nat> := [22, 18, 11, 3, 25, 7, 15, 6, 26, 19, 12, 1],
      [23, 19, 12, 4, 26, 8, 16, 7, 27, 20, 13, 2];
    SecondRow1();
    var p2: seq<nat>, c2: seq<nat> := [40, 51, 30, 36, 46, 54, 29, 39, 50, 44, 32, 47],
      [41, 52, 31, 37, 47, 55, 30, 40, 51, 45, 33, 48];
    SecondRow2();
    var p3: seq<nat>, c3: seq<nat> := [43, 48, 38, 55, 33, 52, 45, 41, 49, 35, 28, 31],
      [44, 49, 39, 56, 34, 53, 46, 42, 50, 36, 29, 32];
    SecondRow3();
    OneLessBehind(p0, c0, p1, c1);
    OneLessBehind(p0 + p1, c0 + c1, p2, c2);
    OneLessBehind(p0 + p1 + p2, c0 + c1 + c2, p3, c3);
  }

  /** Bit n of the key, counted from 1. */
  predicate NumberedBit(key: seq<byte>, n: nat)
    requires |key| == 8
  {
    0 < n <= 64 && (key[(n - 1) / 8] >> (7 - Shiftable((n - 1) % 8))) & 1 == 1
  }

  function Shiftable(n: nat): (r: bv4)
    requires n < 8
    ensures r < 8
  {
    if n == 0 then 0 else if n == 1 then 1 else if n == 2 then 2 else if n == 3 then 3
    else if n == 4 then 4 else if n == 5 then 5 else if n == 6 then 6 else 7
  }

  lemma BitIsNumbered(key: seq<byte>, l: nat)
    requires |key| == 8 && l < 64
    ensures KeyBit(key, l) <==> NumberedBit(key, l + 1)
  {
    MaskIsShift(key[l / 8], l % 8);
  }

  lemma MaskIsShift(x: byte, m: nat)
    requires m < 8
    ensures BitSet(x, m) <==> (x >> (7 - Shiftable(m))) & 1 == 1
  {
  }

  /** The key registers of round i+1: selected by the first choice, then shifted before every round. */
  function StandardRegisters(key: seq<byte>, i: nat): (s: seq<bool>)
    requires |key| == 8 && i < 16
    ensures |s| == 56
  {
    Rotated(if i == 0 then FirstBits(key) else StandardRegisters(key, i - 1), Shift(i))
  }

  function FirstBits(key: seq<byte>): (s: seq<bool>)
    requires |key| == 8
    ensures |s| == 56
  {
    seq(56, j requires 0 <= j < 56 => NumberedBit(key, Choice1()[j]))
  }

  lemma FirstIsPermuted(key: seq<byte>)
    requires |key| == 8
    ensures FirstBits(key) == Permuted(key)
  {
    hide NumberedBit, KeyBit, PC1, Choice1;
    FirstChoice();
    forall j | 0 <= j < 56 ensures FirstBits(key)[j] == Permuted(key)[j] {
      OneLessAt(PC1(), Choice1(), j);
      BitIsNumbered(key, PC1()[j]);
    }
  }

  predicate NumberedCell(s: seq<bool>, n: nat)
    requires |s| == 56
  {
    0 < n <= 56 && s[n - 1]
  }

  /** Half of the round key, 24 bits selected by the second choice. */
  function StandardKey(key: seq<byte>, i: nat, from: nat): Word
    requires |key| == 8 && i < 16 && from + 24 <= 48
  {
    Collect(SecondBits(StandardRegisters(key, i), from), 24)
  }

  function SecondBits(registers: seq<bool>, from: nat): (s: seq<bool>)
    requires |registers| == 56 && from + 24 <= 48
    ensures |s| == 24
  {
    seq(24, j requires 0 <= j < 24 => NumberedCell(registers, Choice2()[from + j]))
  }

  lemma SecondIsPicked(registers: seq<bool>, from: nat)
    requires |registers| == 56 && from + 24 <= 48
    ensures SecondBits(registers, from) == Picked(registers, from)
  {
    hide PC2, Choice2;
    SecondChoice();
    forall j | 0 <= j < 24 ensures SecondBits(registers, from)[j] == Picked(registers, from)[j] {
      var c: Cell := PC2()[from + j];
      OneLessAt(PC2(), Choice2(), from + j);
      assert NumberedCell(registers, c + 1) == registers[c];
    }
  }

  lemma {:induction false} RegistersAgree(key: seq<byte>, i: nat)
    requires |key| == 8 && i < 16
    ensures StandardRegisters(key, i) == Registers(key, i)
    decreases i
  {
    hide Registers, Permuted, Rotated, Shift, FirstBits;
    RegistersFollowTheStandard(key, i);
    if i > 0 { RegistersAgree(key, i - 1); } else { FirstIsPermuted(key); }
  }

  /** Bit j of either half, traced back to the user key. */
  lemma KeyAgrees(key: seq<byte>, i: nat, from: nat, j: nat)
    requires |key| == 8 && i < 16 && from + 24 <= 48 && j < 24
    ensures StandardKey(key, i, from) == RoundHalf(key, i, from)
    ensures HasBit(StandardKey(key, i, from), j) <==> KeyBit(key, PC1()[Turned(PC2()[from + j], TOTROT()[i])])
  {
    hide Registers, StandardRegisters, SecondBits, Picked, Collect, HasBit, KeyBit, PC1, PC2, TOTROT;
    RegistersAgree(key, i);
    SecondIsPicked(Registers(key, i), from);
    RoundHalfBits(key, i, from, j);
  }

  // ---- the rounds ----

  /** The halves change places in every round. */
  function StandardRound(b: Block, raw0: Word, raw1: Word): Block {
    Block(b.r, Xor(b.l, StandardF(b.r, raw0, raw1)))
  }

  function StandardRounds(n: nat, b: Block, key: seq<byte>): Block
    requires n <= 16 && |key| == 8
  {
    if n == 0 then b
    else StandardRound(StandardRounds(n - 1, b, key), StandardKey(key, n - 1, 0), StandardKey(key, n - 1, 24))
  }

  /** Both halves rotated left by one. */
  function RotatedBlock(b: Block): Block { Block(Rol(b.l, 1), Rol(b.r, 1)) }

  /** The block as des.c holds it after n rounds: rotated, and with the halves in each other's place when n is odd. */
  function Held(n: nat, b: Block): Block {
    if n % 2 == 0 then RotatedBlock(b) else Exchange(RotatedBlock(b))
  }

  lemma MixIsF(l: Word, r: Word, raw0: Word, raw1: Word)
    ensures Mix(Rol(l, 1), Rol(r, 1), Cook0(raw0, raw1), Cook1(raw0, raw1)) == Rol(Xor(l, StandardF(r, raw0, raw1)), 1)
  {
    hide Mix, Cook0, Cook1, StandardF, StandardSum, Rol, Xor;
    MixIsStandard(Rol(l, 1), r, raw0, raw1);
    SumIsF(r, raw0, raw1);
    RolXor(l, StandardF(r, raw0, raw1));
  }

  lemma RoundIsStandard(n: nat, b: Block, raw0: Word, raw1: Word)
    ensures Round(n % 2 == 0, Held(n, b), Cook0(raw0, raw1), Cook1(raw0, raw1)) == Held(n + 1, StandardRound(b, raw0, raw1))
  {
    hide Mix, Cook0, Cook1, StandardF, Rol, Xor;
    MixIsF(b.l, b.r, raw0, raw1);
    NextParity(n);
  }

  lemma NextParity(n: nat)
    ensures (n + 1) % 2 == 0 <==> n % 2 != 0
  {
  }

  lemma {:induction false} RoundsAreStandard(n: nat, b: Block, key: seq<byte>)
    requires n <= 16 && |key| == 8
    ensures Rounds(n, RotatedBlock(b), Schedule(key, EN0)) == Held(n, StandardRounds(n, b, key))
    decreases n
  {
    hide *;
    var keys := Schedule(key, EN0);
    if n == 0 {
      RoundsStart(RotatedBlock(b), keys);
      StandardStart(b, key);
    } else {
      RoundsAreStandard(n - 1, b, key);
      RoundsStep(n - 1, RotatedBlock(b), keys);
      ScheduleIsCooked(key, n - 1);
      RoundIsStandard(n - 1, StandardRounds(n - 1, b, key), StandardKey(key, n - 1, 0), StandardKey(key, n - 1, 24));
      StandardStep(n, b, key);
    }
  }

  lemma StandardStart(b: Block, key: seq<byte>)
    requires |key| == 8
    ensures StandardRounds(0, b, key) == b && Held(0, b) == RotatedBlock(b)
  {
  }

  lemma StandardStep(n: nat, b: Block, key: seq<byte>)
    requires 0 < n <= 16 && |key| == 8
    ensures StandardRounds(n, b, key)
         == StandardRound(StandardRounds(n - 1, b, key), StandardKey(key, n - 1, 0), StandardKey(key, n - 1, 24))
  {
    hide StandardRound, StandardKey;
  }

  lemma ScheduleIsCooked(key: seq<byte>, i: nat)
    requires |key| == 8 && i < 16
    ensures Schedule(key, EN0)[2 * i] == Cook0(StandardKey(key, i, 0), StandardKey(key, i, 24))
    ensures Schedule(key, EN0)[2 * i + 1] == Cook1(StandardKey(key, i, 0), StandardKey(key, i, 24))
  {
    hide Cook0, Cook1, RoundHalf, StandardKey;
    KeyAgrees(key, i, 0, 0);
    KeyAgrees(key, i, 24, 0);
    assert 2 * i / 2 == i && (2 * i + 1) / 2 == i && 2 * i % 2 == 0 && (2 * i + 1) % 2 == 1;
  }

  // ---- the initial permutation ----

  /** A bit of p is the bit of b that the table names. */
  predicate IPBit(b: Block, p: Block, row: bv6, column: bv6)
    requires row < 8 && column < 8
  {
    BitOf(Raw(p), 8 * row + column) == BitOf(Raw(b), StandardSource(row, column))
  }

  /** p is the initial permutation of b. */
  ghost predicate IsIP(b: Block, p: Block) {
    forall row: bv6, column: bv6 | row < 8 && column < 8 :: IPBit(b, p, row, column)
  }

  /** The initial permutation without the rotation of des.c. */
  function StandardIP(b: Block): Block { Boxed(RotatedBack(DeltaIP(Raw(b)))) }

  lemma StandardIPIsIP(b: Block)
    ensures IsIP(b, StandardIP(b)) && Initial(b) == RotatedBlock(StandardIP(b))
  {
    hide BitOf, DeltaIP, StandardSource;
    forall row: bv6, column: bv6 | row < 8 && column < 8
      ensures IPBit(b, StandardIP(b), row, column)
    {
      hide RotatedBack;
      DeltaIPIsStandard(Raw(b), row, column);
    }
    var h := DeltaIP(Raw(b));
    TurnedBack(h.l);
    TurnedBack(h.r);
  }

  lemma TurnedBack(x: bv32)
    ensures Rol(Word(TurnRight(x)), 1) == Word(x)
  {
    hide Rol, TurnLeft, TurnRight;
    RolIsTurn(TurnRight(x));
    TurnsCancel(x);
  }

  predicate SameBit(a: Halves, b: Halves, row: bv6, column: bv6)
    requires row < 8 && column < 8
  {
    BitOf(a, 8 * row + column) == BitOf(b, 8 * row + column)
  }

  /** The bits of a block determine it. */
  lemma BitsDetermine(a: Halves, b: Halves)
    requires forall row: bv6, column: bv6 | row < 8 && column < 8 :: SameBit(a, b, row, column)
    ensures a == b
  {
    hide SameBit, RowBits;

    RowDetermines(a, b, 0);
    RowDetermines(a, b, 1);
    RowDetermines(a, b, 2);
    RowDetermines(a, b, 3);
    RowDetermines(a, b, 4);
    RowDetermines(a, b, 5);
    RowDetermines(a, b, 6);
    RowDetermines(a, b, 7);
    AllRows(Join(a), Join(b));
    SplitJoin(a);
    SplitJoin(b);
  }

  function RowBits(t: bv64, row: bv6): bv64
    requires row < 8
  {
    (t >> (56 - 8 * row)) & 0xff
  }

  lemma RowDetermines(a: Halves, b: Halves, row: bv6)
    requires row < 8 && forall column: bv6 | column < 8 :: SameBit(a, b, row, column)
    ensures RowBits(Join(a), row) == RowBits(Join(b), row)
  {
    hide Join, RowBits;
    assert SameBit(a, b, row, 0) && SameBit(a, b, row, 1) && SameBit(a, b, row, 2) && SameBit(a, b, row, 3);
    assert SameBit(a, b, row, 4) && SameBit(a, b, row, 5) && SameBit(a, b, row, 6) && SameBit(a, b, row, 7);
    EightBits(Join(a), Join(b), row);
  }

  lemma EightBits(t: bv64, u: bv64, row: bv6)
    requires row < 8
    requires ((t >> (63 - (8 * row + 0))) & 1 == 1) == ((u >> (63 - (8 * row + 0))) & 1 == 1)
    requires ((t >> (63 - (8 * row + 1))) & 1 == 1) == ((u >> (63 - (8 * row + 1))) & 1 == 1)
    requires ((t >> (63 - (8 * row + 2))) & 1 == 1) == ((u >> (63 - (8 * row + 2))) & 1 == 1)
    requires ((t >> (63 - (8 * row + 3))) & 1 == 1) == ((u >> (63 - (8 * row + 3))) & 1 == 1)
    requires ((t >> (63 - (8 * row + 4))) & 1 == 1) == ((u >> (63 - (8 * row + 4))) & 1 == 1)
    requires ((t >> (63 - (8 * row + 5))) & 1 == 1) == ((u >> (63 - (8 * row + 5))) & 1 == 1)
    requires ((t >> (63 - (8 * row + 6))) & 1 == 1) == ((u >> (63 - (8 * row + 6))) & 1 == 1)
    requires ((t >> (63 - (8 * row + 7))) & 1 == 1) == ((u >> (63 - (8 * row + 7))) & 1 == 1)
    ensures RowBits(t, row) == RowBits(u, row)
  {
  }

  lemma AllRows(t: bv64, u: bv64)
    requires RowBits(t, 0) == RowBits(u, 0) && RowBits(t, 1) == RowBits(u, 1) && RowBits(t, 2) == RowBits(u, 2)
    requires RowBits(t, 3) == RowBits(u, 3) && RowBits(t, 4) == RowBits(u, 4) && RowBits(t, 5) == RowBits(u, 5)
    requires RowBits(t, 6) == RowBits(u, 6) && RowBits(t, 7) == RowBits(u, 7)
    ensures t == u
  {
  }

  /** Every block has exactly one initial permutation, and every block is the initial permutation of exactly one. */
  lemma IPIsBijective(b: Block, p: Block)
    ensures IsIP(b, p) <==> p == StandardIP(b)
    ensures IsIP(b, p) <==> b == Final(Exchange(RotatedBlock(p)))
  {
    hide BitOf, DeltaIP, StandardSource, StandardIP, Initial, Final, RotatedBlock, Exchange;
    StandardIPIsIP(b);
    if IsIP(b, p) {
      forall row: bv6, column: bv6 | row < 8 && column < 8 ensures SameBit(Raw(p), Raw(StandardIP(b)), row, column) {
        assert IPBit(b, p, row, column) && IPBit(b, StandardIP(b), row, column);
      }
      BitsDetermine(Raw(p), Raw(StandardIP(b)));
      BoxedRaw(p);
      BoxedRaw(StandardIP(b));
    }
    FinalUndoesInitial(b);
    var c := Final(Exchange(RotatedBlock(p)));
    FinalUndoesInitial(Exchange(RotatedBlock(p)));
    StandardIPIsIP(c);
    ExchangeTwice(RotatedBlock(p));
    RotationInjective(p, StandardIP(c));
  }

  lemma BoxedRaw(b: Block)
    ensures Boxed(Raw(b)) == b
  {
  }

  lemma ExchangeTwice(b: Block)
    ensures Exchange(Exchange(b)) == b
  {
  }

  lemma RotationInjective(b: Block, c: Block)
    ensures RotatedBlock(b) == RotatedBlock(c) ==> b == c
  {
    RolInjective(b.l, c.l);
    RolInjective(b.r, c.r);
    hide Rol;
  }

  lemma RolInjective(a: Word, b: Word)
    ensures Rol(a, 1) == Rol(b, 1) ==> a == b
  {
  }

  // ---- the cipher ----

  /** DES encryption of the routine is DES encryption of the standard: from the initial permutation p of the block, sixteen
      rounds under the standard's round keys; the result is the one block whose initial permutation is the two halves that
      come out, exchanged. */
  lemma CipherIsStandard(b: Block, key: seq<byte>, p: Block, c: Block)
    requires |key| == 8 && IsIP(b, p)
    ensures c == Cipher(b, key, EN0) <==> IsIP(c, Exchange(StandardRounds(16, p, key)))
  {
    hide *;
    IPIsBijective(b, p);
    StandardIPIsIP(b);
    RoundsAreStandard(16, p, key);
    var q := StandardRounds(16, p, key);
    HeldSixteen(q);
    CipherParts(b, key);
    IPIsBijective(c, Exchange(q));
  }

  lemma HeldSixteen(q: Block)
    ensures Held(16, q) == RotatedBlock(q) && RotatedBlock(Exchange(q)) == Exchange(RotatedBlock(q))
    ensures Exchange(Exchange(RotatedBlock(q))) == RotatedBlock(q)
  {
    hide Rol;
  }

  lemma CipherParts(b: Block, key: seq<byte>)
    requires |key| == 8
    ensures Cipher(b, key, EN0) == Final(Rounds(16, Initial(b), Schedule(key, EN0)))
  {
    hide Final, Initial, Rounds, Schedule;
  }

  /** ... and decryption finds the block that the standard encrypts to the given one. */
  lemma DecryptionIsStandard(c: Block, key: seq<byte>, p: Block)
    requires |key| == 8
    ensures IsIP(Cipher(c, key, DE1), p) ==> IsIP(c, Exchange(StandardRounds(16, p, key)))
  {
    hide *;
    var b := Cipher(c, key, DE1);
    CipherInverts(c, key, DE1);
    OppositeOfDecryption();
    if IsIP(b, p) { CipherIsStandard(b, key, p, c); }
  }

  lemma OppositeOfDecryption()
    ensures Opposite(DE1) == EN0
  {
  }
}
