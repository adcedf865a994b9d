/** CAST5's key network (cast5.c): two registers of four words, stored last word first and read a byte at a time, against
    the byte formulas of section 2.4 of RFC 2144. The S-boxes are arbitrary. */
module Cast5Keys {
  import opened Words

  /** Four tables of 256 words, one after the other. */
  type Boxes = s: seq<Word> | |s| == 1024 witness seq(1024, i => Word(0))

  function S(ss: Boxes, row: nat, b: byte): Word
    requires row < 4
  {
    ss[256 * row + b as int]
  }

  // ---- the network as the RFC writes it, on registers of sixteen bytes ----

  /** A word with four table words added, and a fifth from table `row`. */
  function Mixed(ks: Boxes, w: Word, a: byte, b: byte, c: byte, d: byte, row: nat, e: byte): Word
    requires row < 4
  {
    Xor(Xor(Xor(Xor(Xor(w, S(ks, 0, a)), S(ks, 1, b)), S(ks, 2, c)), S(ks, 3, d)), S(ks, row, e))
  }

  /** z0 .. zF from x0 .. xF; each group of four bytes reads the ones before it. */
  function ToZ(ks: Boxes, x: seq<byte>): (z: seq<byte>)
    requires |x| == 16
    ensures |z| == 16
  {
    var z4 := Store32(Mixed(ks, Load32(x[..4]), x[13], x[15], x[12], x[14], 2, x[8]));
    var z8 := z4 + Store32(Mixed(ks, Load32(x[8..12]), z4[0], z4[2], z4[1], z4[3], 3, x[10]));
    var z12 := z8 + Store32(Mixed(ks, Load32(x[12..]), z8[7], z8[6], z8[5], z8[4], 0, x[9]));
    z12 + Store32(Mixed(ks, Load32(x[4..8]), z12[10], z12[9], z12[11], z12[8], 1, x[11]))
  }

  /** The next x0 .. xF from z0 .. zF. */
  function ToX(ks: Boxes, z: seq<byte>): (x: seq<byte>)
    requires |z| == 16
    ensures |x| == 16
  {
    var x4 := Store32(Mixed(ks, Load32(z[8..12]), z[5], z[7], z[4], z[6], 2, z[0]));
    var x8 := x4 + Store32(Mixed(ks, Load32(z[..4]), x4[0], x4[2], x4[1], x4[3], 3, z[2]));
    var x12 := x8 + Store32(Mixed(ks, Load32(z[4..8]), x8[7], x8[6], x8[5], x8[4], 0, z[1]));
    x12 + Store32(Mixed(ks, Load32(z[12..]), x12[10], x12[9], x12[11], x12[8], 1, z[3]))
  }

  /** The five positions that make up a subkey. */
  datatype Pick = Pick(a: nat, b: nat, c: nat, d: nat, e: nat)

  predicate InRegister(p: Pick) {
    p.a < 16 && p.b < 16 && p.c < 16 && p.d < 16 && p.e < 16
  }

  /** Four table words added, and a fifth from table `row`. */
  function KeyWord(ks: Boxes, a: byte, b: byte, c: byte, d: byte, row: nat, e: byte): Word
    requires row < 4
  {
    Xor(Xor(Xor(Xor(S(ks, 0, a), S(ks, 1, b)), S(ks, 2, c)), S(ks, 3, d)), S(ks, row, e))
  }

  function Subkey(ks: Boxes, s: seq<byte>, p: Pick, row: nat): Word
    requires |s| == 16 && InRegister(p) && row < 4
  {
    KeyWord(ks, s[p.a], s[p.b], s[p.c], s[p.d], row, s[p.e])
  }

  /** Four subkeys of one register; the fifth table is each of S5 .. S8 in turn. */
  function FourSubkeys(ks: Boxes, s: seq<byte>, p: seq<Pick>): (r: seq<Word>)
    requires |s| == 16 && |p| == 4 && forall i | 0 <= i < 4 :: InRegister(p[i])
    ensures |r| == 4
  {
    [Subkey(ks, s, p[0], 0), Subkey(ks, s, p[1], 1), Subkey(ks, s, p[2], 2), Subkey(ks, s, p[3], 3)]
  }

  /** K1 .. K4, K5 .. K8, K9 .. K12 and K13 .. K16. */
  function Picks(): (p: seq<seq<Pick>>)
    ensures |p| == 4 && forall g | 0 <= g < 4 :: |p[g]| == 4 && forall i | 0 <= i < 4 :: InRegister(p[g][i])
  {
    [[Pick(8, 9, 7, 6, 2), Pick(10, 11, 5, 4, 6), Pick(12, 13, 3, 2, 9), Pick(14, 15, 1, 0, 12)],
     [Pick(3, 2, 12, 13, 8), Pick(1, 0, 14, 15, 13), Pick(7, 6, 8, 9, 3), Pick(5, 4, 10, 11, 7)],
     [Pick(3, 2, 12, 13, 9), Pick(1, 0, 14, 15, 12), Pick(7, 6, 8, 9, 2), Pick(5, 4, 10, 11, 6)],
     [Pick(8, 9, 7, 6, 3), Pick(10, 11, 5, 4, 7), Pick(12, 13, 3, 2, 8), Pick(14, 15, 1, 0, 13)]]
  }

  /** Sixteen subkeys, and the register they leave behind. */
  datatype Half = Half(keys: seq<Word>, x: seq<byte>)

  function HalfSchedule(ks: Boxes, x: seq<byte>): (h: Half)
    requires |x| == 16
    ensures |h.keys| == 16 && |h.x| == 16
  {
    var z1 := ToZ(ks, x);
    var x1 := ToX(ks, z1);
    var z2 := ToZ(ks, x1);
    var x2 := ToX(ks, z2);
    Half(FourSubkeys(ks, z1, Picks()[0]) + FourSubkeys(ks, x1, Picks()[1])
         + FourSubkeys(ks, z2, Picks()[2]) + FourSubkeys(ks, x2, Picks()[3]), x2)
  }

  /** K1 .. K32: the second half carries on from the register of the first. */
  function Schedule(ks: Boxes, x: seq<byte>): (r: seq<Word>)
    requires |x| == 16
    ensures |r| == 32
  {
    var first := HalfSchedule(ks, x);
    first.keys + HalfSchedule(ks, first.x).keys
  }

  /** Short keys are filled up with zero bytes. */
  function Padded(key: seq<byte>): (r: seq<byte>)
    requires |key| <= 16
    ensures |r| == 16
  {
    key + seq(16 - |key|, i => 0 as byte)
  }

  lemma PaddedZeros(key: seq<byte>, n: nat)
    requires |key| + n <= 16
    ensures Padded(key + seq(n, i => 0 as byte)) == Padded(key)
  {
  }

  // ---- the network seen from outside ----

  /** A subkey by the places of its five table entries. */
  lemma KeyWordEntries(ks: Boxes, a: byte, b: byte, c: byte, d: byte, row: nat, e: byte)
    requires row < 4
    ensures KeyWord(ks, a, b, c, d, row, e)
         == Xor(Xor(Xor(Xor(ks[a as int], ks[256 + b as int]), ks[512 + c as int]), ks[768 + d as int]), ks[256 * row + e as int])
  {
    hide Xor;
  }

  lemma MixedAdds(ks: Boxes, w: Word, a: byte, b: byte, c: byte, d: byte, row: nat, e: byte)
    requires row < 4
    ensures Xor(w, Mixed(ks, w, a, b, c, d, row, e)) == KeyWord(ks, a, b, c, d, row, e)
  {
    var s, t, u, v := S(ks, 0, a), S(ks, 1, b), S(ks, 2, c), S(ks, 3, d);
    hide *;
    FiveAdded(w, s, t, u, v, S(ks, row, e));
    MixedIs(ks, w, a, b, c, d, row, e);
  }

  lemma MixedIs(ks: Boxes, w: Word, a: byte, b: byte, c: byte, d: byte, row: nat, e: byte)
    requires row < 4
    ensures Mixed(ks, w, a, b, c, d, row, e)
         == Xor(Xor(Xor(Xor(Xor(w, S(ks, 0, a)), S(ks, 1, b)), S(ks, 2, c)), S(ks, 3, d)), S(ks, row, e))
    ensures KeyWord(ks, a, b, c, d, row, e)
         == Xor(Xor(Xor(Xor(S(ks, 0, a), S(ks, 1, b)), S(ks, 2, c)), S(ks, 3, d)), S(ks, row, e))
  {
    hide Xor, S;
  }

  lemma FiveAdded(w: Word, s: Word, t: Word, u: Word, v: Word, x: Word)
    ensures Xor(w, Xor(Xor(Xor(Xor(Xor(w, s), t), u), v), x)) == Xor(Xor(Xor(Xor(s, t), u), v), x)
  {
    hide Xor;
    XorAssociative(w, s, t);
    XorAssociative(w, Xor(s, t), u);
    XorAssociative(w, Xor(Xor(s, t), u), v);
    var y := Xor(Xor(Xor(s, t), u), v);
    XorAssociative(w, y, x);
    XorDifference(w, Xor(y, x));
  }

  /** The formulas of section 2.4 of RFC 2144 that lead from x0 .. xF to z0 .. zF: what is added into each group of four
      bytes. */
  lemma ZSeenFromOutside(ks: Boxes, x: seq<byte>)
    requires |x| == 16
    ensures
      var z := ToZ(ks, x);
      && Xor(Load32(x[..4]), Load32(z[..4])) == KeyWord(ks, x[13], x[15], x[12], x[14], 2, x[8])
      && Xor(Load32(x[8..12]), Load32(z[4..8])) == KeyWord(ks, z[0], z[2], z[1], z[3], 3, x[10])
      && Xor(Load32(x[12..]), Load32(z[8..12])) == KeyWord(ks, z[7], z[6], z[5], z[4], 0, x[9])
      && Xor(Load32(x[4..8]), Load32(z[12..])) == KeyWord(ks, z[10], z[9], z[11], z[8], 1, x[11])
  {
    hide Mixed, KeyWord, Xor, Load32, Store32;
    var a := Mixed(ks, Load32(x[..4]), x[13], x[15], x[12], x[14], 2, x[8]);
    var za := Store32(a);
    var b := Mixed(ks, Load32(x[8..12]), za[0], za[2], za[1], za[3], 3, x[10]);
    var zb := Store32(b);
    var c := Mixed(ks, Load32(x[12..]), zb[3], zb[2], zb[1], zb[0], 0, x[9]);
    var zc := Store32(c);
    var d := Mixed(ks, Load32(x[4..8]), zc[2], zc[1], zc[3], zc[0], 1, x[11]);
    assert ToZ(ks, x) == za + zb + zc + Store32(d);
    FourGroups(za, zb, zc, Store32(d));
    LoadStore32(a);
    LoadStore32(b);
    LoadStore32(c);
    LoadStore32(d);
    MixedAdds(ks, Load32(x[..4]), x[13], x[15], x[12], x[14], 2, x[8]);
    MixedAdds(ks, Load32(x[8..12]), za[0], za[2], za[1], za[3], 3, x[10]);
    MixedAdds(ks, Load32(x[12..]), zb[3], zb[2], zb[1], zb[0], 0, x[9]);
    MixedAdds(ks, Load32(x[4..8]), zc[2], zc[1], zc[3], zc[0], 1, x[11]);
  }

  lemma FourGroups(a: seq<byte>, b: seq<byte>, c: seq<byte>, d: seq<byte>)
    requires |a| == |b| == |c| == |d| == 4
    ensures var s := a + b + c + d; s[..4] == a && s[4..8] == b && s[8..12] == c && s[12..] == d
    ensures var s := a + b + c + d; forall i | 0 <= i < 4 :: s[i] == a[i] && s[4 + i] == b[i] && s[8 + i] == c[i]
  {
  }

  /** ... and from z0 .. zF to the next x0 .. xF. */
  lemma XSeenFromOutside(ks: Boxes, z: seq<byte>)
    requires |z| == 16
    ensures
      var x := ToX(ks, z);
      && Xor(Load32(z[8..12]), Load32(x[..4])) == KeyWord(ks, z[5], z[7], z[4], z[6], 2, z[0])
      && Xor(Load32(z[..4]), Load32(x[4..8])) == KeyWord(ks, x[0], x[2], x[1], x[3], 3, z[2])
      && Xor(Load32(z[4..8]), Load32(x[8..12])) == KeyWord(ks, x[7], x[6], x[5], x[4], 0, z[1])
      && Xor(Load32(z[12..]), Load32(x[12..])) == KeyWord(ks, x[10], x[9], x[11], x[8], 1, z[3])
  {
    hide Mixed, KeyWord, Xor, Load32, Store32;
    var a := Mixed(ks, Load32(z[8..12]), z[5], z[7], z[4], z[6], 2, z[0]);
    var xa := Store32(a);
    var b := Mixed(ks, Load32(z[..4]), xa[0], xa[2], xa[1], xa[3], 3, z[2]);
    var xb := Store32(b);
    var c := Mixed(ks, Load32(z[4..8]), xb[3], xb[2], xb[1], xb[0], 0, z[1]);
    var xc := Store32(c);
    var d := Mixed(ks, Load32(z[12..]), xc[2], xc[1], xc[3], xc[0], 1, z[3]);
    assert ToX(ks, z) == xa + xb + xc + Store32(d);
    FourGroups(xa, xb, xc, Store32(d));
    LoadStore32(a);
    LoadStore32(b);
    LoadStore32(c);
    LoadStore32(d);
    MixedAdds(ks, Load32(z[8..12]), z[5], z[7], z[4], z[6], 2, z[0]);
    MixedAdds(ks, Load32(z[..4]), xa[0], xa[2], xa[1], xa[3], 3, z[2]);
    MixedAdds(ks, Load32(z[4..8]), xb[3], xb[2], xb[1], xb[0], 0, z[1]);
    MixedAdds(ks, Load32(z[12..]), xc[2], xc[1], xc[3], xc[0], 1, z[3]);
  }

  /** The formulas of the same section for the sixteen subkeys of one turn, from its four registers. */
  lemma SubkeysSeenFromOutside(ks: Boxes, x: seq<byte>, z1: seq<byte>, x1: seq<byte>, z2: seq<byte>, x2: seq<byte>)
    requires |x| == 16 && z1 == ToZ(ks, x) && x1 == ToX(ks, z1) && z2 == ToZ(ks, x1) && x2 == ToX(ks, z2)
    ensures
      var k := HalfSchedule(ks, x).keys;
      && k[0] == KeyWord(ks, z1[8], z1[9], z1[7], z1[6], 0, z1[2]) && k[1] == KeyWord(ks, z1[10], z1[11], z1[5], z1[4], 1, z1[6])
      && k[2] == KeyWord(ks, z1[12], z1[13], z1[3], z1[2], 2, z1[9]) && k[3] == KeyWord(ks, z1[14], z1[15], z1[1], z1[0], 3, z1[12])
      && k[4] == KeyWord(ks, x1[3], x1[2], x1[12], x1[13], 0, x1[8]) && k[5] == KeyWord(ks, x1[1], x1[0], x1[14], x1[15], 1, x1[13])
      && k[6] == KeyWord(ks, x1[7], x1[6], x1[8], x1[9], 2, x1[3]) && k[7] == KeyWord(ks, x1[5], x1[4], x1[10], x1[11], 3, x1[7])
      && k[8] == KeyWord(ks, z2[3], z2[2], z2[12], z2[13], 0, z2[9]) && k[9] == KeyWord(ks, z2[1], z2[0], z2[14], z2[15], 1, z2[12])
      && k[10] == KeyWord(ks, z2[7], z2[6], z2[8], z2[9], 2, z2[2]) && k[11] == KeyWord(ks, z2[5], z2[4], z2[10], z2[11], 3, z2[6])
      && k[12] == KeyWord(ks, x2[8], x2[9], x2[7], x2[6], 0, x2[3]) && k[13] == KeyWord(ks, x2[10], x2[11], x2[5], x2[4], 1, x2[7])
      && k[14] == KeyWord(ks, x2[12], x2[13], x2[3], x2[2], 2, x2[8]) && k[15] == KeyWord(ks, x2[14], x2[15], x2[1], x2[0], 3, x2[13])
      && HalfSchedule(ks, x).x == x2
  {
    hide KeyWord, ToX, ToZ, FourSubkeys, Picks;
    FourAtATime(ks, z1);
    FourAtATime(ks, x1);
    FourAtATime(ks, z2);
    FourAtATime(ks, x2);
    var a, b := FourSubkeys(ks, z1, Picks()[0]), FourSubkeys(ks, x1, Picks()[1]);
    var c, d := FourSubkeys(ks, z2, Picks()[2]), FourSubkeys(ks, x2, Picks()[3]);
    SixteenIn(a, b, c, d);
    assert HalfSchedule(ks, x).keys == a + b + c + d;
    hide HalfSchedule;
  }

  lemma SixteenIn<T>(a: seq<T>, b: seq<T>, c: seq<T>, d: seq<T>)
    requires |a| == |b| == |c| == |d| == 4
    ensures var k := a + b + c + d;
      forall i | 0 <= i < 4 :: k[i] == a[i] && k[4 + i] == b[i] && k[8 + i] == c[i] && k[12 + i] == d[i]
  {
  }

  lemma FourAtATime(ks: Boxes, s: seq<byte>)
    requires |s| == 16
    ensures FourSubkeys(ks, s, Picks()[0]) == [
      KeyWord(ks, s[8], s[9], s[7], s[6], 0, s[2]), KeyWord(ks, s[10], s[11], s[5], s[4], 1, s[6]),
      KeyWord(ks, s[12], s[13], s[3], s[2], 2, s[9]), KeyWord(ks, s[14], s[15], s[1], s[0], 3, s[12])]
    ensures FourSubkeys(ks, s, Picks()[1]) == [
      KeyWord(ks, s[3], s[2], s[12], s[13], 0, s[8]), KeyWord(ks, s[1], s[0], s[14], s[15], 1, s[13]),
      KeyWord(ks, s[7], s[6], s[8], s[9], 2, s[3]), KeyWord(ks, s[5], s[4], s[10], s[11], 3, s[7])]
    ensures FourSubkeys(ks, s, Picks()[2]) == [
      KeyWord(ks, s[3], s[2], s[12], s[13], 0, s[9]), KeyWord(ks, s[1], s[0], s[14], s[15], 1, s[12]),
      KeyWord(ks, s[7], s[6], s[8], s[9], 2, s[2]), KeyWord(ks, s[5], s[4], s[10], s[11], 3, s[6])]
    ensures FourSubkeys(ks, s, Picks()[3]) == [
      KeyWord(ks, s[8], s[9], s[7], s[6], 0, s[3]), KeyWord(ks, s[10], s[11], s[5], s[4], 1, s[7]),
      KeyWord(ks, s[12], s[13], s[3], s[2], 2, s[8]), KeyWord(ks, s[14], s[15], s[1], s[0], 3, s[13])]
  {
    hide KeyWord;
  }

  /** The second turn starts from the register that the first one leaves, and a short key is one that ends in zeros. */
  lemma TurnsInOrder(ks: Boxes, key: seq<byte>)
    requires |key| <= 16
    ensures
      var x := Padded(key);
      && Schedule(ks, x)[..16] == HalfSchedule(ks, x).keys
      && Schedule(ks, x)[16..] == HalfSchedule(ks, HalfSchedule(ks, x).x).keys
      && x[..|key|] == key && forall i | |key| <= i < 16 :: x[i] == 0
  {
    hide HalfSchedule;
  }

  // ---- the registers of the code ----

  /** A register of the code: word 3 holds the first four bytes, word 0 the last four. */
  function Bytes(x: seq<Word>): (s: seq<byte>)
    requires |x| == 4
    ensures |s| == 16
  {
    Store32(x[3]) + Store32(x[2]) + Store32(x[1]) + Store32(x[0])
  }

  /** The macro GB. */
  function GB(x: seq<Word>, i: nat): byte
    requires |x| == 4 && i < 16
  {
    var w := x[(15 - i) / 4];
    var n := (15 - i) % 4;
    ByteAt(w, if n == 0 then 0 else if n == 1 then 8 else if n == 2 then 16 else 24)
  }

  /** GB reads the i-th byte of its word's group, so byte i of the register. */
  lemma GBIsByte(x: seq<Word>, i: nat)
    requires |x| == 4 && i < 16
    ensures GB(x, i) == Store32(x[3 - i / 4])[i % 4]
    ensures GB(x, i) == Bytes(x)[i]
  {
    hide ByteAt;
    assert (15 - i) / 4 == 3 - i / 4 && (15 - i) % 4 == 3 - i % 4;
  }

  lemma WordOfBytes(x: seq<Word>)
    requires |x| == 4
    ensures var s := Bytes(x);
      Load32(s[..4]) == x[3] && Load32(s[4..8]) == x[2] && Load32(s[8..12]) == x[1] && Load32(s[12..]) == x[0]
  {
    hide Load32, Store32;
    var s := Bytes(x);
    assert s[..4] == Store32(x[3]) && s[4..8] == Store32(x[2]) && s[8..12] == Store32(x[1]) && s[12..] == Store32(x[0]);
    LoadStore32(x[0]);
    LoadStore32(x[1]);
    LoadStore32(x[2]);
    LoadStore32(x[3]);
  }

  lemma GBIsBytes(x: seq<Word>)
    requires |x| == 4
    ensures forall i | 0 <= i < 16 :: GB(x, i) == Store32(x[3 - i / 4])[i % 4] == Bytes(x)[i]
  {
    hide GB, Bytes, Store32;
    forall i | 0 <= i < 16
      ensures GB(x, i) == Store32(x[3 - i / 4])[i % 4] == Bytes(x)[i]
    {
      GBIsByte(x, i);
    }
  }

  /** ToZ on the words of a register. */
  lemma ZWords(ks: Boxes, x: seq<Word>, a: Word, b: Word, c: Word, d: Word)
    requires |x| == 4
    requires a == Mixed(ks, x[3], GB(x, 13), GB(x, 15), GB(x, 12), GB(x, 14), 2, GB(x, 8))
    requires var s := Store32(a); b == Mixed(ks, x[1], s[0], s[2], s[1], s[3], 3, GB(x, 10))
    requires var s := Store32(b); c == Mixed(ks, x[0], s[3], s[2], s[1], s[0], 0, GB(x, 9))
    requires var s := Store32(c); d == Mixed(ks, x[2], s[2], s[1], s[3], s[0], 1, GB(x, 11))
    ensures ToZ(ks, Bytes(x)) == Bytes([d, c, b, a])
  {
    hide Mixed, GB, Store32, Load32;
    GBIsBytes(x);
    WordOfBytes(x);
  }

  /** The four statements that fill z from x. */
  method FillZ(ks: Boxes, x: array<Word>, z: array<Word>)
    requires x.Length == 4 && z.Length == 4 && x != z
    modifies z
    ensures Bytes(z[..]) == ToZ(ks, Bytes(x[..]))
  {
    hide Mixed, GB, Store32, Load32, ToZ;
    z[3] := Mixed(ks, x[3], GB(x[..], 13), GB(x[..], 15), GB(x[..], 12), GB(x[..], 14), 2, GB(x[..], 8));
    GBIsBytes(z[..]);
    z[2] := Mixed(ks, x[1], GB(z[..], 0), GB(z[..], 2), GB(z[..], 1), GB(z[..], 3), 3, GB(x[..], 10));
    GBIsBytes(z[..]);
    z[1] := Mixed(ks, x[0], GB(z[..], 7), GB(z[..], 6), GB(z[..], 5), GB(z[..], 4), 0, GB(x[..], 9));
    GBIsBytes(z[..]);
    z[0] := Mixed(ks, x[2], GB(z[..], 10), GB(z[..], 9), GB(z[..], 11), GB(z[..], 8), 1, GB(x[..], 11));
    ZWords(ks, x[..], z[3], z[2], z[1], z[0]);
    assert z[..] == [z[0], z[1], z[2], z[3]];
  }

  /** ToX on the words of a register. */
  lemma XWords(ks: Boxes, z: seq<Word>, a: Word, b: Word, c: Word, d: Word)
    requires |z| == 4
    requires a == Mixed(ks, z[1], GB(z, 5), GB(z, 7), GB(z, 4), GB(z, 6), 2, GB(z, 0))
    requires var s := Store32(a); b == Mixed(ks, z[3], s[0], s[2], s[1], s[3], 3, GB(z, 2))
    requires var s := Store32(b); c == Mixed(ks, z[2], s[3], s[2], s[1], s[0], 0, GB(z, 1))
    requires var s := Store32(c); d == Mixed(ks, z[0], s[2], s[1], s[3], s[0], 1, GB(z, 3))
    ensures ToX(ks, Bytes(z)) == Bytes([d, c, b, a])
  {
    hide Mixed, GB, Store32, Load32;
    GBIsBytes(z);
    WordOfBytes(z);
  }

  /** The four statements that fill x from z. */
  method FillX(ks: Boxes, z: array<Word>, x: array<Word>)
    requires x.Length == 4 && z.Length == 4 && x != z
    modifies x
    ensures Bytes(x[..]) == ToX(ks, Bytes(z[..]))
  {
    hide Mixed, GB, Store32, Load32, ToX;
    x[3] := Mixed(ks, z[1], GB(z[..], 5), GB(z[..], 7), GB(z[..], 4), GB(z[..], 6), 2, GB(z[..], 0));
    GBIsBytes(x[..]);
    x[2] := Mixed(ks, z[3], GB(x[..], 0), GB(x[..], 2), GB(x[..], 1), GB(x[..], 3), 3, GB(z[..], 2));
    GBIsBytes(x[..]);
    x[1] := Mixed(ks, z[2], GB(x[..], 7), GB(x[..], 6), GB(x[..], 5), GB(x[..], 4), 0, GB(z[..], 1));
    GBIsBytes(x[..]);
    x[0] := Mixed(ks, z[0], GB(x[..], 10), GB(x[..], 9), GB(x[..], 11), GB(x[..], 8), 1, GB(z[..], 3));
    XWords(ks, z[..], x[3], x[2], x[1], x[0]);
    assert x[..] == [x[0], x[1], x[2], x[3]];
  }

  // ---- the subkeys of a register ----

  /** A subkey by its positions, from the words of a register. */
  function SubkeyAt(ks: Boxes, x: seq<Word>, p: Pick, row: nat): Word
    requires |x| == 4 && InRegister(p) && row < 4
  {
    KeyWord(ks, GB(x, p.a), GB(x, p.b), GB(x, p.c), GB(x, p.d), row, GB(x, p.e))
  }

  lemma SubkeyWords(ks: Boxes, x: seq<Word>, p: seq<Pick>)
    requires |x| == 4 && |p| == 4 && forall i | 0 <= i < 4 :: InRegister(p[i])
    ensures FourSubkeys(ks, Bytes(x), p) ==
      [SubkeyAt(ks, x, p[0], 0), SubkeyAt(ks, x, p[1], 1), SubkeyAt(ks, x, p[2], 2), SubkeyAt(ks, x, p[3], 3)]
  {
    hide KeyWord, GB, Bytes;
    GBIsBytes(x);
  }

  /** The statements for K1 .. K4. */
  method FirstSubkeys(ks: Boxes, z: array<Word>, K: array<Word>, i: nat)
    requires z.Length == 4 && K.Length == 32 && z != K && i + 4 <= 32
    modifies K
    ensures K[..] == old(K[..i]) + FourSubkeys(ks, Bytes(z[..]), Picks()[0]) + old(K[i + 4..])
  {
    hide KeyWord, GB, Bytes, FourSubkeys;
    SubkeyWords(ks, z[..], Picks()[0]);
    K[i] := KeyWord(ks, GB(z[..], 8), GB(z[..], 9), GB(z[..], 7), GB(z[..], 6), 0, GB(z[..], 2));
    K[i + 1] := KeyWord(ks, GB(z[..], 10), GB(z[..], 11), GB(z[..], 5), GB(z[..], 4), 1, GB(z[..], 6));
    K[i + 2] := KeyWord(ks, GB(z[..], 12), GB(z[..], 13), GB(z[..], 3), GB(z[..], 2), 2, GB(z[..], 9));
    K[i + 3] := KeyWord(ks, GB(z[..], 14), GB(z[..], 15), GB(z[..], 1), GB(z[..], 0), 3, GB(z[..], 12));
  }

  /** The statements for K5 .. K8. */
  method SecondSubkeys(ks: Boxes, x: array<Word>, K: array<Word>, i: nat)
    requires x.Length == 4 && K.Length == 32 && x != K && i + 4 <= 32
    modifies K
    ensures K[..] == old(K[..i]) + FourSubkeys(ks, Bytes(x[..]), Picks()[1]) + old(K[i + 4..])
  {
    hide KeyWord, GB, Bytes, FourSubkeys;
    SubkeyWords(ks, x[..], Picks()[1]);
    K[i] := KeyWord(ks, GB(x[..], 3), GB(x[..], 2), GB(x[..], 12), GB(x[..], 13), 0, GB(x[..], 8));
    K[i + 1] := KeyWord(ks, GB(x[..], 1), GB(x[..], 0), GB(x[..], 14), GB(x[..], 15), 1, GB(x[..], 13));
    K[i + 2] := KeyWord(ks, GB(x[..], 7), GB(x[..], 6), GB(x[..], 8), GB(x[..], 9), 2, GB(x[..], 3));
    K[i + 3] := KeyWord(ks, GB(x[..], 5), GB(x[..], 4), GB(x[..], 10), GB(x[..], 11), 3, GB(x[..], 7));
  }

  /** The statements for K9 .. K12. */
  method ThirdSubkeys(ks: Boxes, z: array<Word>, K: array<Word>, i: nat)
    requires z.Length == 4 && K.Length == 32 && z != K && i + 4 <= 32
    modifies K
    ensures K[..] == old(K[..i]) + FourSubkeys(ks, Bytes(z[..]), Picks()[2]) + old(K[i + 4..])
  {
    hide KeyWord, GB, Bytes, FourSubkeys;
    SubkeyWords(ks, z[..], Picks()[2]);
    K[i] := KeyWord(ks, GB(z[..], 3), GB(z[..], 2), GB(z[..], 12), GB(z[..], 13), 0, GB(z[..], 9));
    K[i + 1] := KeyWord(ks, GB(z[..], 1), GB(z[..], 0), GB(z[..], 14), GB(z[..], 15), 1, GB(z[..], 12));
    K[i + 2] := KeyWord(ks, GB(z[..], 7), GB(z[..], 6), GB(z[..], 8), GB(z[..], 9), 2, GB(z[..], 2));
    K[i + 3] := KeyWord(ks, GB(z[..], 5), GB(z[..], 4), GB(z[..], 10), GB(z[..], 11), 3, GB(z[..], 6));
  }

  /** The statements for K13 .. K16. */
  method FourthSubkeys(ks: Boxes, x: array<Word>, K: array<Word>, i: nat)
    requires x.Length == 4 && K.Length == 32 && x != K && i + 4 <= 32
    modifies K
    ensures K[..] == old(K[..i]) + FourSubkeys(ks, Bytes(x[..]), Picks()[3]) + old(K[i + 4..])
  {
    hide KeyWord, GB, Bytes, FourSubkeys;
    SubkeyWords(ks, x[..], Picks()[3]);
    K[i] := KeyWord(ks, GB(x[..], 8), GB(x[..], 9), GB(x[..], 7), GB(x[..], 6), 0, GB(x[..], 3));
    K[i + 1] := KeyWord(ks, GB(x[..], 10), GB(x[..], 11), GB(x[..], 5), GB(x[..], 4), 1, GB(x[..], 7));
    K[i + 2] := KeyWord(ks, GB(x[..], 12), GB(x[..], 13), GB(x[..], 3), GB(x[..], 2), 2, GB(x[..], 8));
    K[i + 3] := KeyWord(ks, GB(x[..], 14), GB(x[..], 15), GB(x[..], 1), GB(x[..], 0), 3, GB(x[..], 13));
  }

  /** Two stretches written one behind the other are one stretch. */
  lemma Behind<T>(k: seq<T>, l: seq<T>, m: seq<T>, i: nat, a: seq<T>, b: seq<T>)
    requires i + |a| + |b| <= |k|
    requires l == k[..i] + a + k[i + |a|..] && m == l[..i + |a|] + b + l[i + |a| + |b|..]
    ensures m == k[..i] + (a + b) + k[i + |a| + |b|..]
  {
    assert l[..i + |a|] == k[..i] + a;
    assert l[i + |a| + |b|..] == k[i + |a| + |b|..];
  }

  /** One turn of the loop. */
  method HalfNetwork(ks: Boxes, x: array<Word>, z: array<Word>, K: array<Word>, i: nat)
    requires x.Length == 4 && z.Length == 4 && K.Length == 32 && x != z && x != K && z != K && i + 16 <= 32
    modifies x, z, K
    ensures var h := HalfSchedule(ks, old(Bytes(x[..])));
      Bytes(x[..]) == h.x && K[..] == old(K[..i]) + h.keys + old(K[i + 16..])
  {
    hide Bytes, ToX, ToZ, FourSubkeys, Picks;
    ghost var k0, s0 := K[..], Bytes(x[..]);
    FillZ(ks, x, z);
    FirstSubkeys(ks, z, K, i);
    ghost var k1, z1 := K[..], Bytes(z[..]);
    ghost var a := FourSubkeys(ks, z1, Picks()[0]);
    FillX(ks, z, x);
    SecondSubkeys(ks, x, K, i + 4);
    ghost var k2, x1 := K[..], Bytes(x[..]);
    ghost var b := FourSubkeys(ks, x1, Picks()[1]);
    Behind(k0, k1, k2, i, a, b);
    FillZ(ks, x, z);
    ThirdSubkeys(ks, z, K, i + 8);
    ghost var k3, z2 := K[..], Bytes(z[..]);
    ghost var c := FourSubkeys(ks, z2, Picks()[2]);
    Behind(k0, k2, k3, i, a + b, c);
    FillX(ks, z, x);
    FourthSubkeys(ks, x, K, i + 12);
    ghost var k4, x2 := K[..], Bytes(x[..]);
    ghost var d := FourSubkeys(ks, x2, Picks()[3]);
    Behind(k0, k3, k4, i, a + b + c, d);
    assert HalfSchedule(ks, s0) == Half(a + b + c + d, x2);
  }

  /** The key in a zeroed buffer. */
  method PadKey(key: array<byte>, keylen: nat) returns (buf: array<byte>)
    requires keylen <= key.Length && keylen <= 16
    ensures fresh(buf) && buf[..] == Padded(key[..keylen])
  {
    buf := new byte[16](i => 0);
    for i := 0 to keylen
      modifies buf
      invariant buf[..] == key[..i] + seq(16 - i, j => 0 as byte)
    {
      buf[i] := key[i];
    }
  }

  /** The register, loaded last word first. */
  method LoadRegister(buf: array<byte>, x: array<Word>)
    requires buf.Length == 16 && x.Length == 4 && buf as object != x
    modifies x
    ensures Bytes(x[..]) == buf[..]
  {
    hide Load32, Store32;
    for y := 0 to 4
      modifies x
      invariant forall w | 4 - y <= w < 4 :: Store32(x[w]) == buf[12 - 4 * w..16 - 4 * w]
    {
      x[3 - y] := LoadWord(buf, 4 * y);
      StoreLoad32(buf[4 * y..4 * y + 4]);
    }
    RegisterBytes(x[..], buf[..]);
  }

  lemma RegisterBytes(x: seq<Word>, s: seq<byte>)
    requires |x| == 4 && |s| == 16
    requires Store32(x[3]) == s[0..4] && Store32(x[2]) == s[4..8] && Store32(x[1]) == s[8..12] && Store32(x[0]) == s[12..16]
    ensures Bytes(x) == s
  {
    hide Store32;
    assert s == s[0..4] + s[4..8] + s[8..12] + s[12..16];
  }

  /** The key network: all 32 subkeys of the padded key. */
  method Network(ks: Boxes, key: array<byte>, keylen: nat, K: array<Word>)
    requires keylen <= key.Length && keylen <= 16 && K.Length == 32 && key as object != K
    modifies K
    ensures K[..] == Schedule(ks, Padded(old(key[..keylen])))
  {
    hide Bytes, HalfSchedule, Padded;
    var x, z := new Word[4](i => Word(0)), new Word[4](i => Word(0));
    var buf := PadKey(key, keylen);
    LoadRegister(buf, x);
    ghost var x0 := Bytes(x[..]);
    ghost var h := HalfSchedule(ks, x0);
    var i := 0;
    for y := 0 to 2
      modifies x, z, K
      invariant i == 16 * y
      invariant y == 0 ==> Bytes(x[..]) == x0
      invariant y == 1 ==> Bytes(x[..]) == h.x && K[..16] == h.keys
      invariant y == 2 ==> K[..] == h.keys + HalfSchedule(ks, h.x).keys
    {
      HalfNetwork(ks, x, z, K, i);
      i := i + 16;
    }
  }
}
