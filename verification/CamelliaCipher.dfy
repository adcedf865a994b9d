/** The routines of camellia.c, proved against the key schedule and the data path. */
module CamelliaCipher {
  import opened Words
  import opened Camellia
  import opened CamelliaKeys

  // ---- the scratch area T[32..48] of the key setup ----

  function XorBytes(s: seq<byte>, t: seq<byte>): (r: seq<byte>)
    requires |s| == |t|
    ensures |r| == |s|
  {
    seq(|s|, i requires 0 <= i < |s| => Plus(s[i], t[i]))
  }

  lemma XorLoad32(s: seq<byte>, t: seq<byte>)
    requires |s| == 4 && |t| == 4
    ensures Load32(XorBytes(s, t)) == Xor(Load32(s), Load32(t))
  {
    hide Pack32, Xor, Plus;
    PackXor(s[0], s[1], s[2], s[3], t[0], t[1], t[2], t[3]);
  }

  lemma XorLoad64(s: seq<byte>, t: seq<byte>)
    requires |s| == 8 && |t| == 8
    ensures Load64(XorBytes(s, t)) == Xor64(Load64(s), Load64(t))
  {
    hide Load32, Xor;
    XorLoad32(s[..4], t[..4]);
    XorLoad32(s[4..], t[4..]);
    assert XorBytes(s, t)[..4] == XorBytes(s[..4], t[..4]) && XorBytes(s, t)[4..] == XorBytes(s[4..], t[4..]);
  }

  lemma XorLoadPair(s: seq<byte>, t: seq<byte>)
    requires |s| == 16 && |t| == 16
    ensures LoadPair(XorBytes(s, t)) == XorPair(LoadPair(s), LoadPair(t))
  {
    hide Load64, Xor64;
    XorLoad64(s[..8], t[..8]);
    XorLoad64(s[8..], t[8..]);
    assert XorBytes(s, t)[..8] == XorBytes(s[..8], t[..8]) && XorBytes(s, t)[8..] == XorBytes(s[8..], t[8..]);
  }

  ghost function Scratch(a: array<byte>): (s: seq<byte>)
    requires a.Length == 48
    reads a
    ensures |s| == 16
  {
    a[32..48]
  }

  /** Two rounds keyed by constants i and i+1, on the scratch area. */
  method MixScratch(scratch: array<byte>, i: nat)
    requires scratch.Length == 48 && i < 5
    modifies scratch
    ensures LoadPair(Scratch(scratch)) == MixTwo(LoadPair(old(Scratch(scratch))), i)
  {
    hide F, Xor64, Load64, Store64;
    ghost var s := Scratch(scratch);
    assert s[..8] == scratch[32..40] && s[8..] == scratch[40..48];
    var a := LoadWord64(scratch, 32);
    var b := LoadWord64(scratch, 40);
    var f := PackedF(Xor64(a, SIGMA[i]));
    b := Xor64(b, f);
    f := PackedF(Xor64(b, SIGMA[i + 1]));
    a := Xor64(a, f);
    StoreWord64(scratch, 32, a);
    ghost var m := scratch[..];
    StoreWord64(scratch, 40, b);
    ghost var n := scratch[..];
    assert n[32..40] == n[..40][32..] == m[32..40];
    assert Scratch(scratch) == Store64(a) + Store64(b) == StorePair(Pair(a, b));
    LoadStorePair(Pair(a, b));
  }

  method XorScratch(scratch: array<byte>, key: array<byte>)
    requires scratch.Length == 48 && key.Length == 16 && scratch != key
    modifies scratch
    ensures LoadPair(Scratch(scratch)) == XorPair(LoadPair(old(Scratch(scratch))), LoadPair(key[..]))
  {
    hide LoadPair, XorPair;
    ghost var s := scratch[32..48];
    for x := 0 to 16
      invariant forall m | 0 <= m < x :: scratch[m + 32] == Plus(s[m], key[m])
      invariant forall m | x <= m < 16 :: scratch[m + 32] == s[m]
    {
      scratch[x + 32] := Plus(scratch[x + 32], key[x]);
    }
    assert scratch[32..48] == XorBytes(s, key[..]);
    XorLoadPair(s, key[..]);
  }

  method CopyScratch(scratch: array<byte>, key: array<byte>)
    requires scratch.Length == 48 && key.Length == 16 && scratch != key
    modifies key
    ensures key[..] == Scratch(scratch)
  {
    for x := 0 to 16
      invariant forall m | 0 <= m < x :: key[m] == scratch[m + 32]
    {
      key[x] := scratch[x + 32];
    }
    assert key[..] == scratch[32..48];
  }

  predicate ValidLength(n: int) {
    n == 16 || n == 24 || n == 32
  }

  method FillScratch16(key: array<byte>, scratch: array<byte>)
    requires 16 <= key.Length && scratch.Length == 48 && key != scratch
    modifies scratch
    ensures scratch[..16] == KL(key[..16]) && scratch[16..32] == KR(key[..16])
  {
    for x := 0 to 16
      invariant forall m | 0 <= m < x :: scratch[m] == key[m]
      invariant forall m | 16 <= m < 16 + x :: scratch[m] == 0
    {
      scratch[x] := key[x];
      scratch[x + 16] := 0;
    }
  }

  method CopyKey(key: array<byte>, n: nat, scratch: array<byte>)
    requires n <= key.Length && n <= scratch.Length && key != scratch
    modifies scratch
    ensures scratch[..n] == key[..n] && scratch[n..] == old(scratch[n..])
  {
    for x := 0 to n
      invariant scratch[..x] == key[..x] && scratch[n..] == old(scratch[n..])
    {
      scratch[x] := key[x];
    }
  }

  method FlipTail(key: array<byte>, scratch: array<byte>)
    requires 24 <= key.Length && scratch.Length == 48 && key != scratch
    modifies scratch
    ensures scratch[..24] == old(scratch[..24])
    ensures scratch[24..32] == seq(8, i requires 0 <= i < 8 reads key => Flip(key[16 + i]))
  {
    hide Flip;
    for x := 24 to 32
      invariant scratch[..24] == old(scratch[..24])
      invariant forall m | 24 <= m < x :: scratch[m] == Flip(key[m - 8])
    {
      scratch[x] := Flip(key[x - 8]);
    }
  }

  method FillScratch24(key: array<byte>, scratch: array<byte>)
    requires 24 <= key.Length && scratch.Length == 48 && key != scratch
    modifies scratch
    ensures scratch[..16] == KL(key[..24]) && scratch[16..32] == KR(key[..24])
  {
    hide Flip;
    CopyKey(key, 24, scratch);
    FlipTail(key, scratch);
    assert scratch[..16] == scratch[..24][..16];
    assert scratch[16..24] == scratch[..24][16..] == key[16..24];
    assert scratch[16..32] == scratch[16..24] + scratch[24..32];
  }

  method FillScratch32(key: array<byte>, scratch: array<byte>)
    requires 32 <= key.Length && scratch.Length == 48 && key != scratch
    modifies scratch
    ensures scratch[..16] == KL(key[..32]) && scratch[16..32] == KR(key[..32])
  {
    for x := 0 to 32
      invariant forall m | 0 <= m < x :: scratch[m] == key[m]
    {
      scratch[x] := key[x];
    }
  }

  /** Lays the user key out in scratch[..32], filling up short keys. */
  method FillScratch(key: array<byte>, keylen: int, scratch: array<byte>)
    requires ValidLength(keylen) && keylen <= key.Length && scratch.Length == 48 && key != scratch
    modifies scratch
    ensures scratch[..16] == KL(key[..keylen]) && scratch[16..32] == KR(key[..keylen])
  {
    hide KL, KR;
    if keylen == 16 {
      FillScratch16(key, scratch);
    } else if keylen == 24 {
      FillScratch24(key, scratch);
    } else {
      FillScratch32(key, scratch);
    }
  }

  /** Expands the user key into kL and kR and leaves their sum in the scratch area. */
  method LoadKey(key: array<byte>, keylen: int, scratch: array<byte>, kL: array<byte>, kR: array<byte>)
    requires ValidLength(keylen) && keylen <= key.Length
    requires scratch.Length == 48 && kL.Length == 16 && kR.Length == 16
    requires scratch != kL && scratch != kR && kL != kR && key != scratch && key != kL && key != kR
    modifies scratch, kL, kR
    ensures kL[..] == KL(key[..keylen]) && kR[..] == KR(key[..keylen])
    ensures LoadPair(Scratch(scratch)) == XorPair(LoadPair(kL[..]), LoadPair(kR[..]))
  {
    hide LoadPair, XorPair, KL, KR, Plus;
    FillScratch(key, keylen, scratch);
    ghost var l, r := scratch[..16], scratch[16..32];
    for x := 0 to 16
      invariant forall m | 0 <= m < x :: kL[m] == l[m] && kR[m] == r[m]
      modifies kL, kR
    {
      kL[x] := scratch[x];
      kR[x] := scratch[x + 16];
    }
    assert kL[..] == l && kR[..] == r;
    for x := 32 to 48
      invariant scratch[..16] == l && scratch[16..32] == r
      invariant forall m | 0 <= m < x - 32 :: scratch[m + 32] == Plus(l[m], r[m])
      modifies scratch
    {
      scratch[x] := Plus(scratch[x - 32], scratch[x - 16]);
    }
    assert scratch[32..48] == XorBytes(l, r);
    XorLoadPair(l, r);
  }

  /** The four rounds that yield KA; kR is then added to the scratch area for KB. */
  method DeriveA(scratch: array<byte>, kL: array<byte>, kR: array<byte>, kA: array<byte>)
    requires scratch.Length == 48 && kL.Length == 16 && kR.Length == 16 && kA.Length == 16
    requires scratch != kL && scratch != kR && scratch != kA && kA != kL && kA != kR
    requires LoadPair(Scratch(scratch)) == XorPair(LoadPair(kL[..]), LoadPair(kR[..]))
    modifies scratch, kA
    ensures kA[..] == StorePair(DeriveKA(LoadPair(kL[..]), LoadPair(kR[..])))
    ensures LoadPair(Scratch(scratch)) == XorPair(LoadPair(kA[..]), LoadPair(kR[..]))
  {
    hide LoadPair, StorePair, XorPair, MixTwo;
    MixScratch(scratch, 0);
    XorScratch(scratch, kL);
    MixScratch(scratch, 2);
    CopyScratch(scratch, kA);
    StoreLoadPair(kA[..]);
    ghost var a := kA[..];
    XorScratch(scratch, kR);
    assert kA[..] == a;
  }

  /** The last two rounds, which yield KB. */
  method DeriveB(scratch: array<byte>, kA: array<byte>, kR: array<byte>, kB: array<byte>)
    requires scratch.Length == 48 && kA.Length == 16 && kR.Length == 16 && kB.Length == 16
    requires scratch != kA && scratch != kR && scratch != kB && kB != kA && kB != kR
    requires LoadPair(Scratch(scratch)) == XorPair(LoadPair(kA[..]), LoadPair(kR[..]))
    modifies scratch, kB
    ensures kB[..] == StorePair(DeriveKB(LoadPair(kA[..]), LoadPair(kR[..])))
  {
    hide LoadPair, StorePair, XorPair, MixTwo;
    MixScratch(scratch, 4);
    CopyScratch(scratch, kB);
    StoreLoadPair(kB[..]);
  }

  // ---- filling the subkey arrays ----

  /** Loads both halves of an unrotated key variable. */
  method LoadInto(key: array<byte>, dst: array<Word64>, i: nat)
    requires key.Length == 16 && i + 1 < dst.Length && key as object != dst
    modifies dst
    ensures dst[..] == old(dst[..])[i := Hi(key[..], 0)][i + 1 := Lo(key[..], 0)]
  {
    hide Load64, Rotate;
    RotateZero(key[..]);
    dst[i] := LoadWord64(key, 0);
    dst[i + 1] := LoadWord64(key, 8);
    assert key[..][..8] == key[0..8] && key[..][8..] == key[8..16];
  }

  /** Rotates a key variable into the scratch area and loads one half from there. */
  method RotateHalf(key: array<byte>, count: nat, scratch: array<byte>, low: bool) returns (x: Word64)
    requires key.Length == 16 && scratch.Length == 48 && key != scratch && count < 128
    modifies scratch
    ensures x == if low then Lo(key[..], count) else Hi(key[..], count)
  {
    hide Load64, Rotate;
    Rot128(key, count, scratch, 32);
    x := LoadWord64(scratch, if low then 40 else 32);
    assert scratch[32..48][..8] == scratch[32..40] && scratch[32..48][8..] == scratch[40..48];
  }

  /** Rotates a key variable into the scratch area and loads both halves from there. */
  method RotateInto(key: array<byte>, count: nat, scratch: array<byte>, dst: array<Word64>, i: nat)
    requires key.Length == 16 && scratch.Length == 48 && key != scratch && count < 128
    requires i + 1 < dst.Length && key as object != dst && scratch as object != dst
    modifies scratch, dst
    ensures dst[..] == old(dst[..])[i := Hi(key[..], count)][i + 1 := Lo(key[..], count)]
  {
    hide Load64, Rotate;
    Rot128(key, count, scratch, 32);
    dst[i] := LoadWord64(scratch, 32);
    dst[i + 1] := LoadWord64(scratch, 40);
    assert scratch[32..48][..8] == scratch[32..40] && scratch[32..48][8..] == scratch[40..48];
  }

  ghost predicate Separate(scratch: array<byte>, kL: array<byte>, kR: array<byte>, kA: array<byte>, kB: array<byte>,
                           kw: array<Word64>, k: array<Word64>, kl: array<Word64>)
  {
    && scratch.Length == 48 && kL.Length == 16 && kR.Length == 16 && kA.Length == 16 && kB.Length == 16
    && kw.Length == 4 && k.Length == 24 && kl.Length == 6
    && scratch !in {kL, kR, kA, kB} && kw != k && kw != kl && k != kl
    && kw as object !in {scratch as object, kL, kR, kA, kB}
    && k as object !in {scratch as object, kL, kR, kA, kB}
    && kl as object !in {scratch as object, kL, kR, kA, kB}
  }

  /** Setup for 128-bit keys, up to the subkeys rotated by 45. */
  method Schedule128Low(scratch: array<byte>, kL: array<byte>, kA: array<byte>,
                        kw: array<Word64>, k: array<Word64>, kl: array<Word64>)
    requires Separate(scratch, kL, kL, kA, kA, kw, k, kl)
    modifies scratch, kw, k, kl
    ensures kw[..2] == Kw128(kL[..], kA[..])[..2]
    ensures k[..8] == K128(kL[..], kA[..])[..8] && k[18..] == old(k[18..])
    ensures kl[..2] == Kl128(kL[..], kA[..])[..2] && kl[4..] == old(kl[4..])
  {
    hide Hi, Lo;
    LoadInto(kL, kw, 0);
    LoadInto(kA, k, 0);
    RotateInto(kL, 15, scratch, k, 2);
    RotateInto(kA, 15, scratch, k, 4);
    RotateInto(kA, 30, scratch, kl, 0);
    RotateInto(kL, 45, scratch, k, 6);
  }

  /** ... and from there on; two of the loads use only one half of the rotated key. */
  method Schedule128High(scratch: array<byte>, kL: array<byte>, kA: array<byte>,
                         kw: array<Word64>, k: array<Word64>, kl: array<Word64>)
    requires Separate(scratch, kL, kL, kA, kA, kw, k, kl)
    modifies scratch, kw, k, kl
    ensures kw[..2] == old(kw[..2]) && kw[2..] == Kw128(kL[..], kA[..])[2..]
    ensures k[..8] == old(k[..8]) && k[8..18] == K128(kL[..], kA[..])[8..] && k[18..] == old(k[18..])
    ensures kl[..2] == old(kl[..2]) && kl[2..4] == Kl128(kL[..], kA[..])[2..] && kl[4..] == old(kl[4..])
  {
    hide Hi, Lo;
    k[8] := RotateHalf(kA, 45, scratch, false);
    k[9] := RotateHalf(kL, 60, scratch, true);
    RotateInto(kA, 60, scratch, k, 10);
    RotateInto(kL, 77, scratch, kl, 2);
    RotateInto(kL, 94, scratch, k, 12);
    RotateInto(kA, 94, scratch, k, 14);
    RotateInto(kL, 111, scratch, k, 16);
    RotateInto(kA, 111, scratch, kw, 2);
  }

  method Schedule128(scratch: array<byte>, kL: array<byte>, kA: array<byte>,
                     kw: array<Word64>, k: array<Word64>, kl: array<Word64>)
    requires Separate(scratch, kL, kL, kA, kA, kw, k, kl)
    modifies scratch, kw, k, kl
    ensures kw[..] == Kw128(kL[..], kA[..])
    ensures k[..18] == K128(kL[..], kA[..]) && k[18..] == old(k[18..])
    ensures kl[..4] == Kl128(kL[..], kA[..]) && kl[4..] == old(kl[4..])
  {
    hide Kw128, K128, Kl128;
    Schedule128Low(scratch, kL, kA, kw, k, kl);
    Schedule128High(scratch, kL, kA, kw, k, kl);
    assert kw[..] == kw[..2] + kw[2..];
    assert k[..18] == k[..8] + k[8..18];
    assert kl[..4] == kl[..2] + kl[2..4];
  }

  /** Setup for longer keys, up to the subkeys rotated by 45. */
  method Schedule256Low(scratch: array<byte>, kL: array<byte>, kR: array<byte>, kA: array<byte>, kB: array<byte>,
                        kw: array<Word64>, k: array<Word64>, kl: array<Word64>)
    requires Separate(scratch, kL, kR, kA, kB, kw, k, kl)
    modifies scratch, kw, k, kl
    ensures kw[..2] == Kw256(kL[..], kB[..])[..2]
    ensures k[..12] == K256(kL[..], kR[..], kA[..], kB[..])[..12]
    ensures kl[..2] == Kl256(kL[..], kR[..], kA[..])[..2]
  {
    hide Hi, Lo;
    LoadInto(kL, kw, 0);
    LoadInto(kB, k, 0);
    RotateInto(kR, 15, scratch, k, 2);
    RotateInto(kA, 15, scratch, k, 4);
    RotateInto(kR, 30, scratch, kl, 0);
    RotateInto(kB, 30, scratch, k, 6);
    RotateInto(kL, 45, scratch, k, 8);
    RotateInto(kA, 45, scratch, k, 10);
  }

  /** ... and from there on. */
  method Schedule256High(scratch: array<byte>, kL: array<byte>, kR: array<byte>, kA: array<byte>, kB: array<byte>,
                         kw: array<Word64>, k: array<Word64>, kl: array<Word64>)
    requires Separate(scratch, kL, kR, kA, kB, kw, k, kl)
    modifies scratch, kw, k, kl
    ensures kw[..2] == old(kw[..2]) && kw[2..] == Kw256(kL[..], kB[..])[2..]
    ensures k[..12] == old(k[..12]) && k[12..] == K256(kL[..], kR[..], kA[..], kB[..])[12..]
    ensures kl[..2] == old(kl[..2]) && kl[2..] == Kl256(kL[..], kR[..], kA[..])[2..]
  {
    hide Hi, Lo;
    RotateInto(kL, 60, scratch, kl, 2);
    RotateInto(kR, 60, scratch, k, 12);
    RotateInto(kB, 60, scratch, k, 14);
    RotateInto(kL, 77, scratch, k, 16);
    RotateInto(kA, 77, scratch, kl, 4);
    RotateInto(kR, 94, scratch, k, 18);
    RotateInto(kA, 94, scratch, k, 20);
    RotateInto(kL, 111, scratch, k, 22);
    RotateInto(kB, 111, scratch, kw, 2);
  }

  method Schedule256(scratch: array<byte>, kL: array<byte>, kR: array<byte>, kA: array<byte>, kB: array<byte>,
                     kw: array<Word64>, k: array<Word64>, kl: array<Word64>)
    requires Separate(scratch, kL, kR, kA, kB, kw, k, kl)
    modifies scratch, kw, k, kl
    ensures kw[..] == Kw256(kL[..], kB[..])
    ensures k[..] == K256(kL[..], kR[..], kA[..], kB[..])
    ensures kl[..] == Kl256(kL[..], kR[..], kA[..])
  {
    hide Kw256, K256, Kl256;
    Schedule256Low(scratch, kL, kR, kA, kB, kw, k, kl);
    Schedule256High(scratch, kL, kR, kA, kB, kw, k, kl);
    assert kw[..] == kw[..2] + kw[2..];
    assert k[..] == k[..12] + k[12..];
    assert kl[..] == kl[..2] + kl[2..];
  }

  // ---- the data path ----

  /** Six rounds in the order of encryption. */
  method SixRounds(L: Word64, R: Word64, k: array<Word64>, g: nat) returns (l: Word64, r: Word64)
    requires k.Length == 24 && g < 4
    ensures Pair(l, r) == Six(Pair(L, R), k[..], g, 6)
  {
    hide F, Xor64;
    SixUnfold(Pair(L, R), k[..], g);
    l, r := L, R;
    var f := PackedF(Xor64(l, k[6 * g])); r := Xor64(r, f);
    f := PackedF(Xor64(r, k[6 * g + 1])); l := Xor64(l, f);
    f := PackedF(Xor64(l, k[6 * g + 2])); r := Xor64(r, f);
    f := PackedF(Xor64(r, k[6 * g + 3])); l := Xor64(l, f);
    f := PackedF(Xor64(l, k[6 * g + 4])); r := Xor64(r, f);
    f := PackedF(Xor64(r, k[6 * g + 5])); l := Xor64(l, f);
  }

  /** The same six rounds backwards. */
  method SixRoundsBack(L: Word64, R: Word64, k: array<Word64>, g: nat) returns (l: Word64, r: Word64)
    requires k.Length == 24 && g < 4
    ensures Pair(l, r) == UnSix(Pair(L, R), k[..], g, 6)
  {
    hide F, Xor64;
    UnSixUnfold(Pair(L, R), k[..], g);
    l, r := L, R;
    var f := PackedF(Xor64(r, k[6 * g + 5])); l := Xor64(l, f);
    f := PackedF(Xor64(l, k[6 * g + 4])); r := Xor64(r, f);
    f := PackedF(Xor64(r, k[6 * g + 3])); l := Xor64(l, f);
    f := PackedF(Xor64(l, k[6 * g + 2])); r := Xor64(r, f);
    f := PackedF(Xor64(r, k[6 * g + 1])); l := Xor64(l, f);
    f := PackedF(Xor64(l, k[6 * g])); r := Xor64(r, f);
  }

  lemma SixUnfold(p: Pair, k: seq<Word64>, g: nat)
    requires 6 * g + 6 <= |k|
    ensures Six(p, k, g, 6) == Feistel(Feistel(Feistel(Feistel(Feistel(Feistel(p, k[6 * g], 0), k[6 * g + 1], 1),
                                 k[6 * g + 2], 2), k[6 * g + 3], 3), k[6 * g + 4], 4), k[6 * g + 5], 5)
  {
    hide Feistel;
    assert Six(p, k, g, 1) == Feistel(p, k[6 * g], 0);
    assert Six(p, k, g, 2) == Feistel(Feistel(p, k[6 * g], 0), k[6 * g + 1], 1);
    assert Six(p, k, g, 4) == Feistel(Feistel(Six(p, k, g, 2), k[6 * g + 2], 2), k[6 * g + 3], 3);
  }

  lemma UnSixUnfold(p: Pair, k: seq<Word64>, g: nat)
    requires 6 * g + 6 <= |k|
    ensures UnSix(p, k, g, 6) == Feistel(Feistel(Feistel(Feistel(Feistel(Feistel(p, k[6 * g + 5], 5), k[6 * g + 4], 4),
                                   k[6 * g + 3], 3), k[6 * g + 2], 2), k[6 * g + 1], 1), k[6 * g], 0)
  {
    hide Feistel;
    var q := Feistel(Feistel(p, k[6 * g + 5], 5), k[6 * g + 4], 4);
    var r := Feistel(Feistel(q, k[6 * g + 3], 3), k[6 * g + 2], 2);
    assert UnSix(p, k, g, 6) == UnSix(q, k, g, 4);
    assert UnSix(q, k, g, 4) == UnSix(r, k, g, 2);
    assert UnSix(r, k, g, 2) == Feistel(Feistel(r, k[6 * g + 1], 1), k[6 * g], 0);
  }

  /** The code's FL: the low half first, then the high half from it. */
  method ApplyFL(x: Word64, k: Word64) returns (y: Word64)
    ensures y == FL(x, k)
  {
    hide Xor, Or, And, Rol;
    var a, b := x.hi, x.lo;
    b := Xor(b, Rol(And(a, k.hi), 1));
    a := Xor(a, Or(b, k.lo));
    y := Word64(a, b);
  }

  method ApplyFLInverse(x: Word64, k: Word64) returns (y: Word64)
    ensures y == FLInverse(x, k)
  {
    hide Xor, Or, And, Rol;
    var a, b := x.hi, x.lo;
    a := Xor(a, Or(b, k.lo));
    b := Xor(b, Rol(And(a, k.hi), 1));
    y := Word64(a, b);
  }

  function EncryptBytes(s: seq<byte>, sub: Subkeys, groups: nat): (r: seq<byte>)
    requires |s| == 16 && ValidSubkeys(sub) && 1 <= groups <= 4
    ensures |r| == 16
  {
    StorePair(Encrypt(LoadPair(s), sub, groups))
  }

  function DecryptBytes(s: seq<byte>, sub: Subkeys, groups: nat): (r: seq<byte>)
    requires |s| == 16 && ValidSubkeys(sub) && 1 <= groups <= 4
    ensures |r| == 16
  {
    StorePair(Decrypt(LoadPair(s), sub, groups))
  }

  /** Decryption undoes encryption and the other way round, for 18 rounds (3 groups) and for 24 (4 groups), whatever the subkeys. */
  lemma DecryptUndoesEncrypt(s: seq<byte>, sub: Subkeys, groups: nat)
    requires |s| == 16 && ValidSubkeys(sub) && 1 <= groups <= 4
    ensures DecryptBytes(EncryptBytes(s, sub, groups), sub, groups) == s
    ensures EncryptBytes(DecryptBytes(s, sub, groups), sub, groups) == s
  {
    hide Encrypt, Decrypt, LoadPair, StorePair;
    LoadStorePair(Decrypt(LoadPair(s), sub, groups));
    DecryptInverse(LoadPair(s), sub, groups);
    LoadStorePair(Encrypt(LoadPair(s), sub, groups));
    StoreLoadPair(s);
  }

  lemma GroupsUnfold(p: Pair, s: Subkeys)
    requires ValidSubkeys(s)
    ensures Groups(p, s, 1) == Six(p, s.k, 0, 6)
    ensures Groups(p, s, 2) == Six(Layer(Groups(p, s, 1), s.kl, 0), s.k, 1, 6)
    ensures Groups(p, s, 3) == Six(Layer(Groups(p, s, 2), s.kl, 1), s.k, 2, 6)
    ensures Groups(p, s, 4) == Six(Layer(Groups(p, s, 3), s.kl, 2), s.k, 3, 6)
  {
    hide Six, Layer;
  }

  lemma UnGroupsUnfold(p: Pair, s: Subkeys, groups: nat)
    requires ValidSubkeys(s) && 1 <= groups <= 4
    ensures groups == 1 ==> UnGroups(p, s, groups) == UnSix(p, s.k, 0, 6)
    ensures groups > 1 ==>
      UnGroups(p, s, groups) == UnGroups(UnLayer(UnSix(p, s.k, groups - 1, 6), s.kl, groups - 2), s, groups - 1)
  {
    hide UnSix, UnLayer;
  }

  lemma Load128(a: array<byte>)
    requires a.Length >= 16
    ensures LoadPair(a[..16]) == Pair(Load64(a[0..8]), Load64(a[8..16]))
  {
    hide Load64;
    assert a[..16][..8] == a[0..8] && a[..16][8..] == a[8..16];
  }

  method StoreBoth(a: array<byte>, l: Word64, r: Word64)
    requires a.Length >= 16
    modifies a
    ensures a[..16] == StorePair(Pair(l, r)) && a[16..] == old(a[16..])
  {
    hide Store64;
    StoreWord64(a, 0, l);
    ghost var m := a[..];
    StoreWord64(a, 8, r);
    ghost var n := a[..];
    assert n[..16] == n[..8] + n[8..16];
    assert m[8..][8..] == m[16..] && n[..8] == m[..8] == m[0..8];
  }

  /** The camellia part of symmetric_key. */
  class Key {
    var R: int
    const kw: array<Word64>
    const k: array<Word64>
    const kl: array<Word64>

    ghost predicate Valid() {
      kw.Length == 4 && k.Length == 24 && kl.Length == 6 && kw != k && kw != kl && k != kl
    }

    ghost predicate Apart(buffer: array<byte>) {
      buffer as object != kw && buffer as object != k && buffer as object != kl
    }

    ghost function Sub(): (s: Subkeys)
      requires Valid()
      reads kw, k, kl
      ensures ValidSubkeys(s)
    {
      Subkeys(kw[..], k[..], kl[..])
    }

    constructor ()
      ensures Valid() && fresh(kw) && fresh(k) && fresh(kl)
    {
      kw := new Word64[4](i => Word64(Word(0), Word(0)));
      k := new Word64[24](i => Word64(Word(0), Word(0)));
      kl := new Word64[6](i => Word64(Word(0), Word(0)));
    }

    /** R is stored before the requested number of rounds is checked. */
    method Setup(key: array<byte>, keylen: int, numRounds: int) returns (status: Status)
      requires Valid() && Apart(key) && keylen <= key.Length
      modifies this, kw, k, kl
      ensures !ValidLength(keylen) ==> status == InvalidKeysize && R == old(R)
      ensures ValidLength(keylen) ==> R == if keylen == 16 then 18 else 24
      ensures ValidLength(keylen) && numRounds != 0 && numRounds != R ==> status == InvalidRounds
      ensures status != Ok ==> Sub() == old(Sub())
      ensures ValidLength(keylen) && (numRounds == 0 || numRounds == R) ==> status == Ok
      ensures status == Ok && keylen == 16 ==>
        var key0 := old(key[..16]);
        kw[..] == Kw128(KL(key0), KA(key0)) && k[..18] == K128(KL(key0), KA(key0)) && kl[..4] == Kl128(KL(key0), KA(key0))
      ensures status == Ok && keylen == 16 ==> k[18..] == old(k[18..]) && kl[4..] == old(kl[4..])
      ensures status == Ok && keylen != 16 ==>
        var key0 := old(key[..keylen]);
        && kw[..] == Kw256(KL(key0), KB(key0)) && k[..] == K256(KL(key0), KR(key0), KA(key0), KB(key0))
        && kl[..] == Kl256(KL(key0), KR(key0), KA(key0))
    {
      hide KL, KR, LoadPair, StorePair, DeriveKA, DeriveKB, Kw128, K128, Kl128, Kw256, K256, Kl256, XorPair;
      if keylen != 16 && keylen != 24 && keylen != 32 { return InvalidKeysize; }
      R := if keylen == 16 then 18 else 24;
      if numRounds != 0 && numRounds != R { return InvalidRounds; }
      var scratch, kA, kB := new byte[48], new byte[16], new byte[16];
      var kL, kR := new byte[16], new byte[16];
      LoadKey(key, keylen, scratch, kL, kR);
      DeriveA(scratch, kL, kR, kA);
      if keylen == 16 {
        Schedule128(scratch, kL, kA, kw, k, kl);
      } else {
        DeriveB(scratch, kA, kR, kB);
        Schedule256(scratch, kL, kR, kA, kB, kw, k, kl);
      }
      return Ok;
    }

    /** Three groups of rounds, and a fourth when R is 24; pt and ct may be the same buffer. */
    method EcbEncrypt(pt: array<byte>, ct: array<byte>)
      requires Valid() && Apart(ct) && pt.Length >= 16 && ct.Length >= 16
      modifies ct
      ensures ct[..16] == EncryptBytes(old(pt[..16]), Sub(), if R == 24 then 4 else 3) && ct[16..] == old(ct[16..])
    {
      hide LoadPair, StorePair, Load64, Six, Groups, FL, FLInverse, Xor64;
      ghost var s := Sub();
      Load128(pt);
      var l := LoadWord64(pt, 0);
      var r := LoadWord64(pt, 8);
      l := Xor64(l, kw[0]);
      r := Xor64(r, kw[1]);
      GroupsUnfold(Pair(l, r), s);
      l, r := SixRounds(l, r, k, 0);
      l := ApplyFL(l, kl[0]);
      r := ApplyFLInverse(r, kl[1]);
      l, r := SixRounds(l, r, k, 1);
      l := ApplyFL(l, kl[2]);
      r := ApplyFLInverse(r, kl[3]);
      l, r := SixRounds(l, r, k, 2);
      if R == 24 {
        l := ApplyFL(l, kl[4]);
        r := ApplyFLInverse(r, kl[5]);
        l, r := SixRounds(l, r, k, 3);
      }
      l := Xor64(l, kw[3]);
      r := Xor64(r, kw[2]);
      StoreBoth(ct, r, l);
    }

    method EcbDecrypt(ct: array<byte>, pt: array<byte>)
      requires Valid() && Apart(pt) && ct.Length >= 16 && pt.Length >= 16
      modifies pt
      ensures pt[..16] == DecryptBytes(old(ct[..16]), Sub(), if R == 24 then 4 else 3) && pt[16..] == old(pt[16..])
    {
      hide LoadPair, StorePair, Load64, UnSix, UnGroups, FL, FLInverse, Xor64;
      ghost var s := Sub();
      Load128(ct);
      var r := LoadWord64(ct, 0);
      var l := LoadWord64(ct, 8);
      l := Xor64(l, kw[3]);
      r := Xor64(r, kw[2]);
      if R == 24 {
        UnGroupsUnfold(Pair(l, r), s, 4);
        l, r := SixRoundsBack(l, r, k, 3);
        l := ApplyFLInverse(l, kl[4]);
        r := ApplyFL(r, kl[5]);
      }
      UnGroupsUnfold(Pair(l, r), s, 3);
      l, r := SixRoundsBack(l, r, k, 2);
      l := ApplyFLInverse(l, kl[2]);
      r := ApplyFL(r, kl[3]);
      UnGroupsUnfold(Pair(l, r), s, 2);
      l, r := SixRoundsBack(l, r, k, 1);
      l := ApplyFLInverse(l, kl[0]);
      r := ApplyFL(r, kl[1]);
      UnGroupsUnfold(Pair(l, r), s, 1);
      l, r := SixRoundsBack(l, r, k, 0);
      r := Xor64(r, kw[1]);
      l := Xor64(l, kw[0]);
      StoreBoth(pt, l, r);
    }
  }

  /** For each of the three key lengths: set up, encrypt and decrypt one buffer in place. */
  method RoundTripInPlace(key: array<byte>, buffer: array<byte>)
    requires ValidLength(key.Length) && buffer.Length == 16 && key != buffer
    modifies buffer
    ensures buffer[..] == old(buffer[..])
  {
    hide EncryptBytes, DecryptBytes, KL, KR, KA, KB, Kw128, K128, Kl128, Kw256, K256, Kl256;
    var skey := new Key();
    ghost var s := buffer[..];
    assert buffer[..16] == s;
    var status := skey.Setup(key, key.Length, 0);
    ghost var sub := skey.Sub();
    skey.EcbEncrypt(buffer, buffer);
    skey.EcbDecrypt(buffer, buffer);
    DecryptUndoesEncrypt(s, sub, if skey.R == 24 then 4 else 3);
    assert buffer[..] == buffer[..16];
  }

  // ---- a refused setup ----

  /** The state of a stored block behind the third group. */
  function StateAfterThree(s: seq<byte>, sub: Subkeys): Pair
    requires |s| == 16 && ValidSubkeys(sub)
  {
    AfterThree(LoadPair(s), sub)
  }

  /** A stored block encrypted with one of the two round counts and decrypted with one of them comes back if and only if
      the counts are the same or the fourth group under the subkeys at hand changes nothing in its state. */
  lemma WrongRoundsOnBytes(s: seq<byte>, sub: Subkeys, groups: nat, other: nat)
    requires |s| == 16 && ValidSubkeys(sub) && 3 <= groups <= 4 && 3 <= other <= 4
    ensures DecryptBytes(EncryptBytes(s, sub, groups), sub, other) == s
       <==> groups == other || Extra(StateAfterThree(s, sub), sub) == StateAfterThree(s, sub)
  {
    hide Encrypt, Decrypt, LoadPair, StorePair, Extra, AfterThree;
    var p := LoadPair(s);
    WrongRoundCount(p, sub, groups, other);
    LoadStorePair(Encrypt(p, sub, groups));
    LoadStorePair(Decrypt(Encrypt(p, sub, groups), sub, other));
    StoreLoadPair(s);
  }

  /** The groups of six rounds that a key of this length gets. */
  function GroupsFor(keylen: int): (groups: nat)
    ensures 3 <= groups <= 4
  {
    if keylen == 16 then 3 else 4
  }

  /** A request that setup refuses: for a length or for a number of rounds. */
  predicate Refused(keylen: int, numRounds: int) {
    !ValidLength(keylen) || (numRounds != 0 && numRounds != 6 * GroupsFor(keylen))
  }

  /** The groups that are run once the request is refused: those of the refused length, if that is valid. */
  function GroupsAfter(keylen: int, refused: int): (groups: nat)
    ensures 3 <= groups <= 4
  {
    GroupsFor(if ValidLength(refused) then refused else keylen)
  }

  /** A key of any accepted length is set up and a block encrypted; any other request is refused; the block is decrypted.
      The subkeys are still those of the first key. The block comes back if and only if the refused request stands for the
      same number of rounds or the fourth group changes nothing in the block's state. */
  method RefusedSetup(skey: Key, key: array<byte>, other: array<byte>, keylen: int, numRounds: int, buffer: array<byte>)
    returns (status: Status)
    requires skey.Valid() && skey.Apart(key) && skey.Apart(other) && skey.Apart(buffer)
    requires ValidLength(key.Length) && keylen <= other.Length && Refused(keylen, numRounds)
    requires buffer.Length == 16 && key != buffer
    modifies skey, skey.kw, skey.k, skey.kl, buffer
    ensures status == if ValidLength(keylen) then InvalidRounds else InvalidKeysize
    ensures skey.R == 6 * GroupsAfter(key.Length, keylen)
    ensures buffer[..] == old(buffer[..]) <==> (
      || GroupsAfter(key.Length, keylen) == GroupsFor(key.Length)
      || Extra(StateAfterThree(old(buffer[..]), skey.Sub()), skey.Sub()) == StateAfterThree(old(buffer[..]), skey.Sub()))
  {
    hide EncryptBytes, DecryptBytes, KL, KR, KA, KB, Kw128, K128, Kl128, Kw256, K256, Kl256, Extra, StateAfterThree;
    ghost var s := buffer[..];
    assert buffer[..16] == s;
    status := skey.Setup(key, key.Length, 0);
    ghost var sub := skey.Sub();
    skey.EcbEncrypt(buffer, buffer);
    status := skey.Setup(other, keylen, numRounds);
    skey.EcbDecrypt(buffer, buffer);
    WrongRoundsOnBytes(s, sub, GroupsFor(key.Length), GroupsAfter(key.Length, keylen));
    assert buffer[..] == buffer[..16];
  }
}
