/** Camellia's data path (camellia.c): the round function, the FL layers, and the two directions. */
module Camellia {
  import opened Words
  import T = CamelliaTables

  /** A 64-bit word as its two 32-bit halves: every operation of the cipher works on the halves. */
  datatype Word64 = Word64(hi: Word, lo: Word)

  function Xor64(a: Word64, b: Word64): Word64 {
    Word64(Xor(a.hi, b.hi), Xor(a.lo, b.lo))
  }

  lemma Xor64Twice(a: Word64, b: Word64)
    ensures Xor64(Xor64(a, b), b) == a
  {
    hide Xor;
    XorTwice(a.hi, b.hi);
    XorTwice(a.lo, b.lo);
  }

  // ---- the round function ----

  /** Byte i of a 64-bit word, counted 1 .. 8 from the high end, as the macro loc counts. */
  function Loc(x: Word64, i: int): byte
    requires 1 <= i <= 8
  {
    var w := if i <= 4 then x.hi else x.lo;
    if i % 4 == 1 then ByteAt(w, 24) else if i % 4 == 2 then ByteAt(w, 16) else if i % 4 == 3 then ByteAt(w, 8) else ByteAt(w, 0)
  }

  function Plus(a: byte, b: byte): byte { a ^ b }

  function Sum3(a: byte, b: byte, c: byte): byte { Plus(Plus(a, b), c) }

  /** The linear layer of section 2.4.1 of RFC 3713: each output byte is the sum of six or of five S-box values. */
  function Diffuse(t1: byte, t2: byte, t3: byte, t4: byte, t5: byte, t6: byte, t7: byte, t8: byte): Word64 {
    var y1 := Plus(Sum3(t8, t6, t7), Sum3(t1, t3, t4));
    var y2 := Plus(Sum3(t8, t5, t7), Sum3(t1, t2, t4));
    var y3 := Plus(Sum3(t8, t5, t6), Sum3(t1, t2, t3));
    var y4 := Plus(Sum3(t5, t6, t7), Sum3(t2, t3, t4));
    var y5 := Plus(Sum3(t8, t6, t7), Plus(t1, t2));
    var y6 := Plus(Sum3(t8, t5, t7), Plus(t2, t3));
    var y7 := Plus(Sum3(t8, t5, t6), Plus(t3, t4));
    var y8 := Plus(Sum3(t5, t6, t7), Plus(t4, t1));
    Word64(Pack32(y1, y2, y3, y4), Pack32(y5, y6, y7, y8))
  }

  /** The byte-level F of section 2.4.1 of RFC 3713, after the round key has been added. */
  function F(x: Word64): Word64 {
    Diffuse(T.S1(Loc(x, 1)), T.S2(Loc(x, 2)), T.S3(Loc(x, 3)), T.S4(Loc(x, 4)),
            T.S2(Loc(x, 5)), T.S3(Loc(x, 6)), T.S4(Loc(x, 7)), T.S1(Loc(x, 8)))
  }

  function SP1110(x: byte): Word { Word(T.SP1110(x)) }

  function SP0222(x: byte): Word { Word(T.SP0222(x)) }

  function SP3033(x: byte): Word { Word(T.SP3033(x)) }

  function SP4404(x: byte): Word { Word(T.SP4404(x)) }

  /** Both halves of the packed computation on S-box values. */
  function PackedD(t5: byte, t6: byte, t7: byte, t8: byte): Word {
    Xor(Xor(Xor(Pack32(t8, t8, t8, 0), Pack32(0, t5, t5, t5)), Pack32(t6, 0, t6, t6)), Pack32(t7, t7, 0, t7))
  }

  function PackedU(t1: byte, t2: byte, t3: byte, t4: byte): Word {
    Xor(Xor(Xor(Pack32(t1, t1, t1, 0), Pack32(0, t2, t2, t2)), Pack32(t3, 0, t3, t3)), Pack32(t4, t4, 0, t4))
  }

  lemma PackXor(a0: byte, a1: byte, a2: byte, a3: byte, b0: byte, b1: byte, b2: byte, b3: byte)
    ensures Xor(Pack32(a0, a1, a2, a3), Pack32(b0, b1, b2, b3)) == Pack32(Plus(a0, b0), Plus(a1, b1), Plus(a2, b2), Plus(a3, b3))
  {
  }

  lemma PlusZero(a: byte)
    ensures Plus(a, 0) == a && Plus(0, a) == a
  {
  }

  lemma PackedUBytes(t1: byte, t2: byte, t3: byte, t4: byte)
    ensures PackedU(t1, t2, t3, t4) == Pack32(Sum3(t1, t3, t4), Sum3(t1, t2, t4), Sum3(t1, t2, t3), Sum3(t2, t3, t4))
  {
    hide Pack32, Xor, Plus;
    PlusZero(t1);
    PlusZero(t2);
    PlusZero(Plus(t1, t2));
    PlusZero(Sum3(t1, t2, t3));
    PackXor(t1, t1, t1, 0, 0, t2, t2, t2);
    PackXor(t1, Plus(t1, t2), Plus(t1, t2), t2, t3, 0, t3, t3);
    PackXor(Plus(t1, t3), Plus(t1, t2), Sum3(t1, t2, t3), Plus(t2, t3), t4, t4, 0, t4);
  }

  lemma RolPack(a: byte, b: byte, c: byte, d: byte)
    ensures Rol(Pack32(a, b, c, d), 24) == Pack32(d, a, b, c)
  {
  }

  lemma PackedHigh(t1: byte, t2: byte, t3: byte, t4: byte, t5: byte, t6: byte, t7: byte, t8: byte)
    ensures Xor(PackedD(t5, t6, t7, t8), PackedU(t1, t2, t3, t4)) == Diffuse(t1, t2, t3, t4, t5, t6, t7, t8).hi
  {
    hide Pack32, Xor, Plus, Sum3;
    assert PackedD(t5, t6, t7, t8) == PackedU(t8, t5, t6, t7);
    hide PackedD, PackedU;
    PackedUBytes(t8, t5, t6, t7);
    PackedUBytes(t1, t2, t3, t4);
    PackXor(Sum3(t8, t6, t7), Sum3(t8, t5, t7), Sum3(t8, t5, t6), Sum3(t5, t6, t7),
            Sum3(t1, t3, t4), Sum3(t1, t2, t4), Sum3(t1, t2, t3), Sum3(t2, t3, t4));
  }

  /** Adding the rotated upper sums cancels the two terms each pair of sums shares. */
  lemma PackedLow(t1: byte, t2: byte, t3: byte, t4: byte, t5: byte, t6: byte, t7: byte, t8: byte)
    ensures
      var out := Diffuse(t1, t2, t3, t4, t5, t6, t7, t8);
      Xor(out.hi, Rol(PackedU(t1, t2, t3, t4), 24)) == out.lo
  {
    hide Pack32, Xor, Plus, Sum3, Rol, PackedU;
    PackedUBytes(t1, t2, t3, t4);
    RolPack(Sum3(t1, t3, t4), Sum3(t1, t2, t4), Sum3(t1, t2, t3), Sum3(t2, t3, t4));
    var h1, h2, h3, h4 := Sum3(t8, t6, t7), Sum3(t8, t5, t7), Sum3(t8, t5, t6), Sum3(t5, t6, t7);
    PackXor(Plus(h1, Sum3(t1, t3, t4)), Plus(h2, Sum3(t1, t2, t4)), Plus(h3, Sum3(t1, t2, t3)), Plus(h4, Sum3(t2, t3, t4)),
            Sum3(t2, t3, t4), Sum3(t1, t3, t4), Sum3(t1, t2, t4), Sum3(t1, t2, t3));
    SharedTerms(h1, t1, t2, t3, t4);
    SharedTerms(h2, t2, t3, t1, t4);
    SharedTerms(h3, t3, t4, t1, t2);
    SharedTerms(h4, t4, t1, t2, t3);
    Sum3Order(t1, t2, t4);
    Sum3Order(t1, t3, t4);
    Sum3Order(t1, t2, t3);
    Sum3Order(t2, t1, t3);
    Sum3Order(t2, t3, t4);
    Sum3Order(t3, t1, t2);
    Sum3Order(t3, t2, t4);
    Sum3Order(t4, t1, t2);
    Sum3Order(t4, t2, t3);
  }

  lemma SharedTerms(h: byte, a: byte, b: byte, c: byte, d: byte)
    ensures Plus(Plus(h, Sum3(a, c, d)), Sum3(b, c, d)) == Plus(h, Plus(a, b))
  {
    hide Plus, Sum3;
    PlusAssociative(h, Sum3(a, c, d), Sum3(b, c, d));
    SharedPair(a, b, c, d);
  }

  lemma SharedPair(a: byte, b: byte, c: byte, d: byte)
    ensures Plus(Sum3(a, c, d), Sum3(b, c, d)) == Plus(a, b)
  {
  }

  lemma PlusAssociative(a: byte, b: byte, c: byte)
    ensures Plus(Plus(a, b), c) == Plus(a, Plus(b, c))
  {
  }

  lemma PlusCommutes(a: byte, b: byte)
    ensures Plus(a, b) == Plus(b, a)
  {
  }

  lemma Sum3Order(a: byte, b: byte, c: byte)
    ensures Sum3(a, b, c) == Sum3(b, a, c) == Sum3(a, c, b) == Sum3(b, c, a)
  {
    hide Plus;
    PlusCommutes(a, b);
    PlusCommutes(b, c);
    PlusCommutes(a, Plus(b, c));
    PlusAssociative(a, b, c);
    PlusAssociative(a, c, b);
  }

  /** The packed computation of camellia.c: two table sums, and the lower half from the upper by one rotation. */
  method PackedF(x: Word64) returns (r: Word64)
    ensures r == F(x)
  {
    hide SP1110, SP0222, SP3033, SP4404, Loc, Xor, Rol, Pack32, PackedD, PackedU;
    var d := Xor(Xor(Xor(SP1110(Loc(x, 8)), SP0222(Loc(x, 5))), SP3033(Loc(x, 6))), SP4404(Loc(x, 7)));
    var u := Xor(Xor(Xor(SP1110(Loc(x, 1)), SP0222(Loc(x, 2))), SP3033(Loc(x, 3))), SP4404(Loc(x, 4)));
    TableSums(x);
    var t1, t2, t3, t4 := T.S1(Loc(x, 1)), T.S2(Loc(x, 2)), T.S3(Loc(x, 3)), T.S4(Loc(x, 4));
    var t5, t6, t7, t8 := T.S2(Loc(x, 5)), T.S3(Loc(x, 6)), T.S4(Loc(x, 7)), T.S1(Loc(x, 8));
    hide T.S1, T.S2, T.S3, T.S4, Diffuse;
    PackedHigh(t1, t2, t3, t4, t5, t6, t7, t8);
    PackedLow(t1, t2, t3, t4, t5, t6, t7, t8);
    d := Xor(d, u);
    u := Xor(d, Rol(u, 24));
    r := Word64(d, u);
  }

  lemma TableSums(x: Word64)
    ensures Xor(Xor(Xor(SP1110(Loc(x, 8)), SP0222(Loc(x, 5))), SP3033(Loc(x, 6))), SP4404(Loc(x, 7)))
         == PackedD(T.S2(Loc(x, 5)), T.S3(Loc(x, 6)), T.S4(Loc(x, 7)), T.S1(Loc(x, 8)))
    ensures Xor(Xor(Xor(SP1110(Loc(x, 1)), SP0222(Loc(x, 2))), SP3033(Loc(x, 3))), SP4404(Loc(x, 4)))
         == PackedU(T.S1(Loc(x, 1)), T.S2(Loc(x, 2)), T.S3(Loc(x, 3)), T.S4(Loc(x, 4)))
  {
    hide Loc, Xor, Pack32, SP1110, SP0222, SP3033, SP4404, T.S1, T.S2, T.S3, T.S4;
    SPRows(Loc(x, 1));
    SPRows(Loc(x, 2));
    SPRows(Loc(x, 3));
    SPRows(Loc(x, 4));
    SPRows(Loc(x, 5));
    SPRows(Loc(x, 6));
    SPRows(Loc(x, 7));
    SPRows(Loc(x, 8));
  }

  lemma SPRows(x: byte)
    ensures SP1110(x) == Pack32(T.S1(x), T.S1(x), T.S1(x), 0) && SP0222(x) == Pack32(0, T.S2(x), T.S2(x), T.S2(x))
    ensures SP3033(x) == Pack32(T.S3(x), 0, T.S3(x), T.S3(x)) && SP4404(x) == Pack32(T.S4(x), T.S4(x), 0, T.S4(x))
  {
    hide T.S1, T.S2, T.S3, T.S4, T.SP1110, T.SP0222, T.SP3033, T.SP4404;
    T.Rows(x);
  }

  // ---- FL and its inverse ----

  function FL(x: Word64, k: Word64): Word64 {
    var lo := Xor(x.lo, Rol(And(x.hi, k.hi), 1));
    Word64(Xor(x.hi, Or(lo, k.lo)), lo)
  }

  function FLInverse(x: Word64, k: Word64): Word64 {
    var hi := Xor(x.hi, Or(x.lo, k.lo));
    Word64(hi, Xor(x.lo, Rol(And(hi, k.hi), 1)))
  }

  lemma FLInverts(x: Word64, k: Word64)
    ensures FLInverse(FL(x, k), k) == x && FL(FLInverse(x, k), k) == x
  {
    hide Xor, Or, And, Rol;
    XorTwice(x.lo, Rol(And(x.hi, k.hi), 1));
    XorTwice(x.hi, Or(Xor(x.lo, Rol(And(x.hi, k.hi), 1)), k.lo));
    var hi := Xor(x.hi, Or(x.lo, k.lo));
    XorTwice(x.hi, Or(x.lo, k.lo));
    XorTwice(x.lo, Rol(And(hi, k.hi), 1));
  }

  // ---- the two directions ----

  datatype Pair = Pair(l: Word64, r: Word64)

  /** The whitening, round and FL subkeys; the 18-round cipher uses the first 18 round keys and 4 FL keys. */
  datatype Subkeys = Subkeys(kw: seq<Word64>, k: seq<Word64>, kl: seq<Word64>)

  predicate ValidSubkeys(s: Subkeys) {
    |s.kw| == 4 && |s.k| == 24 && |s.kl| == 6
  }

  /** Round n (from 0) changes the right half when n is even, the left half when it is odd. */
  function Feistel(p: Pair, k: Word64, n: nat): Pair {
    if n % 2 == 0 then Pair(p.l, Xor64(p.r, F(Xor64(p.l, k)))) else Pair(Xor64(p.l, F(Xor64(p.r, k))), p.r)
  }

  lemma FeistelTwice(p: Pair, k: Word64, n: nat)
    ensures Feistel(Feistel(p, k, n), k, n) == p
  {
    hide F, Xor64;
    Xor64Twice(p.r, F(Xor64(p.l, k)));
    Xor64Twice(p.l, F(Xor64(p.r, k)));
  }

  /** FL on the left, FL^-1 on the right. */
  function Layer(p: Pair, kl: seq<Word64>, i: nat): Pair
    requires 2 * i + 1 < |kl|
  {
    Pair(FL(p.l, kl[2 * i]), FLInverse(p.r, kl[2 * i + 1]))
  }

  function UnLayer(p: Pair, kl: seq<Word64>, i: nat): Pair
    requires 2 * i + 1 < |kl|
  {
    Pair(FLInverse(p.l, kl[2 * i]), FL(p.r, kl[2 * i + 1]))
  }

  lemma LayerInverse(p: Pair, kl: seq<Word64>, i: nat)
    requires 2 * i + 1 < |kl|
    ensures UnLayer(Layer(p, kl, i), kl, i) == p && Layer(UnLayer(p, kl, i), kl, i) == p
  {
    hide FL, FLInverse;
    FLInverts(p.l, kl[2 * i]);
    FLInverts(p.r, kl[2 * i + 1]);
  }

  /** Six rounds from round 6g on. */
  function Six(p: Pair, k: seq<Word64>, g: nat, n: nat): Pair
    requires n <= 6 && 6 * g + 6 <= |k|
  {
    if n == 0 then p else Feistel(Six(p, k, g, n - 1), k[6 * g + n - 1], n - 1)
  }

  /** The same rounds from the last to the first. */
  function UnSix(p: Pair, k: seq<Word64>, g: nat, n: nat): Pair
    requires n <= 6 && 6 * g + 6 <= |k|
    decreases n
  {
    if n == 0 then p else UnSix(Feistel(p, k[6 * g + n - 1], n - 1), k, g, n - 1)
  }

  lemma {:induction false} UnSixSix(p: Pair, k: seq<Word64>, g: nat, n: nat)
    requires n <= 6 && 6 * g + 6 <= |k|
    ensures UnSix(Six(p, k, g, n), k, g, n) == p
  {
    hide Feistel;
    if n > 0 {
      FeistelTwice(Six(p, k, g, n - 1), k[6 * g + n - 1], n - 1);
      UnSixSix(p, k, g, n - 1);
    }
  }

  lemma {:induction false} SixUnSix(p: Pair, k: seq<Word64>, g: nat, n: nat)
    requires n <= 6 && 6 * g + 6 <= |k|
    ensures Six(UnSix(p, k, g, n), k, g, n) == p
    decreases n
  {
    hide Feistel;
    if n > 0 {
      SixUnSix(Feistel(p, k[6 * g + n - 1], n - 1), k, g, n - 1);
      FeistelTwice(p, k[6 * g + n - 1], n - 1);
    }
  }

  /** `groups` groups of six rounds with a layer between neighbours. */
  function Groups(p: Pair, s: Subkeys, groups: nat): Pair
    requires ValidSubkeys(s) && 1 <= groups <= 4
  {
    if groups == 1 then Six(p, s.k, 0, 6)
    else Six(Layer(Groups(p, s, groups - 1), s.kl, groups - 2), s.k, groups - 1, 6)
  }

  function UnGroups(p: Pair, s: Subkeys, groups: nat): Pair
    requires ValidSubkeys(s) && 1 <= groups <= 4
    decreases groups
  {
    if groups == 1 then UnSix(p, s.k, 0, 6)
    else UnGroups(UnLayer(UnSix(p, s.k, groups - 1, 6), s.kl, groups - 2), s, groups - 1)
  }

  lemma {:induction false} UnGroupsGroups(p: Pair, s: Subkeys, groups: nat)
    requires ValidSubkeys(s) && 1 <= groups <= 4
    ensures UnGroups(Groups(p, s, groups), s, groups) == p
  {
    hide Six, UnSix, Layer, UnLayer;
    if groups == 1 {
      UnSixSix(p, s.k, 0, 6);
    } else {
      var q := Layer(Groups(p, s, groups - 1), s.kl, groups - 2);
      UnSixSix(q, s.k, groups - 1, 6);
      LayerInverse(Groups(p, s, groups - 1), s.kl, groups - 2);
      UnGroupsGroups(p, s, groups - 1);
    }
  }

  lemma {:induction false} GroupsUnGroups(p: Pair, s: Subkeys, groups: nat)
    requires ValidSubkeys(s) && 1 <= groups <= 4
    ensures Groups(UnGroups(p, s, groups), s, groups) == p
    decreases groups
  {
    hide Six, UnSix, Layer, UnLayer;
    if groups == 1 {
      SixUnSix(p, s.k, 0, 6);
    } else {
      var q := UnSix(p, s.k, groups - 1, 6);
      SixUnSix(p, s.k, groups - 1, 6);
      LayerInverse(q, s.kl, groups - 2);
      GroupsUnGroups(UnLayer(q, s.kl, groups - 2), s, groups - 1);
    }
  }

  function Whiten(p: Pair, a: Word64, b: Word64): Pair {
    Pair(Xor64(p.l, a), Xor64(p.r, b))
  }

  lemma WhitenTwice(p: Pair, a: Word64, b: Word64)
    ensures Whiten(Whiten(p, a, b), a, b) == p
  {
    hide Xor64;
    Xor64Twice(p.l, a);
    Xor64Twice(p.r, b);
  }

  function Swap(p: Pair): Pair { Pair(p.r, p.l) }

  /** Prewhitening, the rounds, postwhitening, and the halves exchanged in the output. */
  function Encrypt(p: Pair, s: Subkeys, groups: nat): Pair
    requires ValidSubkeys(s) && 1 <= groups <= 4
  {
    Swap(Whiten(Groups(Whiten(p, s.kw[0], s.kw[1]), s, groups), s.kw[3], s.kw[2]))
  }

  function Decrypt(p: Pair, s: Subkeys, groups: nat): Pair
    requires ValidSubkeys(s) && 1 <= groups <= 4
  {
    Whiten(UnGroups(Whiten(Swap(p), s.kw[3], s.kw[2]), s, groups), s.kw[0], s.kw[1])
  }

  /** For both round counts and any subkeys, the FL layers included. */
  lemma DecryptInverse(p: Pair, s: Subkeys, groups: nat)
    requires ValidSubkeys(s) && 1 <= groups <= 4
    ensures Decrypt(Encrypt(p, s, groups), s, groups) == p
    ensures Encrypt(Decrypt(p, s, groups), s, groups) == p
  {
    hide Whiten, Groups, UnGroups;
    var r := Whiten(Swap(p), s.kw[3], s.kw[2]);
    WhitenTwice(Swap(p), s.kw[3], s.kw[2]);
    WhitenTwice(UnGroups(r, s, groups), s.kw[0], s.kw[1]);
    GroupsUnGroups(r, s, groups);
    var q := Whiten(p, s.kw[0], s.kw[1]);
    WhitenTwice(p, s.kw[0], s.kw[1]);
    WhitenTwice(Groups(q, s, groups), s.kw[3], s.kw[2]);
    UnGroupsGroups(q, s, groups);
  }

  // ---- a round count that does not belong to the subkeys ----

  /** The fourth group of rounds, with the layer in front of it. */
  function Extra(p: Pair, s: Subkeys): Pair
    requires ValidSubkeys(s)
  {
    Six(Layer(p, s.kl, 2), s.k, 3, 6)
  }

  lemma FourGroups(p: Pair, s: Subkeys)
    requires ValidSubkeys(s)
    ensures Groups(p, s, 4) == Extra(Groups(p, s, 3), s)
  {
    hide Six, Layer;
  }

  /** The state of a block after the third group, where encryption with 18 rounds stops. */
  function AfterThree(p: Pair, s: Subkeys): Pair
    requires ValidSubkeys(s)
  {
    Groups(Whiten(p, s.kw[0], s.kw[1]), s, 3)
  }

  /** A block encrypted with 18 or 24 rounds and decrypted with 18 or 24 comes back if and only if the counts are the same
      or the fourth group, under the subkeys that happen to be there, changes nothing in the block's state behind the
      third. */
  lemma WrongRoundCount(p: Pair, s: Subkeys, groups: nat, other: nat)
    requires ValidSubkeys(s) && 3 <= groups <= 4 && 3 <= other <= 4
    ensures Decrypt(Encrypt(p, s, groups), s, other) == p <==> groups == other || Extra(AfterThree(p, s), s) == AfterThree(p, s)
  {
    hide Groups, Decrypt, Encrypt, Whiten, Extra;
    DecryptInverse(p, s, other);
    DecryptInverse(Encrypt(p, s, groups), s, other);
    FourGroups(Whiten(p, s.kw[0], s.kw[1]), s);
    EncryptDetermines(p, s, groups, other);
  }

  lemma EncryptDetermines(p: Pair, s: Subkeys, groups: nat, other: nat)
    requires ValidSubkeys(s) && 1 <= groups <= 4 && 1 <= other <= 4
    ensures var q := Whiten(p, s.kw[0], s.kw[1]);
      Encrypt(p, s, groups) == Encrypt(p, s, other) <==> Groups(q, s, groups) == Groups(q, s, other)
  {
    hide Groups, Whiten;
    var q := Whiten(p, s.kw[0], s.kw[1]);
    WhitenTwice(Groups(q, s, groups), s.kw[3], s.kw[2]);
    WhitenTwice(Groups(q, s, other), s.kw[3], s.kw[2]);
  }

  /** Every state is that of some block. */
  lemma EveryState(x: Pair, s: Subkeys) returns (p: Pair)
    requires ValidSubkeys(s)
    ensures AfterThree(p, s) == x
  {
    hide Groups, UnGroups, Whiten;
    var q := UnGroups(x, s, 3);
    p := Whiten(q, s.kw[0], s.kw[1]);
    WhitenTwice(q, s.kw[0], s.kw[1]);
    GroupsUnGroups(x, s, 3);
  }

  // ---- subkeys for which it does change something ----

  const ZERO := Word64(Word(0), Word(0))
  const ONE := Word64(Word(0x01000000), Word(0))

  lemma FirstBytes()
    ensures Loc(ZERO, 1) == 0 && Loc(ONE, 1) == 1
    ensures Loc(ZERO, 2) == Loc(ONE, 2) && Loc(ZERO, 3) == Loc(ONE, 3) && Loc(ZERO, 4) == Loc(ONE, 4)
    ensures Loc(ZERO, 5) == Loc(ONE, 5) && Loc(ZERO, 6) == Loc(ONE, 6) && Loc(ZERO, 7) == Loc(ONE, 7) && Loc(ZERO, 8) == Loc(ONE, 8)
    ensures T.S1(0) != T.S1(1)
  {
  }

  lemma DiffuseFirst(t: byte, u: byte, t2: byte, t3: byte, t4: byte, t5: byte, t6: byte, t7: byte, t8: byte)
    requires t != u
    ensures Diffuse(t, t2, t3, t4, t5, t6, t7, t8) != Diffuse(u, t2, t3, t4, t5, t6, t7, t8)
  {
    var a, b := Plus(Sum3(t8, t6, t7), Sum3(t, t3, t4)), Plus(Sum3(t8, t6, t7), Sum3(u, t3, t4));
    assert a != b by { FirstSums(t, u, t3, t4, Sum3(t8, t6, t7)); }
    hide Sum3, Plus;
    PackBytes(a, Plus(Sum3(t8, t5, t7), Sum3(t, t2, t4)), Plus(Sum3(t8, t5, t6), Sum3(t, t2, t3)), Plus(Sum3(t5, t6, t7), Sum3(t2, t3, t4)));
    PackBytes(b, Plus(Sum3(t8, t5, t7), Sum3(u, t2, t4)), Plus(Sum3(t8, t5, t6), Sum3(u, t2, t3)), Plus(Sum3(t5, t6, t7), Sum3(t2, t3, t4)));
    hide Pack32;
  }

  lemma FirstSums(t: byte, u: byte, a: byte, b: byte, c: byte)
    requires t != u
    ensures Plus(c, Sum3(t, a, b)) != Plus(c, Sum3(u, a, b))
  {
  }

  lemma FSeparates()
    ensures F(ZERO) != F(ONE)
  {
    FirstBytes();
    hide Loc, Diffuse, T.S1, T.S2, T.S3, T.S4;
    DiffuseFirst(T.S1(0), T.S1(1), T.S2(Loc(ZERO, 2)), T.S3(Loc(ZERO, 3)), T.S4(Loc(ZERO, 4)),
                 T.S2(Loc(ZERO, 5)), T.S3(Loc(ZERO, 6)), T.S4(Loc(ZERO, 7)), T.S1(Loc(ZERO, 8)));
  }

  /** Two sets of subkeys that differ in one bit of the last round key. */
  predicate LastKeyFlipped(s: Subkeys, u: Subkeys)
    requires ValidSubkeys(s) && ValidSubkeys(u)
  {
    && s.kl == u.kl && s.k[..23] == u.k[..23] && u.k[23] == Xor64(s.k[23], ONE)
  }

  lemma {:induction false} SixReads(p: Pair, k: seq<Word64>, l: seq<Word64>, n: nat)
    requires |k| == |l| == 24 && n <= 5 && k[..23] == l[..23]
    ensures Six(p, k, 3, n) == Six(p, l, 3, n)
    decreases n
  {
    hide Feistel;
    if n > 0 {
      SixReads(p, k, l, n - 1);
      assert k[..23][18 + n - 1] == l[..23][18 + n - 1];
    }
  }

  /** Of two such sets, at least one has the fourth group change something. */
  lemma SomeGroupMoves(s: Subkeys, u: Subkeys) returns (x: Pair)
    requires ValidSubkeys(s) && ValidSubkeys(u) && LastKeyFlipped(s, u)
    ensures Extra(x, s) != x || Extra(x, u) != x
  {
    hide F, Xor64, Layer, UnLayer, Six, UnSix;
    var a, b := s.k[23], u.k[23];
    var y := Pair(ZERO, a);
    x := UnLayer(UnSix(y, s.k, 3, 5), s.kl, 2);
    LayerInverse(UnSix(y, s.k, 3, 5), s.kl, 2);
    SixUnSix(y, s.k, 3, 5);
    SixReads(Layer(x, s.kl, 2), s.k, u.k, 5);
    LastRound(Layer(x, s.kl, 2), s);
    LastRound(Layer(x, s.kl, 2), u);
    FSeparates();
    LastRoundInputs(a);
    if Extra(x, s) == Extra(x, u) {
      Xor64Cancels(ZERO, F(ZERO), F(ONE));
    }
  }

  /** When the count goes from 18 to 24 or back, then of any two sets of subkeys that differ in one bit of the last round
      key at least one loses a block. A 128-bit setup leaves that round key as it finds it. */
  lemma SomeBlockIsLost(s: Subkeys, u: Subkeys, groups: nat, other: nat)
    requires ValidSubkeys(s) && ValidSubkeys(u) && LastKeyFlipped(s, u)
    requires 3 <= groups <= 4 && 3 <= other <= 4 && groups != other
    ensures exists p :: Decrypt(Encrypt(p, s, groups), s, other) != p || Decrypt(Encrypt(p, u, groups), u, other) != p
  {
    hide Decrypt, Encrypt, Extra, AfterThree, LastKeyFlipped;
    var x := SomeGroupMoves(s, u);
    var p := EveryState(x, s);
    var q := EveryState(x, u);
    WrongRoundCount(p, s, groups, other);
    WrongRoundCount(q, u, groups, other);
    assert Decrypt(Encrypt(p, s, groups), s, other) != p || Decrypt(Encrypt(q, u, groups), u, other) != q;
  }

  lemma LastRound(p: Pair, s: Subkeys)
    requires ValidSubkeys(s)
    ensures Six(p, s.k, 3, 6) == Feistel(Six(p, s.k, 3, 5), s.k[23], 5)
  {
    hide Feistel;
  }

  lemma LastRoundInputs(a: Word64)
    ensures Xor64(a, a) == ZERO && Xor64(a, Xor64(a, ONE)) == ONE
  {
  }

  lemma Xor64Cancels(a: Word64, x: Word64, y: Word64)
    requires Xor64(a, x) == Xor64(a, y)
    ensures x == y
  {
  }
}
