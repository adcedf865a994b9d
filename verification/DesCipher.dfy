/** DES and triple DES (des.c): the rounds, the block operation, and the routines on byte buffers. */
module DesCipher {
  import opened Words
  import opened DesKeys
  import opened DesPermutation
  import B = DesBoxes

  // ---- the round function ----

  /** What S-box g+1 is looked up with: odd boxes read the rotated half and the first key word. */
  function BoxIndex(half: Word, k0: Word, k1: Word, g: bv6): bv6
    requires g < 8
  {
    var work := if g & 1 == 0 then Word(((half.w >> 4) | (half.w << 28)) ^ k0.w) else Word(half.w ^ k1.w);
    SixBits(work, 24 - 8 * (g >> 1))
  }

  /** The sum of boxes 1, 3, 5 and 7. */
  function OddBoxes(half: Word, k0: Word, k1: Word): Word {
    Xor(Xor(Xor(Word(B.Sp7(BoxIndex(half, k0, k1, 6))), Word(B.Sp5(BoxIndex(half, k0, k1, 4)))),
            Word(B.Sp3(BoxIndex(half, k0, k1, 2)))), Word(B.Sp1(BoxIndex(half, k0, k1, 0))))
  }

  /** The sum of boxes 2, 4, 6 and 8. */
  function EvenBoxes(half: Word, k0: Word, k1: Word): Word {
    Xor(Xor(Xor(Word(B.Sp8(BoxIndex(half, k0, k1, 7))), Word(B.Sp6(BoxIndex(half, k0, k1, 5)))),
            Word(B.Sp4(BoxIndex(half, k0, k1, 3)))), Word(B.Sp2(BoxIndex(half, k0, k1, 1))))
  }

  /** Bit t of a six-bit group, most significant first. */
  predicate GroupBit(x: bv6, t: bv6)
    requires t < 6
  {
    (x >> (5 - t)) & 1 == 1
  }

  /** The standard's expansion: bit t of group g is bit 4*g + t - 1 of the half, counted cyclically from the top. */
  predicate ExpandedBit(r: Word, g: bv6, t: bv6)
    requires g < 8 && t < 6
  {
    (r.w >> (31 - ((4 * g + t + 31) & 31))) & 1 == 1
  }

  /** Bit t of group g of a 48-bit round key held as two halves of four groups. */
  predicate RoundKeyGroupBit(raw0: Word, raw1: Word, g: bv6, t: bv6)
    requires g < 8 && t < 6
  {
    GroupBit(SixBits(if g < 4 then raw0 else raw1, 18 - 6 * (g & 3)), t)
  }

  /** The packed form computes the standard's S-box inputs: the expanded right half plus the round key, bit by bit,
      for a half that the initial permutation has left rotated by one. */
  lemma BoxInputsAreStandard(r: Word, raw0: Word, raw1: Word, g: bv6, t: bv6)
    requires g < 8 && t < 6
    ensures GroupBit(BoxIndex(Rol(r, 1), Cook0(raw0, raw1), Cook1(raw0, raw1), g), t)
         == (ExpandedBit(r, g, t) != RoundKeyGroupBit(raw0, raw1, g, t))
  {
  }

  // ---- the standard's round function ----

  /** The boxes by number. */
  function Box(g: bv6, i: bv6): Word
    requires g < 8
  {
    Word(if g == 0 then B.Sp1(i) else if g == 1 then B.Sp2(i) else if g == 2 then B.Sp3(i) else if g == 3 then B.Sp4(i)
         else if g == 4 then B.Sp5(i) else if g == 5 then B.Sp6(i) else if g == 6 then B.Sp7(i) else B.Sp8(i))
  }

  function SixOf(b0: bool, b1: bool, b2: bool, b3: bool, b4: bool, b5: bool): bv6 {
    (if b0 then 32 else 0) | (if b1 then 16 else 0) | (if b2 then 8 else 0) | (if b3 then 4 else 0)
    | (if b4 then 2 else 0) | (if b5 then 1 else 0)
  }

  predicate StandardBit(r: Word, raw0: Word, raw1: Word, g: bv6, t: bv6)
    requires g < 8 && t < 6
  {
    ExpandedBit(r, g, t) != RoundKeyGroupBit(raw0, raw1, g, t)
  }

  /** What box g+1 is given: the expanded half plus the round key, bit by bit. */
  function StandardIndex(r: Word, raw0: Word, raw1: Word, g: bv6): bv6
    requires g < 8
  {
    SixOf(StandardBit(r, raw0, raw1, g, 0), StandardBit(r, raw0, raw1, g, 1), StandardBit(r, raw0, raw1, g, 2),
          StandardBit(r, raw0, raw1, g, 3), StandardBit(r, raw0, raw1, g, 4), StandardBit(r, raw0, raw1, g, 5))
  }

  function Term(r: Word, raw0: Word, raw1: Word, g: bv6): Word
    requires g < 8
  {
    Box(g, StandardIndex(r, raw0, raw1, g))
  }

  /** The eight boxes added up in order. */
  function StandardSum(r: Word, raw0: Word, raw1: Word): Word {
    Xor(Xor(Xor(Xor(Xor(Xor(Xor(Term(r, raw0, raw1, 0), Term(r, raw0, raw1, 1)), Term(r, raw0, raw1, 2)), Term(r, raw0, raw1, 3)),
            Term(r, raw0, raw1, 4)), Term(r, raw0, raw1, 5)), Term(r, raw0, raw1, 6)), Term(r, raw0, raw1, 7))
  }

  lemma SixFromBits(x: bv6, b0: bool, b1: bool, b2: bool, b3: bool, b4: bool, b5: bool)
    requires GroupBit(x, 0) == b0 && GroupBit(x, 1) == b1 && GroupBit(x, 2) == b2
    requires GroupBit(x, 3) == b3 && GroupBit(x, 4) == b4 && GroupBit(x, 5) == b5
    ensures SixOf(b0, b1, b2, b3, b4, b5) == x
  {
  }

  lemma IndexIsStandard(r: Word, raw0: Word, raw1: Word, g: bv6)
    requires g < 8
    ensures BoxIndex(Rol(r, 1), Cook0(raw0, raw1), Cook1(raw0, raw1), g) == StandardIndex(r, raw0, raw1, g)
  {
    hide BoxIndex, Rol, Cook0, Cook1, GroupBit, ExpandedBit, RoundKeyGroupBit, SixOf;
    var x := BoxIndex(Rol(r, 1), Cook0(raw0, raw1), Cook1(raw0, raw1), g);
    BoxInputsAreStandard(r, raw0, raw1, g, 0);
    BoxInputsAreStandard(r, raw0, raw1, g, 1);
    BoxInputsAreStandard(r, raw0, raw1, g, 2);
    BoxInputsAreStandard(r, raw0, raw1, g, 3);
    BoxInputsAreStandard(r, raw0, raw1, g, 4);
    BoxInputsAreStandard(r, raw0, raw1, g, 5);
    SixFromBits(x, StandardBit(r, raw0, raw1, g, 0), StandardBit(r, raw0, raw1, g, 1), StandardBit(r, raw0, raw1, g, 2),
                StandardBit(r, raw0, raw1, g, 3), StandardBit(r, raw0, raw1, g, 4), StandardBit(r, raw0, raw1, g, 5));
  }

  /** Eight terms added in order, and by odd and even places from the other end. */
  lemma XorByParity(s0: Word, s1: Word, s2: Word, s3: Word, s4: Word, s5: Word, s6: Word, s7: Word)
    ensures Xor(Xor(Xor(Xor(Xor(Xor(Xor(s0, s1), s2), s3), s4), s5), s6), s7)
         == Xor(Xor(Xor(Xor(s6, s4), s2), s0), Xor(Xor(Xor(s7, s5), s3), s1))
  {
    hide Xor;
    XorAssociative(Xor(s0, s1), s2, s3);
    XorShuffle(s0, s1, s2, s3);
    var o1, e1 := Xor(s0, s2), Xor(s1, s3);
    XorAssociative(Xor(o1, e1), s4, s5);
    XorShuffle(o1, e1, s4, s5);
    var o2, e2 := Xor(o1, s4), Xor(e1, s5);
    XorAssociative(Xor(o2, e2), s6, s7);
    XorShuffle(o2, e2, s6, s7);
    XorReversed(s0, s2, s4, s6);
    XorReversed(s1, s3, s5, s7);
  }

  lemma XorReversed(a: Word, b: Word, c: Word, d: Word)
    ensures Xor(Xor(Xor(a, b), c), d) == Xor(Xor(Xor(d, c), b), a)
  {
    hide Xor;
    XorCommutes(Xor(Xor(a, b), c), d);
    XorCommutes(Xor(a, b), c);
    XorAssociative(d, c, Xor(a, b));
    XorCommutes(a, b);
    XorAssociative(Xor(d, c), b, a);
  }

  lemma OddSum(half: Word, k0: Word, k1: Word)
    ensures OddBoxes(half, k0, k1) ==
      Xor(Xor(Xor(Box(6, BoxIndex(half, k0, k1, 6)), Box(4, BoxIndex(half, k0, k1, 4))),
              Box(2, BoxIndex(half, k0, k1, 2))), Box(0, BoxIndex(half, k0, k1, 0)))
    ensures EvenBoxes(half, k0, k1) ==
      Xor(Xor(Xor(Box(7, BoxIndex(half, k0, k1, 7)), Box(5, BoxIndex(half, k0, k1, 5))),
              Box(3, BoxIndex(half, k0, k1, 3))), Box(1, BoxIndex(half, k0, k1, 1)))
  {
    hide BoxIndex, Xor, B.Sp1, B.Sp2, B.Sp3, B.Sp4, B.Sp5, B.Sp6, B.Sp7, B.Sp8;
  }

  // ---- the rounds ----

  function Mix(x: Word, half: Word, k0: Word, k1: Word): Word {
    Xor(Xor(x, OddBoxes(half, k0, k1)), EvenBoxes(half, k0, k1))
  }

  lemma MixTwice(x: Word, half: Word, k0: Word, k1: Word)
    ensures Mix(Mix(x, half, k0, k1), half, k0, k1) == x
  {
    hide OddBoxes, EvenBoxes, Xor;
    var a, b := OddBoxes(half, k0, k1), EvenBoxes(half, k0, k1);
    XorAssociative(x, a, b);
    XorAssociative(Xor(Xor(x, a), b), a, b);
    XorTwice(x, Xor(a, b));
  }

  /** One line pair of the packed rounds adds into a half exactly the standard's function of the other half and the
      unpacked round key, the half being kept rotated by one. */
  lemma MixIsStandard(x: Word, r: Word, raw0: Word, raw1: Word)
    ensures Mix(x, Rol(r, 1), Cook0(raw0, raw1), Cook1(raw0, raw1)) == Xor(x, StandardSum(r, raw0, raw1))
  {
    hide OddBoxes, EvenBoxes, Xor, Rol, Cook0, Cook1, BoxIndex, StandardIndex, Box;
    var half, k0, k1 := Rol(r, 1), Cook0(raw0, raw1), Cook1(raw0, raw1);
    OddSum(half, k0, k1);
    IndexIsStandard(r, raw0, raw1, 0);
    IndexIsStandard(r, raw0, raw1, 1);
    IndexIsStandard(r, raw0, raw1, 2);
    IndexIsStandard(r, raw0, raw1, 3);
    IndexIsStandard(r, raw0, raw1, 4);
    IndexIsStandard(r, raw0, raw1, 5);
    IndexIsStandard(r, raw0, raw1, 6);
    IndexIsStandard(r, raw0, raw1, 7);
    XorByParity(Term(r, raw0, raw1, 0), Term(r, raw0, raw1, 1), Term(r, raw0, raw1, 2), Term(r, raw0, raw1, 3),
                Term(r, raw0, raw1, 4), Term(r, raw0, raw1, 5), Term(r, raw0, raw1, 6), Term(r, raw0, raw1, 7));
    XorAssociative(x, OddBoxes(half, k0, k1), EvenBoxes(half, k0, k1));
  }

  /** Even rounds change the left half, odd rounds the right one; the halves never move. */
  function Round(even: bool, b: Block, k0: Word, k1: Word): Block {
    if even then Block(Mix(b.l, b.r, k0, k1), b.r) else Block(b.l, Mix(b.r, b.l, k0, k1))
  }

  function Rounds(n: nat, b: Block, keys: seq<Word>): Block
    requires n <= 16 && |keys| == 32
  {
    if n == 0 then b
    else Round((n - 1) % 2 == 0, Rounds(n - 1, b, keys), keys[2 * (n - 1)], keys[2 * (n - 1) + 1])
  }

  function Exchange(b: Block): Block { Block(b.r, b.l) }

  /** A round of the other parity on exchanged halves undoes a round. */
  lemma RoundUndone(even: bool, b: Block, k0: Word, k1: Word)
    ensures Round(!even, Exchange(Round(even, b, k0, k1)), k0, k1) == Exchange(b)
  {
    hide Mix;
    MixTwice(b.l, b.r, k0, k1);
    MixTwice(b.r, b.l, k0, k1);
  }

  lemma RoundsStart(b: Block, keys: seq<Word>)
    requires |keys| == 32
    ensures Rounds(0, b, keys) == b
  {
  }

  lemma RoundsStep(n: nat, b: Block, keys: seq<Word>)
    requires n < 16 && |keys| == 32
    ensures Rounds(n + 1, b, keys) == Round(n % 2 == 0, Rounds(n, b, keys), keys[2 * n], keys[2 * n + 1])
  {
  }

  lemma ReversedPair(n: nat, keys: seq<Word>)
    requires n < 16 && |keys| == 32
    ensures Reversed(keys)[2 * n] == keys[2 * (15 - n)] && Reversed(keys)[2 * n + 1] == keys[2 * (15 - n) + 1]
  {
  }

  lemma OtherParity(n: nat)
    requires n < 16
    ensures (n % 2 == 0) == !((15 - n) % 2 == 0)
  {
  }

  /** Running the reversed schedule on the exchanged result steps back through the rounds. */
  lemma {:induction false} RoundsUndone(n: nat, b: Block, keys: seq<Word>)
    requires n <= 16 && |keys| == 32
    ensures Rounds(n, Exchange(Rounds(16, b, keys)), Reversed(keys)) == Exchange(Rounds(16 - n, b, keys))
  {
    hide *;
    var c := Exchange(Rounds(16, b, keys));
    if n == 0 {
      RoundsStart(c, Reversed(keys));
    } else {
      var m := 16 - n;
      RoundsUndone(n - 1, b, keys);
      RoundsStep(n - 1, c, Reversed(keys));
      RoundsStep(m, b, keys);
      ReversedPair(n - 1, keys);
      OtherParity(n - 1);
      RoundUndone(m % 2 == 0, Rounds(m, b, keys), keys[2 * m], keys[2 * m + 1]);
    }
  }

  // ---- the block operation ----

  function Initial(b: Block): Block { Boxed(DeltaIP(Raw(b))) }

  /** The final permutation and the exchange of the halves when the block is written back. */
  function Final(b: Block): Block { Boxed(Swap(DeltaFP(Raw(b)))) }

  lemma FinalUndoesInitial(b: Block)
    ensures Initial(Final(b)) == Exchange(b)
    ensures Final(Exchange(Initial(b))) == b
  {
    hide DeltaIP, DeltaFP, DeltaIPInverse;
    DeltaFPIsInverse(Raw(b));
    DeltaIPInverts(Swap(Raw(b)));
    DeltaFPIsInverse(Swap(DeltaIP(Raw(b))));
    DeltaIPInverts(Raw(b));
  }

  function Transform(b: Block, keys: seq<Word>): Block
    requires |keys| == 32
  {
    Final(Rounds(16, Initial(b), keys))
  }

  /** Whatever the 32 key words, the block operation under the reversed pairs undoes it. */
  lemma TransformUndone(b: Block, keys: seq<Word>)
    requires |keys| == 32
    ensures Transform(Transform(b, keys), Reversed(keys)) == b
  {
    hide Initial, Final, Rounds, Exchange;
    var c := Rounds(16, Initial(b), keys);
    FinalUndoesInitial(c);
    RoundsUndone(16, Initial(b), keys);
    assert Rounds(0, Initial(b), keys) == Initial(b) by { RoundsStart(Initial(b), keys); }
    FinalUndoesInitial(b);
  }

  /** DES under one 8-byte key, in either direction. */
  function Cipher(b: Block, key: seq<byte>, edf: Direction): Block
    requires |key| == 8
  {
    Transform(b, Schedule(key, edf))
  }

  function Opposite(edf: Direction): Direction {
    if edf == EN0 then DE1 else EN0
  }

  /** For every key, decryption undoes encryption and encryption undoes decryption. */
  lemma CipherInverts(b: Block, key: seq<byte>, edf: Direction)
    requires |key| == 8
    ensures Cipher(Cipher(b, key, edf), key, Opposite(edf)) == b
  {
    hide Transform, Schedule;
    DecryptionScheduleIsReversed(key);
    ReversedTwice(Schedule(key, EN0));
    TransformUndone(b, Schedule(key, edf));
  }

  // ---- triple DES ----

  /** The three single keys of a triple-DES key; a 16-byte key uses its first half again. */
  function Part(key: seq<byte>, i: nat): (k: seq<byte>)
    requires (|key| == 16 || |key| == 24) && i < 3
    ensures |k| == 8
  {
    if i == 2 && |key| == 16 then key[..8] else key[8 * i..8 * i + 8]
  }

  function Encrypt3(b: Block, key: seq<byte>): Block
    requires |key| == 16 || |key| == 24
  {
    Cipher(Cipher(Cipher(b, Part(key, 0), EN0), Part(key, 1), DE1), Part(key, 2), EN0)
  }

  function Decrypt3(b: Block, key: seq<byte>): Block
    requires |key| == 16 || |key| == 24
  {
    Cipher(Cipher(Cipher(b, Part(key, 2), DE1), Part(key, 1), EN0), Part(key, 0), DE1)
  }

  /** Triple decryption undoes triple encryption and the other way round, for both key lengths. */
  lemma Decrypt3Inverts(b: Block, key: seq<byte>)
    requires |key| == 16 || |key| == 24
    ensures Decrypt3(Encrypt3(b, key), key) == b
    ensures Encrypt3(Decrypt3(b, key), key) == b
  {
    hide Cipher, Part;
    var k0, k1, k2 := Part(key, 0), Part(key, 1), Part(key, 2);
    var e1 := Cipher(b, k0, EN0);
    var e2 := Cipher(e1, k1, DE1);
    CipherInverts(b, k0, EN0);
    CipherInverts(e1, k1, DE1);
    CipherInverts(e2, k2, EN0);
    var d1 := Cipher(b, k2, DE1);
    var d2 := Cipher(d1, k1, EN0);
    CipherInverts(b, k2, DE1);
    CipherInverts(d1, k1, EN0);
    CipherInverts(d2, k0, DE1);
  }

  /** Which part of the key is used when: taking single DES off again, from the outermost one in, by the last eight bytes,
      the middle eight and the first eight, leaves the block. */
  lemma ThreeKeysInOrder(b: Block, k0: seq<byte>, k1: seq<byte>, k2: seq<byte>)
    requires |k0| == |k1| == |k2| == 8
    ensures Cipher(Cipher(Cipher(Encrypt3(b, k0 + k1 + k2), k2, DE1), k1, EN0), k0, DE1) == b
    ensures Cipher(Cipher(Cipher(Decrypt3(b, k0 + k1 + k2), k0, EN0), k1, DE1), k2, EN0) == b
  {
    hide Cipher;
    var key := k0 + k1 + k2;
    assert key[0..8] == k0 && key[8..16] == k1 && key[16..24] == k2;
    PeelThree(b, k0, k1, k2);
  }

  /** With two parts the first serves again at the end. */
  lemma TwoKeysInOrder(b: Block, k0: seq<byte>, k1: seq<byte>)
    requires |k0| == |k1| == 8
    ensures Cipher(Cipher(Cipher(Encrypt3(b, k0 + k1), k0, DE1), k1, EN0), k0, DE1) == b
    ensures Cipher(Cipher(Cipher(Decrypt3(b, k0 + k1), k0, EN0), k1, DE1), k0, EN0) == b
  {
    hide Cipher;
    var key := k0 + k1;
    assert key[0..8] == k0 && key[8..16] == k1;
    PeelThree(b, k0, k1, k0);
  }

  lemma PeelThree(b: Block, k0: seq<byte>, k1: seq<byte>, k2: seq<byte>)
    requires |k0| == |k1| == |k2| == 8
    ensures Cipher(Cipher(Cipher(Cipher(Cipher(Cipher(b, k0, EN0), k1, DE1), k2, EN0), k2, DE1), k1, EN0), k0, DE1) == b
    ensures Cipher(Cipher(Cipher(Cipher(Cipher(Cipher(b, k2, DE1), k1, EN0), k0, DE1), k0, EN0), k1, DE1), k2, EN0) == b
  {
    hide Cipher;
    var e1 := Cipher(b, k0, EN0);
    CipherInverts(b, k0, EN0);
    CipherInverts(e1, k1, DE1);
    CipherInverts(Cipher(e1, k1, DE1), k2, EN0);
    var d1 := Cipher(b, k2, DE1);
    CipherInverts(b, k2, DE1);
    CipherInverts(d1, k1, EN0);
    CipherInverts(Cipher(d1, k1, EN0), k0, DE1);
  }

  /** A two-key setup is the three-key setup whose third key repeats the first. */
  lemma TwoKeysAreThree(b: Block, key: seq<byte>)
    requires |key| == 16
    ensures Encrypt3(b, key) == Encrypt3(b, key + key[..8])
    ensures Decrypt3(b, key) == Decrypt3(b, key + key[..8])
  {
    hide Cipher;
    var three := key + key[..8];
    assert Part(key, 0) == Part(three, 0) && Part(key, 1) == Part(three, 1) && Part(key, 2) == Part(three, 2);
  }

  /** When the first two keys are equal, or the last two, triple DES is single DES under the remaining key; when all
      three are, it is single DES under that key. */
  lemma EqualKeysCollapse(b: Block, key: seq<byte>)
    requires |key| == 16 || |key| == 24
    ensures Part(key, 0) == Part(key, 1) ==>
      Encrypt3(b, key) == Cipher(b, Part(key, 2), EN0) && Decrypt3(b, key) == Cipher(b, Part(key, 2), DE1)
    ensures Part(key, 1) == Part(key, 2) ==>
      Encrypt3(b, key) == Cipher(b, Part(key, 0), EN0) && Decrypt3(b, key) == Cipher(b, Part(key, 0), DE1)
  {
    hide Cipher, Part;
    var k0, k1, k2 := Part(key, 0), Part(key, 1), Part(key, 2);
    CipherInverts(b, k0, EN0);
    CipherInverts(Cipher(b, k2, DE1), k1, EN0);
    CipherInverts(Cipher(b, k0, EN0), k1, DE1);
    CipherInverts(b, k2, DE1);
    CipherInverts(b, k1, EN0);
    CipherInverts(b, k1, DE1);
  }

  // ---- the small-code permutations, on words ----

  function Shl(a: Word, n: bv6): Word
    requires n <= 32
  {
    Word(Up(a.w, n))
  }

  function Shr(a: Word, n: bv6): Word
    requires n <= 32
  {
    Word(Down(a.w, n))
  }

  lemma XorIsPlus(x: bv32, y: bv32)
    ensures Xor(Word(x), Word(y)) == Word(Plus(x, y))
  {
  }

  lemma AndIsMask(x: bv32, y: bv32)
    ensures And(Word(x), Word(y)) == Word(Mask(x, y))
  {
  }

  lemma RolTurnsLeft(x: bv32)
    ensures Rol(Word(x), 1) == Word(TurnLeft(x))
  {
  }

  lemma RolTurnsRight(x: bv32)
    ensures Rol(Word(x), 31) == Word(TurnRight(x))
  {
  }

  lemma WordOps(a: Word, b: Word)
    ensures Xor(a, b).w == Plus(a.w, b.w) && And(a, b).w == Mask(a.w, b.w)
    ensures Rol(a, 1).w == TurnLeft(a.w) && Rol(a, 31).w == TurnRight(a.w)
  {
    hide Xor, And, Rol, Plus, Mask, TurnLeft, TurnRight;
    XorIsPlus(a.w, b.w);
    AndIsMask(a.w, b.w);
    RolTurnsLeft(a.w);
    RolTurnsRight(a.w);
    assert a == Word(a.w) && b == Word(b.w);
  }

  lemma Delta4Words(l: Word, r: Word)
    ensures
      var work := And(Xor(Shr(l, 4), r), Word(0x0f0f0f0f));
      Boxed(Delta4(Raw(Block(l, r)))) == Block(Xor(l, Shl(work, 4)), Xor(r, work))
  {
    hide Plus, Mask, Up, Down, TurnLeft, TurnRight, Xor, And, Rol;
    var x := Shr(l, 4);
    WordOps(x, r);
    WordOps(Xor(x, r), Word(0x0f0f0f0f));
    var work := And(Xor(x, r), Word(0x0f0f0f0f));
    WordOps(l, Shl(work, 4));
    WordOps(r, work);
  }

  method Delta4Step(l: Word, r: Word) returns (leftt: Word, right: Word)
    ensures Block(leftt, right) == Boxed(Delta4(Raw(Block(l, r))))
  {
    hide *;
    leftt, right := l, r;
    var work := And(Xor(Shr(leftt, 4), right), Word(0x0f0f0f0f));
    right := Xor(right, work);
    leftt := Xor(leftt, Shl(work, 4));
    Delta4Words(l, r);
  }

  lemma Delta16Words(l: Word, r: Word)
    ensures
      var work := And(Xor(Shr(l, 16), r), Word(0x0000ffff));
      Boxed(Delta16(Raw(Block(l, r)))) == Block(Xor(l, Shl(work, 16)), Xor(r, work))
  {
    hide Plus, Mask, Up, Down, TurnLeft, TurnRight, Xor, And, Rol;
    var x := Shr(l, 16);
    WordOps(x, r);
    WordOps(Xor(x, r), Word(0x0000ffff));
    var work := And(Xor(x, r), Word(0x0000ffff));
    WordOps(l, Shl(work, 16));
    WordOps(r, work);
  }

  method Delta16Step(l: Word, r: Word) returns (leftt: Word, right: Word)
    ensures Block(leftt, right) == Boxed(Delta16(Raw(Block(l, r))))
  {
    hide *;
    leftt, right := l, r;
    var work := And(Xor(Shr(leftt, 16), right), Word(0x0000ffff));
    right := Xor(right, work);
    leftt := Xor(leftt, Shl(work, 16));
    Delta16Words(l, r);
  }

  lemma Delta2Words(l: Word, r: Word)
    ensures
      var work := And(Xor(Shr(r, 2), l), Word(0x33333333));
      Boxed(Delta2(Raw(Block(l, r)))) == Block(Xor(l, work), Xor(r, Shl(work, 2)))
  {
    hide Plus, Mask, Up, Down, TurnLeft, TurnRight, Xor, And, Rol;
    var x := Shr(r, 2);
    WordOps(x, l);
    WordOps(Xor(x, l), Word(0x33333333));
    var work := And(Xor(x, l), Word(0x33333333));
    WordOps(l, work);
    WordOps(r, Shl(work, 2));
  }

  method Delta2Step(l: Word, r: Word) returns (leftt: Word, right: Word)
    ensures Block(leftt, right) == Boxed(Delta2(Raw(Block(l, r))))
  {
    hide *;
    leftt, right := l, r;
    var work := And(Xor(Shr(right, 2), leftt), Word(0x33333333));
    leftt := Xor(leftt, work);
    right := Xor(right, Shl(work, 2));
    Delta2Words(l, r);
  }

  lemma Delta8Words(l: Word, r: Word)
    ensures
      var work := And(Xor(Shr(r, 8), l), Word(0x00ff00ff));
      Boxed(Delta8(Raw(Block(l, r)))) == Block(Xor(l, work), Xor(r, Shl(work, 8)))
  {
    hide Plus, Mask, Up, Down, TurnLeft, TurnRight, Xor, And, Rol;
    var x := Shr(r, 8);
    WordOps(x, l);
    WordOps(Xor(x, l), Word(0x00ff00ff));
    var work := And(Xor(x, l), Word(0x00ff00ff));
    WordOps(l, work);
    WordOps(r, Shl(work, 8));
  }

  method Delta8Step(l: Word, r: Word) returns (leftt: Word, right: Word)
    ensures Block(leftt, right) == Boxed(Delta8(Raw(Block(l, r))))
  {
    hide *;
    leftt, right := l, r;
    var work := And(Xor(Shr(right, 8), leftt), Word(0x00ff00ff));
    leftt := Xor(leftt, work);
    right := Xor(right, Shl(work, 8));
    Delta8Words(l, r);
  }

  lemma TwistWords(l: Word, r: Word)
    ensures
      var right := Rol(r, 1);
      var work := And(Xor(l, right), Word(0xaaaaaaaa));
      Boxed(Twist(Raw(Block(l, r)))) == Block(Rol(Xor(l, work), 1), Xor(right, work))
  {
    hide Plus, Mask, Up, Down, TurnLeft, TurnRight, Xor, And, Rol;
    var right := Rol(r, 1);
    WordOps(r, r);
    WordOps(l, right);
    WordOps(Xor(l, right), Word(0xaaaaaaaa));
    var work := And(Xor(l, right), Word(0xaaaaaaaa));
    WordOps(l, work);
    WordOps(Xor(l, work), l);
    WordOps(right, work);
  }

  method TwistStep(l: Word, r: Word) returns (leftt: Word, right: Word)
    ensures Block(leftt, right) == Boxed(Twist(Raw(Block(l, r))))
  {
    hide *;
    leftt, right := l, r;
    right := Rol(right, 1);
    var work := And(Xor(leftt, right), Word(0xaaaaaaaa));
    leftt := Xor(leftt, work);
    right := Xor(right, work);
    leftt := Rol(leftt, 1);
    TwistWords(l, r);
  }

  lemma FinalTwistWords(l: Word, r: Word)
    ensures
      var right := Rol(r, 31);
      var work := And(Xor(l, right), Word(0xaaaaaaaa));
      Boxed(FinalTwist(Raw(Block(l, r)))) == Block(Rol(Xor(l, work), 31), Xor(right, work))
  {
    hide Plus, Mask, Up, Down, TurnLeft, TurnRight, Xor, And, Rol;
    var right := Rol(r, 31);
    WordOps(r, r);
    WordOps(l, right);
    WordOps(Xor(l, right), Word(0xaaaaaaaa));
    var work := And(Xor(l, right), Word(0xaaaaaaaa));
    WordOps(l, work);
    WordOps(Xor(l, work), l);
    WordOps(right, work);
  }

  method FinalTwistStep(l: Word, r: Word) returns (leftt: Word, right: Word)
    ensures Block(leftt, right) == Boxed(FinalTwist(Raw(Block(l, r))))
  {
    hide *;
    leftt, right := l, r;
    right := Rol(right, 31);
    var work := And(Xor(leftt, right), Word(0xaaaaaaaa));
    leftt := Xor(leftt, work);
    right := Xor(right, work);
    leftt := Rol(leftt, 31);
    FinalTwistWords(l, r);
  }

  lemma RawBoxed(h: Halves, b: Block)
    ensures Raw(Boxed(h)) == h && Boxed(Raw(b)) == b && Boxed(Swap(h)) == Exchange(Boxed(h)) && Raw(Exchange(b)) == Swap(Raw(b))
  {
  }

  lemma NetworkSteps(b: Halves)
    ensures DeltaIP(b) == Twist(Delta8(Delta2(Delta16(Delta4(b)))))
    ensures DeltaFP(b) == Swap(Delta4(Delta16(Delta2(Delta8(Swap(FinalTwist(b)))))))
  {
  }

  /** The initial permutation of the small-code build. */
  method InitialSmall(l: Word, r: Word) returns (leftt: Word, right: Word)
    ensures Block(leftt, right) == Boxed(DeltaIP(Raw(Block(l, r))))
  {
    hide DeltaIP, Delta4, Delta16, Delta2, Delta8, Twist;
    leftt, right := Delta4Step(l, r);
    leftt, right := Delta16Step(leftt, right);
    leftt, right := Delta2Step(leftt, right);
    leftt, right := Delta8Step(leftt, right);
    leftt, right := TwistStep(leftt, right);
    NetworkSteps(Raw(Block(l, r)));
  }

  /** The final permutation of the small-code build; its delta swaps name the halves the other way round. */
  method FinalSmall(l: Word, r: Word) returns (leftt: Word, right: Word)
    ensures Block(leftt, right) == Boxed(DeltaFP(Raw(Block(l, r))))
  {
    hide DeltaFP, Delta4, Delta16, Delta2, Delta8, FinalTwist;
    leftt, right := FinalTwistStep(l, r);
    right, leftt := Delta8Step(right, leftt);
    right, leftt := Delta2Step(right, leftt);
    right, leftt := Delta16Step(right, leftt);
    right, leftt := Delta4Step(right, leftt);
    NetworkSteps(Raw(Block(l, r)));
  }

  /** The initial permutation of the default build. */
  method InitialTable(l: Word, r: Word) returns (leftt: Word, right: Word)
    ensures Block(leftt, right) == Boxed(DeltaIP(Raw(Block(l, r))))
  {
    hide DeltaIP, TableIP;
    var b := Boxed(TableIP(Raw(Block(l, r))));
    leftt, right := b.l, b.r;
    TableIPAgrees(Raw(Block(l, r)));
  }

  method FinalTable(l: Word, r: Word) returns (leftt: Word, right: Word)
    ensures Block(leftt, right) == Boxed(DeltaFP(Raw(Block(l, r))))
  {
    hide DeltaFP, TableFP;
    var b := Boxed(TableFP(Raw(Block(l, r))));
    leftt, right := b.l, b.r;
    TableFPAgrees(Raw(Block(l, r)));
  }

  /** One line pair of the round loop: the half `x` takes up the boxes read from `half`. */
  method MixStep(x: Word, half: Word, k0: Word, k1: Word) returns (y: Word)
    ensures y == Mix(x, half, k0, k1)
  {
    var odd := OddBoxes(half, k0, k1);
    var even := EvenBoxes(half, k0, k1);
    y := Xor(x, odd);
    y := Xor(y, even);
  }

  /** The block operation in both builds; `small` stands for LTC_SMALL_CODE. */
  method Desfunc(block: array<Word>, keys: array<Word>, small: bool)
    requires block.Length == 2 && keys.Length == 32 && block != keys
    modifies block
    ensures Block(block[0], block[1]) == old(Transform(Block(block[0], block[1]), keys[..]))
  {
    hide DeltaIP, DeltaFP, Raw, Boxed, Mix, Rounds;
    ghost var b := Block(block[0], block[1]);
    ghost var k := keys[..];
    var leftt, right;
    if small {
      leftt, right := InitialSmall(block[0], block[1]);
    } else {
      leftt, right := InitialTable(block[0], block[1]);
    }
    ghost var p := Initial(b);
    assert Block(leftt, right) == p;
    RoundsStart(p, k);
    for curRound := 0 to 8
      invariant Block(leftt, right) == Rounds(2 * curRound, p, k)
    {
      leftt := MixStep(leftt, right, keys[4 * curRound], keys[4 * curRound + 1]);
      right := MixStep(right, leftt, keys[4 * curRound + 2], keys[4 * curRound + 3]);
      RoundsStep(2 * curRound, p, k);
      RoundsStep(2 * curRound + 1, p, k);
    }
    ghost var q := Block(leftt, right);
    if small { leftt, right := FinalSmall(leftt, right); } else { leftt, right := FinalTable(leftt, right); }
    block[0], block[1] := right, leftt;
    RawBoxed(DeltaFP(Raw(q)), q);
  }
}
