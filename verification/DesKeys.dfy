/** The key schedule of des.c: the bit selections of the standard (ANSI X3.92-1981), the running rotations, and the
    packing of the 16 round keys for the round function, forwards for encryption and backwards for decryption. */
module DesKeys {
  import opened Words

  // ---- the tables ----

  type KeyPosition = n: nat | n < 64

  type Cell = n: nat | n < 56

  type Count = n: nat | n <= 28

  function PC1(): (s: seq<KeyPosition>)
    ensures |s| == 56
  {
    [56, 48, 40, 32, 24, 16,  8,  0, 57, 49, 41, 33, 25, 17] +
    [ 9,  1, 58, 50, 42, 34, 26, 18, 10,  2, 59, 51, 43, 35] +
    [62, 54, 46, 38, 30, 22, 14,  6, 61, 53, 45, 37, 29, 21] +
    [13,  5, 60, 52, 44, 36, 28, 20, 12,  4, 27, 19, 11,  3]
  }

  function PC2(): (s: seq<Cell>)
    ensures |s| == 48
  {
    [13, 16, 10, 23,  0,  4,  2, 27, 14,  5, 20,  9] +
    [22, 18, 11,  3, 25,  7, 15,  6, 26, 19, 12,  1] +
    [40, 51, 30, 36, 46, 54, 29, 39, 50, 44, 32, 47] +
    [43, 48, 38, 55, 33, 52, 45, 41, 49, 35, 28, 31]
  }

  function TOTROT(): (s: seq<Count>)
    ensures |s| == 16
  {
    [1, 2, 4, 6, 8, 10, 12, 14, 15, 17, 19, 21, 23, 25, 27, 28]
  }

  function BYTEBIT(): (s: seq<byte>)
    ensures |s| == 8
  {
    [0x80, 0x40, 0x20, 0x10, 0x08, 0x04, 0x02, 0x01]
  }

  function BIGBYTE(): (s: seq<Word>)
    ensures |s| == 24
  {
    [Word(0x800000), Word(0x400000), Word(0x200000), Word(0x100000),
     Word(0x080000), Word(0x040000), Word(0x020000), Word(0x010000),
     Word(0x008000), Word(0x004000), Word(0x002000), Word(0x001000),
     Word(0x000800), Word(0x000400), Word(0x000200), Word(0x000100),
     Word(0x000080), Word(0x000040), Word(0x000020), Word(0x000010),
     Word(0x000008), Word(0x000004), Word(0x000002), Word(0x000001)]
  }

  // ---- selecting and rotating the key bits ----

  predicate BitSet(b: byte, m: nat)
    requires m < 8
  {
    b & BYTEBIT()[m] == BYTEBIT()[m]
  }

  /** Key bit l, counted from the most significant bit of the first byte. */
  predicate KeyBit(key: seq<byte>, l: KeyPosition)
    requires |key| == 8
  {
    BitSet(key[l / 8], l % 8)
  }

  /** The two 28-bit registers before any rotation. */
  function Permuted(key: seq<byte>): (s: seq<bool>)
    requires |key| == 8
    ensures |s| == 56
  {
    seq(56, j requires 0 <= j < 56 => KeyBit(key, PC1()[j]))
  }

  /** Where cell j of the rotated registers comes from: each half turns left by n on its own. */
  function Turned(j: Cell, n: Count): Cell {
    if j < 28 then (if j + n < 28 then j + n else j + n - 28)
    else if j + n < 56 then j + n else j + n - 28
  }

  function Rotated(s: seq<bool>, n: Count): (r: seq<bool>)
    requires |s| == 56
    ensures |r| == 56
  {
    seq(56, j requires 0 <= j < 56 => s[Turned(j, n)])
  }

  /** The registers of round i. */
  function Registers(key: seq<byte>, i: nat): (s: seq<bool>)
    requires |key| == 8 && i < 16
    ensures |s| == 56
  {
    Rotated(Permuted(key), TOTROT()[i])
  }

  /** The standard rotates by one place before rounds 1, 2, 9 and 16, and by two before the others. */
  function Shift(round: nat): Count {
    if round == 0 || round == 1 || round == 8 || round == 15 then 1 else 2
  }

  lemma RotationsCompose(s: seq<bool>, a: Count, b: Count)
    requires |s| == 56 && a + b <= 28
    ensures Rotated(Rotated(s, a), b) == Rotated(s, a + b)
  {
    hide Turned;
    var r := Rotated(Rotated(s, a), b);
    forall j | 0 <= j < 56
      ensures r[j] == Rotated(s, a + b)[j]
    {
      TurnsCompose(j, a, b);
    }
  }

  lemma TurnsCompose(j: Cell, a: Count, b: Count)
    requires a + b <= 28
    ensures Turned(Turned(j, b), a) == Turned(j, a + b)
  {
  }

  lemma FullTurn(s: seq<bool>)
    requires |s| == 56
    ensures Rotated(s, 28) == s && Rotated(s, 0) == s
  {
  }

  /** The total rotations are the running sums of the standard's shifts. */
  lemma TotalRotations(i: nat)
    requires i < 16
    ensures TOTROT()[i] == (if i == 0 then 0 else TOTROT()[i - 1]) + Shift(i)
  {
  }

  /** Rotating the selected key by a total each time gives what the standard's step-by-step rotations give;
      after the last round both registers are back where they started. */
  lemma RegistersFollowTheStandard(key: seq<byte>, i: nat)
    requires |key| == 8 && i < 16
    ensures Registers(key, i) == Rotated(if i == 0 then Permuted(key) else Registers(key, i - 1), Shift(i))
    ensures Registers(key, 15) == Permuted(key)
  {
    hide Rotated, Permuted;
    var s := Permuted(key);
    TotalRotations(i);
    if i > 0 { RotationsCompose(s, TOTROT()[i - 1], Shift(i)); }
    FullTurn(s);
    assert TOTROT()[15] == 28;
  }

  // ---- collecting the round keys ----

  /** The 24 register cells that make up one half of a round key. */
  function Picked(registers: seq<bool>, from: nat): (s: seq<bool>)
    requires |registers| == 56 && from + 24 <= 48
    ensures |s| == 24
  {
    seq(24, j requires 0 <= j < 24 => registers[PC2()[from + j]])
  }

  /** The first n bits as a word, bit 0 at position 23. */
  function Collect(bits: seq<bool>, n: nat): Word
    requires n <= |bits| == 24
  {
    if n == 0 then Word(0)
    else if bits[n - 1] then Or(Collect(bits, n - 1), BIGBYTE()[n - 1])
    else Collect(bits, n - 1)
  }

  predicate HasBit(x: Word, j: nat)
    requires j < 24
  {
    And(x, BIGBYTE()[j]) != Word(0)
  }

  lemma OrHasBit(x: Word, y: Word, m: Word)
    ensures And(Or(x, y), m) != Word(0) <==> And(x, m) != Word(0) || And(y, m) != Word(0)
  {
  }

  lemma ZeroHasNoBit(m: Word)
    ensures And(Word(0), m) == Word(0)
  {
  }

  lemma AndCommutes(x: Word, y: Word)
    ensures And(x, y) == And(y, x)
  {
  }

  lemma OwnBit(j: nat)
    requires j < 24
    ensures HasBit(BIGBYTE()[j], j)
  {
  }

  lemma OtherBitLow(i: nat, j: nat)
    requires i < j < 10
    ensures And(BIGBYTE()[i], BIGBYTE()[j]) == Word(0)
  {
  }

  lemma OtherBitMid(i: nat, j: nat)
    requires i < j && 10 <= j < 16
    ensures And(BIGBYTE()[i], BIGBYTE()[j]) == Word(0)
  {
  }

  lemma OtherBitHigh(i: nat, j: nat)
    requires i < j && 16 <= j < 20
    ensures And(BIGBYTE()[i], BIGBYTE()[j]) == Word(0)
  {
  }

  lemma OtherBitTop(i: nat, j: nat)
    requires i < j && 20 <= j < 24
    ensures And(BIGBYTE()[i], BIGBYTE()[j]) == Word(0)
  {
  }

  lemma OtherBit(i: nat, j: nat)
    requires i < j < 24
    ensures And(BIGBYTE()[i], BIGBYTE()[j]) == Word(0)
  {
    hide And, BIGBYTE;
    if
    case j < 10 => OtherBitLow(i, j);
    case 10 <= j < 16 => OtherBitMid(i, j);
    case 16 <= j < 20 => OtherBitHigh(i, j);
    case 20 <= j => OtherBitTop(i, j);
  }

  lemma SingleBit(i: nat, j: nat)
    requires i < 24 && j < 24
    ensures HasBit(BIGBYTE()[i], j) <==> i == j
  {
    hide BIGBYTE, And;
    if i < j {
      OtherBit(i, j);
    } else if j < i {
      OtherBit(j, i);
      AndCommutes(BIGBYTE()[i], BIGBYTE()[j]);
    } else {
      OwnBit(i);
    }
  }

  /** Collecting loses and adds nothing: the word has bit j just when bit j was set. */
  lemma {:induction false} CollectHasBits(bits: seq<bool>, n: nat, j: nat)
    requires n <= |bits| == 24 && j < 24
    ensures HasBit(Collect(bits, n), j) <==> j < n && bits[j]
  {
    hide BIGBYTE, Or, And;
    if n == 0 {
      ZeroHasNoBit(BIGBYTE()[j]);
    } else {
      CollectHasBits(bits, n - 1, j);
      if bits[n - 1] {
        OrHasBit(Collect(bits, n - 1), BIGBYTE()[n - 1], BIGBYTE()[j]);
        SingleBit(n - 1, j);
      }
    }
  }

  /** One half of the round key of round i, 24 bits. */
  function RoundHalf(key: seq<byte>, i: nat, from: nat): Word
    requires |key| == 8 && i < 16 && from + 24 <= 48
  {
    Collect(Picked(Registers(key, i), from), 24)
  }

  /** Bit t of the 48-bit round key of round i, traced back to the user key. */
  function RoundKeyBit(key: seq<byte>, i: nat, t: nat): bool
    requires |key| == 8 && i < 16 && t < 48
  {
    KeyBit(key, PC1()[Turned(PC2()[t], TOTROT()[i])])
  }

  lemma RoundHalfBits(key: seq<byte>, i: nat, from: nat, j: nat)
    requires |key| == 8 && i < 16 && from + 24 <= 48 && j < 24
    ensures HasBit(RoundHalf(key, i, from), j) <==> RoundKeyBit(key, i, from + j)
  {
    hide KeyBit, PC1, PC2, TOTROT, Turned, HasBit, Collect;
    CollectHasBits(Picked(Registers(key, i), from), 24, j);
  }

  // ---- packing a round key for the round function ----

  /** The first packed word: the six-bit groups of S-boxes 1 and 3 from the first half, 5 and 7 from the second. */
  function Cook0(raw0: Word, raw1: Word): Word {
    Word(((raw0.w & 0x00fc0000) << 6) | ((raw0.w & 0x00000fc0) << 10)
         | ((raw1.w & 0x00fc0000) >> 10) | ((raw1.w & 0x00000fc0) >> 6))
  }

  /** The second packed word: groups 2, 4, 6 and 8. */
  function Cook1(raw0: Word, raw1: Word): Word {
    Word(((raw0.w & 0x0003f000) << 12) | ((raw0.w & 0x0000003f) << 16)
         | ((raw1.w & 0x0003f000) >> 4) | (raw1.w & 0x0000003f))
  }

  /** The six bits of a word that start `shift` bits above its low end. */
  function SixBits(x: Word, shift: bv6): bv6
    requires shift <= 26
  {
    ((x.w >> shift) & 0x3f) as bv6
  }

  /** Which group of the 48-bit round key meets which S-box: box 1 reads bits 24 .. 29 of the first packed word,
      box 8 bits 0 .. 5 of the second. */
  lemma CookedGroups(raw0: Word, raw1: Word)
    ensures SixBits(Cook0(raw0, raw1), 24) == SixBits(raw0, 18) && SixBits(Cook1(raw0, raw1), 24) == SixBits(raw0, 12)
    ensures SixBits(Cook0(raw0, raw1), 16) == SixBits(raw0, 6) && SixBits(Cook1(raw0, raw1), 16) == SixBits(raw0, 0)
    ensures SixBits(Cook0(raw0, raw1), 8) == SixBits(raw1, 18) && SixBits(Cook1(raw0, raw1), 8) == SixBits(raw1, 12)
    ensures SixBits(Cook0(raw0, raw1), 0) == SixBits(raw1, 6) && SixBits(Cook1(raw0, raw1), 0) == SixBits(raw1, 0)
  {
  }

  // ---- the schedules ----

  datatype Direction = EN0 | DE1

  /** Where the pair of words for round i is stored: DE1 fills the schedule from its end. */
  function Slot(edf: Direction, i: nat): nat
    requires i < 16
  {
    if edf == DE1 then 15 - i else i
  }

  function CookedWord(key: seq<byte>, i: nat, second: bool): Word
    requires |key| == 8 && i < 16
  {
    var raw0, raw1 := RoundHalf(key, i, 0), RoundHalf(key, i, 24);
    if second then Cook1(raw0, raw1) else Cook0(raw0, raw1)
  }

  /** The 16 packed pairs in the order the rounds use them. */
  function Schedule(key: seq<byte>, edf: Direction): (s: seq<Word>)
    requires |key| == 8
    ensures |s| == 32
  {
    seq(32, m requires 0 <= m < 32 => CookedWord(key, Slot(edf, m / 2), m % 2 == 1))
  }

  /** A schedule with its 16 pairs in reverse order. */
  function Reversed(s: seq<Word>): (r: seq<Word>)
    requires |s| == 32
    ensures |r| == 32
  {
    seq(32, m requires 0 <= m < 32 => s[2 * (15 - m / 2) + m % 2])
  }

  lemma ReversedTwice(s: seq<Word>)
    requires |s| == 32
    ensures Reversed(Reversed(s)) == s
  {
    var r := Reversed(Reversed(s));
    forall m | 0 <= m < 32
      ensures r[m] == s[m]
    {
      PairIndex(m);
    }
  }

  lemma PairIndex(m: nat)
    requires m < 32
    ensures var k := 2 * (15 - m / 2) + m % 2;
      0 <= k < 32 && k / 2 == 15 - m / 2 && k % 2 == m % 2 && 2 * (15 - k / 2) + k % 2 == m
  {
  }

  /** The decryption schedule is the encryption schedule with its round-key pairs reversed. */
  lemma DecryptionScheduleIsReversed(key: seq<byte>)
    requires |key| == 8
    ensures Schedule(key, DE1) == Reversed(Schedule(key, EN0))
  {
    hide CookedWord;
    var d, r := Schedule(key, DE1), Reversed(Schedule(key, EN0));
    forall m | 0 <= m < 32
      ensures d[m] == r[m]
    {
      PairIndex(m);
    }
  }

  // ---- the routines ----

  method PermuteKey(key: array<byte>, at: nat, pc1m: array<bool>)
    requires at + 8 <= key.Length && pc1m.Length == 56 && pc1m as object != key
    modifies pc1m
    ensures pc1m[..] == Permuted(key[at..at + 8])
  {
    hide BitSet, PC1;
    ghost var k := key[at..at + 8];
    for j := 0 to 56
      invariant forall c | 0 <= c < j :: pc1m[c] == KeyBit(k, PC1()[c])
    {
      var l := PC1()[j];
      var m := l % 8;
      assert k[l / 8] == key[at + l / 8];
      pc1m[j] := BitSet(key[at + l / 8], m);
    }
  }

  method RotateRegisters(pc1m: array<bool>, rotation: Count, pcr: array<bool>)
    requires pc1m.Length == 56 && pcr.Length == 56 && pc1m != pcr
    modifies pcr
    ensures pcr[..] == Rotated(pc1m[..], rotation)
  {
    for j := 0 to 28
      invariant forall c | 0 <= c < j :: pcr[c] == pc1m[Turned(c, rotation)]
    {
      var l := j + rotation;
      if l < 28 { pcr[j] := pc1m[l]; } else { pcr[j] := pc1m[l - 28]; }
    }
    for j := 28 to 56
      invariant forall c | 0 <= c < j :: pcr[c] == pc1m[Turned(c, rotation)]
    {
      var l := j + rotation;
      if l < 56 { pcr[j] := pc1m[l]; } else { pcr[j] := pc1m[l - 28]; }
    }
  }

  /** Sets bits in kn[m] and kn[m+1]. */
  method CollectPair(pcr: array<bool>, kn: array<Word>, m: nat)
    requires pcr.Length == 56 && kn.Length == 32 && m + 1 < 32 && pcr as object != kn
    modifies kn
    ensures kn[..] == old(kn[..])[m := Collect(Picked(pcr[..], 0), 24)][m + 1 := Collect(Picked(pcr[..], 24), 24)]
  {
    hide PC2, BIGBYTE, Or;
    var n := m + 1;
    kn[m], kn[n] := Word(0), Word(0);
    ghost var b0, b1 := Picked(pcr[..], 0), Picked(pcr[..], 24);
    for j := 0 to 24
      invariant kn[..] == old(kn[..])[m := Collect(b0, j)][n := Collect(b1, j)]
    {
      if pcr[PC2()[j]] { kn[m] := Or(kn[m], BIGBYTE()[j]); }
      if pcr[PC2()[j + 24]] { kn[n] := Or(kn[n], BIGBYTE()[j]); }
    }
  }

  function Packed(raw: seq<Word>): (s: seq<Word>)
    requires |raw| == 32
    ensures |s| == 32
  {
    seq(32, m requires 0 <= m < 32 => if m % 2 == 0 then Cook0(raw[m], raw[m + 1]) else Cook1(raw[m - 1], raw[m]))
  }

  lemma PackedAt(raw: seq<Word>, i: nat)
    requires |raw| == 32 && i < 16
    ensures Packed(raw)[2 * i] == Cook0(raw[2 * i], raw[2 * i + 1])
    ensures Packed(raw)[2 * i + 1] == Cook1(raw[2 * i], raw[2 * i + 1])
  {
    hide Cook0, Cook1;
  }

  /** Packs each pair of raw1. */
  method FillDough(raw1: array<Word>, dough: array<Word>)
    requires raw1.Length == 32 && dough.Length == 32 && raw1 != dough
    modifies dough
    ensures dough[..] == Packed(raw1[..])
  {
    hide Cook0, Cook1, Packed;
    var cook := 0;
    for i := 0 to 16
      invariant cook == 2 * i
      invariant forall m | 0 <= m < 2 * i :: dough[m] == Packed(raw1[..])[m]
    {
      PackedAt(raw1[..], i);
      var raw0, raw := raw1[2 * i], raw1[2 * i + 1];
      dough[cook] := Cook0(raw0, raw); cook := cook + 1;
      dough[cook] := Cook1(raw0, raw); cook := cook + 1;
    }
  }

  method Cookey(raw1: array<Word>, keyout: array<Word>)
    requires raw1.Length == 32 && keyout.Length == 32 && raw1 != keyout
    modifies keyout
    ensures keyout[..] == Packed(raw1[..])
  {
    hide Packed;
    var dough := new Word[32](i => Word(0));
    FillDough(raw1, dough);
    for i := 0 to 32
      modifies keyout
      invariant forall m | 0 <= m < i :: keyout[m] == dough[m]
    {
      keyout[i] := dough[i];
    }
    assert keyout[..] == dough[..];
  }

  /** The unpacked round-key halves in storage order. */
  function RawSchedule(key: seq<byte>, edf: Direction): (s: seq<Word>)
    requires |key| == 8
    ensures |s| == 32
  {
    seq(32, m requires 0 <= m < 32 => RoundHalf(key, Slot(edf, m / 2), if m % 2 == 0 then 0 else 24))
  }

  lemma PackedSchedule(key: seq<byte>, edf: Direction)
    requires |key| == 8
    ensures Packed(RawSchedule(key, edf)) == Schedule(key, edf)
  {
    hide Packed, RawSchedule, Schedule;
    forall m | 0 <= m < 32
      ensures Packed(RawSchedule(key, edf))[m] == Schedule(key, edf)[m]
    {
      PackedAt(RawSchedule(key, edf), m / 2);
      ScheduleAt(key, edf, m / 2);
      assert m == 2 * (m / 2) || m == 2 * (m / 2) + 1;
    }
  }

  lemma ScheduleAt(key: seq<byte>, edf: Direction, i: nat)
    requires |key| == 8 && i < 16
    ensures var raw := RawSchedule(key, edf);
      && Schedule(key, edf)[2 * i] == Cook0(raw[2 * i], raw[2 * i + 1])
      && Schedule(key, edf)[2 * i + 1] == Cook1(raw[2 * i], raw[2 * i + 1])
  {
    hide Cook0, Cook1, RoundHalf, Slot;
    assert 2 * i / 2 == i && (2 * i + 1) / 2 == i && 2 * i % 2 == 0 && (2 * i + 1) % 2 == 1;
  }

  lemma SlotIndex(edf: Direction, i: nat)
    requires i < 16
    ensures Slot(edf, i) < 16 && Slot(edf, Slot(edf, i)) == i
    ensures 2 * Slot(edf, i) / 2 == Slot(edf, i) && (2 * Slot(edf, i) + 1) / 2 == Slot(edf, i)
  {
  }

  /** One turn of the schedule loop: rotate, pick and store both halves of round i. */
  method ScheduleRound(ghost key: seq<byte>, edf: Direction, i: nat, pc1m: array<bool>, pcr: array<bool>, kn: array<Word>)
    requires |key| == 8 && i < 16 && pc1m.Length == 56 && pcr.Length == 56 && kn.Length == 32
    requires pc1m != pcr && pcr as object != kn && pc1m as object != kn && pc1m[..] == Permuted(key)
    modifies pcr, kn
    ensures var m := 2 * Slot(edf, i);
      kn[..] == old(kn[..])[m := RoundHalf(key, i, 0)][m + 1 := RoundHalf(key, i, 24)]
  {
    hide Permuted, Rotated, Picked, Collect, TOTROT;
    var m := if edf == DE1 then 2 * (15 - i) else 2 * i;
    RotateRegisters(pc1m, TOTROT()[i], pcr);
    CollectPair(pcr, kn, m);
  }

  /** The key schedule for one direction, from the eight key bytes at `at`. */
  method Deskey(key: array<byte>, at: nat, edf: Direction, keyout: array<Word>)
    requires at + 8 <= key.Length && keyout.Length == 32 && key as object != keyout
    modifies keyout
    ensures keyout[..] == Schedule(key[at..at + 8], edf)
  {
    hide Permuted, RoundHalf, Schedule, Slot;
    var pc1m := new bool[56](i => false);
    var pcr := new bool[56](i => false);
    var kn := new Word[32](i => Word(0));
    ghost var k := key[at..at + 8];
    PermuteKey(key, at, pc1m);
    ghost var raw := RawSchedule(k, edf);
    for i := 0 to 16
      modifies pcr, kn
      invariant forall m | 0 <= m < 32 && Slot(edf, m / 2) < i :: kn[m] == raw[m]
    {
      ScheduleRound(k, edf, i, pc1m, pcr, kn);
      SlotIndex(edf, i);
      forall m | 0 <= m < 32 && Slot(edf, m / 2) <= i
        ensures kn[m] == raw[m]
      {
        SlotIndex(edf, m / 2);
      }
    }
    forall m | 0 <= m < 32
      ensures kn[m] == raw[m]
    {
      SlotIndex(edf, m / 2);
    }
    assert kn[..] == raw;
    Cookey(kn, keyout);
    PackedSchedule(k, edf);
  }
}
