/** SEED (kseed.c): the rotating key schedule, its reversed copy for decryption, and the cipher as a Feistel chain on
    halves of two words. The four S-box tables are arbitrary. */
module Seed {
  import opened Words
  import opened Feistel

  /** SS0 .. SS3, one after the other. */
  type Boxes = s: seq<Word> | |s| == 1024 witness seq(1024, i => Word(0))

  datatype Pair = Pair(a: Word, b: Word)

  function XorPair(x: Pair, y: Pair): Pair { Pair(Xor(x.a, y.a), Xor(x.b, y.b)) }

  function G(ss: Boxes, x: Word): Word {
    Xor(Xor(Xor(ss[768 + ByteAt(x, 24) as int], ss[512 + ByteAt(x, 16) as int]), ss[256 + ByteAt(x, 8) as int]),
        ss[ByteAt(x, 0) as int])
  }

  /** What the macro F adds into the other half. */
  function F(ss: Boxes, r: Pair, k0: Word, k1: Word): Pair {
    var c, d := Xor(r.a, k0), Xor(r.b, k1);
    var t2 := G(ss, Xor(c, d));
    var u := G(ss, Add(t2, c));
    var t := G(ss, Add(u, t2));
    Pair(Add(t, u), t)
  }

  // ---- the key schedule ----

  datatype Registers = Registers(k1: Word, k2: Word, k3: Word, k4: Word)

  /** Two words as one 64-bit register. */
  function Wide(x: Word, y: Word): Register { Register(((x.w as bv64) << 32) | (y.w as bv64)) }

  function ShiftRight8(x: Word, y: Word): Word { Word((x.w >> 8) | (y.w << 24)) }

  function ShiftLeft8(x: Word, y: Word): Word { Word((x.w << 8) | (y.w >> 24)) }

  /** After an even round k1 and k2 turn right by a byte, after an odd one k3 and k4 turn left. */
  function Turn(i: nat, r: Registers): Registers {
    if i % 2 == 1 then Registers(r.k1, r.k2, ShiftLeft8(r.k3, r.k4), ShiftLeft8(r.k4, r.k3))
    else Registers(ShiftRight8(r.k1, r.k2), ShiftRight8(r.k2, r.k1), r.k3, r.k4)
  }

  /** A 64-bit register turned by a byte, boxed so that proofs compare whole registers. */
  datatype Register = Register(v: bv64)

  function ByteRight(x: Register): Register { Register((x.v >> 8) | (x.v << 56)) }

  function ByteLeft(x: Register): Register { Register((x.v << 8) | (x.v >> 56)) }

  /** The registers are two 64-bit rotations. */
  lemma TurnRotates(i: nat, r: Registers)
    ensures var t := Turn(i, r);
      if i % 2 == 1
      then t.k1 == r.k1 && t.k2 == r.k2 && Wide(t.k3, t.k4) == ByteLeft(Wide(r.k3, r.k4))
      else t.k3 == r.k3 && t.k4 == r.k4 && Wide(t.k1, t.k2) == ByteRight(Wide(r.k1, r.k2))
  {
    hide Wide, ShiftLeft8, ShiftRight8, ByteRight, ByteLeft;
    if i % 2 == 1 { LeftRotates(r.k3, r.k4); } else { RightRotates(r.k1, r.k2); }
  }

  lemma LeftRotates(x: Word, y: Word)
    ensures Wide(ShiftLeft8(x, y), ShiftLeft8(y, x)) == ByteLeft(Wide(x, y))
  {
  }

  lemma RightRotates(x: Word, y: Word)
    ensures Wide(ShiftRight8(x, y), ShiftRight8(y, x)) == ByteRight(Wide(x, y))
  {
  }

  function Turned(n: nat, r: Registers): Registers {
    if n == 0 then r else Turn(n - 1, Turned(n - 1, r))
  }

  function KC(): (s: seq<Word>)
    ensures |s| == 16
  {
    [Word(0x9E3779B9), Word(0x3C6EF373), Word(0x78DDE6E6), Word(0xF1BBCDCC),
     Word(0xE3779B99), Word(0xC6EF3733), Word(0x8DDE6E67), Word(0x1BBCDCCF),
     Word(0x3779B99E), Word(0x6EF3733C), Word(0xDDE6E678), Word(0xBBCDCCF1),
     Word(0x779B99E3), Word(0xEF3733C6), Word(0xDE6E678D), Word(0xBCDCCF1B)]
  }

  /** Each constant is the one before it turned by a bit; the first comes from the golden ratio. */
  lemma KCRotates(i: nat)
    requires i < 15
    ensures KC()[i + 1] == Rol(KC()[i], 1) && KC()[0] == Word(0x9E3779B9)
  {
  }

  function Right(n: nat, x: Register): Register {
    if n == 0 then x else ByteRight(Right(n - 1, x))
  }

  function Left(n: nat, x: Register): Register {
    if n == 0 then x else ByteLeft(Left(n - 1, x))
  }

  lemma {:induction false} TurnedPairs(n: nat, r: Registers)
    ensures var t := Turned(2 * n, r);
      Wide(t.k1, t.k2) == Right(n, Wide(r.k1, r.k2)) && Wide(t.k3, t.k4) == Left(n, Wide(r.k3, r.k4))
    decreases n
  {
    hide Wide, ShiftLeft8, ShiftRight8, ByteRight, ByteLeft;
    if n > 0 {
      TurnedPairs(n - 1, r);
      var t := Turned(2 * (n - 1), r);
      var u := Turn(2 * (n - 1), t);
      assert Turned(2 * (n - 1) + 1, r) == u;
      assert Turned(2 * (n - 1) + 2, r) == Turn(2 * (n - 1) + 1, u);
      TurnRotates(2 * (n - 1), t);
      TurnRotates(2 * (n - 1) + 1, u);
    }
  }

  lemma EightTurns(x: Register)
    ensures ByteRight(ByteRight(ByteRight(ByteRight(ByteRight(ByteRight(ByteRight(ByteRight(x)))))))) == x
    ensures ByteLeft(ByteLeft(ByteLeft(ByteLeft(ByteLeft(ByteLeft(ByteLeft(ByteLeft(x)))))))) == x
  {
  }

  lemma TwoTurns(n: nat, x: Register)
    ensures Right(n + 2, x) == ByteRight(ByteRight(Right(n, x))) && Left(n + 2, x) == ByteLeft(ByteLeft(Left(n, x)))
    ensures Right(0, x) == x && Left(0, x) == x
  {
  }

  lemma EightBytes(x: Register)
    ensures Right(8, x) == x && Left(8, x) == x
  {
    hide ByteRight, ByteLeft;
    TwoTurns(0, x);
    TwoTurns(2, x);
    TwoTurns(4, x);
    TwoTurns(6, x);
    EightTurns(x);
  }

  lemma WideInjective(x: Word, y: Word, u: Word, v: Word)
    requires Wide(x, y) == Wide(u, v)
    ensures x == u && y == v
  {
  }

  /** Sixteen rounds turn both registers all the way round: they end as they began. */
  lemma FullTurn(r: Registers)
    ensures Turned(16, r) == r
  {
    hide Wide, Turned, Right, Left;
    var t := Turned(16, r);
    TurnedPairs(8, r);
    EightBytes(Wide(r.k1, r.k2));
    EightBytes(Wide(r.k3, r.k4));
    WideInjective(t.k1, t.k2, r.k1, r.k2);
    WideInjective(t.k3, t.k4, r.k3, r.k4);
  }

  function RegistersOf(key: seq<byte>): Registers
    requires |key| == 16
  {
    Registers(Load32(key[..4]), Load32(key[4..8]), Load32(key[8..12]), Load32(key[12..]))
  }

  function RoundKey(ss: Boxes, key: seq<byte>, i: nat): Pair
    requires |key| == 16 && i < 16
  {
    var t := Turned(i, RegistersOf(key));
    Pair(G(ss, Sub(Add(t.k1, t.k3), KC()[i])), G(ss, Add(Sub(t.k2, t.k4), KC()[i])))
  }

  /** K holds the round keys in order, dK in the opposite order. */
  function Schedule(ss: Boxes, key: seq<byte>, decrypt: bool): (s: seq<Pair>)
    requires |key| == 16
    ensures |s| == 16
  {
    seq(16, i requires 0 <= i < 16 => RoundKey(ss, key, if decrypt then 15 - i else i))
  }

  // ---- the chain ----

  function RoundFunction(ss: Boxes, ks: seq<Pair>, i: nat, x: Pair): Pair {
    if i < |ks| then F(ss, x, ks[i].a, ks[i].b) else Pair(Word(0), Word(0))
  }

  function SeedChain(ss: Boxes, ks: seq<Pair>): Chain<Pair> {
    Chain(XorPair, i => i % 2 == 0, (i, x) => RoundFunction(ss, ks, i, x))
  }

  lemma ChainStep(ss: Boxes, ks: seq<Pair>, i: nat, b: Halves<Pair>)
    requires i < |ks|
    ensures Step(SeedChain(ss, ks), i, b) ==
      if i % 2 == 0 then Halves(XorPair(b.l, F(ss, b.r, ks[i].a, ks[i].b)), b.r)
      else Halves(b.l, XorPair(b.r, F(ss, b.l, ks[i].a, ks[i].b)))
  {
    hide F, XorPair;
  }

  lemma ChainCancels(ss: Boxes, ks: seq<Pair>)
    ensures Cancels(SeedChain(ss, ks))
  {
    hide Xor;
    forall x, y
      ensures XorPair(XorPair(x, y), y) == x
    {
      XorTwice(x.a, y.a);
      XorTwice(x.b, y.b);
    }
  }

  /** The reversed copy of the schedule makes the chain that replays the rounds backwards on exchanged halves. */
  lemma SchedulesMirror(ss: Boxes, key: seq<byte>)
    requires |key| == 16
    ensures Mirrors(SeedChain(ss, Schedule(ss, key, true)), SeedChain(ss, Schedule(ss, key, false)), 16)
    ensures Mirrors(SeedChain(ss, Schedule(ss, key, false)), SeedChain(ss, Schedule(ss, key, true)), 16)
  {
    hide RoundKey, F;
    var e, d := Schedule(ss, key, false), Schedule(ss, key, true);
    assert forall i: nat | i < 16 :: d[i] == e[15 - i];
  }

  /** Sixteen rounds, and the halves exchanged when they are stored. */
  function Transform(ss: Boxes, ks: seq<Pair>, b: Halves<Pair>): Halves<Pair> {
    Exchange(Run(SeedChain(ss, ks), 16, b))
  }

  /** For every key and every choice of S-boxes, decryption undoes encryption and the other way round. */
  lemma TransformInverts(ss: Boxes, key: seq<byte>, b: Halves<Pair>)
    requires |key| == 16
    ensures Transform(ss, Schedule(ss, key, true), Transform(ss, Schedule(ss, key, false), b)) == b
    ensures Transform(ss, Schedule(ss, key, false), Transform(ss, Schedule(ss, key, true), b)) == b
  {
    hide Run, SeedChain, Cancels, Mirrors, Schedule;
    var e, d := SeedChain(ss, Schedule(ss, key, false)), SeedChain(ss, Schedule(ss, key, true));
    SchedulesMirror(ss, key);
    ChainCancels(ss, Schedule(ss, key, false));
    ChainCancels(ss, Schedule(ss, key, true));
    MirrorUndoesRun(d, e, 16, b);
    MirrorUndoesRun(e, d, 16, b);
  }

  // ---- bytes ----

  function Load(s: seq<byte>): Halves<Pair>
    requires |s| == 16
  {
    Halves(Pair(Load32(s[..4]), Load32(s[4..8])), Pair(Load32(s[8..12]), Load32(s[12..])))
  }

  function Store(h: Halves<Pair>): (s: seq<byte>)
    ensures |s| == 16
  {
    Store32(h.l.a) + Store32(h.l.b) + Store32(h.r.a) + Store32(h.r.b)
  }

  lemma LoadStore(h: Halves<Pair>, s: seq<byte>)
    requires |s| == 16
    ensures Load(Store(h)) == h && Store(Load(s)) == s
  {
    hide Load32, Store32;
    var t := Store(h);
    assert t[..4] == Store32(h.l.a) && t[4..8] == Store32(h.l.b) && t[8..12] == Store32(h.r.a) && t[12..] == Store32(h.r.b);
    LoadStore32(h.l.a);
    LoadStore32(h.l.b);
    LoadStore32(h.r.a);
    LoadStore32(h.r.b);
    StoreLoad32(s[..4]);
    StoreLoad32(s[4..8]);
    StoreLoad32(s[8..12]);
    StoreLoad32(s[12..]);
    assert s == s[..4] + s[4..8] + s[8..12] + s[12..];
  }

  function TransformBytes(ss: Boxes, ks: seq<Pair>, s: seq<byte>): (r: seq<byte>)
    requires |s| == 16
    ensures |r| == 16
  {
    Store(Transform(ss, ks, Load(s)))
  }

  lemma TransformBytesInvert(ss: Boxes, key: seq<byte>, s: seq<byte>)
    requires |key| == 16 && |s| == 16
    ensures TransformBytes(ss, Schedule(ss, key, true), TransformBytes(ss, Schedule(ss, key, false), s)) == s
    ensures TransformBytes(ss, Schedule(ss, key, false), TransformBytes(ss, Schedule(ss, key, true), s)) == s
  {
    hide Load, Store, Transform, Schedule;
    var h := Load(s);
    LoadStore(Transform(ss, Schedule(ss, key, false), h), s);
    LoadStore(Transform(ss, Schedule(ss, key, true), h), s);
    TransformInverts(ss, key, h);
  }

  // ---- seen from outside ----

  /** G by the places of its four table entries. */
  lemma GEntries(ss: Boxes, x: Word)
    ensures G(ss, x) == Xor(Xor(Xor(ss[768 + ByteAt(x, 24) as int], ss[512 + ByteAt(x, 16) as int]), ss[256 + ByteAt(x, 8) as int]),
                            ss[ByteAt(x, 0) as int])
  {
    hide Xor, ByteAt;
  }

  /** Round key i is made of the first key half turned right and the second turned left, each by a byte every other round,
      and of the i-th constant. */
  lemma RoundKeySeenFromOutside(ss: Boxes, key: seq<byte>, i: nat) returns (t: Registers)
    requires |key| == 16 && i < 16
    ensures Wide(t.k1, t.k2) == Right((i + 1) / 2, Wide(Load32(key[..4]), Load32(key[4..8])))
    ensures Wide(t.k3, t.k4) == Left(i / 2, Wide(Load32(key[8..12]), Load32(key[12..])))
    ensures RoundKey(ss, key, i) == Pair(G(ss, Sub(Add(t.k1, t.k3), KC()[i])), G(ss, Add(Sub(t.k2, t.k4), KC()[i])))
  {
    hide Wide, ByteRight, ByteLeft, G, Add, Sub, Load32, ShiftLeft8, ShiftRight8;
    var r, n := RegistersOf(key), i / 2;
    t := Turned(i, r);
    TurnedPairs(n, r);
    if i % 2 == 1 {
      assert i == 2 * n + 1 && (i + 1) / 2 == n + 1;
      TurnRotates(2 * n, Turned(2 * n, r));
    } else {
      assert i == 2 * n && (i + 1) / 2 == n;
    }
  }

  /** What a round adds into the one half, from the other half and two key words. */
  lemma RoundSeenFromOutside(ss: Boxes, ks: seq<Pair>, b: Halves<Pair>, i: nat)
    requires i < |ks|
    ensures
      var p, q := Run(SeedChain(ss, ks), i, b), Run(SeedChain(ss, ks), i + 1, b);
      var x := if i % 2 == 0 then p.r else p.l;
      var c, d := Xor(x.a, ks[i].a), Xor(x.b, ks[i].b);
      var g := G(ss, Xor(c, d));
      var u := G(ss, Add(g, c));
      var t := G(ss, Add(u, g));
      && (if i % 2 == 0 then q.r == p.r else q.l == p.l)
      && (if i % 2 == 0 then Xor(p.l.a, q.l.a) == Add(t, u) && Xor(p.l.b, q.l.b) == t
          else Xor(p.r.a, q.r.a) == Add(t, u) && Xor(p.r.b, q.r.b) == t)
  {
    hide Run, Step, SeedChain, G, Xor, Add;
    var p := Run(SeedChain(ss, ks), i, b);
    RunNext(SeedChain(ss, ks), i, b);
    ChainStep(ss, ks, i, p);
    var f := F(ss, if i % 2 == 0 then p.r else p.l, ks[i].a, ks[i].b);
    var y := if i % 2 == 0 then p.l else p.r;
    XorDifference(y.a, f.a);
    XorDifference(y.b, f.b);
  }

  /** The first round reads the block as it is stored; after the sixteenth the halves are stored in exchanged places. */
  lemma OutputSeenFromOutside(ss: Boxes, ks: seq<Pair>, s: seq<byte>)
    requires |s| == 16
    ensures
      var b := Halves(Pair(Load32(s[..4]), Load32(s[4..8])), Pair(Load32(s[8..12]), Load32(s[12..])));
      var t, h := TransformBytes(ss, ks, s), Run(SeedChain(ss, ks), 16, b);
      && Run(SeedChain(ss, ks), 0, b) == b
      && Load32(t[..4]) == h.r.a && Load32(t[4..8]) == h.r.b && Load32(t[8..12]) == h.l.a && Load32(t[12..]) == h.l.b
  {
    hide Run, Load32, SeedChain, Store;
    var b := Load(s);
    var h := Run(SeedChain(ss, ks), 16, b);
    RunStart(SeedChain(ss, ks), b);
    LoadStore(Exchange(h), s);
  }

  /** The key words for encryption come in order, those for decryption the other way round. */
  lemma ScheduleOrder(ss: Boxes, key: seq<byte>, i: nat)
    requires |key| == 16 && i < 16
    ensures Schedule(ss, key, false)[i] == RoundKey(ss, key, i) && Schedule(ss, key, true)[i] == RoundKey(ss, key, 15 - i)
  {
    hide RoundKey;
  }

  // ---- the routines ----

  /** The macro F: P[l], P[l+1] take up a function of P[r], P[r+1]. */
  method MixInto(ss: Boxes, P: array<Word>, l: nat, r: nat, k0: Word, k1: Word)
    requires P.Length == 4 && ((l == 0 && r == 2) || (l == 2 && r == 0))
    modifies P
    ensures Pair(P[l], P[l + 1]) == XorPair(old(Pair(P[l], P[l + 1])), F(ss, old(Pair(P[r], P[r + 1])), k0, k1))
    ensures P[r] == old(P[r]) && P[r + 1] == old(P[r + 1])
  {
    hide G, Xor, Add;
    var t2 := G(ss, Xor(Xor(P[r], k0), Xor(P[r + 1], k1)));
    var t := G(ss, Add(G(ss, Add(t2, Xor(P[r], k0))), t2));
    P[l + 1] := Xor(P[l + 1], t);
    P[l] := Xor(P[l], Add(t, G(ss, Add(t2, Xor(P[r], k0)))));
  }

  ghost function Quad(P: array<Word>): Halves<Pair>
    requires P.Length == 4
    reads P
  {
    Halves(Pair(P[0], P[1]), Pair(P[2], P[3]))
  }

  /** An array of 32 key words as 16 pairs. */
  ghost function Pairs(K: array<Word>): (s: seq<Pair>)
    requires K.Length == 32
    reads K
    ensures |s| == 16
  {
    seq(16, i requires 0 <= i < 16 reads K => Pair(K[2 * i], K[2 * i + 1]))
  }

  method Rounds(ss: Boxes, P: array<Word>, K: array<Word>)
    requires P.Length == 4 && K.Length == 32 && P != K
    modifies P
    ensures Quad(P) == Run(SeedChain(ss, Pairs(K)), 16, old(Quad(P)))
  {
    hide F, XorPair, Run, Step, SeedChain;
    ghost var ks, b := Pairs(K), Quad(P);
    ghost var c := SeedChain(ss, ks);
    RunStart(c, b);
    var i := 0;
    while i < 16
      invariant i <= 16 && i % 2 == 0
      invariant Quad(P) == Run(c, i, b)
    {
      ChainStep(ss, ks, i, Quad(P));
      RunNext(c, i, b);
      MixInto(ss, P, 0, 2, K[2 * i], K[2 * i + 1]);
      ChainStep(ss, ks, i + 1, Quad(P));
      RunNext(c, i + 1, b);
      MixInto(ss, P, 2, 0, K[2 * i + 2], K[2 * i + 3]);
      i := i + 2;
    }
  }

  /** The kseed part of symmetric_key. */
  class Key {
    const K: array<Word>
    const dK: array<Word>

    ghost predicate Valid() {
      K.Length == 32 && dK.Length == 32 && K != dK
    }

    ghost predicate Holds(ss: Boxes, key: seq<byte>)
      requires Valid() && |key| == 16
      reads K, dK
    {
      Pairs(K) == Schedule(ss, key, false) && Pairs(dK) == Schedule(ss, key, true)
    }

    ghost predicate Apart(buffer: array<byte>) {
      buffer as object !in {K as object, dK}
    }

    constructor ()
      ensures Valid() && fresh(K) && fresh(dK)
    {
      K := new Word[32](i => Word(0));
      dK := new Word[32](i => Word(0));
    }

    method Setup(ss: Boxes, key: array<byte>, keylen: int, numRounds: int) returns (status: Status)
      requires Valid() && Apart(key) && keylen <= key.Length
      modifies K, dK
      ensures status == if keylen != 16 then InvalidKeysize else if numRounds != 16 && numRounds != 0 then InvalidRounds else Ok
      ensures status == Ok ==> Holds(ss, old(key[..16]))
      ensures status != Ok ==> K[..] == old(K[..]) && dK[..] == old(dK[..])
    {
      hide G, KC, Load32, Add, Sub, ShiftLeft8, ShiftRight8;
      if keylen != 16 { return InvalidKeysize; }
      if numRounds != 16 && numRounds != 0 { return InvalidRounds; }
      ghost var k := key[..16];
      var k1 := LoadWord(key, 0);
      var k2 := LoadWord(key, 4);
      var k3 := LoadWord(key, 8);
      var k4 := LoadWord(key, 12);
      assert k[..4] == key[0..4] && k[4..8] == key[4..8] && k[8..12] == key[8..12] && k[12..] == key[12..16];
      ghost var r := RegistersOf(k);
      for i := 0 to 16
        invariant Registers(k1, k2, k3, k4) == Turned(i, r)
        invariant forall j | 0 <= j < i :: Pairs(K)[j] == RoundKey(ss, k, j)
        invariant forall j | 16 - i <= j < 16 :: Pairs(dK)[j] == RoundKey(ss, k, 15 - j)
      {
        StoreRound(ss, i, G(ss, Sub(Add(k1, k3), KC()[i])), G(ss, Add(Sub(k2, k4), KC()[i])));
        if i % 2 == 1 {
          var tmp := k3;
          k3 := ShiftLeft8(k3, k4);
          k4 := ShiftLeft8(k4, tmp);
        } else {
          var tmp := k1;
          k1 := ShiftRight8(k1, k2);
          k2 := ShiftRight8(k2, tmp);
        }
      }
      return Ok;
    }

    /** Stores a round key in both schedules. */
    method StoreRound(ss: Boxes, i: nat, a: Word, b: Word)
      requires Valid() && i < 16
      modifies K, dK
      ensures Pairs(K) == old(Pairs(K))[i := Pair(a, b)]
      ensures Pairs(dK) == old(Pairs(dK))[15 - i := Pair(a, b)]
    {
      K[2 * i] := a;
      K[2 * i + 1] := b;
      dK[2 * (15 - i)] := K[2 * i];
      dK[2 * (15 - i) + 1] := K[2 * i + 1];
      forall j | 0 <= j < 16 && j != i
        ensures Pairs(K)[j] == old(Pairs(K))[j]
      {
        assert 2 * j != 2 * i && 2 * j + 1 != 2 * i + 1;
      }
    }

    /** Loads 16 bytes, runs the rounds and stores the halves exchanged. */
    static method Apply(ss: Boxes, keys: array<Word>, src: array<byte>, dst: array<byte>)
      requires keys.Length == 32 && dst as object != keys && src.Length >= 16 && dst.Length >= 16
      modifies dst
      ensures dst[..16] == TransformBytes(ss, Pairs(keys), old(src[..16])) && dst[16..] == old(dst[16..])
    {
      hide Load32, Store32, Run, SeedChain;
      ghost var s, ks := src[..16], Pairs(keys);
      assert s[..4] == src[0..4] && s[4..8] == src[4..8] && s[8..12] == src[8..12] && s[12..] == src[12..16];
      var P := new Word[4](i => Word(0));
      P[0] := LoadWord(src, 0);
      P[1] := LoadWord(src, 4);
      P[2] := LoadWord(src, 8);
      P[3] := LoadWord(src, 12);
      assert Quad(P) == Load(s);
      Rounds(ss, P, keys);
      StoreFour(dst, P[2], P[3], P[0], P[1]);
    }

    /** pt and ct may be the same buffer. */
    method EcbEncrypt(ss: Boxes, pt: array<byte>, ct: array<byte>, ghost key: seq<byte>)
      requires Valid() && Apart(ct) && |key| == 16 && Holds(ss, key) && pt.Length >= 16 && ct.Length >= 16
      modifies ct
      ensures ct[..16] == TransformBytes(ss, Schedule(ss, key, false), old(pt[..16])) && ct[16..] == old(ct[16..])
    {
      hide TransformBytes, Schedule;
      Apply(ss, K, pt, ct);
    }

    method EcbDecrypt(ss: Boxes, ct: array<byte>, pt: array<byte>, ghost key: seq<byte>)
      requires Valid() && Apart(pt) && |key| == 16 && Holds(ss, key) && pt.Length >= 16 && ct.Length >= 16
      modifies pt
      ensures pt[..16] == TransformBytes(ss, Schedule(ss, key, true), old(ct[..16])) && pt[16..] == old(pt[16..])
    {
      hide TransformBytes, Schedule;
      Apply(ss, dK, ct, pt);
    }
  }

  /** Set up, encrypt and decrypt in one buffer, whatever the S-boxes. */
  method RoundTripInPlace(ss: Boxes, key: array<byte>, buffer: array<byte>)
    requires key.Length == 16 && buffer.Length == 16 && key != buffer
    modifies buffer
    ensures buffer[..] == old(buffer[..])
  {
    hide TransformBytes, Schedule;
    var skey := new Key();
    var status := skey.Setup(ss, key, 16, 0);
    ghost var s, k := buffer[..], key[..16];
    assert buffer[..16] == s;
    skey.EcbEncrypt(ss, buffer, buffer, k);
    skey.EcbDecrypt(ss, buffer, buffer, k);
    TransformBytesInvert(ss, k, s);
    assert buffer[..] == buffer[..16];
  }
}
