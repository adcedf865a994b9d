/** The key schedule and the data path of KASUMI (kasumi.c), as an instance of the Feistel chain. */
module KasumiCipher {
  import opened Words
  import opened Feistel
  import opened Kasumi

  // ---- the key schedule ----

  /** The constants C[8]. */
  function Constants(): (s: seq<Word>)
    ensures |s| == 8 && forall n | 0 <= n < 8 :: Fits16(s[n])
  {
    [Word(0x0123), Word(0x4567), Word(0x89AB), Word(0xCDEF), Word(0xFEDC), Word(0xBA98), Word(0x7654), Word(0x3210)]
  }

  function Pair(hi: byte, lo: byte): (r: Word)
    ensures Fits16(r)
  {
    Word(((hi as bv32) << 8) | (lo as bv32))
  }

  /** User key word n, big-endian. */
  function UserWord(key: seq<byte>, n: nat): (r: Word)
    requires |key| == 16 && n < 8
    ensures Fits16(r)
  {
    Pair(key[2 * n], key[2 * n + 1])
  }

  function KPrime(key: seq<byte>, n: nat): (r: Word)
    requires |key| == 16 && n < 8
    ensures Fits16(r)
  {
    hide Fits16, Fits7, Fits9, Xor, Constants;
    XorFits(UserWord(key, n), Constants()[n]);
    Xor(UserWord(key, n), Constants()[n])
  }

  /** The eight subkeys of round n; all of them stay below 2^16. */
  function RoundKeyOf(key: seq<byte>, n: nat): (k: RoundKey)
    requires |key| == 16 && n < 8
    ensures KeyFits(k)
  {
    hide Fits16, UserWord, KPrime, Rol16;
    RoundKey(
      Rol16(UserWord(key, n), 1),
      KPrime(key, (n + 2) % 8),
      Rol16(UserWord(key, (n + 1) % 8), 5),
      Rol16(UserWord(key, (n + 5) % 8), 8),
      Rol16(UserWord(key, (n + 6) % 8), 13),
      KPrime(key, (n + 4) % 8),
      KPrime(key, (n + 3) % 8),
      KPrime(key, (n + 7) % 8))
  }

  function Schedule(key: seq<byte>): (ks: seq<Subkeys>)
    requires |key| == 16
    ensures |ks| == 8
  {
    seq(8, n requires 0 <= n < 8 => RoundKeyOf(key, n))
  }

  lemma PairInjective(a: byte, b: byte, c: byte, d: byte)
    requires Pair(a, b) == Pair(c, d)
    ensures a == c && b == d
  {
  }

  lemma RotatedWordDetermines(x: Word, y: Word, n: bv6)
    requires Fits16(x) && Fits16(y) && n <= 16 && Rol16(x, n) == Rol16(y, n)
    ensures x == y
  {
    hide Fits16, Rol16;
    Rol16Inverts(x, n);
    Rol16Inverts(y, n);
  }

  lemma MaskedWordDetermines(x: Word, y: Word, c: Word)
    requires Xor(x, c) == Xor(y, c)
    ensures x == y
  {
    hide Xor;
    XorTwice(x, c);
    XorTwice(y, c);
  }

  /** The eight subkeys of any one round involve each user key word once. */
  lemma RoundDeterminesWord(k1: seq<byte>, k2: seq<byte>, n: nat, m: nat)
    requires |k1| == |k2| == 16 && n < 8 && m < 8
    requires RoundKeyOf(k1, n) == RoundKeyOf(k2, n)
    ensures UserWord(k1, m) == UserWord(k2, m)
  {
    hide Fits16, UserWord, Rol16, Xor, Constants;
    var x, y := UserWord(k1, m), UserWord(k2, m);
    SomeOffset(n, m);
    if m == n {
      RotatedWordDetermines(x, y, 1);
    } else if m == (n + 1) % 8 {
      RotatedWordDetermines(x, y, 5);
    } else if m == (n + 5) % 8 {
      RotatedWordDetermines(x, y, 8);
    } else if m == (n + 6) % 8 {
      RotatedWordDetermines(x, y, 13);
    } else {
      MaskedWordDetermines(x, y, Constants()[m]);
    }
  }

  lemma SomeOffset(n: nat, m: nat)
    requires n < 8 && m < 8
    ensures m in {n, (n + 1) % 8, (n + 2) % 8, (n + 3) % 8, (n + 4) % 8, (n + 5) % 8, (n + 6) % 8, (n + 7) % 8}
  {
  }

  /** The subkeys of any single round determine the whole user key. */
  lemma RoundKeyInjective(k1: seq<byte>, k2: seq<byte>, n: nat)
    requires |k1| == |k2| == 16 && n < 8
    requires RoundKeyOf(k1, n) == RoundKeyOf(k2, n)
    ensures k1 == k2
  {
    hide RoundKeyOf, Pair;
    forall i | 0 <= i < 16
      ensures k1[i] == k2[i]
    {
      var m := i / 2;
      RoundDeterminesWord(k1, k2, n, m);
      PairInjective(k1[2 * m], k1[2 * m + 1], k2[2 * m], k2[2 * m + 1]);
    }
  }

  // ---- the chain ----

  /** FL comes before FO in the even rounds and after it in the odd ones. */
  function RoundFunction(ks: seq<Subkeys>, n: nat, x: Word): Word {
    if n >= |ks| then Word(0)
    else if n % 2 == 0 then FO(FL(x, ks[n]), ks[n])
    else FL(FO(x, ks[n]), ks[n])
  }

  /** Even rounds change the right half, odd rounds the left one. */
  function KasumiChain(ks: seq<Subkeys>): Chain<Word> {
    Chain(Xor, n => n % 2 == 1, (n, x) => RoundFunction(ks, n, x))
  }

  lemma ChainStep(ks: seq<Subkeys>, n: nat, b: Halves<Word>)
    requires n < |ks|
    ensures Step(KasumiChain(ks), n, b) ==
      if n % 2 == 0 then Halves(b.l, Xor(b.r, FO(FL(b.l, ks[n]), ks[n])))
      else Halves(Xor(b.l, FL(FO(b.r, ks[n]), ks[n])), b.r)
  {
    hide FO, FL, Xor;
  }

  function EncryptBytes(ks: seq<Subkeys>, s: seq<byte>): (r: seq<byte>)
    requires |s| == 8
    ensures |r| == 8
  {
    RunBytes(KasumiChain(ks), 8, s)
  }

  function DecryptBytes(ks: seq<Subkeys>, s: seq<byte>): (r: seq<byte>)
    requires |s| == 8
    ensures |r| == 8
  {
    UnrunBytes(KasumiChain(ks), 8, s)
  }

  /** Decryption undoes encryption on every stored block, and encryption undoes decryption. */
  lemma DecryptUndoesEncrypt(ks: seq<Subkeys>, s: seq<byte>)
    requires |s| == 8
    ensures DecryptBytes(ks, EncryptBytes(ks, s)) == s
    ensures EncryptBytes(ks, DecryptBytes(ks, s)) == s
  {
    UnrunUndoesRunOnBytes(KasumiChain(ks), 8, s);
  }

  // ---- the routines ----

  /** The kasumi part of symmetric_key: one array of eight words for each kind of subkey. */
  class Key {
    const KLi1: array<Word>
    const KLi2: array<Word>
    const KOi1: array<Word>
    const KOi2: array<Word>
    const KOi3: array<Word>
    const KIi1: array<Word>
    const KIi2: array<Word>
    const KIi3: array<Word>

    ghost predicate Valid() {
      && KLi1.Length == 8 && KLi2.Length == 8 && KOi1.Length == 8 && KOi2.Length == 8 && KOi3.Length == 8
      && KIi1.Length == 8 && KIi2.Length == 8 && KIi3.Length == 8
      && KLi1 !in {KLi2, KOi1, KOi2, KOi3, KIi1, KIi2, KIi3} && KLi2 !in {KOi1, KOi2, KOi3, KIi1, KIi2, KIi3}
      && KOi1 !in {KOi2, KOi3, KIi1, KIi2, KIi3} && KOi2 !in {KOi3, KIi1, KIi2, KIi3}
      && KOi3 !in {KIi1, KIi2, KIi3} && KIi1 !in {KIi2, KIi3} && KIi2 != KIi3
    }

    /** The arrays hold the schedule of a user key. */
    ghost predicate Holds(key: seq<byte>)
      requires Valid() && |key| == 16
      reads KLi1, KLi2, KOi1, KOi2, KOi3, KIi1, KIi2, KIi3
    {
      forall n | 0 <= n < 8 :: At(n) == RoundKeyOf(key, n)
    }

    ghost function At(n: nat): RoundKey
      requires Valid() && n < 8
      reads KLi1, KLi2, KOi1, KOi2, KOi3, KIi1, KIi2, KIi3
    {
      RoundKey(KLi1[n], KLi2[n], KOi1[n], KOi2[n], KOi3[n], KIi1[n], KIi2[n], KIi3[n])
    }

    /** A caller's buffer is not the key's own memory. */
    ghost predicate Apart(buffer: array<byte>) {
      buffer as object !in {KLi1 as object, KLi2, KOi1, KOi2, KOi3, KIi1, KIi2, KIi3}
    }

    constructor ()
      ensures Valid()
      ensures fresh(KLi1) && fresh(KLi2) && fresh(KOi1) && fresh(KOi2) && fresh(KOi3)
      ensures fresh(KIi1) && fresh(KIi2) && fresh(KIi3)
    {
      KLi1 := new Word[8](i => Word(0));
      KLi2 := new Word[8](i => Word(0));
      KOi1 := new Word[8](i => Word(0));
      KOi2 := new Word[8](i => Word(0));
      KOi3 := new Word[8](i => Word(0));
      KIi1 := new Word[8](i => Word(0));
      KIi2 := new Word[8](i => Word(0));
      KIi3 := new Word[8](i => Word(0));
    }

    /** One turn of the last setup loop. */
    method StoreRound(n: nat, ukey: seq<Word>, kprime: seq<Word>)
      requires Valid() && n < 8 && |ukey| == |kprime| == 8
      modifies KLi1, KLi2, KOi1, KOi2, KOi3, KIi1, KIi2, KIi3
      ensures At(n) == RoundKey(
                         Rol16(ukey[n], 1), kprime[(n + 2) % 8], Rol16(ukey[(n + 1) % 8], 5), Rol16(ukey[(n + 5) % 8], 8),
                         Rol16(ukey[(n + 6) % 8], 13), kprime[(n + 4) % 8], kprime[(n + 3) % 8], kprime[(n + 7) % 8])
      ensures forall m | 0 <= m < 8 && m != n :: At(m) == old(At(m))
    {
      hide Rol16;
      KLi1[n] := Rol16(ukey[n], 1);
      KLi2[n] := kprime[(n + 2) % 8];
      KOi1[n] := Rol16(ukey[(n + 1) % 8], 5);
      KOi2[n] := Rol16(ukey[(n + 5) % 8], 8);
      KOi3[n] := Rol16(ukey[(n + 6) % 8], 13);
      KIi1[n] := kprime[(n + 4) % 8];
      KIi2[n] := kprime[(n + 3) % 8];
      KIi3[n] := kprime[(n + 7) % 8];
    }

    method Setup(key: array<byte>, keylen: int, numRounds: int) returns (status: Status)
      requires Valid() && Apart(key) && keylen <= key.Length
      modifies KLi1, KLi2, KOi1, KOi2, KOi3, KIi1, KIi2, KIi3
      ensures status == if keylen != 16 then InvalidKeysize else if numRounds != 0 && numRounds != 8 then InvalidRounds else Ok
      ensures status == Ok ==> Holds(key[..16])
      ensures status != Ok ==> forall n | 0 <= n < 8 :: At(n) == old(At(n))
    {
      hide Rol16, Xor, Fits16, Pair, Constants, At;
      if keylen != 16 { return InvalidKeysize; }
      if numRounds != 0 && numRounds != 8 { return InvalidRounds; }
      ghost var k := key[..16];
      var ukey, kprime: seq<Word> := [], [];
      for n := 0 to 8
        modifies {}
        invariant |ukey| == n
        invariant forall m | 0 <= m < n :: ukey[m] == UserWord(k, m)
      {
        ukey := ukey + [Pair(key[2 * n], key[2 * n + 1])];
      }
      for n := 0 to 8
        modifies {}
        invariant |kprime| == n
        invariant forall m | 0 <= m < n :: kprime[m] == KPrime(k, m)
      {
        kprime := kprime + [Xor(ukey[n], Constants()[n])];
      }
      for n := 0 to 8
        invariant forall m | 0 <= m < n :: At(m) == RoundKeyOf(k, m)
        invariant key[..16] == k
      {
        StoreRound(n, ukey, kprime);
      }
      return Ok;
    }

    /** Reads the subkeys of a round. */
    method Subkey(n: nat, ghost key: seq<byte>) returns (k: Subkeys)
      requires Valid() && |key| == 16 && Holds(key) && n < 8
      ensures k == RoundKeyOf(key, n) == Schedule(key)[n]
    {
      hide RoundKeyOf, Fits16;
      assert At(n) == RoundKeyOf(key, n);
      k := RoundKey(KLi1[n], KLi2[n], KOi1[n], KOi2[n], KOi3[n], KIi1[n], KIi2[n], KIi3[n]);
    }

    /** pt and ct may be the same buffer. */
    method EcbEncrypt(pt: array<byte>, ct: array<byte>, ghost key: seq<byte>)
      requires Valid() && Apart(ct) && |key| == 16 && Holds(key) && pt.Length >= 8 && ct.Length >= 8
      modifies ct
      ensures ct[..8] == EncryptBytes(Schedule(key), old(pt[..8])) && ct[8..] == old(ct[8..])
    {
      hide LoadBlock, StoreBlock, Xor, FL, FO, RoundKeyOf, KasumiChain, Run, Step;
      var b := ReadBlock(pt);
      var left, right := b.l, b.r;
      ghost var h := Halves(left, right);
      ghost var c := KasumiChain(Schedule(key));
      RunStart(c, h);
      var n := 0;
      while n <= 7
        modifies {}
        invariant n % 2 == 0 && n <= 8
        invariant Halves(left, right) == Run(c, n, h)
      {
        var k := Subkey(n, key);
        var temp := ComputeFL(left, k);
        temp := ComputeFO(temp, k); n := n + 1;
        ChainStep(Schedule(key), n - 1, Halves(left, right));
        RunNext(c, n - 1, h);
        right := Xor(right, temp);
        k := Subkey(n, key);
        temp := ComputeFO(right, k);
        temp := ComputeFL(temp, k); n := n + 1;
        ChainStep(Schedule(key), n - 1, Halves(left, right));
        RunNext(c, n - 1, h);
        left := Xor(left, temp);
      }
      WriteBlock(ct, Block(left, right));
    }

    method EcbDecrypt(ct: array<byte>, pt: array<byte>, ghost key: seq<byte>)
      requires Valid() && Apart(pt) && |key| == 16 && Holds(key) && pt.Length >= 8 && ct.Length >= 8
      modifies pt
      ensures pt[..8] == DecryptBytes(Schedule(key), old(ct[..8])) && pt[8..] == old(pt[8..])
    {
      hide LoadBlock, StoreBlock, Xor, FL, FO, RoundKeyOf, KasumiChain, Unrun, Step;
      var b := ReadBlock(ct);
      var left, right := b.l, b.r;
      ghost var h := Halves(left, right);
      ghost var c := KasumiChain(Schedule(key));
      var n := 7;
      while n >= 0
        modifies {}
        invariant -1 <= n <= 7 && n % 2 == 1
        invariant Unrun(c, n + 1, Halves(left, right)) == Unrun(c, 8, h)
      {
        UnrunNext(c, n, Halves(left, right));
        ChainStep(Schedule(key), n, Halves(left, right));
        var k := Subkey(n, key);
        var temp := ComputeFO(right, k);
        temp := ComputeFL(temp, k); n := n - 1;
        left := Xor(left, temp);
        UnrunNext(c, n, Halves(left, right));
        ChainStep(Schedule(key), n, Halves(left, right));
        k := Subkey(n, key);
        temp := ComputeFL(left, k);
        temp := ComputeFO(temp, k); n := n - 1;
        right := Xor(right, temp);
      }
      RunStart(c, Halves(left, right));
      WriteBlock(pt, Block(left, right));
    }
  }

  /** Set up, encrypt and decrypt in one buffer. */
  method RoundTripInPlace(key: array<byte>, buffer: array<byte>)
    requires key.Length == 16 && buffer.Length == 8 && key != buffer
    modifies buffer
    ensures buffer[..] == old(buffer[..])
  {
    hide EncryptBytes, DecryptBytes, Schedule;
    var skey := new Key();
    var status := skey.Setup(key, 16, 0);
    ghost var s, k := buffer[..], key[..16];
    assert buffer[..8] == s;
    skey.EcbEncrypt(buffer, buffer, k);
    skey.EcbDecrypt(buffer, buffer, k);
    DecryptUndoesEncrypt(Schedule(k), s);
    assert buffer[..] == buffer[..8];
  }
}
