/** CAST5 (cast5.c): the 12- or 16-round data path as a Feistel chain, from setup to stored bytes. The S-boxes are
    arbitrary: `ss` holds S1 .. S4, `ks` holds S5 .. S8. */
module Cast5 {
  import opened Words
  import opened Feistel
  import opened Cast5Keys

  /** ROL with its count taken modulo 32. */
  function RolBy(x: Word, count: Word): Word {
    var n: bv6 := (count.w & 31) as bv6;
    Rol(x, n)
  }

  function FI(ss: Boxes, r: Word, km: Word, kr: Word): Word {
    var i := RolBy(Add(km, r), kr);
    Add(Sub(Xor(S(ss, 0, ByteAt(i, 24)), S(ss, 1, ByteAt(i, 16))), S(ss, 2, ByteAt(i, 8))), S(ss, 3, ByteAt(i, 0)))
  }

  function FII(ss: Boxes, r: Word, km: Word, kr: Word): Word {
    var i := RolBy(Xor(km, r), kr);
    Xor(Add(Sub(S(ss, 0, ByteAt(i, 24)), S(ss, 1, ByteAt(i, 16))), S(ss, 2, ByteAt(i, 8))), S(ss, 3, ByteAt(i, 0)))
  }

  function FIII(ss: Boxes, r: Word, km: Word, kr: Word): Word {
    var i := RolBy(Sub(km, r), kr);
    Sub(Xor(Add(S(ss, 0, ByteAt(i, 24)), S(ss, 1, ByteAt(i, 16))), S(ss, 2, ByteAt(i, 8))), S(ss, 3, ByteAt(i, 0)))
  }

  method ComputeFI(ss: Boxes, R: Word, Km: Word, Kr: Word) returns (r: Word)
    ensures r == FI(ss, R, Km, Kr)
  {
    hide Add, Sub, Xor, RolBy;
    var I := Add(Km, R);
    I := RolBy(I, Kr);
    r := Xor(S(ss, 0, ByteAt(I, 24)), S(ss, 1, ByteAt(I, 16)));
    r := Sub(r, S(ss, 2, ByteAt(I, 8)));
    r := Add(r, S(ss, 3, ByteAt(I, 0)));
  }

  method ComputeFII(ss: Boxes, R: Word, Km: Word, Kr: Word) returns (r: Word)
    ensures r == FII(ss, R, Km, Kr)
  {
    hide Add, Sub, Xor, RolBy;
    var I := Xor(Km, R);
    I := RolBy(I, Kr);
    r := Sub(S(ss, 0, ByteAt(I, 24)), S(ss, 1, ByteAt(I, 16)));
    r := Add(r, S(ss, 2, ByteAt(I, 8)));
    r := Xor(r, S(ss, 3, ByteAt(I, 0)));
  }

  method ComputeFIII(ss: Boxes, R: Word, Km: Word, Kr: Word) returns (r: Word)
    ensures r == FIII(ss, R, Km, Kr)
  {
    hide Add, Sub, Xor, RolBy;
    var I := Sub(Km, R);
    I := RolBy(I, Kr);
    r := Add(S(ss, 0, ByteAt(I, 24)), S(ss, 1, ByteAt(I, 16)));
    r := Xor(r, S(ss, 2, ByteAt(I, 8)));
    r := Sub(r, S(ss, 3, ByteAt(I, 0)));
  }

  // ---- the chain ----

  /** The three functions take turns. */
  function RoundFunction(ss: Boxes, K: seq<Word>, i: nat, x: Word): Word {
    if i >= 16 || |K| != 32 then Word(0)
    else if i % 3 == 0 then FI(ss, x, K[i], K[16 + i])
    else if i % 3 == 1 then FII(ss, x, K[i], K[16 + i])
    else FIII(ss, x, K[i], K[16 + i])
  }

  function CastChain(ss: Boxes, K: seq<Word>): Chain<Word> {
    Chain(Xor, i => i % 2 == 0, (i, x) => RoundFunction(ss, K, i, x))
  }

  lemma ChainStep(ss: Boxes, K: seq<Word>, i: nat, b: Halves<Word>)
    requires i < 16 && |K| == 32
    ensures Step(CastChain(ss, K), i, b) ==
      if i % 2 == 0 then Halves(Xor(b.l, RoundFunction(ss, K, i, b.r)), b.r)
      else Halves(b.l, Xor(b.r, RoundFunction(ss, K, i, b.l)))
  {
    hide RoundFunction, Xor;
  }

  /** Keys of more than ten bytes run four more rounds. */
  function RoundsFor(keylen: int): nat {
    if keylen > 10 then 16 else 12
  }

  /** The halves are exchanged when they are stored and when they are loaded for decryption. */
  function EncryptBytes(ss: Boxes, K: seq<Word>, keylen: int, s: seq<byte>): (r: seq<byte>)
    requires |s| == 8
    ensures |r| == 8
  {
    StoreHalves(Exchange(Run(CastChain(ss, K), RoundsFor(keylen), LoadHalves(s))))
  }

  function DecryptBytes(ss: Boxes, K: seq<Word>, keylen: int, s: seq<byte>): (r: seq<byte>)
    requires |s| == 8
    ensures |r| == 8
  {
    StoreHalves(Unrun(CastChain(ss, K), RoundsFor(keylen), Exchange(LoadHalves(s))))
  }

  /** With 12 and with 16 rounds, whatever the subkeys, each direction undoes the other. */
  lemma DecryptUndoesEncrypt(ss: Boxes, K: seq<Word>, keylen: int, s: seq<byte>)
    requires |s| == 8
    ensures DecryptBytes(ss, K, keylen, EncryptBytes(ss, K, keylen, s)) == s
    ensures EncryptBytes(ss, K, keylen, DecryptBytes(ss, K, keylen, s)) == s
  {
    hide LoadHalves, StoreHalves, CastChain, Run, Unrun, Cancels;
    var c, n, h := CastChain(ss, K), RoundsFor(keylen), LoadHalves(s);
    assert c.plus == Xor by { ChainPlus(ss, K); }
    XorCancels(c);
    UnrunUndoesRun(c, n, h);
    UnrunUndoesRun(c, n, Exchange(h));
    LoadStoreHalves(Exchange(Run(c, n, h)), s);
    LoadStoreHalves(Unrun(c, n, Exchange(h)), s);
  }

  lemma ChainPlus(ss: Boxes, K: seq<Word>)
    ensures CastChain(ss, K).plus == Xor
  {
  }

  // ---- seen from outside ----

  /** The rotation counts with its low five bits. */
  lemma RolByCount(x: Word, count: Word, n: bv6)
    requires n < 32 && count.w & 31 == n as bv32
    ensures RolBy(x, count) == Rol(x, n)
  {
  }

  /** What a round adds, as section 2.2 of RFC 2144 defines its three functions: the rotated sum, exclusive or or difference
      of masking key and half, and the table entries of its four bytes put together in three different ways. */
  lemma RoundSeenFromOutside(ss: Boxes, K: seq<Word>, b: Halves<Word>, i: nat)
    requires |K| == 32 && i < 16
    ensures
      var p, q := Run(CastChain(ss, K), i, b), Run(CastChain(ss, K), i + 1, b);
      var x := if i % 2 == 0 then p.r else p.l;
      var t := RolBy(if i % 3 == 0 then Add(K[i], x) else if i % 3 == 1 then Xor(K[i], x) else Sub(K[i], x), K[16 + i]);
      var s1, s2, s3, s4 := S(ss, 0, ByteAt(t, 24)), S(ss, 1, ByteAt(t, 16)), S(ss, 2, ByteAt(t, 8)), S(ss, 3, ByteAt(t, 0));
      && (if i % 2 == 0 then p.r == q.r else p.l == q.l)
      && (if i % 2 == 0 then Xor(p.l, q.l) else Xor(p.r, q.r))
         == if i % 3 == 0 then Add(Sub(Xor(s1, s2), s3), s4)
            else if i % 3 == 1 then Xor(Add(Sub(s1, s2), s3), s4) else Sub(Xor(Add(s1, s2), s3), s4)
  {
    hide *;
    var p := Run(CastChain(ss, K), i, b);
    RoundAdds(ss, K, b, i);
    RoundEntries(ss, K, i, if i % 2 == 0 then p.r else p.l);
  }

  lemma RoundAdds(ss: Boxes, K: seq<Word>, b: Halves<Word>, i: nat)
    requires |K| == 32 && i < 16
    ensures
      var p, q := Run(CastChain(ss, K), i, b), Run(CastChain(ss, K), i + 1, b);
      if i % 2 == 0 then p.r == q.r && Xor(p.l, q.l) == RoundFunction(ss, K, i, p.r)
      else p.l == q.l && Xor(p.r, q.r) == RoundFunction(ss, K, i, p.l)
  {
    hide Run, Xor, CastChain, RoundFunction, Step;
    var c := CastChain(ss, K);
    var p := Run(c, i, b);
    RunNext(c, i, b);
    ChainStep(ss, K, i, p);
    var x := if i % 2 == 0 then p.r else p.l;
    XorDifference(if i % 2 == 0 then p.l else p.r, RoundFunction(ss, K, i, x));
  }

  lemma RoundEntries(ss: Boxes, K: seq<Word>, i: nat, x: Word)
    requires |K| == 32 && i < 16
    ensures
      var t := RolBy(if i % 3 == 0 then Add(K[i], x) else if i % 3 == 1 then Xor(K[i], x) else Sub(K[i], x), K[16 + i]);
      var s1, s2, s3, s4 := S(ss, 0, ByteAt(t, 24)), S(ss, 1, ByteAt(t, 16)), S(ss, 2, ByteAt(t, 8)), S(ss, 3, ByteAt(t, 0));
      RoundFunction(ss, K, i, x)
         == if i % 3 == 0 then Add(Sub(Xor(s1, s2), s3), s4)
            else if i % 3 == 1 then Xor(Add(Sub(s1, s2), s3), s4) else Sub(Xor(Add(s1, s2), s3), s4)
  {
    hide Xor, Add, Sub, RolBy, ByteAt, S;
  }

  /** The first round reads the block as it is stored, and the last leaves the halves to be stored in exchanged places. */
  lemma OutputSeenFromOutside(ss: Boxes, K: seq<Word>, keylen: int, s: seq<byte>)
    requires |s| == 8
    ensures
      var b := Halves(Load32(s[..4]), Load32(s[4..]));
      var t, h := EncryptBytes(ss, K, keylen, s), Run(CastChain(ss, K), if keylen > 10 then 16 else 12, b);
      Run(CastChain(ss, K), 0, b) == b && Load32(t[..4]) == h.r && Load32(t[4..]) == h.l
  {
    hide Run, Load32, Store32, CastChain;
    var b := Halves(Load32(s[..4]), Load32(s[4..]));
    var h := Run(CastChain(ss, K), if keylen > 10 then 16 else 12, b);
    RunStart(CastChain(ss, K), b);
    LoadStoreHalves(Exchange(h), s);
  }

  // ---- setup ----

  function SetupStatus(keylen: int, numRounds: int): Status {
    if numRounds != 12 && numRounds != 16 && numRounds != 0 then InvalidRounds
    else if numRounds == 12 && keylen > 10 then InvalidRounds
    else if keylen < 5 || keylen > 16 then InvalidKeysize
    else Ok
  }

  /** An accepted request for 12 rounds gets 12; a request for 16 gets 16 just when the key has more than ten bytes,
      and silently 12 otherwise. */
  lemma RoundsAsRequested(keylen: int, numRounds: int)
    requires SetupStatus(keylen, numRounds) == Ok
    ensures numRounds == 12 ==> RoundsFor(keylen) == 12
    ensures numRounds == 16 ==> (RoundsFor(keylen) == 16 <==> keylen > 10)
    ensures SetupStatus(8, 16) == Ok && RoundsFor(8) == 12
  {
  }

  // ---- what the cipher depends on ----

  /** The low five bits, all that a rotation reads of its subkey. */
  function Low5(x: Word): Word { Word(x.w & 31) }

  lemma RolByLow5(x: Word, count: Word)
    ensures RolBy(x, count) == RolBy(x, Low5(count))
  {
  }

  /** Two sets of subkeys agree on what round i reads. */
  predicate AgreeAt(K: seq<Word>, L: seq<Word>, i: nat)
    requires |K| == |L| == 32 && i < 16
  {
    K[i] == L[i] && Low5(K[16 + i]) == Low5(L[16 + i])
  }

  predicate AgreeFor(K: seq<Word>, L: seq<Word>, rounds: nat)
    requires |K| == |L| == 32 && rounds <= 16
  {
    forall i | 0 <= i < rounds :: AgreeAt(K, L, i)
  }

  lemma RoundFunctionReads(ss: Boxes, K: seq<Word>, L: seq<Word>, i: nat, x: Word)
    requires |K| == |L| == 32 && i < 16 && AgreeAt(K, L, i)
    ensures RoundFunction(ss, K, i, x) == RoundFunction(ss, L, i, x)
  {
    hide RolBy, Low5, Add, Sub, Xor;
    RolByLow5(Add(K[i], x), K[16 + i]);
    RolByLow5(Add(K[i], x), L[16 + i]);
    RolByLow5(Xor(K[i], x), K[16 + i]);
    RolByLow5(Xor(K[i], x), L[16 + i]);
    RolByLow5(Sub(K[i], x), K[16 + i]);
    RolByLow5(Sub(K[i], x), L[16 + i]);
  }

  lemma {:induction false} RunReads(ss: Boxes, K: seq<Word>, L: seq<Word>, n: nat, b: Halves<Word>)
    requires |K| == |L| == 32 && n <= 16 && AgreeFor(K, L, n)
    ensures Run(CastChain(ss, K), n, b) == Run(CastChain(ss, L), n, b)
    ensures Unrun(CastChain(ss, K), n, b) == Unrun(CastChain(ss, L), n, b)
    decreases n
  {
    hide RoundFunction, Xor, CastChain, AgreeAt, Step;
    if n > 0 {
      var h, g := Run(CastChain(ss, K), n - 1, b), Step(CastChain(ss, K), n - 1, b);
      ChainStep(ss, K, n - 1, h);
      ChainStep(ss, L, n - 1, h);
      ChainStep(ss, K, n - 1, b);
      ChainStep(ss, L, n - 1, b);
      RoundFunctionReads(ss, K, L, n - 1, h.l);
      RoundFunctionReads(ss, K, L, n - 1, h.r);
      RoundFunctionReads(ss, K, L, n - 1, b.l);
      RoundFunctionReads(ss, K, L, n - 1, b.r);
      RunReads(ss, K, L, n - 1, b);
      RunReads(ss, K, L, n - 1, g);
    }
  }

  /** Of the 32 subkeys a short key uses twelve masking keys and five bits of twelve rotation keys, a longer key all
      sixteen of each; nothing else reaches a block. */
  lemma SubkeysUsed(ss: Boxes, K: seq<Word>, L: seq<Word>, keylen: int, s: seq<byte>)
    requires |K| == |L| == 32 && AgreeFor(K, L, RoundsFor(keylen)) && |s| == 8
    ensures EncryptBytes(ss, K, keylen, s) == EncryptBytes(ss, L, keylen, s)
    ensures DecryptBytes(ss, K, keylen, s) == DecryptBytes(ss, L, keylen, s)
  {
    hide LoadHalves, StoreHalves, CastChain, Run, Unrun, AgreeAt;
    RunReads(ss, K, L, RoundsFor(keylen), LoadHalves(s));
    RunReads(ss, K, L, RoundsFor(keylen), Exchange(LoadHalves(s)));
  }

  /** A key with zero bytes appended is the same key, as long as both lengths stay on one side of ten bytes. */
  lemma ZeroBytesAppended(ss: Boxes, ks: Boxes, key: seq<byte>, n: nat, s: seq<byte>)
    requires |key| + n <= 16 && (|key| > 10 || |key| + n <= 10) && |s| == 8
    ensures var longer := key + seq(n, i => 0 as byte);
      EncryptBytes(ss, Schedule(ks, Padded(key)), |key|, s) == EncryptBytes(ss, Schedule(ks, Padded(longer)), |longer|, s)
  {
    hide Schedule, EncryptBytes, Padded;
    PaddedZeros(key, n);
    var K := Schedule(ks, Padded(key));
    SameRounds(ss, K, |key|, |key| + n, s);
  }

  lemma SameRounds(ss: Boxes, K: seq<Word>, m: int, n: int, s: seq<byte>)
    requires |s| == 8 && RoundsFor(m) == RoundsFor(n)
    ensures EncryptBytes(ss, K, m, s) == EncryptBytes(ss, K, n, s)
  {
    hide LoadHalves, StoreHalves, CastChain, Run;
  }

  // ---- the routines ----

  lemma LeftStep(ss: Boxes, K: seq<Word>, i: nat, b: Halves<Word>)
    requires i < 16 && i % 2 == 0 && |K| == 32
    ensures var h, c := Run(CastChain(ss, K), i, b), CastChain(ss, K);
      Run(c, i + 1, b) == Halves(Xor(h.l, RoundFunction(ss, K, i, h.r)), h.r)
    ensures Unrun(CastChain(ss, K), i + 1, b) == Unrun(CastChain(ss, K), i, Halves(Xor(b.l, RoundFunction(ss, K, i, b.r)), b.r))
  {
    hide RoundFunction, Xor, Run, Unrun, Step, CastChain;
    RunNext(CastChain(ss, K), i, b);
    UnrunNext(CastChain(ss, K), i, b);
    ChainStep(ss, K, i, Run(CastChain(ss, K), i, b));
    ChainStep(ss, K, i, b);
  }

  lemma RightStep(ss: Boxes, K: seq<Word>, i: nat, b: Halves<Word>)
    requires i < 16 && i % 2 == 1 && |K| == 32
    ensures var h, c := Run(CastChain(ss, K), i, b), CastChain(ss, K);
      Run(c, i + 1, b) == Halves(h.l, Xor(h.r, RoundFunction(ss, K, i, h.l)))
    ensures Unrun(CastChain(ss, K), i + 1, b) == Unrun(CastChain(ss, K), i, Halves(b.l, Xor(b.r, RoundFunction(ss, K, i, b.l))))
  {
    hide RoundFunction, Xor, Run, Unrun, Step, CastChain;
    RunNext(CastChain(ss, K), i, b);
    UnrunNext(CastChain(ss, K), i, b);
    ChainStep(ss, K, i, Run(CastChain(ss, K), i, b));
    ChainStep(ss, K, i, b);
  }

  /** The cast5 part of symmetric_key. */
  class Key {
    const K: array<Word>
    var keylen: int

    ghost predicate Valid() {
      K.Length == 32
    }

    ghost predicate Apart(buffer: array<byte>) {
      buffer as object != K
    }

    constructor ()
      ensures Valid() && fresh(K)
    {
      K := new Word[32](i => Word(0));
      keylen := 0;
    }

    method Setup(ks: Boxes, key: array<byte>, length: int, numRounds: int) returns (status: Status)
      requires Valid() && Apart(key) && length <= key.Length
      modifies this, K
      ensures status == SetupStatus(length, numRounds)
      ensures status == Ok ==> keylen == length
      ensures status == Ok ==> K[..] == Schedule(ks, Padded(old(key[..length])))
      ensures status != Ok ==> keylen == old(keylen) && K[..] == old(K[..])
    {
      hide Schedule, Padded;
      if numRounds != 12 && numRounds != 16 && numRounds != 0 { return InvalidRounds; }
      if numRounds == 12 && length > 10 { return InvalidRounds; }
      if length < 5 || length > 16 { return InvalidKeysize; }
      Network(ks, key, length, K);
      keylen := length;
      return Ok;
    }

    /** Six of the straight-line rounds, from round i. */
    method SixRounds(ss: Boxes, l: Word, r: Word, i: nat, ghost b: Halves<Word>) returns (L: Word, R: Word)
      requires Valid() && (i == 0 || i == 6) && Halves(l, r) == Run(CastChain(ss, K[..]), i, b)
      ensures Halves(L, R) == Run(CastChain(ss, K[..]), i + 6, b)
    {
      hide FI, FII, FIII, Xor, Run, Unrun, CastChain;
      ghost var k := K[..];
      var f;
      L, R := l, r;
      f := ComputeFI(ss, R, K[i], K[16 + i]);
      L := Xor(L, f);
      LeftStep(ss, k, i, b);
      f := ComputeFII(ss, L, K[i + 1], K[17 + i]);
      R := Xor(R, f);
      RightStep(ss, k, i + 1, b);
      f := ComputeFIII(ss, R, K[i + 2], K[18 + i]);
      L := Xor(L, f);
      LeftStep(ss, k, i + 2, b);
      f := ComputeFI(ss, L, K[i + 3], K[19 + i]);
      R := Xor(R, f);
      RightStep(ss, k, i + 3, b);
      f := ComputeFII(ss, R, K[i + 4], K[20 + i]);
      L := Xor(L, f);
      LeftStep(ss, k, i + 4, b);
      f := ComputeFIII(ss, L, K[i + 5], K[21 + i]);
      R := Xor(R, f);
      RightStep(ss, k, i + 5, b);
    }

    /** The four rounds of the longer keys. */
    method FourRounds(ss: Boxes, l: Word, r: Word, ghost b: Halves<Word>) returns (L: Word, R: Word)
      requires Valid() && Halves(l, r) == Run(CastChain(ss, K[..]), 12, b)
      ensures Halves(L, R) == Run(CastChain(ss, K[..]), 16, b)
    {
      hide FI, FII, FIII, Xor, Run, Unrun, CastChain;
      ghost var k := K[..];
      var f;
      L, R := l, r;
      f := ComputeFI(ss, R, K[12], K[28]);
      L := Xor(L, f);
      LeftStep(ss, k, 12, b);
      f := ComputeFII(ss, L, K[13], K[29]);
      R := Xor(R, f);
      RightStep(ss, k, 13, b);
      f := ComputeFIII(ss, R, K[14], K[30]);
      L := Xor(L, f);
      LeftStep(ss, k, 14, b);
      f := ComputeFI(ss, L, K[15], K[31]);
      R := Xor(R, f);
      RightStep(ss, k, 15, b);
    }

    /** Six rounds undone, down to round i. */
    method SixBack(ss: Boxes, l: Word, r: Word, i: nat) returns (L: Word, R: Word)
      requires Valid() && (i == 0 || i == 6)
      ensures Unrun(CastChain(ss, K[..]), i, Halves(L, R)) == Unrun(CastChain(ss, K[..]), i + 6, Halves(l, r))
    {
      hide FI, FII, FIII, Xor, Run, Unrun, CastChain;
      ghost var k := K[..];
      var f;
      L, R := l, r;
      RightStep(ss, k, i + 5, Halves(L, R));
      f := ComputeFIII(ss, L, K[i + 5], K[21 + i]);
      R := Xor(R, f);
      LeftStep(ss, k, i + 4, Halves(L, R));
      f := ComputeFII(ss, R, K[i + 4], K[20 + i]);
      L := Xor(L, f);
      RightStep(ss, k, i + 3, Halves(L, R));
      f := ComputeFI(ss, L, K[i + 3], K[19 + i]);
      R := Xor(R, f);
      LeftStep(ss, k, i + 2, Halves(L, R));
      f := ComputeFIII(ss, R, K[i + 2], K[18 + i]);
      L := Xor(L, f);
      RightStep(ss, k, i + 1, Halves(L, R));
      f := ComputeFII(ss, L, K[i + 1], K[17 + i]);
      R := Xor(R, f);
      LeftStep(ss, k, i, Halves(L, R));
      f := ComputeFI(ss, R, K[i], K[16 + i]);
      L := Xor(L, f);
    }

    method FourBack(ss: Boxes, l: Word, r: Word) returns (L: Word, R: Word)
      requires Valid()
      ensures Unrun(CastChain(ss, K[..]), 12, Halves(L, R)) == Unrun(CastChain(ss, K[..]), 16, Halves(l, r))
    {
      hide FI, FII, FIII, Xor, Run, Unrun, CastChain;
      ghost var k := K[..];
      var f;
      L, R := l, r;
      RightStep(ss, k, 15, Halves(L, R));
      f := ComputeFI(ss, L, K[15], K[31]);
      R := Xor(R, f);
      LeftStep(ss, k, 14, Halves(L, R));
      f := ComputeFIII(ss, R, K[14], K[30]);
      L := Xor(L, f);
      RightStep(ss, k, 13, Halves(L, R));
      f := ComputeFII(ss, L, K[13], K[29]);
      R := Xor(R, f);
      LeftStep(ss, k, 12, Halves(L, R));
      f := ComputeFI(ss, R, K[12], K[28]);
      L := Xor(L, f);
    }

    /** pt and ct may be the same buffer. */
    method EcbEncrypt(ss: Boxes, pt: array<byte>, ct: array<byte>)
      requires Valid() && Apart(ct) && pt.Length >= 8 && ct.Length >= 8
      modifies ct
      ensures ct[..8] == EncryptBytes(ss, K[..], keylen, old(pt[..8])) && ct[8..] == old(ct[8..])
    {
      hide LoadBlock, StoreBlock, Run, CastChain;
      var b := ReadBlock(pt);
      var L, R := b.l, b.r;
      ghost var h := Halves(L, R);
      assert h == LoadHalves(old(pt[..8]));
      RunStart(CastChain(ss, K[..]), h);
      L, R := SixRounds(ss, L, R, 0, h);
      L, R := SixRounds(ss, L, R, 6, h);
      if keylen > 10 { L, R := FourRounds(ss, L, R, h); }
      WriteBlock(ct, Block(R, L));
    }

    method EcbDecrypt(ss: Boxes, ct: array<byte>, pt: array<byte>)
      requires Valid() && Apart(pt) && pt.Length >= 8 && ct.Length >= 8
      modifies pt
      ensures pt[..8] == DecryptBytes(ss, K[..], keylen, old(ct[..8])) && pt[8..] == old(pt[8..])
    {
      hide LoadBlock, StoreBlock, Unrun, CastChain;
      var b := ReadBlock(ct);
      var R, L := b.l, b.r;
      assert Halves(L, R) == Exchange(LoadHalves(old(ct[..8])));
      if keylen > 10 { L, R := FourBack(ss, L, R); }
      L, R := SixBack(ss, L, R, 6);
      L, R := SixBack(ss, L, R, 0);
      RunStart(CastChain(ss, K[..]), Halves(L, R));
      WriteBlock(pt, Block(L, R));
    }
  }

  /** Set up, encrypt and decrypt in one buffer, for every accepted key length. */
  method RoundTripInPlace(ss: Boxes, ks: Boxes, key: array<byte>, buffer: array<byte>)
    requires 5 <= key.Length <= 16 && buffer.Length == 8
    modifies buffer
    ensures buffer[..] == old(buffer[..])
  {
    hide EncryptBytes, DecryptBytes, Schedule, Padded;
    var skey := new Key();
    var status := skey.Setup(ks, key, key.Length, 0);
    ghost var s, k := buffer[..], skey.K[..];
    assert buffer[..8] == s;
    skey.EcbEncrypt(ss, buffer, buffer);
    skey.EcbDecrypt(ss, buffer, buffer);
    DecryptUndoesEncrypt(ss, k, key.Length, s);
    assert buffer[..] == buffer[..8];
  }
}
