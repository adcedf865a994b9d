/** The routines of blowfish.c on a key's own arrays. */
module BlowfishCipher {
  import opened Words
  import opened Feistel
  import opened Blowfish
  import M = Fermat

  /** The two chain steps of an even round: key word and F go left, right. */
  lemma EvenRound(st: State, r: nat, b: Halves<Word>)
    requires r < 16 && r % 2 == 0
    ensures Step(BlowfishChain(st), 2 * r, b) == Halves(Xor(b.l, st[r]), b.r)
    ensures Step(BlowfishChain(st), 2 * r + 1, b) == Halves(b.l, Xor(b.r, F(st, b.l)))
  {
    hide F, Xor, Step, BlowfishChain;
    ChainStep(st, 2 * r, b);
    ChainStep(st, 2 * r + 1, b);
  }

  lemma OddRound(st: State, r: nat, b: Halves<Word>)
    requires r < 16 && r % 2 == 1
    ensures Step(BlowfishChain(st), 2 * r, b) == Halves(b.l, Xor(b.r, st[r]))
    ensures Step(BlowfishChain(st), 2 * r + 1, b) == Halves(Xor(b.l, F(st, b.r)), b.r)
  {
    hide F, Xor, Step, BlowfishChain;
    ChainStep(st, 2 * r, b);
    ChainStep(st, 2 * r + 1, b);
  }

  lemma LastKeying(st: State, b: Halves<Word>)
    ensures Step(BlowfishChain(st), 32, b) == Halves(Xor(b.l, st[16]), b.r)
    ensures Step(BlowfishChain(st), 33, b) == Halves(b.l, Xor(b.r, st[17]))
  {
    hide F, Xor, Step, BlowfishChain;
    ChainStep(st, 32, b);
    ChainStep(st, 33, b);
  }

  lemma RunTwo(c: Chain<Word>, n: nat, b: Halves<Word>)
    ensures Run(c, n + 2, b) == Step(c, n + 1, Step(c, n, Run(c, n, b)))
    ensures Unrun(c, n + 2, b) == Unrun(c, n, Step(c, n, Step(c, n + 1, b)))
  {
    RunNext(c, n, b);
    RunNext(c, n + 1, b);
    UnrunNext(c, n + 1, b);
    UnrunNext(c, n, Step(c, n + 1, b));
  }

  // ---- reading the repeated key or data ----

  function Push(ret: Word, b: byte): Word {
    Word((ret.w << 8) | (b as bv32))
  }

  /** The word built so far after z bytes. */
  function Pushed(d: seq<byte>, start: nat, z: nat): Word
    requires |d| > 0
  {
    if z == 0 then Word(0) else Push(Pushed(d, start, z - 1), Cyclic(d, start + z - 1))
  }

  lemma PushFour(b0: byte, b1: byte, b2: byte, b3: byte)
    ensures Push(Push(Push(Push(Word(0), b0), b1), b2), b3) == Pack32(b0, b1, b2, b3)
  {
  }

  lemma PushedFour(d: seq<byte>, t: nat)
    requires |d| > 0
    ensures Pushed(d, 4 * t, 4) == StreamWord(d, t)
  {
    hide Push, Pack32, Cyclic;
    assert Pushed(d, 4 * t, 2) == Push(Pushed(d, 4 * t, 1), Cyclic(d, 4 * t + 1));
    assert Pushed(d, 4 * t, 3) == Push(Pushed(d, 4 * t, 2), Cyclic(d, 4 * t + 2));
    PushFour(Cyclic(d, 4 * t), Cyclic(d, 4 * t + 1), Cyclic(d, 4 * t + 2), Cyclic(d, 4 * t + 3));
  }

  /** The cursor moves on by one and wraps at the end. */
  lemma CursorStep(i: nat, n: nat)
    requires n > 0
    ensures (i + 1) % n == if i % n + 1 == n then 0 else i % n + 1
  {
    var q, r := i / n, i % n;
    var rest := if r + 1 == n then 0 else r + 1;
    var k := if r + 1 == n then q + 1 else q;
    assert i == n * q + r;
    assert n * (q + 1) == n * q + n;
    assert i + 1 == rest + n * k;
    M.ModShift(rest, k, n);
    ModSmall(rest, n);
  }

  /** Reads word t of the repeated bytes; the cursor `cur` stands at byte 4*t and moves on by four. */
  method Stream2Word(d: array<byte>, dlen: nat, cur: nat, ghost t: nat) returns (ret: Word, next: nat)
    requires 0 < dlen <= d.Length && cur == (4 * t) % dlen
    ensures ret == StreamWord(d[..dlen], t)
    ensures next == (4 * (t + 1)) % dlen
  {
    hide Push;
    ghost var s := d[..dlen];
    var y := cur;
    ret := Word(0);
    for z := 0 to 4
      invariant y == (4 * t + z) % dlen
      invariant ret == Pushed(s, 4 * t, z)
    {
      assert y < dlen by { ModBound(4 * t + z, dlen); }
      assert s[y] == Cyclic(s, 4 * t + z);
      CursorStep(4 * t + z, dlen);
      ret := Push(ret, d[y]);
      y := y + 1;
      if y == dlen { y := 0; }
    }
    next := y;
    PushedFour(s, t);
    assert 4 * t + 4 == 4 * (t + 1);
  }

  lemma ModBound(i: nat, n: nat)
    requires n > 0
    ensures 0 <= i % n < n
  {
  }

  /** The additional data as a value; a null pointer stands for none. */
  ghost function DataOf(data: array?<byte>, datalen: nat): (r: Data)
    requires data != null ==> 0 < datalen <= data.Length
    reads data
    ensures r.Valid()
  {
    if data == null then Null else Bytes(data[..datalen])
  }

  // ---- the key object ----

  /** The blowfish part of symmetric_key; S is the four rows one after the other. */
  class Key {
    const K: array<Word>
    const S: array<Word>

    ghost predicate Valid() {
      K.Length == 18 && S.Length == 1024 && K != S
    }

    ghost function Contents(): (st: State)
      requires Valid()
      reads K, S
    {
      K[..] + S[..]
    }

    /** A caller's buffer is not the key's own memory. */
    ghost predicate Apart(buffer: array<byte>) {
      buffer as object !in {K as object, S}
    }

    constructor ()
      ensures Valid() && fresh(K) && fresh(S)
    {
      K := new Word[18](i => Word(0));
      S := new Word[1024](i => Word(0));
    }

    /** The macro F over the key's own tables. */
    function Mix(x: Word): (r: Word)
      requires Valid()
      reads K, S
      ensures r == F(Contents(), x)
    {
      Add(Xor(Add(S[ByteAt(x, 24) as int], S[256 + ByteAt(x, 16) as int]), S[512 + ByteAt(x, 8) as int]),
          S[768 + ByteAt(x, 0) as int])
    }

    method SEncipher(B: array<Word>)
      requires Valid() && B.Length == 2 && B != K && B != S
      modifies B
      ensures Halves(B[0], B[1]) == Encipher(Contents(), old(Halves(B[0], B[1])))
    {
      hide F, Mix, Xor, Step, Run, BlowfishChain;
      ghost var st := Contents();
      ghost var c := BlowfishChain(st);
      var l, r := B[0], B[1];
      ghost var h := Halves(l, r);
      RunStart(c, h);
      var rounds := 0;
      while rounds < 16
        modifies {}
        invariant 0 <= rounds <= 16 && rounds % 4 == 0
        invariant Halves(l, r) == Run(c, 2 * rounds, h)
      {
        l, r := EncipherTwo(l, r, rounds, st, h);
        l, r := EncipherTwo(l, r, rounds + 2, st, h);
        rounds := rounds + 4;
      }
      LastKeying(st, Halves(l, r));
      LastKeying(st, Halves(Xor(l, st[16]), r));
      RunTwo(c, 32, h);
      l := Xor(l, K[16]);
      r := Xor(r, K[17]);
      B[0], B[1] := r, l;
    }

    /** Two rounds of the loop. */
    method EncipherTwo(l0: Word, r0: Word, rounds: nat, ghost st: State, ghost h: Halves<Word>) returns (l: Word, r: Word)
      requires Valid() && st == Contents() && rounds % 2 == 0 && rounds < 16
      requires Halves(l0, r0) == Run(BlowfishChain(st), 2 * rounds, h)
      ensures Halves(l, r) == Run(BlowfishChain(st), 2 * (rounds + 2), h)
    {
      hide F, Mix, Xor, Step, Run, BlowfishChain;
      ghost var c := BlowfishChain(st);
      l, r := l0, r0;
      EvenRound(st, rounds, Halves(l, r));
      l := Xor(l, K[rounds]);
      EvenRound(st, rounds, Halves(l, r));
      r := Xor(r, Mix(l));
      RunTwo(c, 2 * rounds, h);
      OddRound(st, rounds + 1, Halves(l, r));
      r := Xor(r, K[rounds + 1]);
      OddRound(st, rounds + 1, Halves(l, r));
      l := Xor(l, Mix(r));
      RunTwo(c, 2 * (rounds + 1), h);
    }

    /** Two rounds of the decryption loop, from round `r` down. */
    method DecipherTwo(l0: Word, r0: Word, round: nat, ghost st: State) returns (l: Word, r: Word)
      requires Valid() && st == Contents() && round % 2 == 1 && round < 16
      ensures Unrun(BlowfishChain(st), 2 * (round - 1), Halves(l, r)) == Unrun(BlowfishChain(st), 2 * (round + 1), Halves(l0, r0))
    {
      hide F, Mix, Xor, Step, Unrun, BlowfishChain;
      ghost var c := BlowfishChain(st);
      l, r := l0, r0;
      RunTwo(c, 2 * round, Halves(l, r));
      OddRound(st, round, Halves(l, r));
      l := Xor(l, Mix(r));
      OddRound(st, round, Halves(l, r));
      r := Xor(r, K[round]);
      RunTwo(c, 2 * (round - 1), Halves(l, r));
      EvenRound(st, round - 1, Halves(l, r));
      r := Xor(r, Mix(l));
      EvenRound(st, round - 1, Halves(l, r));
      l := Xor(l, K[round - 1]);
    }

    /** pt and ct may be the same buffer. */
    method EcbEncrypt(pt: array<byte>, ct: array<byte>)
      requires Valid() && Apart(ct) && pt.Length >= 8 && ct.Length >= 8
      modifies ct
      ensures ct[..8] == StoreHalves(Encipher(Contents(), LoadHalves(old(pt[..8])))) && ct[8..] == old(ct[8..])
    {
      hide Encipher, LoadBlock, StoreBlock;
      var b := ReadBlock(pt);
      var B := new Word[2](i => Word(0));
      B[0], B[1] := b.l, b.r;
      assert Halves(B[0], B[1]) == LoadHalves(old(pt[..8]));
      SEncipher(B);
      WriteBlock(ct, Block(B[0], B[1]));
    }

    method EcbDecrypt(ct: array<byte>, pt: array<byte>)
      requires Valid() && Apart(pt) && pt.Length >= 8 && ct.Length >= 8
      modifies pt
      ensures pt[..8] == StoreHalves(Decipher(Contents(), LoadHalves(old(ct[..8])))) && pt[8..] == old(pt[8..])
    {
      hide F, Xor, Step, Unrun, BlowfishChain, LoadBlock, StoreBlock;
      ghost var st := Contents();
      ghost var c := BlowfishChain(st);
      var b := ReadBlock(ct);
      var R, L := b.l, b.r;
      ghost var h := Halves(L, R);
      assert h == Exchange(LoadHalves(old(ct[..8])));
      LastKeying(st, h);
      RunTwo(c, 32, h);
      R := Xor(R, K[17]);
      LastKeying(st, Halves(L, R));
      L := Xor(L, K[16]);
      var r := 15;
      while r > 0
        modifies {}
        invariant -1 <= r <= 15 && r % 4 == 3
        invariant Unrun(c, 2 * (r + 1), Halves(L, R)) == Unrun(c, 34, h)
      {
        L, R := DecipherTwo(L, R, r, st);
        L, R := DecipherTwo(L, R, r - 2, st);
        r := r - 4;
      }
      RunStart(c, Halves(L, R));
      WriteBlock(pt, Block(L, R));
    }

    /** Adds the next two data words, if there are data, and enciphers the running pair. */
    method NextPair(B: array<Word>, data: array?<byte>, datalen: nat, i: nat, ghost j: nat) returns (next: nat)
      requires Valid() && B.Length == 2 && B != K && B != S
      requires data != null ==> 0 < datalen <= data.Length && i == (8 * j) % datalen && data as object != B
      modifies B
      ensures Halves(B[0], B[1])
           == Encipher(Contents(), AddData(DataOf(data, datalen), j, old(Halves(B[0], B[1]))))
      ensures data != null ==> next == (8 * (j + 1)) % datalen
    {
      hide Encipher, StreamWord, Xor;
      next := i;
      if data != null {
        var w;
        assert 8 * j == 4 * (2 * j);
        ghost var d := data[..datalen];
        ghost var h := Halves(B[0], B[1]);
        w, next := Stream2Word(data, datalen, next, 2 * j);
        B[0] := Xor(B[0], w);
        w, next := Stream2Word(data, datalen, next, 2 * j + 1);
        B[1] := Xor(B[1], w);
        assert 8 * (j + 1) == 4 * (2 * j + 2);
        assert data[..datalen] == d;
        assert Halves(B[0], B[1]) == AddData(Bytes(d), j, h);
      }
      SEncipher(B);
    }

    /** Adds the repeated key into K. */
    method AddKeyBytes(key: array<byte>, keylen: nat)
      requires Valid() && Apart(key) && 0 < keylen <= key.Length
      modifies K
      ensures Contents() == AddKey(old(Contents()), key[..keylen])
    {
      hide StreamWord, Xor;
      ghost var k, st := key[..keylen], Contents();
      var i := 0;
      for x := 0 to 18
        invariant i == (4 * x) % keylen
        invariant forall m | 0 <= m < x :: K[m] == Xor(st[m], StreamWord(k, m))
        invariant forall m | x <= m < 18 :: K[m] == st[m]
      {
        var a;
        a, i := Stream2Word(key, keylen, i, x);
        K[x] := Xor(K[x], a);
      }
      assert Contents() == AddKey(st, k);
    }

    /** Overwrites K pair by pair with the running block. */
    method FillK(B: array<Word>, data: array?<byte>, datalen: nat) returns (i: nat)
      requires Valid() && B.Length == 2 && B != K && B != S
      requires data != null ==> Apart(data) && 0 < datalen <= data.Length && data as object != B
      modifies K, B
      ensures (Contents(), Halves(B[0], B[1])) == Fill(old(Contents()), DataOf(data, datalen), 9)
      ensures data != null ==> i == (8 * 9) % datalen
    {
      hide Encipher, AddData;
      ghost var st, d := Contents(), DataOf(data, datalen);
      i := 0;
      B[0] := Word(0);
      B[1] := Word(0);
      var x := 0;
      while x < 18
        invariant x % 2 == 0 && x <= 18
        invariant data != null ==> i == (8 * (x / 2)) % datalen
        invariant (Contents(), Halves(B[0], B[1])) == Fill(st, d, x / 2)
      {
        ghost var s := Contents();
        i := NextPair(B, data, datalen, i, x / 2);
        K[x] := B[0];
        K[x + 1] := B[1];
        assert Contents() == s[x := B[0]][x + 1 := B[1]];
        x := x + 2;
      }
    }

    /** Overwrites the four rows of S pair by pair, in the row-major order of the two source loops. */
    method FillS(B: array<Word>, data: array?<byte>, datalen: nat, i0: nat, ghost st: State)
      requires Valid() && B.Length == 2 && B != K && B != S
      requires data != null ==> Apart(data) && 0 < datalen <= data.Length && data as object != B && i0 == (8 * 9) % datalen
      requires (Contents(), Halves(B[0], B[1])) == Fill(st, DataOf(data, datalen), 9)
      modifies S, B
      ensures (Contents(), Halves(B[0], B[1])) == Fill(st, DataOf(data, datalen), 521)
    {
      hide Encipher, AddData;
      ghost var d := DataOf(data, datalen);
      var i := i0;
      for x := 0 to 4
        invariant data != null ==> i == (8 * (9 + 128 * x)) % datalen
        invariant (Contents(), Halves(B[0], B[1])) == Fill(st, d, 9 + 128 * x)
      {
        var y := 0;
        while y < 256
          invariant y % 2 == 0 && y <= 256
          invariant data != null ==> i == (8 * (9 + 128 * x + y / 2)) % datalen
          invariant (Contents(), Halves(B[0], B[1])) == Fill(st, d, 9 + 128 * x + y / 2)
        {
          ghost var s := Contents();
          i := NextPair(B, data, datalen, i, 9 + 128 * x + y / 2);
          S[256 * x + y] := B[0];
          S[256 * x + y + 1] := B[1];
          assert Contents() == s[18 + 256 * x + y := B[0]][18 + 256 * x + y + 1 := B[1]];
          y := y + 2;
        }
      }
    }

    /** blowfish_expand. */
    method ExpandWith(key: array<byte>, keylen: nat, data: array?<byte>, datalen: nat)
      requires Valid() && Apart(key) && 0 < keylen <= key.Length
      requires data != null ==> Apart(data) && 0 < datalen <= data.Length
      modifies K, S
      ensures Contents() == Expand(old(Contents()), old(key[..keylen]), old(DataOf(data, datalen)))
    {
      hide Fill, AddKey;
      AddKeyBytes(key, keylen);
      var B := new Word[2](i => Word(0));
      ghost var st := Contents();
      var i := FillK(B, data, datalen);
      FillS(B, data, datalen, i, st);
    }

    /** blowfish_setup_with_data; `orig` stands for the tables ORIG_P and ORIG_S. */
    method SetupWithData(key: array<byte>, keylen: nat, data: array?<byte>, datalen: nat, orig: State)
      requires Valid() && Apart(key) && 0 < keylen <= key.Length
      requires data != null ==> Apart(data) && 0 < datalen <= data.Length
      modifies K, S
      ensures Contents() == Expand(orig, old(key[..keylen]), old(DataOf(data, datalen)))
    {
      hide Expand;
      for x := 0 to 18
        modifies K
        invariant K[..x] == orig[..x]
      {
        K[x] := orig[x];
      }
      for x := 0 to 1024
        modifies S
        invariant S[..x] == orig[18..][..x]
      {
        S[x] := orig[18 + x];
      }
      assert K[..] == orig[..18] && S[..] == orig[18..];
      assert Contents() == orig;
      ExpandWith(key, keylen, data, datalen);
    }

    method Setup(key: array<byte>, keylen: int, numRounds: int, orig: State) returns (status: Status)
      requires Valid() && Apart(key) && keylen <= key.Length
      modifies K, S
      ensures status == if keylen < 8 || keylen > 56 then InvalidKeysize
                        else if numRounds != 0 && numRounds != 16 then InvalidRounds else Ok
      ensures status == Ok ==> Contents() == Expand(orig, old(key[..keylen]), Null)
      ensures status != Ok ==> Contents() == old(Contents())
    {
      hide Expand, Contents;
      if keylen < 8 || keylen > 56 { return InvalidKeysize; }
      if numRounds != 0 && numRounds != 16 { return InvalidRounds; }
      SetupWithData(key, keylen, null, 0, orig);
      return Ok;
    }
  }

  /** Set up, encrypt and decrypt in one buffer, whatever the initial tables. */
  method RoundTripInPlace(key: array<byte>, buffer: array<byte>, orig: State)
    requires 8 <= key.Length <= 56 && buffer.Length == 8 && key != buffer
    modifies buffer
    ensures buffer[..] == old(buffer[..])
  {
    hide Encipher, Decipher, LoadHalves, StoreHalves;
    var skey := new Key();
    var status := skey.Setup(key, key.Length, 0, orig);
    ghost var s, st := buffer[..], skey.Contents();
    assert buffer[..8] == s;
    skey.EcbEncrypt(buffer, buffer);
    skey.EcbDecrypt(buffer, buffer);
    LoadStoreHalves(Encipher(st, LoadHalves(s)), s);
    DecipherInverts(st, LoadHalves(s));
    assert buffer[..] == buffer[..8];
  }
}
