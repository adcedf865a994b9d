/** The keyed routines of des.c: setup with its error cases, and single and triple DES on byte buffers. */
module DesKeyed {
  import opened Words
  import opened DesKeys
  import opened DesCipher

  function CipherBytes(s: seq<byte>, key: seq<byte>, edf: Direction): (r: seq<byte>)
    requires |s| == 8 && |key| == 8
    ensures |r| == 8
  {
    StoreBlock(Cipher(LoadBlock(s), key, edf))
  }

  function EncryptBytes3(s: seq<byte>, key: seq<byte>): (r: seq<byte>)
    requires |s| == 8 && (|key| == 16 || |key| == 24)
    ensures |r| == 8
  {
    StoreBlock(Encrypt3(LoadBlock(s), key))
  }

  function DecryptBytes3(s: seq<byte>, key: seq<byte>): (r: seq<byte>)
    requires |s| == 8 && (|key| == 16 || |key| == 24)
    ensures |r| == 8
  {
    StoreBlock(Decrypt3(LoadBlock(s), key))
  }

  /** Single DES on stored bytes: each direction undoes the other. */
  lemma CipherBytesInvert(s: seq<byte>, key: seq<byte>, edf: Direction)
    requires |s| == 8 && |key| == 8
    ensures CipherBytes(CipherBytes(s, key, edf), key, Opposite(edf)) == s
  {
    hide Cipher, LoadBlock, StoreBlock;
    var b := LoadBlock(s);
    LoadStoreBlock(Cipher(b, key, edf));
    CipherInverts(b, key, edf);
    StoreLoadBlock(s);
  }

  /** Triple DES on stored bytes, for both key lengths. */
  lemma Decrypt3UndoesEncrypt3(s: seq<byte>, key: seq<byte>)
    requires |s| == 8 && (|key| == 16 || |key| == 24)
    ensures DecryptBytes3(EncryptBytes3(s, key), key) == s
    ensures EncryptBytes3(DecryptBytes3(s, key), key) == s
  {
    hide Encrypt3, Decrypt3, LoadBlock, StoreBlock;
    var b := LoadBlock(s);
    LoadStoreBlock(Encrypt3(b, key));
    LoadStoreBlock(Decrypt3(b, key));
    Decrypt3Inverts(b, key);
    StoreLoadBlock(s);
  }

  /** Stored blocks through three single ciphers. */
  lemma ThriceOnBytes(b: Block, k0: seq<byte>, d0: Direction, k1: seq<byte>, d1: Direction, k2: seq<byte>, d2: Direction)
    requires |k0| == |k1| == |k2| == 8
    ensures CipherBytes(CipherBytes(CipherBytes(StoreBlock(b), k0, d0), k1, d1), k2, d2)
         == StoreBlock(Cipher(Cipher(Cipher(b, k0, d0), k1, d1), k2, d2))
  {
    hide Cipher, LoadBlock, StoreBlock;
    LoadStoreBlock(b);
    LoadStoreBlock(Cipher(b, k0, d0));
    LoadStoreBlock(Cipher(Cipher(b, k0, d0), k1, d1));
  }

  /** Triple DES on stored bytes encrypts with the first eight key bytes, decrypts with the next eight and encrypts with the
      last eight: taking these off again in reverse leaves the block. Decryption likewise. */
  lemma ThreeKeysOnBytes(s: seq<byte>, k0: seq<byte>, k1: seq<byte>, k2: seq<byte>)
    requires |s| == |k0| == |k1| == |k2| == 8
    ensures CipherBytes(CipherBytes(CipherBytes(EncryptBytes3(s, k0 + k1 + k2), k2, DE1), k1, EN0), k0, DE1) == s
    ensures CipherBytes(CipherBytes(CipherBytes(DecryptBytes3(s, k0 + k1 + k2), k0, EN0), k1, DE1), k2, EN0) == s
  {
    hide Cipher, LoadBlock, StoreBlock, CipherBytes, Encrypt3, Decrypt3;
    var b, key := LoadBlock(s), k0 + k1 + k2;
    ThreeKeysInOrder(b, k0, k1, k2);
    ThriceOnBytes(Encrypt3(b, key), k2, DE1, k1, EN0, k0, DE1);
    ThriceOnBytes(Decrypt3(b, key), k0, EN0, k1, DE1, k2, EN0);
    StoreLoadBlock(s);
  }

  /** With sixteen key bytes the first eight serve again as the last. */
  lemma TwoKeysOnBytes(s: seq<byte>, k0: seq<byte>, k1: seq<byte>)
    requires |s| == |k0| == |k1| == 8
    ensures CipherBytes(CipherBytes(CipherBytes(EncryptBytes3(s, k0 + k1), k0, DE1), k1, EN0), k0, DE1) == s
    ensures CipherBytes(CipherBytes(CipherBytes(DecryptBytes3(s, k0 + k1), k0, EN0), k1, DE1), k0, EN0) == s
  {
    hide Cipher, LoadBlock, StoreBlock, CipherBytes, Encrypt3, Decrypt3;
    var b, key := LoadBlock(s), k0 + k1;
    TwoKeysInOrder(b, k0, k1);
    ThriceOnBytes(Encrypt3(b, key), k0, DE1, k1, EN0, k0, DE1);
    ThriceOnBytes(Decrypt3(b, key), k0, EN0, k1, DE1, k0, EN0);
    StoreLoadBlock(s);
  }

  /** Loads a block, applies the block operation once for each of three schedules, and stores it. */
  method TransformThrice(src: array<byte>, dst: array<byte>, k0: array<Word>, k1: array<Word>, k2: array<Word>, small: bool)
    requires src.Length >= 8 && dst.Length >= 8 && k0.Length == k1.Length == k2.Length == 32
    requires dst as object !in {k0 as object, k1, k2}
    modifies dst
    ensures dst[..8] == old(StoreBlock(
              Transform(Transform(Transform(LoadBlock(src[..8]), k0[..]), k1[..]), k2[..])))
    ensures dst[8..] == old(dst[8..])
  {
    hide Transform, LoadBlock, StoreBlock;
    var b := ReadBlock(src);
    var work := new Word[2](i => Word(0));
    work[0], work[1] := b.l, b.r;
    Desfunc(work, k0, small);
    Desfunc(work, k1, small);
    Desfunc(work, k2, small);
    WriteBlock(dst, Block(work[0], work[1]));
  }

  /** The des part of symmetric_key. */
  class Key {
    const ek: array<Word>
    const dk: array<Word>

    ghost predicate Valid() {
      ek.Length == 32 && dk.Length == 32 && ek != dk
    }

    /** The arrays hold the schedules of a user key. */
    ghost predicate Holds(key: seq<byte>)
      requires Valid() && |key| == 8
      reads ek, dk
    {
      ek[..] == Schedule(key, EN0) && dk[..] == Schedule(key, DE1)
    }

    /** A caller's buffer is not the key's own memory. */
    ghost predicate Apart(buffer: array<byte>) {
      buffer as object !in {ek as object, dk}
    }

    constructor ()
      ensures Valid() && fresh(ek) && fresh(dk)
    {
      ek := new Word[32](i => Word(0));
      dk := new Word[32](i => Word(0));
    }

    method Setup(key: array<byte>, keylen: int, numRounds: int) returns (status: Status)
      requires Valid() && Apart(key) && keylen <= key.Length
      modifies ek, dk
      ensures status == if numRounds != 0 && numRounds != 16 then InvalidRounds else if keylen != 8 then InvalidKeysize else Ok
      ensures status == Ok ==> Holds(key[..8])
      ensures status != Ok ==> ek[..] == old(ek[..]) && dk[..] == old(dk[..])
    {
      hide Schedule;
      if numRounds != 0 && numRounds != 16 { return InvalidRounds; }
      if keylen != 8 { return InvalidKeysize; }
      Deskey(key, 0, EN0, ek);
      Deskey(key, 0, DE1, dk);
      assert key[0..8] == key[..8];
      return Ok;
    }

    /** pt and ct may be the same buffer. */
    method EcbEncrypt(pt: array<byte>, ct: array<byte>, small: bool, ghost key: seq<byte>)
      requires Valid() && Apart(ct) && |key| == 8 && Holds(key) && pt.Length >= 8 && ct.Length >= 8
      modifies ct
      ensures ct[..8] == CipherBytes(old(pt[..8]), key, EN0) && ct[8..] == old(ct[8..])
    {
      hide Transform, LoadBlock, StoreBlock, Schedule;
      var b := ReadBlock(pt);
      var work := new Word[2](i => Word(0));
      work[0], work[1] := b.l, b.r;
      Desfunc(work, ek, small);
      WriteBlock(ct, Block(work[0], work[1]));
    }

    method EcbDecrypt(ct: array<byte>, pt: array<byte>, small: bool, ghost key: seq<byte>)
      requires Valid() && Apart(pt) && |key| == 8 && Holds(key) && pt.Length >= 8 && ct.Length >= 8
      modifies pt
      ensures pt[..8] == CipherBytes(old(ct[..8]), key, DE1) && pt[8..] == old(pt[8..])
    {
      hide Transform, LoadBlock, StoreBlock, Schedule;
      var b := ReadBlock(ct);
      var work := new Word[2](i => Word(0));
      work[0], work[1] := b.l, b.r;
      Desfunc(work, dk, small);
      WriteBlock(pt, Block(work[0], work[1]));
    }
  }

  /** The des3 part of symmetric_key: three schedules for each direction. */
  class Key3 {
    const ek0: array<Word>
    const ek1: array<Word>
    const ek2: array<Word>
    const dk0: array<Word>
    const dk1: array<Word>
    const dk2: array<Word>

    ghost predicate Valid() {
      && ek0.Length == 32 && ek1.Length == 32 && ek2.Length == 32
      && dk0.Length == 32 && dk1.Length == 32 && dk2.Length == 32
      && ek0 != ek1 && ek0 != ek2 && ek0 != dk0 && ek0 != dk1 && ek0 != dk2
      && ek1 != ek2 && ek1 != dk0 && ek1 != dk1 && ek1 != dk2
      && ek2 != dk0 && ek2 != dk1 && ek2 != dk2
      && dk0 != dk1 && dk0 != dk2 && dk1 != dk2
    }

    ghost predicate Holds(key: seq<byte>)
      requires Valid() && (|key| == 16 || |key| == 24)
      reads ek0, ek1, ek2, dk0, dk1, dk2
    {
      && ek0[..] == Schedule(Part(key, 0), EN0) && ek1[..] == Schedule(Part(key, 1), DE1) && ek2[..] == Schedule(Part(key, 2), EN0)
      && dk0[..] == Schedule(Part(key, 2), DE1) && dk1[..] == Schedule(Part(key, 1), EN0) && dk2[..] == Schedule(Part(key, 0), DE1)
    }

    ghost predicate Apart(buffer: array<byte>) {
      buffer as object !in {ek0 as object, ek1, ek2, dk0, dk1, dk2}
    }

    constructor ()
      ensures Valid() && fresh(ek0) && fresh(ek1) && fresh(ek2) && fresh(dk0) && fresh(dk1) && fresh(dk2)
    {
      ek0 := new Word[32](i => Word(0));
      ek1 := new Word[32](i => Word(0));
      ek2 := new Word[32](i => Word(0));
      dk0 := new Word[32](i => Word(0));
      dk1 := new Word[32](i => Word(0));
      dk2 := new Word[32](i => Word(0));
    }

    method Setup(key: array<byte>, keylen: int, numRounds: int) returns (status: Status)
      requires Valid() && Apart(key) && keylen <= key.Length
      modifies ek0, ek1, ek2, dk0, dk1, dk2
      ensures status == if numRounds != 0 && numRounds != 16 then InvalidRounds
                        else if keylen != 24 && keylen != 16 then InvalidKeysize else Ok
      ensures status == Ok ==> Holds(key[..keylen])
      ensures status != Ok ==>
        && ek0[..] == old(ek0[..]) && ek1[..] == old(ek1[..]) && ek2[..] == old(ek2[..])
        && dk0[..] == old(dk0[..]) && dk1[..] == old(dk1[..]) && dk2[..] == old(dk2[..])
    {
      hide Schedule;
      if numRounds != 0 && numRounds != 16 { return InvalidRounds; }
      if keylen != 24 && keylen != 16 { return InvalidKeysize; }
      ghost var k := key[..keylen];
      assert key[0..8] == Part(k, 0) && key[8..16] == Part(k, 1);
      Deskey(key, 0, EN0, ek0);
      Deskey(key, 8, DE1, ek1);
      if keylen == 24 {
        assert key[16..24] == Part(k, 2);
        Deskey(key, 16, EN0, ek2);
      } else {
        Deskey(key, 0, EN0, ek2);
      }
      Deskey(key, 0, DE1, dk2);
      Deskey(key, 8, EN0, dk1);
      if keylen == 24 {
        Deskey(key, 16, DE1, dk0);
      } else {
        Deskey(key, 0, DE1, dk0);
      }
      return Ok;
    }

    method EcbEncrypt(pt: array<byte>, ct: array<byte>, small: bool, ghost key: seq<byte>)
      requires Valid() && Apart(ct) && (|key| == 16 || |key| == 24) && Holds(key) && pt.Length >= 8 && ct.Length >= 8
      modifies ct
      ensures ct[..8] == EncryptBytes3(old(pt[..8]), key) && ct[8..] == old(ct[8..])
    {
      hide Transform, LoadBlock, StoreBlock, Schedule, Part;
      TransformThrice(pt, ct, ek0, ek1, ek2, small);
    }

    method EcbDecrypt(ct: array<byte>, pt: array<byte>, small: bool, ghost key: seq<byte>)
      requires Valid() && Apart(pt) && (|key| == 16 || |key| == 24) && Holds(key) && pt.Length >= 8 && ct.Length >= 8
      modifies pt
      ensures pt[..8] == DecryptBytes3(old(ct[..8]), key) && pt[8..] == old(pt[8..])
    {
      hide Transform, LoadBlock, StoreBlock, Schedule, Part;
      TransformThrice(ct, pt, dk0, dk1, dk2, small);
    }
  }

  /** Set up, encrypt and decrypt in one buffer, in either build. */
  method RoundTripInPlace(key: array<byte>, buffer: array<byte>, small: bool)
    requires key.Length == 8 && buffer.Length == 8 && key != buffer
    modifies buffer
    ensures buffer[..] == old(buffer[..])
  {
    hide CipherBytes, Key.Holds;
    var skey := new Key();
    var status := skey.Setup(key, 8, 0);
    ghost var s, k := buffer[..], key[..8];
    assert buffer[..8] == s;
    skey.EcbEncrypt(buffer, buffer, small, k);
    skey.EcbDecrypt(buffer, buffer, small, k);
    CipherBytesInvert(s, k, EN0);
    assert buffer[..] == buffer[..8];
  }

  method RoundTrip3InPlace(key: array<byte>, keylen: int, buffer: array<byte>, small: bool)
    requires (keylen == 16 || keylen == 24) && keylen <= key.Length && buffer.Length == 8 && key != buffer
    modifies buffer
    ensures buffer[..] == old(buffer[..])
  {
    hide EncryptBytes3, DecryptBytes3, Key3.Holds;
    var skey := new Key3();
    var status := skey.Setup(key, keylen, 0);
    ghost var s, k := buffer[..], key[..keylen];
    assert buffer[..8] == s;
    skey.EcbEncrypt(buffer, buffer, small, k);
    skey.EcbDecrypt(buffer, buffer, small, k);
    Decrypt3UndoesEncrypt3(s, k);
    assert buffer[..] == buffer[..8];
  }
}
