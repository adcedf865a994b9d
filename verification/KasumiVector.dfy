/** The first vector of kasumi_test (kasumi.c): a key with its first bit set and a block of zeros. */
module KasumiVector {
  import opened Words
  import opened Feistel
  import opened Kasumi
  import opened KasumiCipher

  const KEY: seq<byte> := [0x80, 0x00, 0x00, 0x00, 0x00, 0x00, 0x00, 0x00, 0x00, 0x00, 0x00, 0x00, 0x00, 0x00, 0x00, 0x00]
  const PLAINTEXT: seq<byte> := [0x00, 0x00, 0x00, 0x00, 0x00, 0x00, 0x00, 0x00]
  const CIPHERTEXT: seq<byte> := [0x4b, 0x58, 0xa7, 0x71, 0xaf, 0xc7, 0xe5, 0xe8]

  // ---- the subkeys ----

  const K0: RoundKey := RoundKey(Word(0x0001), Word(0x89ab), Word(0x0000), Word(0x0000), Word(0x0000), Word(0xfedc), Word(0xcdef), Word(0x3210))
  const K1: RoundKey := RoundKey(Word(0x0000), Word(0xcdef), Word(0x0000), Word(0x0000), Word(0x0000), Word(0xba98), Word(0xfedc), Word(0x8123))
  const K2: RoundKey := RoundKey(Word(0x0000), Word(0xfedc), Word(0x0000), Word(0x0000), Word(0x1000), Word(0x7654), Word(0xba98), Word(0x4567))
  const K3: RoundKey := RoundKey(Word(0x0000), Word(0xba98), Word(0x0000), Word(0x0080), Word(0x0000), Word(0x3210), Word(0x7654), Word(0x89ab))
  const K4: RoundKey := RoundKey(Word(0x0000), Word(0x7654), Word(0x0000), Word(0x0000), Word(0x0000), Word(0x8123), Word(0x3210), Word(0xcdef))
  const K5: RoundKey := RoundKey(Word(0x0000), Word(0x3210), Word(0x0000), Word(0x0000), Word(0x0000), Word(0x4567), Word(0x8123), Word(0xfedc))
  const K6: RoundKey := RoundKey(Word(0x0000), Word(0x8123), Word(0x0000), Word(0x0000), Word(0x0000), Word(0x89ab), Word(0x4567), Word(0xba98))
  const K7: RoundKey := RoundKey(Word(0x0000), Word(0x4567), Word(0x0010), Word(0x0000), Word(0x0000), Word(0xcdef), Word(0x89ab), Word(0x7654))

  lemma UserWords()
    ensures UserWord(KEY, 0) == Word(0x8000) && forall n | 0 < n < 8 :: UserWord(KEY, n) == Word(0)
  {
  }

  lemma Primed()
    ensures KPrime(KEY, 0) == Word(0x8123)
    ensures KPrime(KEY, 1) == Word(0x4567)
    ensures KPrime(KEY, 2) == Word(0x89ab)
    ensures KPrime(KEY, 3) == Word(0xcdef)
    ensures KPrime(KEY, 4) == Word(0xfedc)
    ensures KPrime(KEY, 5) == Word(0xba98)
    ensures KPrime(KEY, 6) == Word(0x7654)
    ensures KPrime(KEY, 7) == Word(0x3210)
  {
    hide UserWord;
    UserWords();
  }

  lemma Rotated()
    ensures Rol16(Word(0x8000), 1) == Word(0x0001) && Rol16(Word(0), 1) == Word(0)
    ensures Rol16(Word(0x8000), 5) == Word(0x0010) && Rol16(Word(0), 5) == Word(0)
    ensures Rol16(Word(0x8000), 8) == Word(0x0080) && Rol16(Word(0), 8) == Word(0)
    ensures Rol16(Word(0x8000), 13) == Word(0x1000) && Rol16(Word(0), 13) == Word(0)
  {
  }

  lemma ScheduleIs()
    ensures Schedule(KEY) == [K0, K1, K2, K3, K4, K5, K6, K7]
  {
    hide UserWord, KPrime, Rol16, Fits16;
    UserWords();
    Primed();
    Rotated();
  }

  // ---- the rounds ----

  lemma Round0()
    ensures KeyFits(K0) && FL(Word(0x00000000), K0) == Word(0x13570000) && FO(Word(0x13570000), K0) == Word(0x1b1be7c7)
  {
    hide FI;
    FIs0();
  }

  lemma FIs0()
    ensures Fits16(Word(0x1357)) && Fits16(Word(0xfedc)) && FI(Word(0x1357), Word(0xfedc)) == Word(0x6068)
    ensures Fits16(Word(0x0000)) && Fits16(Word(0xcdef)) && FI(Word(0x0000), Word(0xcdef)) == Word(0x7b73)
    ensures Fits16(Word(0x6068)) && Fits16(Word(0x3210)) && FI(Word(0x6068), Word(0x3210)) == Word(0xfcdc)
  {
  }

  lemma Round1()
    ensures KeyFits(K1) && FO(Word(0x1b1be7c7), K1) == Word(0xaeddc656) && FL(Word(0xaeddc656), K1) == Word(0x3122c656)
  {
    hide FI;
    FIs1();
  }

  lemma FIs1()
    ensures Fits16(Word(0x1b1b)) && Fits16(Word(0xba98)) && FI(Word(0x1b1b), Word(0xba98)) == Word(0x5a4d)
    ensures Fits16(Word(0xe7c7)) && Fits16(Word(0xfedc)) && FI(Word(0xe7c7), Word(0xfedc)) == Word(0x1357)
    ensures Fits16(Word(0xbd8a)) && Fits16(Word(0x8123)) && FI(Word(0xbd8a), Word(0x8123)) == Word(0x688b)
  {
  }

  lemma Round2()
    ensures KeyFits(K2) && FL(Word(0x3122c656), K2) == Word(0xcc9fc656) && FO(Word(0xcc9fc656), K2) == Word(0xe56415b9)
  {
    hide FI;
    FIs2();
  }

  lemma FIs2()
    ensures Fits16(Word(0xcc9f)) && Fits16(Word(0x7654)) && FI(Word(0xcc9f), Word(0x7654)) == Word(0x5868)
    ensures Fits16(Word(0xc656)) && Fits16(Word(0xba98)) && FI(Word(0xc656), Word(0xba98)) == Word(0x7b5a)
    ensures Fits16(Word(0x8e3e)) && Fits16(Word(0x4567)) && FI(Word(0x8e3e), Word(0x4567)) == Word(0xf0dd)
  {
  }

  lemma Round3()
    ensures KeyFits(K3) && FO(Word(0xfe7ff27e), K3) == Word(0xa2ba026d) && FL(Word(0xa2ba026d), K3) == Word(0xd741026d)
  {
    hide FI;
    FIs3();
  }

  lemma FIs3()
    ensures Fits16(Word(0xfe7f)) && Fits16(Word(0x3210)) && FI(Word(0xfe7f), Word(0x3210)) == Word(0x0837)
    ensures Fits16(Word(0xf2fe)) && Fits16(Word(0x7654)) && FI(Word(0xf2fe), Word(0x7654)) == Word(0x58f3)
    ensures Fits16(Word(0xfa49)) && Fits16(Word(0x89ab)) && FI(Word(0xfa49), Word(0x89ab)) == Word(0xa0d7)
  {
  }

  lemma Round4()
    ensures KeyFits(K4) && FL(Word(0xe663c43b), K4) == Word(0x0a9cc43b) && FO(Word(0x0a9cc43b), K4) == Word(0x89701672)
  {
    hide FI;
    FIs4();
  }

  lemma FIs4()
    ensures Fits16(Word(0x0a9c)) && Fits16(Word(0x8123)) && FI(Word(0x0a9c), Word(0x8123)) == Word(0x93b8)
    ensures Fits16(Word(0xc43b)) && Fits16(Word(0x3210)) && FI(Word(0xc43b), Word(0x3210)) == Word(0xdef3)
    ensures Fits16(Word(0x5783)) && Fits16(Word(0xcdef)) && FI(Word(0x5783), Word(0xcdef)) == Word(0x9f02)
  {
  }

  lemma Round5()
    ensures KeyFits(K5) && FO(Word(0x770fe40c), K5) == Word(0xfe87a32a) && FL(Word(0xfe87a32a), K5) == Word(0x98f2a32a)
  {
    hide FI;
    FIs5();
  }

  lemma FIs5()
    ensures Fits16(Word(0x770f)) && Fits16(Word(0x4567)) && FI(Word(0x770f), Word(0x4567)) == Word(0x9502)
    ensures Fits16(Word(0xe40c)) && Fits16(Word(0x8123)) && FI(Word(0xe40c), Word(0x8123)) == Word(0x8f89)
    ensures Fits16(Word(0x710e)) && Fits16(Word(0xfedc)) && FI(Word(0x710e), Word(0xfedc)) == Word(0x5dad)
  {
  }

  lemma Round6()
    ensures KeyFits(K6) && FL(Word(0x7e916711), K6) == Word(0xb0f66711) && FO(Word(0xb0f66711), K6) == Word(0xd8c801e4)
  {
    hide FI;
    FIs6();
  }

  lemma FIs6()
    ensures Fits16(Word(0xb0f6)) && Fits16(Word(0x89ab)) && FI(Word(0xb0f6), Word(0x89ab)) == Word(0x66b8)
    ensures Fits16(Word(0x6711)) && Fits16(Word(0x4567)) && FI(Word(0x6711), Word(0x4567)) == Word(0xd961)
    ensures Fits16(Word(0x01a9)) && Fits16(Word(0xba98)) && FI(Word(0x01a9), Word(0xba98)) == Word(0xd92c)
  {
  }

  lemma Round7()
    ensures KeyFits(K7) && FO(Word(0xafc7e5e8), K7) == Word(0xbf06c060) && FL(Word(0xbf06c060), K7) == Word(0x35c9c060)
  {
    hide FI;
    FIs7();
  }

  lemma FIs7()
    ensures Fits16(Word(0xafd7)) && Fits16(Word(0xcdef)) && FI(Word(0xafd7), Word(0xcdef)) == Word(0x456c)
    ensures Fits16(Word(0xe5e8)) && Fits16(Word(0x89ab)) && FI(Word(0xe5e8), Word(0x89ab)) == Word(0x1f82)
    ensures Fits16(Word(0xa084)) && Fits16(Word(0x7654)) && FI(Word(0xa084), Word(0x7654)) == Word(0x7f66)
  {
  }

  lemma Rounds(b: Halves<Word>)
    requires b == Halves(Word(0x00000000), Word(0x00000000))
    ensures Run(KasumiChain(Schedule(KEY)), 8, b) == Halves(Word(0x4b58a771), Word(0xafc7e5e8))
  {
    hide Run, FO, FL, Step, KasumiChain, Schedule;
    ScheduleIs();
    var ks := Schedule(KEY);
    var c := KasumiChain(ks);
    RunStart(c, b);
    RunNext(c, 0, b);
    ChainStep(ks, 0, Halves(Word(0x00000000), Word(0x00000000)));
    Round0();
    assert Run(c, 1, b) == Halves(Word(0x00000000), Word(0x1b1be7c7));
    RunNext(c, 1, b);
    ChainStep(ks, 1, Halves(Word(0x00000000), Word(0x1b1be7c7)));
    Round1();
    assert Run(c, 2, b) == Halves(Word(0x3122c656), Word(0x1b1be7c7));
    RunNext(c, 2, b);
    ChainStep(ks, 2, Halves(Word(0x3122c656), Word(0x1b1be7c7)));
    Round2();
    assert Run(c, 3, b) == Halves(Word(0x3122c656), Word(0xfe7ff27e));
    RunNext(c, 3, b);
    ChainStep(ks, 3, Halves(Word(0x3122c656), Word(0xfe7ff27e)));
    Round3();
    assert Run(c, 4, b) == Halves(Word(0xe663c43b), Word(0xfe7ff27e));
    RunNext(c, 4, b);
    ChainStep(ks, 4, Halves(Word(0xe663c43b), Word(0xfe7ff27e)));
    Round4();
    assert Run(c, 5, b) == Halves(Word(0xe663c43b), Word(0x770fe40c));
    RunNext(c, 5, b);
    ChainStep(ks, 5, Halves(Word(0xe663c43b), Word(0x770fe40c)));
    Round5();
    assert Run(c, 6, b) == Halves(Word(0x7e916711), Word(0x770fe40c));
    RunNext(c, 6, b);
    ChainStep(ks, 6, Halves(Word(0x7e916711), Word(0x770fe40c)));
    Round6();
    assert Run(c, 7, b) == Halves(Word(0x7e916711), Word(0xafc7e5e8));
    RunNext(c, 7, b);
    ChainStep(ks, 7, Halves(Word(0x7e916711), Word(0xafc7e5e8)));
    Round7();
    assert Run(c, 8, b) == Halves(Word(0x4b58a771), Word(0xafc7e5e8));
  }

  lemma BlocksLoad()
    ensures LoadHalves(PLAINTEXT) == Halves(Word(0x00000000), Word(0x00000000)) && StoreHalves(Halves(Word(0x4b58a771), Word(0xafc7e5e8))) == CIPHERTEXT
  {
    assert PLAINTEXT[..4] == [0x00, 0x00, 0x00, 0x00] && PLAINTEXT[4..] == [0x00, 0x00, 0x00, 0x00];
  }

  /** Under the vector's key, the plaintext becomes the ciphertext. */
  lemma KnownAnswer()
    ensures |KEY| == 16 && |PLAINTEXT| == 8 && EncryptBytes(Schedule(KEY), PLAINTEXT) == CIPHERTEXT
  {
    hide Schedule, LoadHalves, StoreHalves, Run, KasumiChain;
    BlocksLoad();
    Rounds(LoadHalves(PLAINTEXT));
  }
}
