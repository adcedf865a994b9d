/** The second vector of multi2_test (multi2.c): a 40-byte key whose two halves differ, and 216 rounds. */
module Multi2Vector {
  import opened Words
  import opened Multi2

  const KEY_LOW: seq<byte> := [
    0x35, 0x91, 0x9d, 0x96, 0x07, 0x02, 0xe2, 0xce, 0x8d, 0x0b, 0x58, 0x3c, 0xc9, 0xc8, 0x9d, 0x59]
  const KEY_HIGH: seq<byte> := [
    0xa2, 0xae, 0x96, 0x4e, 0x87, 0x82, 0x45, 0xed, 0x3f, 0x2e, 0x62, 0xd6, 0x36, 0x35, 0xd0, 0x67]
  const KEY_DATA: seq<byte> := [0xb1, 0x27, 0xb9, 0x06, 0xe7, 0x56, 0x22, 0x38]
  const KEY: seq<byte> := KEY_LOW + KEY_HIGH + KEY_DATA

  const PLAINTEXT: seq<byte> := [0x1f, 0xb4, 0x60, 0x60, 0xd0, 0xb3, 0x4f, 0xa5]
  const CIPHERTEXT: seq<byte> := [0xca, 0x84, 0xa9, 0x34, 0x75, 0xc8, 0x60, 0xe5]

  // ---- the working key ----

  const SYSTEM_LOW: seq<Word> := [Word(0x35919d96), Word(0x0702e2ce), Word(0x8d0b583c), Word(0xc9c89d59)]
  const SYSTEM_HIGH: seq<Word> := [Word(0xa2ae964e), Word(0x878245ed), Word(0x3f2e62d6), Word(0x3635d067)]
  const DATA := Block(Word(0xb127b906), Word(0xe7562238))

  const LOW: seq<Word> := [Word(0x55b4b4b0), Word(0x447a89a1), Word(0x12fb7653), Word(0x5681fff2)]
  const HIGH: seq<Word> := [Word(0x4076989d), Word(0x7d515cfe), Word(0xc1d57a61), Word(0xbc84269f)]

  lemma KeyBytes()
    ensures |KEY| == 40 && KEY[..32] == KEY_LOW + KEY_HIGH && KEY[32..] == KEY_DATA
  {
    var s, t := KEY_LOW + KEY_HIGH + KEY_DATA, KEY_LOW + KEY_HIGH;
    assert s[..32] == t && s[32..] == KEY_DATA;
  }

  lemma SystemKeyLoads()
    ensures |KEY| == 40 && LoadWords(KEY[..32]) == SYSTEM_LOW + SYSTEM_HIGH && LoadBlock(KEY[32..]) == DATA
  {
    hide Load32, LoadBlock;
    KeyBytes();
    var t := KEY_LOW + KEY_HIGH;
    LowLoads();
    HighLoads();
    DataLoads();
    assert t[0..4] == KEY_LOW[0..4];
    assert t[4..8] == KEY_LOW[4..8];
    assert t[8..12] == KEY_LOW[8..12];
    assert t[12..16] == KEY_LOW[12..16];
    assert t[16..20] == KEY_HIGH[0..4];
    assert t[20..24] == KEY_HIGH[4..8];
    assert t[24..28] == KEY_HIGH[8..12];
    assert t[28..32] == KEY_HIGH[12..16];
    assert LoadWords(t) == SYSTEM_LOW + SYSTEM_HIGH;
  }

  lemma LowLoads()
    ensures Load32(KEY_LOW[0..4]) == Word(0x35919d96)
    ensures Load32(KEY_LOW[4..8]) == Word(0x0702e2ce)
    ensures Load32(KEY_LOW[8..12]) == Word(0x8d0b583c)
    ensures Load32(KEY_LOW[12..16]) == Word(0xc9c89d59)
  {
    assert KEY_LOW[0..4] == [0x35, 0x91, 0x9d, 0x96];
    assert KEY_LOW[4..8] == [0x07, 0x02, 0xe2, 0xce];
    assert KEY_LOW[8..12] == [0x8d, 0x0b, 0x58, 0x3c];
    assert KEY_LOW[12..16] == [0xc9, 0xc8, 0x9d, 0x59];
  }

  lemma HighLoads()
    ensures Load32(KEY_HIGH[0..4]) == Word(0xa2ae964e)
    ensures Load32(KEY_HIGH[4..8]) == Word(0x878245ed)
    ensures Load32(KEY_HIGH[8..12]) == Word(0x3f2e62d6)
    ensures Load32(KEY_HIGH[12..16]) == Word(0x3635d067)
  {
    assert KEY_HIGH[0..4] == [0xa2, 0xae, 0x96, 0x4e];
    assert KEY_HIGH[4..8] == [0x87, 0x82, 0x45, 0xed];
    assert KEY_HIGH[8..12] == [0x3f, 0x2e, 0x62, 0xd6];
    assert KEY_HIGH[12..16] == [0x36, 0x35, 0xd0, 0x67];
  }

  lemma DataLoads()
    ensures LoadBlock(KEY_DATA) == DATA
  {
    assert KEY_DATA[..4] == [0xb1, 0x27, 0xb9, 0x06] && KEY_DATA[4..] == [0xe7, 0x56, 0x22, 0x38];
  }

  lemma LowSteps()
    ensures Apply(Pi1, Block(Word(0xb127b906), Word(0xe7562238)), SYSTEM_LOW) == Block(Word(0xb127b906), Word(0x56719b3e))
    ensures Apply(Pi2, Block(Word(0xb127b906), Word(0x56719b3e)), SYSTEM_LOW) == Block(Word(0x55b4b4b0), Word(0x56719b3e))
    ensures Apply(Pi3, Block(Word(0x55b4b4b0), Word(0x56719b3e)), SYSTEM_LOW) == Block(Word(0x55b4b4b0), Word(0x447a89a1))
    ensures Apply(Pi4, Block(Word(0x55b4b4b0), Word(0x447a89a1)), SYSTEM_LOW) == Block(Word(0x12fb7653), Word(0x447a89a1))
    ensures Apply(Pi1, Block(Word(0x12fb7653), Word(0x447a89a1)), SYSTEM_LOW) == Block(Word(0x12fb7653), Word(0x5681fff2))
  {
  }

  lemma HighSteps()
    ensures Apply(Pi2, Block(Word(0x12fb7653), Word(0x5681fff2)), SYSTEM_HIGH) == Block(Word(0x4076989d), Word(0x5681fff2))
    ensures Apply(Pi3, Block(Word(0x4076989d), Word(0x5681fff2)), SYSTEM_HIGH) == Block(Word(0x4076989d), Word(0x7d515cfe))
    ensures Apply(Pi4, Block(Word(0x4076989d), Word(0x7d515cfe)), SYSTEM_HIGH) == Block(Word(0xc1d57a61), Word(0x7d515cfe))
    ensures Apply(Pi1, Block(Word(0xc1d57a61), Word(0x7d515cfe)), SYSTEM_HIGH) == Block(Word(0xc1d57a61), Word(0xbc84269f))
  {
  }

  lemma WorkingKeyIs()
    ensures |KEY| == 40 && KeySchedule(KEY) == LOW + HIGH
  {
    hide Apply, ScheduleRun, LoadWords, LoadBlock, WorkingKey;
    var k := SYSTEM_LOW + SYSTEM_HIGH;
    assert k[..4] == SYSTEM_LOW && k[4..] == SYSTEM_HIGH;
    SystemKeyLoads();
    ScheduleSteps(DATA, k);
    WorkingKeyWords(DATA, k);
    LowSteps();
    HighSteps();
  }

  // ---- the rounds ----

  lemma Halves(n: nat)
    requires n % 4 == 0
    ensures KeyHalf(n, LOW + HIGH) == if n / 4 % 2 == 0 then LOW else HIGH
  {
    assert (LOW + HIGH)[..4] == LOW && (LOW + HIGH)[4..] == HIGH;
  }

  /** The changed halves of four steps from the one state to the next. */
  predicate Mixes(l: Word, r: Word, k: seq<Word>, r1: Word, l2: Word, r3: Word, l4: Word)
    requires |k| == 4
  {
    r1 == Xor(r, l) && l2 == Xor(l, Mix2(r1, k[0])) && r3 == Xor(r1, Mix3(l2, k[1], k[2])) && l4 == Xor(l2, Mix4(r3, k[3]))
  }

  lemma FourSteps(n: nat, p: Block, l: Word, r: Word, r1: Word, l2: Word, r3: Word, l4: Word)
    requires n % 4 == 0 && Forward(n, p, LOW + HIGH) == Block(l, r)
    requires Mixes(l, r, if n / 4 % 2 == 0 then LOW else HIGH, r1, l2, r3, l4)
    ensures Forward(n + 4, p, LOW + HIGH) == Block(l4, r3)
  {
    hide Forward, KeyHalf, Mix2, Mix3, Mix4, Xor;
    Halves(n);
    ForwardSteps(n, p, LOW + HIGH);
  }

  lemma From0(p: Block)
    requires Forward(0, p, LOW + HIGH) == Block(Word(0x1fb46060), Word(0xd0b34fa5))
    ensures Forward(16, p, LOW + HIGH) == Block(Word(0xa94c5833), Word(0x4742d159))
  {
    hide Forward;
    FourSteps(0, p, Word(0x1fb46060), Word(0xd0b34fa5), Word(0xcf072fc5), Word(0x92bd18d8), Word(0xbb12c108), Word(0xc55adc3b));
    FourSteps(4, p, Word(0xc55adc3b), Word(0xbb12c108), Word(0x7e481d33), Word(0x3aa4ea48), Word(0xc4bbedec), Word(0xbce48cf2));
    FourSteps(8, p, Word(0xbce48cf2), Word(0xc4bbedec), Word(0x785f611e), Word(0x751cdb3e), Word(0x1a57c028), Word(0x415c1bba));
    FourSteps(12, p, Word(0x415c1bba), Word(0x1a57c028), Word(0x5b0bdb92), Word(0xbbae8fea), Word(0x4742d159), Word(0xa94c5833));
  }

  lemma From16(p: Block)
    requires Forward(16, p, LOW + HIGH) == Block(Word(0xa94c5833), Word(0x4742d159))
    ensures Forward(32, p, LOW + HIGH) == Block(Word(0x45ef0d10), Word(0xbf3eb975))
  {
    hide Forward;
    FourSteps(16, p, Word(0xa94c5833), Word(0x4742d159), Word(0xee0e896a), Word(0xd69e46a2), Word(0x88da79a8), Word(0x8a5026a4));
    FourSteps(20, p, Word(0x8a5026a4), Word(0x88da79a8), Word(0x028a5f0c), Word(0xd37caff2), Word(0xb971e4e7), Word(0x9eb29652));
    FourSteps(24, p, Word(0x9eb29652), Word(0xb971e4e7), Word(0x27c372b5), Word(0x605d829b), Word(0xdcf4eb4e), Word(0x610f1ada));
    FourSteps(28, p, Word(0x610f1ada), Word(0xdcf4eb4e), Word(0xbdfbf194), Word(0x2f216d76), Word(0xbf3eb975), Word(0x45ef0d10));
  }

  lemma From32(p: Block)
    requires Forward(32, p, LOW + HIGH) == Block(Word(0x45ef0d10), Word(0xbf3eb975))
    ensures Forward(48, p, LOW + HIGH) == Block(Word(0xcc468f0d), Word(0xac8b6807))
  {
    hide Forward;
    FourSteps(32, p, Word(0x45ef0d10), Word(0xbf3eb975), Word(0xfad1b465), Word(0xad4f85c1), Word(0x1f877436), Word(0xe360c10b));
    FourSteps(36, p, Word(0xe360c10b), Word(0x1f877436), Word(0xfce7b53d), Word(0xdad4b05d), Word(0x23e2c830), Word(0xb8d61a52));
    FourSteps(40, p, Word(0xb8d61a52), Word(0x23e2c830), Word(0x9b34d262), Word(0x41a3dc09), Word(0xe6cd321a), Word(0x73282634));
    FourSteps(44, p, Word(0x73282634), Word(0xe6cd321a), Word(0x95e5142e), Word(0xc10b464d), Word(0xac8b6807), Word(0xcc468f0d));
  }

  lemma From48(p: Block)
    requires Forward(48, p, LOW + HIGH) == Block(Word(0xcc468f0d), Word(0xac8b6807))
    ensures Forward(64, p, LOW + HIGH) == Block(Word(0xaf3dfea8), Word(0x43e6e580))
  {
    hide Forward;
    FourSteps(48, p, Word(0xcc468f0d), Word(0xac8b6807), Word(0x60cde70a), Word(0xd7bc6ec1), Word(0x3f89bb37), Word(0x3986c911));
    FourSteps(52, p, Word(0x3986c911), Word(0x3f89bb37), Word(0x060f7226), Word(0xd336edd4), Word(0x1d496266), Word(0x923540c9));
    FourSteps(56, p, Word(0x923540c9), Word(0x1d496266), Word(0x8f7c22af), Word(0xc48fa70e), Word(0x6c57a78c), Word(0x0acfe274));
    FourSteps(60, p, Word(0x0acfe274), Word(0x6c57a78c), Word(0x669845f8), Word(0xad2ac234), Word(0x43e6e580), Word(0xaf3dfea8));
  }

  lemma From64(p: Block)
    requires Forward(64, p, LOW + HIGH) == Block(Word(0xaf3dfea8), Word(0x43e6e580))
    ensures Forward(80, p, LOW + HIGH) == Block(Word(0x76232576), Word(0x538498ba))
  {
    hide Forward;
    FourSteps(64, p, Word(0xaf3dfea8), Word(0x43e6e580), Word(0xecdb1b28), Word(0x12646953), Word(0xf9ec0f2c), Word(0x804222cb));
    FourSteps(68, p, Word(0x804222cb), Word(0xf9ec0f2c), Word(0x79ae2de7), Word(0x48c94985), Word(0x69db7dd3), Word(0xf7177fbe));
    FourSteps(72, p, Word(0xf7177fbe), Word(0x69db7dd3), Word(0x9ecc026d), Word(0xf2b70f94), Word(0x03169a95), Word(0x4d4c0b31));
    FourSteps(76, p, Word(0x4d4c0b31), Word(0x03169a95), Word(0x4e5a91a4), Word(0x260899c8), Word(0x538498ba), Word(0x76232576));
  }

  lemma From80(p: Block)
    requires Forward(80, p, LOW + HIGH) == Block(Word(0x76232576), Word(0x538498ba))
    ensures Forward(96, p, LOW + HIGH) == Block(Word(0x7656bfe6), Word(0x6de0d6eb))
  {
    hide Forward;
    FourSteps(80, p, Word(0x76232576), Word(0x538498ba), Word(0x25a7bdcc), Word(0x25630532), Word(0x31d38dea), Word(0x8cc8c07d));
    FourSteps(84, p, Word(0x8cc8c07d), Word(0x31d38dea), Word(0xbd1b4d97), Word(0xff265b2e), Word(0x83ae6c0a), Word(0xbfda8661));
    FourSteps(88, p, Word(0xbfda8661), Word(0x83ae6c0a), Word(0x3c74ea6b), Word(0x6e6b8e2b), Word(0xbccb0697), Word(0x0eeaae85));
    FourSteps(92, p, Word(0x0eeaae85), Word(0xbccb0697), Word(0xb221a812), Word(0xa5ae4c55), Word(0x6de0d6eb), Word(0x7656bfe6));
  }

  lemma From96(p: Block)
    requires Forward(96, p, LOW + HIGH) == Block(Word(0x7656bfe6), Word(0x6de0d6eb))
    ensures Forward(112, p, LOW + HIGH) == Block(Word(0xcb1811ab), Word(0x9328c004))
  {
    hide Forward;
    FourSteps(96, p, Word(0x7656bfe6), Word(0x6de0d6eb), Word(0x1bb6690d), Word(0x660275b5), Word(0xa809ab37), Word(0x9eb82264));
    FourSteps(100, p, Word(0x9eb82264), Word(0xa809ab37), Word(0x36b18953), Word(0xac461b5d), Word(0xc11e6eac), Word(0xd86af124));
    FourSteps(104, p, Word(0xd86af124), Word(0xc11e6eac), Word(0x19749f88), Word(0x42aec7f7), Word(0x3926f823), Word(0x8ce21f9b));
    FourSteps(108, p, Word(0x8ce21f9b), Word(0x3926f823), Word(0xb5c4e7b8), Word(0x4578909a), Word(0x9328c004), Word(0xcb1811ab));
  }

  lemma From112(p: Block)
    requires Forward(112, p, LOW + HIGH) == Block(Word(0xcb1811ab), Word(0x9328c004))
    ensures Forward(128, p, LOW + HIGH) == Block(Word(0x3d3a8904), Word(0x7cb2707d))
  {
    hide Forward;
    FourSteps(112, p, Word(0xcb1811ab), Word(0x9328c004), Word(0x5830d1af), Word(0x59a1b366), Word(0x2a03c0fe), Word(0xdb3d77d5));
    FourSteps(116, p, Word(0xdb3d77d5), Word(0x2a03c0fe), Word(0xf13eb72b), Word(0x1fdc6dfb), Word(0xdf92fc37), Word(0x13afc3ca));
    FourSteps(120, p, Word(0x13afc3ca), Word(0xdf92fc37), Word(0xcc3d3ffd), Word(0x2b27fdaa), Word(0xa030d5d3), Word(0xfa59d177));
    FourSteps(124, p, Word(0xfa59d177), Word(0xa030d5d3), Word(0x5a6904a4), Word(0x232a7a89), Word(0x7cb2707d), Word(0x3d3a8904));
  }

  lemma From128(p: Block)
    requires Forward(128, p, LOW + HIGH) == Block(Word(0x3d3a8904), Word(0x7cb2707d))
    ensures Forward(144, p, LOW + HIGH) == Block(Word(0x8e4df07f), Word(0xa5db0802))
  {
    hide Forward;
    FourSteps(128, p, Word(0x3d3a8904), Word(0x7cb2707d), Word(0x4188f979), Word(0xa31324c3), Word(0xa3c79835), Word(0x407cdc04));
    FourSteps(132, p, Word(0x407cdc04), Word(0xa3c79835), Word(0xe3bb4431), Word(0xe5b02cfb), Word(0xe4920241), Word(0xc0dee098));
    FourSteps(136, p, Word(0xc0dee098), Word(0xe4920241), Word(0x244ce2d9), Word(0x4e964fa4), Word(0x226ca34b), Word(0x123f7f97));
    FourSteps(140, p, Word(0x123f7f97), Word(0x226ca34b), Word(0x3053dcdc), Word(0x65961958), Word(0xa5db0802), Word(0x8e4df07f));
  }

  lemma From144(p: Block)
    requires Forward(144, p, LOW + HIGH) == Block(Word(0x8e4df07f), Word(0xa5db0802))
    ensures Forward(160, p, LOW + HIGH) == Block(Word(0xea470d3c), Word(0xf8cc0c5a))
  {
    hide Forward;
    FourSteps(144, p, Word(0x8e4df07f), Word(0xa5db0802), Word(0x2b96f87d), Word(0x339e8f80), Word(0x4d3a1053), Word(0x0132dedc));
    FourSteps(148, p, Word(0x0132dedc), Word(0x4d3a1053), Word(0x4c08ce8f), Word(0xf3afb312), Word(0xc36ec37e), Word(0x8c112181));
    FourSteps(152, p, Word(0x8c112181), Word(0xc36ec37e), Word(0x4f7fe2ff), Word(0x9a509652), Word(0x46e2f562), Word(0x88a85cf5));
    FourSteps(156, p, Word(0x88a85cf5), Word(0x46e2f562), Word(0xce4aa997), Word(0x60d7f3dc), Word(0xf8cc0c5a), Word(0xea470d3c));
  }

  lemma From160(p: Block)
    requires Forward(160, p, LOW + HIGH) == Block(Word(0xea470d3c), Word(0xf8cc0c5a))
    ensures Forward(176, p, LOW + HIGH) == Block(Word(0x4ebf9946), Word(0xd153c8b2))
  {
    hide Forward;
    FourSteps(160, p, Word(0xea470d3c), Word(0xf8cc0c5a), Word(0x128b0166), Word(0x590a0b6e), Word(0xd64186e2), Word(0x86dba94b));
    FourSteps(164, p, Word(0x86dba94b), Word(0xd64186e2), Word(0x509a2fa9), Word(0x06cc7cb2), Word(0x393d12f8), Word(0xca0a6345));
    FourSteps(168, p, Word(0xca0a6345), Word(0x393d12f8), Word(0xf33771bd), Word(0xbc89246e), Word(0xed44ff2c), Word(0xee6bdff6));
    FourSteps(172, p, Word(0xee6bdff6), Word(0xed44ff2c), Word(0x032f20da), Word(0x8b8835de), Word(0xd153c8b2), Word(0x4ebf9946));
  }

  lemma From176(p: Block)
    requires Forward(176, p, LOW + HIGH) == Block(Word(0x4ebf9946), Word(0xd153c8b2))
    ensures Forward(192, p, LOW + HIGH) == Block(Word(0xf0b146e5), Word(0xbf4159ec))
  {
    hide Forward;
    FourSteps(176, p, Word(0x4ebf9946), Word(0xd153c8b2), Word(0x9fec51f4), Word(0xa06db464), Word(0x9aabe0b2), Word(0x1588d75c));
    FourSteps(180, p, Word(0x1588d75c), Word(0x9aabe0b2), Word(0x8f2337ee), Word(0x9792bceb), Word(0xdab157cf), Word(0x6399c4c2));
    FourSteps(184, p, Word(0x6399c4c2), Word(0xdab157cf), Word(0xb928930d), Word(0x86736096), Word(0xa46f0e8a), Word(0x60c628e6));
    FourSteps(188, p, Word(0x60c628e6), Word(0xa46f0e8a), Word(0xc4a9266c), Word(0x9a6ac45c), Word(0xbf4159ec), Word(0xf0b146e5));
  }

  lemma From192(p: Block)
    requires Forward(192, p, LOW + HIGH) == Block(Word(0xf0b146e5), Word(0xbf4159ec))
    ensures Forward(208, p, LOW + HIGH) == Block(Word(0x59cec557), Word(0x7856e797))
  {
    hide Forward;
    FourSteps(192, p, Word(0xf0b146e5), Word(0xbf4159ec), Word(0x4ff01f09), Word(0x0eb88f71), Word(0xa81bf303), Word(0xf7ad31bc));
    FourSteps(196, p, Word(0xf7ad31bc), Word(0xa81bf303), Word(0x5fb6c2bf), Word(0x1fa402e6), Word(0xe2907bbb), Word(0x04c32923));
    FourSteps(200, p, Word(0x04c32923), Word(0xe2907bbb), Word(0xe6535298), Word(0xf15a618f), Word(0xc2e697ed), Word(0x8e5096d3));
    FourSteps(204, p, Word(0x8e5096d3), Word(0xc2e697ed), Word(0x4cb6013e), Word(0x51898258), Word(0x7856e797), Word(0x59cec557));
  }

  lemma From208(p: Block)
    requires Forward(208, p, LOW + HIGH) == Block(Word(0x59cec557), Word(0x7856e797))
    ensures Forward(216, p, LOW + HIGH) == Block(Word(0xca84a934), Word(0x75c860e5))
  {
    hide Forward;
    FourSteps(208, p, Word(0x59cec557), Word(0x7856e797), Word(0x219822c0), Word(0x624027ee), Word(0xf9b5fae1), Word(0xf357c1cf));
    FourSteps(212, p, Word(0xf357c1cf), Word(0xf9b5fae1), Word(0x0ae23b2e), Word(0x31fa0ca1), Word(0x75c860e5), Word(0xca84a934));
  }

  lemma BlocksLoad()
    ensures LoadBlock(PLAINTEXT) == Block(Word(0x1fb46060), Word(0xd0b34fa5)) && StoreBlock(Block(Word(0xca84a934), Word(0x75c860e5))) == CIPHERTEXT
  {
    assert PLAINTEXT[..4] == [0x1f, 0xb4, 0x60, 0x60] && PLAINTEXT[4..] == [0xd0, 0xb3, 0x4f, 0xa5];
  }

  /** Under the vector's key, the plaintext becomes the ciphertext in 216 rounds. */
  lemma KnownAnswer()
    ensures |KEY| == 40 && |PLAINTEXT| == 8 && EncryptBytes(216, KeySchedule(KEY), PLAINTEXT) == CIPHERTEXT
  {
    hide KeySchedule, LoadBlock, StoreBlock, Forward;
    WorkingKeyIs();
    BlocksLoad();
    var p := Block(Word(0x1fb46060), Word(0xd0b34fa5));
    ForwardStart(p, LOW + HIGH);
    From0(p);
    From16(p);
    From32(p);
    From48(p);
    From64(p);
    From80(p);
    From96(p);
    From112(p);
    From128(p);
    From144(p);
    From160(p);
    From176(p);
    From192(p);
    From208(p);
  }
}
