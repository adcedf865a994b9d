/** IDEA (idea.c): the key schedules and the one block routine that serves both directions. */
module Idea {
  import opened IdeaArithmetic
  import Words
  import Fermat

  type byte = Words.byte
  type Status = Words.Status

  // ---- LOAD16 and STORE16 ----

  function Number(b: byte): (n: int)
    ensures 0 <= n < 256
  {
    b as int
  }

  function Truncated(n: int): byte
    requires 0 <= n < 256
  {
    n as byte
  }

  function Load16(hi: byte, lo: byte): Half {
    Number(hi) * 256 + Number(lo)
  }

  function High(x: Half): byte { Truncated(x / 256) }

  function Low(x: Half): byte { Truncated(x % 256) }

  lemma LoadStore16(x: Half)
    ensures Load16(High(x), Low(x)) == x
  {
    hide Number, Truncated;
    ByteValue(x / 256);
    ByteValue(x % 256);
  }

  lemma Halve1(n: int)
    requires 0 <= n < 256
    ensures n == 2 * (n / 2) + (n) % 2
  {
  }

  lemma Halve2(n: int)
    requires 0 <= n < 256
    ensures n / 2 == 2 * (n / 4) + (n / 2) % 2
  {
  }

  lemma Halve4(n: int)
    requires 0 <= n < 256
    ensures n / 4 == 2 * (n / 8) + (n / 4) % 2
  {
  }

  lemma Halve8(n: int)
    requires 0 <= n < 256
    ensures n / 8 == 2 * (n / 16) + (n / 8) % 2
  {
  }

  lemma Halve16(n: int)
    requires 0 <= n < 256
    ensures n / 16 == 2 * (n / 32) + (n / 16) % 2
  {
  }

  lemma Halve32(n: int)
    requires 0 <= n < 256
    ensures n / 32 == 2 * (n / 64) + (n / 32) % 2
  {
  }

  lemma Halve64(n: int)
    requires 0 <= n < 256
    ensures n / 64 == 2 * (n / 128) + (n / 64) % 2
  {
  }

  lemma TopBit(n: int)
    requires 0 <= n < 256
    ensures n / 128 == (n / 128) % 2
  {
  }

  /** Converting a small number to a byte and back is the sum of its binary digits. */
  lemma ByteValue(n: int)
    requires 0 <= n < 256
    ensures Number(Truncated(n)) == n
  {
    Halve1(n);
    Halve2(n);
    Halve4(n);
    Halve8(n);
    Halve16(n);
    Halve32(n);
    Halve64(n);
    TopBit(n);
  }

  lemma ByteBack(b: byte)
    ensures Truncated(Number(b)) == b
  {
  }

  lemma DivMod256(h: int, l: int)
    requires 0 <= l < 256
    ensures (h * 256 + l) / 256 == h && (h * 256 + l) % 256 == l
  {
  }

  lemma StoreLoad16(hi: byte, lo: byte)
    ensures High(Load16(hi, lo)) == hi && Low(Load16(hi, lo)) == lo
  {
    hide Number, Truncated;
    DivMod256(Number(hi), Number(lo));
    ByteBack(hi);
    ByteBack(lo);
  }

  /** The four 16-bit words of a block. */
  datatype State = State(x0: Half, x1: Half, x2: Half, x3: Half)

  function LoadState(s: seq<byte>): State
    requires |s| == 8
  {
    State(Load16(s[0], s[1]), Load16(s[2], s[3]), Load16(s[4], s[5]), Load16(s[6], s[7]))
  }

  function StoreState(x: State): (s: seq<byte>)
    ensures |s| == 8
  {
    [High(x.x0), Low(x.x0), High(x.x1), Low(x.x1), High(x.x2), Low(x.x2), High(x.x3), Low(x.x3)]
  }

  // ---- the data path, layer by layer ----

  /** Key layer: multiply the outer words, add to the inner ones. */
  function KeyLayer(x: State, k0: Half, k1: Half, k2: Half, k3: Half): State {
    State(Mul(x.x0, k0), Add(x.x1, k1), Add(x.x2, k2), Mul(x.x3, k3))
  }

  /** Multiply-add layer: all four words are masked from the two sums x0^x2 and x1^x3. */
  function MixLayer(x: State, k4: Half, k5: Half): State {
    var s := Mul(Xor(x.x0, x.x2), k4);
    var t1 := Mul(Add(s, Xor(x.x1, x.x3)), k5);
    var t0 := Add(s, t1);
    State(Xor(x.x0, t1), Xor(x.x1, t0), Xor(x.x2, t1), Xor(x.x3, t0))
  }

  function Swap(x: State): State {
    State(x.x0, x.x2, x.x1, x.x3)
  }

  lemma KeyLayerInverse(x: State, k0: Half, k1: Half, k2: Half, k3: Half)
    ensures KeyLayer(KeyLayer(x, k0, k1, k2, k3), MulInv(k0), AddInv(k1), AddInv(k2), MulInv(k3)) == x
  {
    hide Mul, MulInv, Add, AddInv;
    MulCancels(x.x0, k0);
    AddCancels(x.x1, k1);
    AddCancels(x.x2, k2);
    MulCancels(x.x3, k3);
  }

  /** The masks cancel in both sums, so the layer undoes itself under the same keys. */
  lemma MixLayerInvolution(x: State, k4: Half, k5: Half)
    ensures MixLayer(MixLayer(x, k4, k5), k4, k5) == x
  {
    hide Mul, Xor, Add;
    var s := Mul(Xor(x.x0, x.x2), k4);
    var t1 := Mul(Add(s, Xor(x.x1, x.x3)), k5);
    var t0 := Add(s, t1);
    XorCancels(x.x0, x.x2, t1);
    XorCancels(x.x1, x.x3, t0);
    XorCancels(x.x2, x.x0, t1);
    XorCancels(x.x3, x.x1, t0);
  }

  /** The key layer of round r, or of the output transformation when r is 8. */
  function Keyed(x: State, m: seq<Half>, r: nat): State
    requires |m| == 52 && r <= 8
  {
    KeyLayer(x, m[6 * r], m[6 * r + 1], m[6 * r + 2], m[6 * r + 3])
  }

  function Mixed(x: State, m: seq<Half>, r: nat): State
    requires |m| == 52 && r < 8
  {
    MixLayer(x, m[6 * r + 4], m[6 * r + 5])
  }

  function Rounds(x: State, m: seq<Half>, r: nat): State
    requires |m| == 52 && r <= 8
  {
    if r == 0 then x else Swap(Mixed(Keyed(Rounds(x, m, r - 1), m, r - 1), m, r - 1))
  }

  /** Eight rounds and the output transformation, whose inner words are taken unswapped. */
  function Crypt(x: State, m: seq<Half>): State
    requires |m| == 52
  {
    Keyed(Swap(Rounds(x, m, 8)), m, 8)
  }

  // ---- what a round does to its words ----

  lemma XorRecovers(a: Half, t: Half)
    ensures Xor(a, Xor(a, t)) == t
  {
    XorCommutes(a, t);
    XorCommutes(a, Xor(t, a));
    XorCancels(t, t, a);
  }

  /** One round seen from outside: x goes in, y comes out, its inner words exchanged back. The two masks are what y differs
      by from the keyed words of x, twice each; and multiplying them back by the inverses of the last two subkeys, the first
      of them before the addition and the second behind it, leaves the sums that the layer starts from. */
  lemma RoundSeenFromOutside(x0: State, m: seq<Half>, r: nat)
    requires |m| == 52 && r < 8
    ensures
      var x, y := Rounds(x0, m, r), Swap(Rounds(x0, m, r + 1));
      var a0, a1, a2, a3 := Mul(x.x0, m[6 * r]), Add(x.x1, m[6 * r + 1]), Add(x.x2, m[6 * r + 2]), Mul(x.x3, m[6 * r + 3]);
      var t0, t1 := Xor(a1, y.x1), Xor(a0, y.x0);
      var s := Add(t0, AddInv(t1));
      && t1 == Xor(a2, y.x2) && t0 == Xor(a3, y.x3)
      && Mul(s, MulInv(m[6 * r + 4])) == Xor(a0, a2)
      && Mul(t1, MulInv(m[6 * r + 5])) == Add(s, Xor(a1, a3))
  {
    hide Mul, Xor, Add, AddInv, MulInv;
    var x := Rounds(x0, m, r);
    var a0, a1, a2, a3 := Mul(x.x0, m[6 * r]), Add(x.x1, m[6 * r + 1]), Add(x.x2, m[6 * r + 2]), Mul(x.x3, m[6 * r + 3]);
    var s := Mul(Xor(a0, a2), m[6 * r + 4]);
    var t1 := Mul(Add(s, Xor(a1, a3)), m[6 * r + 5]);
    var t0 := Add(s, t1);
    XorRecovers(a0, t1);
    XorRecovers(a1, t0);
    XorRecovers(a2, t1);
    XorRecovers(a3, t0);
    AddCancels(s, t1);
    MulCancels(Xor(a0, a2), m[6 * r + 4]);
    MulCancels(Add(s, Xor(a1, a3)), m[6 * r + 5]);
  }

  /** The output transformation seen from outside: its inner words meet their subkeys in each other's place. */
  lemma OutputSeenFromOutside(x0: State, m: seq<Half>)
    requires |m| == 52
    ensures
      var x, y := Rounds(x0, m, 8), Crypt(x0, m);
      && Mul(y.x0, MulInv(m[48])) == x.x0 && Add(y.x1, AddInv(m[49])) == x.x2
      && Add(y.x2, AddInv(m[50])) == x.x1 && Mul(y.x3, MulInv(m[51])) == x.x3
    ensures Rounds(x0, m, 0) == x0
  {
    hide Mul, Add, AddInv, MulInv;
    var x := Rounds(x0, m, 8);
    MulCancels(x.x0, m[48]);
    AddCancels(x.x2, m[49]);
    AddCancels(x.x1, m[50]);
    MulCancels(x.x3, m[51]);
  }

  // ---- key schedules ----

  /** Eight words as one 128-bit number, most significant word first. */
  function Value(g: seq<Half>): int
    requires |g| == 8
  {
    (g[0] as int) * 0x1_0000_0000_0000_0000_0000_0000_0000 + (g[1] as int) * 0x1_0000_0000_0000_0000_0000_0000
    + (g[2] as int) * 0x1_0000_0000_0000_0000_0000 + (g[3] as int) * 0x1_0000_0000_0000_0000
    + (g[4] as int) * 0x1_0000_0000_0000 + (g[5] as int) * 0x1_0000_0000 + (g[6] as int) * 0x1_0000 + g[7]
  }

  const TWO25 := 0x200_0000
  const TWO103 := 0x80_0000_0000_0000_0000_0000_0000
  const TWO128 := 0x1_0000_0000_0000_0000_0000_0000_0000_0000

  /** Rotation of a 128-bit number left by 25. */
  function RotateLeft25(v: int): int {
    (v * TWO25) % TWO128 + v / TWO103
  }

  /** Each word of the next group takes the 7 low bits of one word of the last group and the 9 high bits of the next. */
  function NextWord(x: Half, y: Half): Half {
    (x * 512) % 65536 + y / 128
  }

  lemma NextWordValue(x: Half, y: Half)
    ensures (x * 512) % 65536 + y / 128 == NextWord(x, y)
  {
  }

  function NextGroup(g: seq<Half>): (h: seq<Half>)
    requires |g| == 8
    ensures |h| == 8
  {
    seq(8, i requires 0 <= i < 8 => NextWord(g[(i + 1) % 8], g[(i + 2) % 8]))
  }

  lemma SplitWord(x: Half) returns (h: int, l: int)
    ensures x == 128 * h + l && 0 <= h < 512 && 0 <= l < 128
    ensures forall y: Half :: NextWord(x, y) == l * 512 + y / 128
    ensures x / 128 == h
  {
    h, l := x / 128, x % 128;
    assert (x * 512) % 65536 == l * 512;
  }

  lemma DivMod(v: int, t: int, r: int, d: int)
    requires d > 0 && v == t * d + r && 0 <= r < d
    ensures v / d == t && v % d == r
  {
    Fermat.ModShift(r, t, d);
    Fermat.SmallMod(r, d);
    assert d * (v / d) == d * t;
  }

  /** The next eight key words are the last 128 bits rotated left by 25. */
  lemma NextGroupRotates(g: seq<Half>)
    requires |g| == 8
    ensures Value(NextGroup(g)) == RotateLeft25(Value(g))
  {
    var h0, l0 := SplitWord(g[0]);
    var h1, l1 := SplitWord(g[1]);
    var h2, l2 := SplitWord(g[2]);
    var h3, l3 := SplitWord(g[3]);
    var h4, l4 := SplitWord(g[4]);
    var h5, l5 := SplitWord(g[5]);
    var h6, l6 := SplitWord(g[6]);
    var h7, l7 := SplitWord(g[7]);
    hide NextWord;
    var n := NextGroup(g);
    assert n[0] == l1 * 512 + h2 && n[1] == l2 * 512 + h3 && n[2] == l3 * 512 + h4 && n[3] == l4 * 512 + h5;
    assert n[4] == l5 * 512 + h6 && n[5] == l6 * 512 + h7 && n[6] == l7 * 512 + h0 && n[7] == l0 * 512 + h1;
    var top := g[0] * 512 + h1;
    var rest := Value(g) - top * TWO103;
    assert 0 <= rest < TWO103;
    assert Value(n) == rest * TWO25 + top;
    DivMod(Value(g), top, rest, TWO103);
    DivMod(Value(g) * TWO25, top, rest * TWO25, TWO128);
  }

  function Group(words: seq<Half>, g: nat): (r: seq<Half>)
    requires |words| == 8
    ensures |r| == 8
  {
    if g == 0 then words else NextGroup(Group(words, g - 1))
  }

  function KeyWords(key: seq<byte>): (r: seq<Half>)
    requires |key| == 16
    ensures |r| == 8
  {
    seq(8, i requires 0 <= i < 8 => Load16(key[2 * i], key[2 * i + 1]))
  }

  /** Bytes as one number, the first of them most significant. */
  function BigEndian(s: seq<byte>): nat {
    if s == [] then 0 else BigEndian(s[..|s| - 1]) * 256 + Number(s[|s| - 1])
  }

  lemma TwoMoreBytes(s: seq<byte>, n: nat)
    requires n + 2 <= |s|
    ensures BigEndian(s[..n + 2]) == BigEndian(s[..n]) * 65536 + Load16(s[n], s[n + 1])
  {
    hide Number;
    var x, y := s[..n + 2], s[..n + 1];
    assert x[..n + 1] == y && y[..n] == s[..n];
    assert BigEndian(x) == BigEndian(y) * 256 + Number(s[n + 1]);
    assert BigEndian(y) == BigEndian(s[..n]) * 256 + Number(s[n]);
  }

  /** The key words are the key's bytes in their order. */
  lemma KeyWordsInOrder(key: seq<byte>)
    requires |key| == 16
    ensures Value(KeyWords(key)) == BigEndian(key)
  {
    hide BigEndian, Load16, Value, KeyWords;
    var w := KeyWords(key);
    assert BigEndian(key[..0]) == 0 by { NoBytes(key[..0]); }
    NextKeyWord(key, 0);
    NextKeyWord(key, 1);
    NextKeyWord(key, 2);
    NextKeyWord(key, 3);
    NextKeyWord(key, 4);
    NextKeyWord(key, 5);
    NextKeyWord(key, 6);
    NextKeyWord(key, 7);
    ValueByWords(w);
    assert key[..16] == key;
  }

  lemma NextKeyWord(key: seq<byte>, i: nat)
    requires |key| == 16 && i < 8
    ensures BigEndian(key[..2 * i + 2]) == BigEndian(key[..2 * i]) * 65536 + KeyWords(key)[i]
  {
    hide BigEndian, Load16;
    TwoMoreBytes(key, 2 * i);
  }

  lemma ValueByWords(g: seq<Half>)
    requires |g| == 8
    ensures Value(g) == ((((((((g[0] as int) * 65536 + g[1]) * 65536 + g[2]) * 65536 + g[3]) * 65536 + g[4]) * 65536 + g[5]) * 65536 + g[6]) * 65536 + g[7])
  {
  }

  lemma NoBytes(s: seq<byte>)
    requires s == []
    ensures BigEndian(s) == 0
  {
  }

  function StateValue(x: State): int {
    (((x.x0 as int) * 65536 + x.x1) * 65536 + x.x2) * 65536 + x.x3
  }

  /** So are the words of a block, loaded or stored. */
  lemma BlockInOrder(s: seq<byte>, x: State)
    requires |s| == 8
    ensures StateValue(LoadState(s)) == BigEndian(s) && BigEndian(StoreState(x)) == StateValue(x)
  {
    hide BigEndian, Load16, High, Low;
    LoadInOrder(s);
    LoadInOrder(StoreState(x));
    LoadStore16(x.x0);
    LoadStore16(x.x1);
    LoadStore16(x.x2);
    LoadStore16(x.x3);
    assert LoadState(StoreState(x)) == x;
  }

  lemma LoadInOrder(s: seq<byte>)
    requires |s| == 8
    ensures StateValue(LoadState(s)) == BigEndian(s)
  {
    hide BigEndian, Load16;
    assert BigEndian(s[..0]) == 0 by { NoBytes(s[..0]); }
    TwoMoreBytes(s, 0);
    TwoMoreBytes(s, 2);
    TwoMoreBytes(s, 4);
    TwoMoreBytes(s, 6);
    assert s[..8] == s;
  }

  /** The 52 encryption key words: groups of eight, the last one cut to four. */
  function EncKeys(key: seq<byte>): (ek: seq<Half>)
    requires |key| == 16
    ensures |ek| == 52
  {
    seq(52, i requires 0 <= i < 52 => Group(KeyWords(key), i / 8)[i % 8])
  }

  /** Decryption key word 6r+c comes from encryption round 8-r; inside the cipher the additive keys change places. */
  function DecKey(ek: seq<Half>, n: nat): Half
    requires |ek| == 52 && n < 52
  {
    var r, c := n / 6, n % 6;
    var inner := 0 < r < 8;
    if c == 0 then MulInv(ek[(8 - r) * 6])
    else if c == 1 then AddInv(ek[(8 - r) * 6 + if inner then 2 else 1])
    else if c == 2 then AddInv(ek[(8 - r) * 6 + if inner then 1 else 2])
    else if c == 3 then MulInv(ek[(8 - r) * 6 + 3])
    else ek[(7 - r) * 6 + c]
  }

  function DecKeys(ek: seq<Half>): (dk: seq<Half>)
    requires |ek| == 52
    ensures |dk| == 52
  {
    seq(52, n requires 0 <= n < 52 => DecKey(ek, n))
  }

  // ---- decryption undoes encryption ----

  lemma Slot(r: nat, c: nat)
    requires c < 6
    ensures (6 * r + c) / 6 == r && (6 * r + c) % 6 == c
  {
  }

  lemma DecKeysOfRound(ek: seq<Half>, r: nat)
    requires |ek| == 52 && r <= 8
    ensures
      var dk, a, b := DecKeys(ek), 6 * r, 6 * (8 - r);
      && dk[a] == MulInv(ek[b]) && dk[a + 3] == MulInv(ek[b + 3])
      && (if 0 < r < 8 then dk[a + 1] == AddInv(ek[b + 2]) && dk[a + 2] == AddInv(ek[b + 1])
          else dk[a + 1] == AddInv(ek[b + 1]) && dk[a + 2] == AddInv(ek[b + 2]))
      && (r < 8 ==> dk[a + 4] == ek[b - 2] && dk[a + 5] == ek[b - 1])
  {
    hide MulInv, AddInv;
    Slot(r, 0); Slot(r, 1); Slot(r, 2); Slot(r, 3); Slot(r, 4); Slot(r, 5);
  }

  /** The key layer of decryption round r undoes that of encryption round 8-r, through the swap when r is inside. */
  lemma KeyedInverse(x: State, ek: seq<Half>, r: nat)
    requires |ek| == 52 && r <= 8
    ensures r == 0 || r == 8 ==> Keyed(Keyed(x, ek, 8 - r), DecKeys(ek), r) == x
    ensures 0 < r < 8 ==> Keyed(Swap(Keyed(x, ek, 8 - r)), DecKeys(ek), r) == Swap(x)
  {
    hide KeyLayer, DecKeys, MulInv, AddInv;
    DecKeysOfRound(ek, r);
    var b := 6 * (8 - r);
    var k0, k1, k2, k3 := ek[b], ek[b + 1], ek[b + 2], ek[b + 3];
    if 0 < r < 8 {
      KeyLayerInverse(Swap(x), k0, k2, k1, k3);
      KeyLayerSwaps(x, k0, k1, k2, k3);
    } else {
      KeyLayerInverse(x, k0, k1, k2, k3);
    }
  }

  lemma KeyLayerSwaps(x: State, k0: Half, k1: Half, k2: Half, k3: Half)
    ensures Swap(KeyLayer(x, k0, k1, k2, k3)) == KeyLayer(Swap(x), k0, k2, k1, k3)
  {
  }

  lemma MixedInverse(x: State, ek: seq<Half>, r: nat)
    requires |ek| == 52 && r < 8
    ensures Mixed(Mixed(x, ek, 7 - r), DecKeys(ek), r) == x
  {
    hide MixLayer, DecKeys;
    DecKeysOfRound(ek, r);
    MixLayerInvolution(x, ek[6 * (7 - r) + 4], ek[6 * (7 - r) + 5]);
  }

  /** After r rounds of decryption the state is the keyed input of encryption round 8-r, swapped. */
  lemma {:induction false} DecryptionState(x: State, ek: seq<Half>, r: nat)
    requires |ek| == 52 && 1 <= r <= 8
    ensures Rounds(Crypt(x, ek), DecKeys(ek), r) == Swap(Keyed(Rounds(x, ek, 8 - r), ek, 8 - r))
  {
    hide Keyed, Mixed, DecKeys;
    var dk, c := DecKeys(ek), Crypt(x, ek);
    var before := Keyed(Rounds(x, ek, 8 - r), ek, 8 - r);
    assert Rounds(x, ek, 9 - r) == Swap(Mixed(before, ek, 8 - r));
    MixedInverse(before, ek, r - 1);
    if r == 1 {
      KeyedInverse(Swap(Rounds(x, ek, 8)), ek, 0);
      assert Rounds(c, dk, 0) == c;
    } else {
      DecryptionState(x, ek, r - 1);
      KeyedInverse(Rounds(x, ek, 9 - r), ek, r - 1);
    }
  }

  lemma DecKeysUndo(x: State, ek: seq<Half>)
    requires |ek| == 52
    ensures Crypt(Crypt(x, ek), DecKeys(ek)) == x
  {
    hide Keyed, DecKeys;
    DecryptionState(x, ek, 8);
    KeyedInverse(x, ek, 8);
  }

  /** Deriving decryption keys from decryption keys gives the encryption keys back. */
  lemma DecKeysTwice(ek: seq<Half>)
    requires |ek| == 52
    ensures DecKeys(DecKeys(ek)) == ek
  {
    hide DecKeys, MulInv, AddInv;
    var dk := DecKeys(ek);
    forall n | 0 <= n < 52
      ensures DecKeys(dk)[n] == ek[n]
    {
      var r, c := n / 6, n % 6;
      assert n == 6 * r + c;
      DecKeysOfRound(dk, r);
      DecKeysOfRound(ek, 8 - r);
      if r < 8 { DecKeysOfRound(ek, 7 - r); }
      InversesTwice(ek[n]);
    }
  }

  /** Running the block routine with the decryption keys undoes running it with any 52 encryption keys, and the other way
      round. */
  lemma CryptInverse(x: State, ek: seq<Half>)
    requires |ek| == 52
    ensures Crypt(Crypt(x, ek), DecKeys(ek)) == x
    ensures Crypt(Crypt(x, DecKeys(ek)), ek) == x
  {
    hide Crypt, DecKeys;
    DecKeysUndo(x, ek);
    DecKeysUndo(x, DecKeys(ek));
    DecKeysTwice(ek);
  }

  function CryptBytes(s: seq<byte>, m: seq<Half>): (r: seq<byte>)
    requires |s| == 8 && |m| == 52
    ensures |r| == 8
  {
    StoreState(Crypt(LoadState(s), m))
  }

  /** For every user key and every block. */
  lemma DecryptUndoesEncrypt(key: seq<byte>, s: seq<byte>)
    requires |key| == 16 && |s| == 8
    ensures CryptBytes(CryptBytes(s, EncKeys(key)), DecKeys(EncKeys(key))) == s
    ensures CryptBytes(CryptBytes(s, DecKeys(EncKeys(key))), EncKeys(key)) == s
  {
    hide Crypt, DecKeys, EncKeys, Load16, High, Low;
    var ek := EncKeys(key);
    var x := Crypt(LoadState(s), ek);
    CryptInverse(LoadState(s), ek);
    LoadStore16(x.x0);
    LoadStore16(x.x1);
    LoadStore16(x.x2);
    LoadStore16(x.x3);
    assert LoadState(StoreState(x)) == x;
    var y := Crypt(LoadState(s), DecKeys(ek));
    LoadStore16(y.x0);
    LoadStore16(y.x1);
    LoadStore16(y.x2);
    LoadStore16(y.x3);
    assert LoadState(StoreState(y)) == y;
    StoreLoad16(s[0], s[1]);
    StoreLoad16(s[2], s[3]);
    StoreLoad16(s[4], s[5]);
    StoreLoad16(s[6], s[7]);
    assert StoreState(LoadState(s)) == s;
  }

  // ---- the routines ----

  /** The first half of s_setup_key: the encryption keys in increasing order. */
  method SEncKeys(key: array<byte>, ek: array<Half>)
    requires key.Length >= 16 && ek.Length == 52 && key as object != ek
    modifies ek
    ensures ek[..] == EncKeys(key[..16])
  {
    hide Load16, EncKeys;
    ghost var key0 := key[..16];
    ghost var spec := EncKeys(key0);
    for i := 0 to 8
      invariant forall n | 0 <= n < i :: ek[n] == spec[n]
    {
      EncKeyLoaded(key0, i);
      ek[i] := Load16(key[2 * i], key[2 * i + 1]);
    }
    for i := 8 to 52
      invariant forall n | 0 <= n < i :: ek[n] == spec[n]
    {
      var j := (i - i % 8) - 8;
      EncKeyStep(key0, i);
      ek[i] := ((ek[j + (i + 1) % 8] as int) * 512) % 65536 + ek[j + (i + 2) % 8] / 128;
    }
    assert ek[..] == spec;
  }

  /** The second half: the decryption keys, round by round. */
  method SDecKeys(ek: array<Half>, dk: array<Half>)
    requires ek.Length == 52 && dk.Length == 52 && ek != dk
    modifies dk
    ensures dk[..] == DecKeys(ek[..])
  {
    hide MulInv, AddInv, DecKeys;
    ghost var e := ek[..];
    ghost var spec := DecKeys(e);
    for i := 0 to 8
      invariant forall n | 0 <= n < 6 * i :: dk[n] == spec[n]
    {
      DecKeysOfRound(e, i);
      dk[i * 6] := SMulInv(ek[(8 - i) * 6]);
      dk[i * 6 + 1] := SAddInv(ek[(8 - i) * 6 + 1 + (if i > 0 then 1 else 0)]);
      dk[i * 6 + 2] := SAddInv(ek[(8 - i) * 6 + 2 - (if i > 0 then 1 else 0)]);
      dk[i * 6 + 3] := SMulInv(ek[(8 - i) * 6 + 3]);
      dk[i * 6 + 4] := ek[(8 - 1 - i) * 6 + 4];
      dk[i * 6 + 5] := ek[(8 - 1 - i) * 6 + 5];
    }
    DecKeysOfRound(e, 8);
    dk[48] := SMulInv(ek[0]);
    dk[49] := SAddInv(ek[1]);
    dk[50] := SAddInv(ek[2]);
    dk[51] := SMulInv(ek[3]);
    assert dk[..] == spec;
  }

  /** s_setup_key. */
  method SSetupKey(key: array<byte>, ek: array<Half>, dk: array<Half>)
    requires key.Length >= 16 && ek.Length == 52 && dk.Length == 52 && ek != dk
    requires key as object != ek && key as object != dk
    modifies ek, dk
    ensures ek[..] == EncKeys(old(key[..16]))
    ensures dk[..] == DecKeys(EncKeys(old(key[..16])))
  {
    SEncKeys(key, ek);
    SDecKeys(ek, dk);
  }

  lemma EncKeyAt(key: seq<byte>, g: nat, c: nat)
    requires |key| == 16 && c < 8 && 8 * g + c < 52
    ensures EncKeys(key)[8 * g + c] == Group(KeyWords(key), g)[c]
  {
    assert (8 * g + c) / 8 == g && (8 * g + c) % 8 == c;
  }

  lemma NextGroupAt(s: seq<Half>, c: nat)
    requires |s| == 8 && c < 8
    ensures NextGroup(s)[c] == NextWord(s[(c + 1) % 8], s[(c + 2) % 8])
  {
  }

  lemma EncKeyFromGroup(key: seq<byte>, g: nat, c: nat)
    requires |key| == 16 && c < 8 && 8 <= 8 * g + c < 52
    ensures
      var j := 8 * (g - 1);
      EncKeys(key)[8 * g + c] == NextWord(EncKeys(key)[j + (c + 1) % 8], EncKeys(key)[j + (c + 2) % 8])
  {
    hide EncKeys, NextWord, NextGroup;
    NextGroupAt(Group(KeyWords(key), g - 1), c);
    EncKeyAt(key, g, c);
    EncKeyAt(key, g - 1, (c + 1) % 8);
    EncKeyAt(key, g - 1, (c + 2) % 8);
  }

  lemma EncKeysByGroup(key: seq<byte>, g: nat)
    requires |key| == 16 && g < 6
    ensures EncKeys(key)[8 * g..8 * g + 8] == Group(KeyWords(key), g)
  {
    hide EncKeys;
    forall c | 0 <= c < 8
      ensures EncKeys(key)[8 * g..8 * g + 8][c] == Group(KeyWords(key), g)[c]
    {
      EncKeyAt(key, g, c);
    }
  }

  /** The encryption keys are the user key, then the 128-bit key rotated by 25 again and again, cut after 52 words. */
  lemma EncKeysRotate(key: seq<byte>, g: nat)
    requires |key| == 16 && 1 <= g <= 6
    ensures EncKeys(key)[..8] == KeyWords(key)
    ensures g < 6 ==> Value(EncKeys(key)[8 * g..8 * g + 8]) == RotateLeft25(Value(EncKeys(key)[8 * (g - 1)..8 * g]))
    ensures EncKeys(key)[48..] == NextGroup(EncKeys(key)[40..48])[..4]
  {
    hide EncKeys, Value, RotateLeft25, NextGroup;
    var ek := EncKeys(key);
    EncKeysByGroup(key, 0);
    EncKeysByGroup(key, g - 1);
    assert 8 * (g - 1) + 8 == 8 * g;
    if g < 6 {
      EncKeysByGroup(key, g);
      NextGroupRotates(Group(KeyWords(key), g - 1));
    }
    EncKeysByGroup(key, 5);
    forall c | 0 <= c < 4
      ensures ek[48..][c] == NextGroup(ek[40..48])[..4][c]
    {
      EncKeyAt(key, 6, c);
      GroupUnfold(KeyWords(key), 6);
    }
  }

  lemma GroupUnfold(words: seq<Half>, g: nat)
    requires |words| == 8 && g > 0
    ensures Group(words, g) == NextGroup(Group(words, g - 1))
  {
  }

  lemma EncKeyLoaded(key: seq<byte>, i: nat)
    requires |key| == 16 && i < 8
    ensures EncKeys(key)[i] == Load16(key[2 * i], key[2 * i + 1])
  {
    EncKeyAt(key, 0, i);
  }

  /** The recurrence of the expansion loop, with its index arithmetic. */
  lemma EncKeyStep(key: seq<byte>, i: nat)
    requires |key| == 16 && 8 <= i < 52
    ensures
      var j := (i - i % 8) - 8;
      && 0 <= j + (i + 1) % 8 < i && 0 <= j + (i + 2) % 8 < i
      && EncKeys(key)[i] == ((EncKeys(key)[j + (i + 1) % 8] as int) * 512) % 65536 + EncKeys(key)[j + (i + 2) % 8] / 128
  {
    hide EncKeys, NextWord;
    var g, c := i / 8, i % 8;
    assert i == 8 * g + c && (i + 1) % 8 == (c + 1) % 8 && (i + 2) % 8 == (c + 2) % 8;
    EncKeyFromGroup(key, g, c);
    NextWordValue(EncKeys(key)[8 * (g - 1) + (c + 1) % 8], EncKeys(key)[8 * (g - 1) + (c + 2) % 8]);
  }

  lemma RoundsStart(x: State, m: seq<Half>)
    requires |m| == 52
    ensures Rounds(x, m, 0) == x
  {
  }

  lemma RoundUnfold(x: State, m: seq<Half>, r: nat)
    requires |m| == 52 && r < 8
    ensures Rounds(x, m, r + 1) == Swap(Mixed(Keyed(Rounds(x, m, r), m, r), m, r))
  {
  }

  /** The four LOAD16 and the four STORE16 around a block. */
  method ReadWords(a: array<byte>) returns (x0: Half, x1: Half, x2: Half, x3: Half)
    requires a.Length >= 8
    ensures State(x0, x1, x2, x3) == LoadState(a[..8])
  {
    hide Load16;
    x0, x1 := Load16(a[0], a[1]), Load16(a[2], a[3]);
    x2, x3 := Load16(a[4], a[5]), Load16(a[6], a[7]);
  }

  method StoreHalf(a: array<byte>, at: nat, x: Half)
    requires at + 2 <= a.Length
    modifies a
    ensures a[..at] == old(a[..at]) && a[at..at + 2] == [High(x), Low(x)] && a[at + 2..] == old(a[at + 2..])
  {
    hide High, Low;
    a[at] := High(x);
    a[at + 1] := Low(x);
  }

  method WriteWords(a: array<byte>, x0: Half, x1: Half, x2: Half, x3: Half)
    requires a.Length >= 8
    modifies a
    ensures a[..8] == StoreState(State(x0, x1, x2, x3)) && a[8..] == old(a[8..])
  {
    hide High, Low;
    ghost var a0 := a[..];
    StoreHalf(a, 0, x0);
    assert a[8..] == a[2..][6..] == a0[8..];
    StoreHalf(a, 2, x1);
    assert a[8..] == a[4..][4..] == a0[8..];
    assert a[..4] == a[..2] + a[2..4];
    StoreHalf(a, 4, x2);
    assert a[8..] == a[6..][2..] == a0[8..];
    assert a[..6] == a[..4] + a[4..6];
    StoreHalf(a, 6, x3);
    assert a[..8] == a[..6] + a[6..8];
    assert a[..8] == [High(x0), Low(x0)] + [High(x1), Low(x1)] + [High(x2), Low(x2)] + [High(x3), Low(x3)];
  }

  /** s_process_block; the buffers may be the same, since the block is loaded before anything is stored. */
  method SProcessBlock(input: array<byte>, output: array<byte>, m: array<Half>)
    requires input.Length >= 8 && output.Length >= 8 && m.Length == 52
    requires output as object != m
    modifies output
    ensures output[..8] == CryptBytes(old(input[..8]), m[..]) && output[8..] == old(output[8..])
  {
    hide Mul, Add, Xor, LoadState, StoreState, Rounds;
    ghost var x, keys := LoadState(input[..8]), m[..];
    RoundsStart(x, keys);
    var x0, x1, x2, x3 := ReadWords(input);
    for i := 0 to 8
      invariant State(x0, x1, x2, x3) == Rounds(x, keys, i)
      modifies {}
    {
      RoundUnfold(x, keys, i);
      x0 := MUL(x0, m[i * 6]);
      x1 := Add(x1, m[i * 6 + 1]);
      x2 := Add(x2, m[i * 6 + 2]);
      x3 := MUL(x3, m[i * 6 + 3]);
      var t0 := Xor(x0, x2);
      t0 := MUL(t0, m[i * 6 + 4]);
      var t1 := Add(t0, Xor(x1, x3));
      t1 := MUL(t1, m[i * 6 + 5]);
      t0 := Add(t0, t1);
      x0 := Xor(x0, t1);
      x3 := Xor(x3, t0);
      XorCommutes(t0, x1);
      t0 := Xor(t0, x1);
      x1 := Xor(x2, t1);
      x2 := t0;
    }
    x0 := MUL(x0, m[48]);
    x2 := Add(x2, m[49]);
    x1 := Add(x1, m[50]);
    x3 := MUL(x3, m[51]);
    assert State(x0, x2, x1, x3) == Crypt(x, keys);
    WriteWords(output, x0, x2, x1, x3);
  }

  /** The idea part of symmetric_key. */
  class Key {
    const ek: array<Half>
    const dk: array<Half>

    ghost predicate Valid() {
      ek.Length == 52 && dk.Length == 52 && ek != dk
    }

    constructor ()
      ensures Valid() && fresh(ek) && fresh(dk)
    {
      ek := new Half[52](i => 0);
      dk := new Half[52](i => 0);
    }

    ghost predicate Apart(buffer: array<byte>) {
      buffer as object != ek && buffer as object != dk
    }

    method Setup(key: array<byte>, keylen: int, numRounds: int) returns (status: Status)
      requires Valid() && Apart(key) && keylen <= key.Length
      modifies ek, dk
      ensures numRounds != 0 && numRounds != 8 ==> status == Words.InvalidRounds
      ensures (numRounds == 0 || numRounds == 8) && keylen != 16 ==> status == Words.InvalidKeysize
      ensures status != Words.Ok ==> ek[..] == old(ek[..]) && dk[..] == old(dk[..])
      ensures (numRounds == 0 || numRounds == 8) && keylen == 16 ==>
        && status == Words.Ok
        && ek[..] == EncKeys(old(key[..16]))
        && dk[..] == DecKeys(ek[..])
    {
      if numRounds != 0 && numRounds != 8 { return Words.InvalidRounds; }
      if keylen != 16 { return Words.InvalidKeysize; }
      SSetupKey(key, ek, dk);
      return Words.Ok;
    }

    method EcbEncrypt(pt: array<byte>, ct: array<byte>)
      requires Valid() && Apart(ct) && pt.Length >= 8 && ct.Length >= 8
      modifies ct
      ensures ct[..8] == CryptBytes(old(pt[..8]), ek[..]) && ct[8..] == old(ct[8..])
    {
      SProcessBlock(pt, ct, ek);
    }

    method EcbDecrypt(ct: array<byte>, pt: array<byte>)
      requires Valid() && Apart(pt) && ct.Length >= 8 && pt.Length >= 8
      modifies pt
      ensures pt[..8] == CryptBytes(old(ct[..8]), dk[..]) && pt[8..] == old(pt[8..])
    {
      SProcessBlock(ct, pt, dk);
    }
  }

  /** Set up, encrypt and decrypt one buffer in place. */
  method RoundTripInPlace(key: array<byte>, buffer: array<byte>)
    requires key.Length == 16 && buffer.Length == 8 && key != buffer
    modifies buffer
    ensures buffer[..] == old(buffer[..])
  {
    hide CryptBytes, DecKeys, EncKeys;
    var skey := new Key();
    var status := skey.Setup(key, 16, 8);
    ghost var s := buffer[..];
    assert buffer[..8] == s && key[..16] == key[..];
    skey.EcbEncrypt(buffer, buffer);
    skey.EcbDecrypt(buffer, buffer);
    DecryptUndoesEncrypt(key[..], s);
    assert buffer[..] == buffer[..8];
  }
}
