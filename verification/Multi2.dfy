/** MULTI2 (multi2.c): four round functions applied in rotation, any number of rounds. */
module Multi2 {
  import opened Words

  /** The four halves-mixing functions on the pair p[0], p[1]. */
  datatype Kind = Pi1 | Pi2 | Pi3 | Pi4

  function Mix2(x: Word, k0: Word): Word {
    var t := Add(x, k0);
    var u := Sub(Add(Rol(t, 1), t), Word(1));
    Xor(Rol(u, 4), u)
  }

  function Mix3(x: Word, k1: Word, k2: Word): Word {
    var t := Add(x, k1);
    var u := Add(Add(Rol(t, 2), t), Word(1));
    var v := Add(Xor(Rol(u, 8), u), k2);
    var w := Sub(Rol(v, 1), v);
    Xor(Rol(w, 16), Or(x, w))
  }

  function Mix4(x: Word, k3: Word): Word {
    var t := Add(x, k3);
    Add(Add(Rol(t, 2), t), Word(1))
  }

  /** One step: XOR one half with a function of the other half. */
  function Apply(kind: Kind, p: Block, k: seq<Word>): Block
    requires |k| == 4
  {
    match kind
    case Pi1 => Block(p.l, Xor(p.r, p.l))
    case Pi2 => Block(Xor(p.l, Mix2(p.r, k[0])), p.r)
    case Pi3 => Block(p.l, Xor(p.r, Mix3(p.l, k[1], k[2])))
    case Pi4 => Block(Xor(p.l, Mix4(p.r, k[3])), p.r)
  }

  lemma ApplyInvolution(kind: Kind, p: Block, k: seq<Word>)
    requires |k| == 4
    ensures Apply(kind, Apply(kind, p, k), k) == p
  {
    match kind
    case Pi1 => XorTwice(p.r, p.l);
    case Pi2 => XorTwice(p.l, Mix2(p.r, k[0]));
    case Pi3 => XorTwice(p.r, Mix3(p.l, k[1], k[2]));
    case Pi4 => XorTwice(p.l, Mix4(p.r, k[3]));
  }

  /** Step number n (from 0) uses function n mod 4 and, alternating every four steps,
      the lower or the upper four words of the working key. */
  function KindOf(n: nat): Kind {
    if n % 4 == 0 then Pi1 else if n % 4 == 1 then Pi2 else if n % 4 == 2 then Pi3 else Pi4
  }

  function KeyHalf(n: nat, uk: seq<Word>): (k: seq<Word>)
    requires |uk| == 8
    ensures |k| == 4
  {
    uk[KeyOffset(n)..KeyOffset(n) + 4]
  }

  function KeyOffset(n: nat): nat {
    4 * ((n / 4) % 2)
  }

  /** Four steps starting at a multiple of four run the four functions with the same key half. */
  lemma GroupOfFour(n: nat, uk: seq<Word>)
    requires n % 4 == 0 && |uk| == 8
    ensures KindOf(n) == Pi1 && KindOf(n + 1) == Pi2 && KindOf(n + 2) == Pi3 && KindOf(n + 3) == Pi4
    ensures KeyHalf(n, uk) == KeyHalf(n + 1, uk) == KeyHalf(n + 2, uk) == KeyHalf(n + 3, uk)
  {
    assert (n + 1) / 4 == (n + 2) / 4 == (n + 3) / 4 == n / 4;
  }

  function Step(n: nat, p: Block, uk: seq<Word>): Block
    requires |uk| == 8
  {
    Apply(KindOf(n), p, KeyHalf(n, uk))
  }

  /** Encryption: steps 0 .. n-1 in order. */
  function Forward(n: nat, p: Block, uk: seq<Word>): Block
    requires |uk| == 8
  {
    if n == 0 then p else Step(n - 1, Forward(n - 1, p, uk), uk)
  }

  /** Decryption: steps n-1 .. 0. */
  function Backward(n: nat, p: Block, uk: seq<Word>): Block
    requires |uk| == 8
  {
    if n == 0 then p else Backward(n - 1, Step(n - 1, p, uk), uk)
  }

  /** Whatever the number of rounds and the working key, the backward run undoes the forward run. */
  lemma {:induction false} BackwardUndoesForward(n: nat, p: Block, uk: seq<Word>)
    requires |uk| == 8
    ensures Backward(n, Forward(n, p, uk), uk) == p
  {
    hide Apply;
    if n > 0 {
      ApplyInvolution(KindOf(n - 1), Forward(n - 1, p, uk), KeyHalf(n - 1, uk));
      BackwardUndoesForward(n - 1, p, uk);
    }
  }

  /** ... and the forward run undoes the backward run, so every round count gives a permutation of the blocks. */
  lemma {:induction false} ForwardUndoesBackward(n: nat, p: Block, uk: seq<Word>)
    requires |uk| == 8
    ensures Forward(n, Backward(n, p, uk), uk) == p
  {
    hide Apply;
    if n > 0 {
      ForwardUndoesBackward(n - 1, Step(n - 1, p, uk), uk);
      ApplyInvolution(KindOf(n - 1), p, KeyHalf(n - 1, uk));
    }
  }

  /** Key setup runs nine steps keyed by the system key; every step but the first leaves its changed half in uk. */
  function Changed(kind: Kind, p: Block): Word {
    if kind == Pi1 || kind == Pi3 then p.r else p.l
  }

  function ScheduleWord(i: nat, dk: Block, k: seq<Word>): Word
    requires |k| == 8
  {
    Changed(KindOf(i + 1), ScheduleRun(i + 2, dk, k))
  }

  /** The schedule switches to the upper system-key words after its fifth step, one step later than the data path. */
  function ScheduleRun(n: nat, dk: Block, k: seq<Word>): Block
    requires |k| == 8
  {
    if n == 0 then dk
    else Apply(KindOf(n - 1), ScheduleRun(n - 1, dk, k), if n <= 5 then k[..4] else k[4..])
  }

  /** The nine steps of key setup, with the system-key half each one uses. */
  lemma ScheduleSteps(dk: Block, k: seq<Word>)
    requires |k| == 8
    ensures
      var run := (n: nat) => ScheduleRun(n, dk, k);
      var lo, hi := k[..4], k[4..];
      && run(0) == dk
      && run(1) == Apply(Pi1, run(0), lo) && run(2) == Apply(Pi2, run(1), lo)
      && run(3) == Apply(Pi3, run(2), lo) && run(4) == Apply(Pi4, run(3), lo)
      && run(5) == Apply(Pi1, run(4), lo) && run(6) == Apply(Pi2, run(5), hi)
      && run(7) == Apply(Pi3, run(6), hi) && run(8) == Apply(Pi4, run(7), hi)
      && run(9) == Apply(Pi1, run(8), hi)
  {
    hide Apply;
  }

  function WorkingKey(dk: Block, k: seq<Word>): (uk: seq<Word>)
    requires |k| == 8
    ensures |uk| == 8
  {
    seq(8, i requires 0 <= i < 8 => ScheduleWord(i, dk, k))
  }

  lemma WorkingKeyWords(dk: Block, k: seq<Word>)
    requires |k| == 8
    ensures
      var run := (n: nat) => ScheduleRun(n, dk, k);
      WorkingKey(dk, k) == [run(2).l, run(3).r, run(4).l, run(5).r, run(6).l, run(7).r, run(8).l, run(9).r]
  {
    hide ScheduleRun;
  }

  // ---- the routines ----

  ghost function Pair(p: array<Word>): Block
    requires p.Length == 2
    reads p
  {
    Block(p[0], p[1])
  }

  /** The first function uses no key; `k` only names the key its contract mentions. */
  method SPi1(p: array<Word>, ghost k: seq<Word>)
    requires p.Length == 2 && |k| == 4
    modifies p
    ensures Pair(p) == Apply(Pi1, old(Pair(p)), k)
  {
    p[1] := Xor(p[1], p[0]);
  }

  method SPi2(p: array<Word>, k: seq<Word>)
    requires p.Length == 2 && |k| == 4
    modifies p
    ensures Pair(p) == Apply(Pi2, old(Pair(p)), k)
  {
    var t := Add(p[1], k[0]);
    t := Sub(Add(Rol(t, 1), t), Word(1));
    t := Xor(Rol(t, 4), t);
    p[0] := Xor(p[0], t);
  }

  method SPi3(p: array<Word>, k: seq<Word>)
    requires p.Length == 2 && |k| == 4
    modifies p
    ensures Pair(p) == Apply(Pi3, old(Pair(p)), k)
  {
    var t := Add(p[0], k[1]);
    t := Add(Add(Rol(t, 2), t), Word(1));
    t := Xor(Rol(t, 8), t);
    t := Add(t, k[2]);
    t := Sub(Rol(t, 1), t);
    t := Xor(Rol(t, 16), Or(p[0], t));
    p[1] := Xor(p[1], t);
  }

  method SPi4(p: array<Word>, k: seq<Word>)
    requires p.Length == 2 && |k| == 4
    modifies p
    ensures Pair(p) == Apply(Pi4, old(Pair(p)), k)
  {
    var t := Add(p[1], k[3]);
    t := Add(Add(Rol(t, 2), t), Word(1));
    p[0] := Xor(p[0], t);
  }

  /** The first five steps of key setup, under the low half of the system key. */
  method SSetupLow(p: array<Word>, dk: Block, k: seq<Word>, uk: array<Word>)
    requires p.Length == 2 && |k| == 8 && uk.Length == 8 && p != uk && Pair(p) == dk
    modifies p, uk
    ensures Pair(p) == ScheduleRun(5, dk, k)
    ensures uk[0] == ScheduleRun(2, dk, k).l && uk[1] == ScheduleRun(3, dk, k).r
    ensures uk[2] == ScheduleRun(4, dk, k).l && uk[3] == ScheduleRun(5, dk, k).r
  {
    hide Apply, ScheduleRun;
    var lo := k[..4];
    var n := 0;
    ScheduleSteps(dk, k);
    SPi1(p, lo);
    SPi2(p, lo);
    uk[n] := p[0]; n := n + 1;
    SPi3(p, lo);
    uk[n] := p[1]; n := n + 1;
    SPi4(p, lo);
    uk[n] := p[0]; n := n + 1;
    SPi1(p, lo);
    uk[n] := p[1]; n := n + 1;
  }

  /** The last four steps, under the high half. */
  method SSetupHigh(p: array<Word>, dk: Block, k: seq<Word>, uk: array<Word>)
    requires p.Length == 2 && |k| == 8 && uk.Length == 8 && p != uk && Pair(p) == ScheduleRun(5, dk, k)
    modifies p, uk
    ensures uk[..4] == old(uk[..4])
    ensures uk[4] == ScheduleRun(6, dk, k).l && uk[5] == ScheduleRun(7, dk, k).r
    ensures uk[6] == ScheduleRun(8, dk, k).l && uk[7] == ScheduleRun(9, dk, k).r
  {
    hide Apply, ScheduleRun;
    var hi := k[4..];
    var n := 4;
    ScheduleSteps(dk, k);
    SPi2(p, hi);
    uk[n] := p[0]; n := n + 1;
    SPi3(p, hi);
    uk[n] := p[1]; n := n + 1;
    SPi4(p, hi);
    uk[n] := p[0]; n := n + 1;
    SPi1(p, hi);
    uk[n] := p[1]; n := n + 1;
  }

  method SSetup(dk: Block, k: seq<Word>, uk: array<Word>)
    requires |k| == 8 && uk.Length == 8
    modifies uk
    ensures uk[..] == WorkingKey(dk, k)
  {
    hide ScheduleRun, WorkingKey;
    var p := new Word[2](i => Word(0));
    p[0], p[1] := dk.l, dk.r;
    SSetupLow(p, dk, k, uk);
    ghost var low := uk[..4];
    SSetupHigh(p, dk, k, uk);
    assert uk[0] == low[0] && uk[1] == low[1] && uk[2] == low[2] && uk[3] == low[3];
    assert uk[..] == [uk[0], uk[1], uk[2], uk[3], uk[4], uk[5], uk[6], uk[7]];
    WorkingKeyWords(dk, k);
  }

  lemma ForwardStart(p: Block, uk: seq<Word>)
    requires |uk| == 8
    ensures Forward(0, p, uk) == p
  {
  }

  /** Four encryption steps under one key half. */
  lemma ForwardSteps(n: nat, p: Block, uk: seq<Word>)
    requires n % 4 == 0 && |uk| == 8
    ensures
      var k := KeyHalf(n, uk);
      && Forward(n + 1, p, uk) == Apply(Pi1, Forward(n, p, uk), k)
      && Forward(n + 2, p, uk) == Apply(Pi2, Forward(n + 1, p, uk), k)
      && Forward(n + 3, p, uk) == Apply(Pi3, Forward(n + 2, p, uk), k)
      && Forward(n + 4, p, uk) == Apply(Pi4, Forward(n + 3, p, uk), k)
  {
    hide Apply;
    GroupOfFour(n, uk);
  }

  lemma OffsetValue(n: nat)
    ensures KeyOffset(n) == 4 * ((n / 4) % 2)
  {
  }

  /** A switch pass undoes the group of steps first .. n-1: one of each kind, under one key half;
      the group before it uses the other half. */
  lemma SwitchPass(first: nat, n: nat, uk: seq<Word>)
    requires first % 4 == 0 && first < n <= first + 4 && |uk| == 8
    ensures n - first == if n <= 4 then n else (n - 1) % 4 + 1
    ensures KindOf(first) == Pi1 && KindOf(first + 1) == Pi2 && KindOf(first + 2) == Pi3 && KindOf(first + 3) == Pi4
    ensures KeyHalf(first, uk) == KeyHalf(first + 1, uk) == KeyHalf(first + 2, uk) == KeyHalf(first + 3, uk)
    ensures KeyHalf(first, uk) == uk[KeyOffset(n - 1)..KeyOffset(n - 1) + 4]
    ensures KeyOffset(first) == KeyOffset(n - 1)
    ensures first > 0 ==> KeyOffset(first - 1) == 4 - KeyOffset(n - 1)
  {
    GroupOfFour(first, uk);
    assert (n - 1) / 4 == first / 4;
  }

  method SEncrypt(p: array<Word>, rounds: int, uk: seq<Word>)
    requires p.Length == 2 && rounds >= 1 && |uk| == 8
    modifies p
    ensures Pair(p) == Forward(rounds, old(Pair(p)), uk)
  {
    hide *;
    var n, t := 0, 0;
    OffsetValue(0);
    ghost var p0 := Pair(p);
    ForwardStart(p0, uk);
    while true
      invariant n % 4 == 0 && 0 <= n < rounds
      invariant t == KeyOffset(n) && (t == 0 || t == 4)
      invariant Pair(p) == Forward(n, p0, uk)
      decreases rounds - n
    {
      var k := uk[t..t + 4];
      SwitchPass(n, n + 1, uk);
      ForwardSteps(n, p0, uk);
      SPi1(p, k); n := n + 1; if n == rounds { break; }
      SPi2(p, k); n := n + 1; if n == rounds { break; }
      SPi3(p, k); n := n + 1; if n == rounds { break; }
      SPi4(p, k); n := n + 1; if n == rounds { break; }
      SwitchPass(n - 4, n, uk);
      SwitchPass(n, n + 1, uk);
      t := if t == 0 then 4 else 0;
    }
  }

  lemma BackwardStep(n: nat, p: Block, uk: seq<Word>)
    requires n > 0 && |uk| == 8
    ensures Backward(n, p, uk) == Backward(n - 1, Apply(KindOf(n - 1), p, KeyHalf(n - 1, uk)), uk)
  {
  }

  lemma BackwardDone(p: Block, uk: seq<Word>)
    requires |uk| == 8
    ensures Backward(0, p, uk) == p
  {
  }

  /** The switch is entered at the label of the step to undo next and falls through to label 1;
      `entry` is the switch value, lowered as control falls through. */
  method SDecrypt(p: array<Word>, rounds: int, uk: seq<Word>)
    requires p.Length == 2 && rounds >= 1 && |uk| == 8
    modifies p
    ensures Pair(p) == Backward(rounds, old(Pair(p)), uk)
  {
    hide *;
    var n, t := rounds, 4 * (((rounds - 1) / 4) % 2);
    OffsetValue(rounds - 1);
    ghost var p0 := Pair(p);
    while true
      invariant 0 <= n <= rounds
      invariant n > 0 ==> t == KeyOffset(n - 1)
      invariant t == 0 || t == 4
      invariant n < rounds ==> n % 4 == 0
      invariant Backward(n, Pair(p), uk) == Backward(rounds, p0, uk)
      decreases n
    {
      var entry := if n <= 4 then n else (n - 1) % 4 + 1;
      if entry == 0 { BackwardDone(Pair(p), uk); return; }
      var k := uk[t..t + 4];
      SwitchPass(n - entry, n, uk);
      if entry == 4 {
        BackwardStep(n, Pair(p), uk);
        SPi4(p, k); n := n - 1; entry := 3;
      }
      if entry == 3 {
        BackwardStep(n, Pair(p), uk);
        SPi3(p, k); n := n - 1; entry := 2;
      }
      if entry == 2 {
        BackwardStep(n, Pair(p), uk);
        SPi2(p, k); n := n - 1; entry := 1;
      }
      BackwardStep(n, Pair(p), uk);
      SPi1(p, k); n := n - 1;
      t := if t == 0 then 4 else 0;
    }
  }

  // ---- the cipher on bytes ----

  /** Loads eight big-endian words. */
  function LoadWords(s: seq<byte>): (r: seq<Word>)
    requires |s| == 32
    ensures |r| == 8
  {
    seq(8, i requires 0 <= i < 8 => Load32(s[4 * i..4 * i + 4]))
  }

  /** The working key of a 40-byte key: eight system-key words, then the two words they act on. */
  function KeySchedule(key: seq<byte>): (uk: seq<Word>)
    requires |key| == 40
    ensures |uk| == 8
  {
    WorkingKey(LoadBlock(key[32..]), LoadWords(key[..32]))
  }

  function EncryptBytes(rounds: nat, uk: seq<Word>, s: seq<byte>): (r: seq<byte>)
    requires |uk| == 8 && |s| == 8
    ensures |r| == 8
  {
    StoreBlock(Forward(rounds, LoadBlock(s), uk))
  }

  function DecryptBytes(rounds: nat, uk: seq<Word>, s: seq<byte>): (r: seq<byte>)
    requires |uk| == 8 && |s| == 8
    ensures |r| == 8
  {
    StoreBlock(Backward(rounds, LoadBlock(s), uk))
  }

  /** Decryption undoes encryption on every block, and encryption undoes decryption. */
  lemma DecryptUndoesEncrypt(rounds: nat, uk: seq<Word>, s: seq<byte>)
    requires |uk| == 8 && |s| == 8
    ensures DecryptBytes(rounds, uk, EncryptBytes(rounds, uk, s)) == s
    ensures EncryptBytes(rounds, uk, DecryptBytes(rounds, uk, s)) == s
  {
    var b := LoadBlock(s);
    StoreLoadBlock(s);
    LoadStoreBlock(Forward(rounds, b, uk));
    LoadStoreBlock(Backward(rounds, b, uk));
    BackwardUndoesForward(rounds, b, uk);
    ForwardUndoesBackward(rounds, b, uk);
  }

  /** The multi2 part of symmetric_key. */
  class Key {
    var rounds: int
    const uk: array<Word>

    ghost predicate Valid() {
      uk.Length == 8
    }

    /** A caller's buffer is not the key's own memory. */
    ghost predicate Apart(buffer: array<byte>) {
      buffer as object != uk
    }

    constructor ()
      ensures Valid() && fresh(uk)
    {
      uk := new Word[8](i => Word(0));
    }

    method Setup(key: array<byte>, keylen: int, numRounds: int) returns (status: Status)
      requires Valid() && keylen <= key.Length
      modifies this, uk
      ensures keylen != 40 ==> status == InvalidKeysize && rounds == old(rounds) && uk[..] == old(uk[..])
      ensures keylen == 40 ==>
        && status == Ok
        && rounds == (if numRounds == 0 then 128 else numRounds)
        && uk[..] == KeySchedule(old(key[..40]))
    {
      hide Load32, WorkingKey;
      if keylen != 40 { return InvalidKeysize; }
      rounds := if numRounds == 0 then 128 else numRounds;
      var sk: seq<Word> := [];
      for x := 0 to 8
        modifies {}
        invariant |sk| == x
        invariant forall i | 0 <= i < x :: sk[i] == Load32(key[4 * i..4 * i + 4])
      {
        var w := LoadWord(key, 4 * x);
        sk := sk + [w];
      }
      assert sk == LoadWords(key[..32]) by {
        forall i | 0 <= i < 8
          ensures sk[i] == LoadWords(key[..32])[i]
        {
          assert key[..32][4 * i..4 * i + 4] == key[4 * i..4 * i + 4];
        }
      }
      var l := LoadWord(key, 32);
      var r := LoadWord(key, 36);
      assert key[..40][32..][..4] == key[32..36] && key[..40][32..][4..] == key[36..40];
      assert key[..40][..32] == key[..32];
      SSetup(Block(l, r), sk, uk);
      return Ok;
    }

    /** pt and ct may be the same buffer. */
    method EcbEncrypt(pt: array<byte>, ct: array<byte>)
      requires Valid() && Apart(ct) && rounds >= 1 && pt.Length >= 8 && ct.Length >= 8
      modifies ct
      ensures ct[..8] == EncryptBytes(rounds, uk[..], old(pt[..8])) && ct[8..] == old(ct[8..])
    {
      hide LoadBlock, StoreBlock;
      var b := ReadBlock(pt);
      var p := new Word[2](i => Word(0));
      p[0], p[1] := b.l, b.r;
      assert Pair(p) == b;
      SEncrypt(p, rounds, uk[..]);
      assert Block(p[0], p[1]) == Forward(rounds, b, uk[..]);
      WriteBlock(ct, Block(p[0], p[1]));
    }

    method EcbDecrypt(ct: array<byte>, pt: array<byte>)
      requires Valid() && Apart(pt) && rounds >= 1 && ct.Length >= 8 && pt.Length >= 8
      modifies pt
      ensures pt[..8] == DecryptBytes(rounds, uk[..], old(ct[..8])) && pt[8..] == old(pt[8..])
    {
      hide LoadBlock, StoreBlock;
      var b := ReadBlock(ct);
      var p := new Word[2](i => Word(0));
      p[0], p[1] := b.l, b.r;
      assert Pair(p) == b;
      SDecrypt(p, rounds, uk[..]);
      assert Block(p[0], p[1]) == Backward(rounds, b, uk[..]);
      WriteBlock(pt, Block(p[0], p[1]));
    }
  }

  /** The self-test's scenario with one buffer for plaintext and ciphertext: set up, encrypt, decrypt. */
  method RoundTripInPlace(key: array<byte>, numRounds: int, buffer: array<byte>)
    requires key.Length == 40 && numRounds >= 0 && buffer.Length == 8 && key != buffer
    modifies buffer
    ensures buffer[..] == old(buffer[..])
  {
    var skey := new Key();
    var status := skey.Setup(key, 40, numRounds);
    ghost var s := buffer[..];
    assert buffer[..8] == s;
    skey.EcbEncrypt(buffer, buffer);
    skey.EcbDecrypt(buffer, buffer);
    DecryptUndoesEncrypt(skey.rounds, skey.uk[..], s);
    assert buffer[..] == buffer[..8];
  }
}
