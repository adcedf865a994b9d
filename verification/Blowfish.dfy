/** Blowfish (blowfish.c): the cipher as a Feistel chain, and what the key expansion depends on. The state is one
    sequence: the 18 words of K, then the four rows of S. The initial tables are arbitrary. */
module Blowfish {
  import opened Words
  import opened Feistel
  import M = Fermat

  type State = s: seq<Word> | |s| == 1042 witness seq(1042, i => Word(0))

  // ---- the cipher ----

  function Box(st: State, row: nat, b: byte): Word
    requires row < 4
  {
    st[18 + 256 * row + b as int]
  }

  function F(st: State, x: Word): Word {
    Add(Xor(Add(Box(st, 0, ByteAt(x, 24)), Box(st, 1, ByteAt(x, 16))), Box(st, 2, ByteAt(x, 8))), Box(st, 3, ByteAt(x, 0)))
  }

  /** Each of the 16 rounds adds a key word into one half and then F of that half into the other;
      the last two steps add the two last key words. */
  function Term(st: State, j: nat, x: Word): Word {
    if j == 33 then st[17] else if j >= 34 then Word(0) else if j % 2 == 0 then st[j / 2] else F(st, x)
  }

  function BlowfishChain(st: State): Chain<Word> {
    Chain(Xor, j => j % 4 == 0 || j % 4 == 3, (j, x) => Term(st, j, x))
  }

  lemma ChainStep(st: State, j: nat, b: Halves<Word>)
    requires j < 34
    ensures Step(BlowfishChain(st), j, b) ==
      if j % 4 == 0 || j % 4 == 3 then Halves(Xor(b.l, Term(st, j, b.r)), b.r) else Halves(b.l, Xor(b.r, Term(st, j, b.l)))
  {
    hide Term, Xor;
  }

  function Encipher(st: State, b: Halves<Word>): Halves<Word> {
    Exchange(Run(BlowfishChain(st), 34, b))
  }

  function Decipher(st: State, b: Halves<Word>): Halves<Word> {
    Unrun(BlowfishChain(st), 34, Exchange(b))
  }

  /** For every state, deciphering undoes enciphering, and enciphering undoes deciphering. */
  lemma DecipherInverts(st: State, b: Halves<Word>)
    ensures Decipher(st, Encipher(st, b)) == b
    ensures Encipher(st, Decipher(st, b)) == b
  {
    hide BlowfishChain, Run, Unrun, Cancels;
    var c := BlowfishChain(st);
    assert c.plus == Xor by { ChainPlus(st); }
    XorCancels(c);
    UnrunUndoesRun(c, 34, b);
    UnrunUndoesRun(c, 34, Exchange(b));
  }

  lemma ChainPlus(st: State)
    ensures BlowfishChain(st).plus == Xor
  {
  }

  // ---- key expansion ----

  /** Byte i of d repeated without end. */
  function Cyclic(d: seq<byte>, i: nat): byte
    requires |d| > 0
  {
    d[i % |d|]
  }

  /** Word t of the repeated bytes. */
  function StreamWord(d: seq<byte>, t: nat): Word
    requires |d| > 0
  {
    Pack32(Cyclic(d, 4 * t), Cyclic(d, 4 * t + 1), Cyclic(d, 4 * t + 2), Cyclic(d, 4 * t + 3))
  }

  /** The additional data: absent, or a non-empty byte string. */
  datatype Data = Null | Bytes(d: seq<byte>)
  {
    predicate Valid() { Bytes? ==> |d| > 0 }
  }

  function AddData(data: Data, j: nat, b: Halves<Word>): Halves<Word>
    requires data.Valid()
  {
    match data
    case Null => b
    case Bytes(d) => Halves(Xor(b.l, StreamWord(d, 2 * j)), Xor(b.r, StreamWord(d, 2 * j + 1)))
  }

  function AddKey(st: State, key: seq<byte>): (r: State)
    requires |key| > 0
  {
    seq(1042, x requires 0 <= x < 1042 => if x < 18 then Xor(st[x], StreamWord(key, x)) else st[x])
  }

  /** The state after overwriting its first n pairs, and the last pair. */
  function Fill(st: State, data: Data, n: nat): (r: (State, Halves<Word>))
    requires data.Valid() && n <= 521
  {
    if n == 0 then (st, Halves(Word(0), Word(0)))
    else
      var (s, b) := Fill(st, data, n - 1);
      var e := Encipher(s, AddData(data, n - 1, b));
      (s[2 * (n - 1) := e.l][2 * (n - 1) + 1 := e.r], e)
  }

  function Expand(st: State, key: seq<byte>, data: Data): State
    requires |key| > 0 && data.Valid()
  {
    Fill(AddKey(st, key), data, 521).0
  }

  // ---- what the expansion depends on ----

  /** The first n bytes of d repeated without end. */
  function Stretched(d: seq<byte>, n: nat): (s: seq<byte>)
    requires |d| > 0
    ensures |s| == n
  {
    seq(n, i requires 0 <= i < n => Cyclic(d, i))
  }

  lemma StreamWordSame(d: seq<byte>, e: seq<byte>, n: nat, t: nat)
    requires |d| > 0 && |e| > 0 && Stretched(d, n) == Stretched(e, n) && 4 * t + 4 <= n
    ensures StreamWord(d, t) == StreamWord(e, t)
  {
    hide Cyclic, Pack32;
    forall i | 0 <= i < n
      ensures Cyclic(d, i) == Cyclic(e, i)
    {
      assert Stretched(d, n)[i] == Stretched(e, n)[i];
    }
  }

  /** Only the first 72 bytes of the repeated key matter ... */
  lemma KeyBytesUsed(st: State, k1: seq<byte>, k2: seq<byte>, data: Data)
    requires |k1| > 0 && |k2| > 0 && data.Valid() && Stretched(k1, 72) == Stretched(k2, 72)
    ensures Expand(st, k1, data) == Expand(st, k2, data)
  {
    hide StreamWord, Stretched, Fill;
    forall x | 0 <= x < 18
      ensures StreamWord(k1, x) == StreamWord(k2, x)
    {
      StreamWordSame(k1, k2, 72, x);
    }
    assert AddKey(st, k1) == AddKey(st, k2);
  }

  /** ... and all of those do: they can be read back from the keyed state. */
  lemma KeyedStateDetermines(st: State, k1: seq<byte>, k2: seq<byte>)
    requires |k1| > 0 && |k2| > 0
    ensures AddKey(st, k1) == AddKey(st, k2) <==> Stretched(k1, 72) == Stretched(k2, 72)
  {
    hide Pack32, Cyclic, ByteAt, Xor;
    var s1, s2 := AddKey(st, k1), AddKey(st, k2);
    if s1 == s2 {
      forall i | 0 <= i < 72
        ensures Cyclic(k1, i) == Cyclic(k2, i)
      {
        var x := i / 4;
        assert s1[x] == s2[x];
        AddedWordDetermines(st[x], StreamWord(k1, x), StreamWord(k2, x));
        StreamWordBytes(k1, k2, x);
        assert i == 4 * x || i == 4 * x + 1 || i == 4 * x + 2 || i == 4 * x + 3;
      }
      assert Stretched(k1, 72) == Stretched(k2, 72);
    }
    if Stretched(k1, 72) == Stretched(k2, 72) {
      forall x | 0 <= x < 18
        ensures StreamWord(k1, x) == StreamWord(k2, x)
      {
        StreamWordSame(k1, k2, 72, x);
      }
      assert s1 == s2;
    }
  }

  lemma AddedWordDetermines(c: Word, x: Word, y: Word)
    requires Xor(c, x) == Xor(c, y)
    ensures x == y
  {
    hide Xor;
    XorCommutes(c, x);
    XorCommutes(c, y);
    XorTwice(x, c);
    XorTwice(y, c);
  }

  lemma StreamWordBytes(d: seq<byte>, e: seq<byte>, t: nat)
    requires |d| > 0 && |e| > 0 && StreamWord(d, t) == StreamWord(e, t)
    ensures Cyclic(d, 4 * t) == Cyclic(e, 4 * t) && Cyclic(d, 4 * t + 1) == Cyclic(e, 4 * t + 1)
    ensures Cyclic(d, 4 * t + 2) == Cyclic(e, 4 * t + 2) && Cyclic(d, 4 * t + 3) == Cyclic(e, 4 * t + 3)
  {
    hide Cyclic, Pack32, ByteAt;
    PackBytes(Cyclic(d, 4 * t), Cyclic(d, 4 * t + 1), Cyclic(d, 4 * t + 2), Cyclic(d, 4 * t + 3));
    PackBytes(Cyclic(e, 4 * t), Cyclic(e, 4 * t + 1), Cyclic(e, 4 * t + 2), Cyclic(e, 4 * t + 3));
  }

  function Repeated(d: seq<byte>, m: nat): seq<byte> {
    if m == 0 then [] else d + Repeated(d, m - 1)
  }

  lemma {:induction false} RepeatedAt(d: seq<byte>, m: nat, i: nat)
    requires |d| > 0
    ensures |Repeated(d, m)| == m * |d|
    ensures i < m * |d| ==> Repeated(d, m)[i] == Cyclic(d, i)
    decreases m
  {
    if m > 0 {
      RepeatedAt(d, m - 1, if i >= |d| then i - |d| else 0);
      if |d| <= i { ModDrop(i, |d|); } else { ModSmall(i, |d|); }
    }
  }

  lemma ModSmall(i: nat, n: nat)
    requires i < n
    ensures i % n == i
  {
  }

  lemma ModDrop(i: nat, n: nat)
    requires 0 < n <= i
    ensures (i - n) % n == i % n
  {
    M.ModShift(i, -1, n);
  }

  lemma ModOfMultiple(i: nat, m: nat, n: nat)
    requires m > 0 && n > 0
    ensures (i % (m * n)) % n == i % n
  {
    var q, r := i / (m * n), i % (m * n);
    assert i == r + n * (q * m) by { assert i == (m * n) * q + r; }
    M.ModShift(r, q * m, n);
  }

  lemma RepeatedCyclic(d: seq<byte>, m: nat, i: nat)
    requires |d| > 0 && m > 0
    ensures |Repeated(d, m)| == m * |d| > 0
    ensures Cyclic(Repeated(d, m), i) == Cyclic(d, i)
  {
    RepeatedAt(d, m, i % (m * |d|));
    ModOfMultiple(i, m, |d|);
  }

  lemma StretchedRepeated(d: seq<byte>, m: nat, n: nat)
    requires |d| > 0 && m > 0
    ensures |Repeated(d, m)| > 0 && Stretched(Repeated(d, m), n) == Stretched(d, n)
  {
    hide Repeated, Cyclic;
    RepeatedCyclic(d, m, 0);
    forall i | 0 <= i < n
      ensures Cyclic(Repeated(d, m), i) == Cyclic(d, i)
    {
      RepeatedCyclic(d, m, i);
    }
  }

  /** A key and any repetition of it expand to the same state. */
  lemma RepeatedKey(st: State, key: seq<byte>, m: nat, data: Data)
    requires |key| > 0 && m > 0 && data.Valid()
    ensures |Repeated(key, m)| > 0 && Expand(st, Repeated(key, m), data) == Expand(st, key, data)
  {
    hide Expand, Repeated, Stretched;
    StretchedRepeated(key, m, 72);
    KeyBytesUsed(st, Repeated(key, m), key, data);
  }

  /** Key bytes past the first 72 are ignored. */
  lemma LongKey(st: State, key: seq<byte>, data: Data)
    requires |key| >= 72 && data.Valid()
    ensures Expand(st, key, data) == Expand(st, key[..72], data)
  {
    hide Expand;
    assert Stretched(key, 72) == Stretched(key[..72], 72);
    KeyBytesUsed(st, key, key[..72], data);
  }

  /** Only the first 4168 bytes of the repeated data matter, two words for each of the 521 pairs. */
  lemma {:induction false} DataBytesUsed(st: State, d: seq<byte>, e: seq<byte>, n: nat)
    requires |d| > 0 && |e| > 0 && n <= 521 && Stretched(d, 4168) == Stretched(e, 4168)
    ensures Fill(st, Bytes(d), n) == Fill(st, Bytes(e), n)
    decreases n
  {
    hide Encipher, Stretched, StreamWord;
    if n > 0 {
      DataBytesUsed(st, d, e, n - 1);
      StreamWordSame(d, e, 4168, 2 * (n - 1));
      StreamWordSame(d, e, 4168, 2 * (n - 1) + 1);
    }
  }

  /** Data and any repetition of it expand to the same state. */
  lemma RepeatedData(st: State, key: seq<byte>, d: seq<byte>, m: nat)
    requires |key| > 0 && |d| > 0 && m > 0
    ensures |Repeated(d, m)| > 0 && Expand(st, key, Bytes(Repeated(d, m))) == Expand(st, key, Bytes(d))
  {
    hide Fill, AddKey, Repeated, Stretched;
    StretchedRepeated(d, m, 4168);
    DataBytesUsed(AddKey(st, key), Repeated(d, m), d, 521);
  }

  function Zeros(n: nat): (s: seq<byte>)
    ensures |s| == n
  {
    seq(n, i => 0)
  }

  lemma AddZero(x: Word)
    ensures Xor(x, Pack32(0, 0, 0, 0)) == x
  {
  }

  lemma {:induction false} FillWithZeros(st: State, n: nat, len: nat)
    requires n <= 521 && len > 0
    ensures Fill(st, Bytes(Zeros(len)), n) == Fill(st, Null, n)
    decreases n
  {
    hide Encipher, Pack32, Xor;
    if n > 0 {
      FillWithZeros(st, n - 1, len);
      var b := Fill(st, Null, n - 1).1;
      AddZero(b.l);
      AddZero(b.r);
    }
  }

  /** All-zero data of any positive length has the effect of no data at all. */
  lemma ZeroData(st: State, key: seq<byte>, len: nat)
    requires |key| > 0 && len > 0
    ensures Expand(st, key, Bytes(Zeros(len))) == Expand(st, key, Null)
  {
    hide Fill, AddKey;
    FillWithZeros(AddKey(st, key), 521, len);
  }

  // ---- seen from outside ----

  /** F by the places of its four table entries. */
  lemma FEntries(st: State, x: Word)
    ensures F(st, x) == Add(Xor(Add(st[18 + ByteAt(x, 24) as int], st[274 + ByteAt(x, 16) as int]), st[530 + ByteAt(x, 8) as int]),
                            st[786 + ByteAt(x, 0) as int])
  {
    hide Add, Xor, ByteAt;
  }

  lemma RoundAdds(st: State, b: Halves<Word>, r: nat)
    requires r < 16
    ensures
      var p, q := Run(BlowfishChain(st), 2 * r, b), Run(BlowfishChain(st), 2 * r + 2, b);
      if r % 2 == 0 then Xor(p.l, q.l) == st[r] && Xor(p.r, q.r) == F(st, q.l)
      else Xor(p.r, q.r) == st[r] && Xor(p.l, q.l) == F(st, q.r)
  {
    hide Run, F, Xor, BlowfishChain;
    var c := BlowfishChain(st);
    var p := Run(c, 2 * r, b);
    RunNext(c, 2 * r, b);
    RunNext(c, 2 * r + 1, b);
    ChainStep(st, 2 * r, p);
    ChainStep(st, 2 * r + 1, Run(c, 2 * r + 1, b));
    Turns(r);
    var q := Run(c, 2 * r + 2, b);
    assert 2 * r + 1 + 1 == 2 * r + 2;
    XorDifference(p.l, if r % 2 == 0 then st[r] else F(st, q.r));
    XorDifference(p.r, if r % 2 == 0 then F(st, q.l) else st[r]);
  }

  /** Round r adds the r-th word of K into one half, and into the other one the table entries for the four bytes of the changed
      half: the first two added, the third by exclusive or, the last added. The halves take turns. */
  lemma RoundSeenFromOutside(st: State, b: Halves<Word>, r: nat)
    requires r < 16
    ensures
      var p, q := Run(BlowfishChain(st), 2 * r, b), Run(BlowfishChain(st), 2 * r + 2, b);
      var x := if r % 2 == 0 then q.l else q.r;
      && (if r % 2 == 0 then Xor(p.l, q.l) else Xor(p.r, q.r)) == st[r]
      && (if r % 2 == 0 then Xor(p.r, q.r) else Xor(p.l, q.l))
         == Add(Xor(Add(st[18 + ByteAt(x, 24) as int], st[274 + ByteAt(x, 16) as int]), st[530 + ByteAt(x, 8) as int]),
                st[786 + ByteAt(x, 0) as int])
  {
    hide *;
    var q := Run(BlowfishChain(st), 2 * r + 2, b);
    RoundAdds(st, b, r);
    FEntries(st, if r % 2 == 0 then q.l else q.r);
  }

  lemma Turns(r: nat)
    ensures r % 2 == 0 ==> (2 * r) % 4 == 0 && (2 * r + 1) % 4 == 1
    ensures r % 2 == 1 ==> (2 * r) % 4 == 2 && (2 * r + 1) % 4 == 3
  {
  }

  /** Behind the rounds come the two last words of K, and the halves change places. */
  lemma OutputSeenFromOutside(st: State, b: Halves<Word>)
    ensures
      var x, e := Run(BlowfishChain(st), 32, b), Encipher(st, b);
      Xor(x.l, e.r) == st[16] && Xor(x.r, e.l) == st[17]
    ensures Run(BlowfishChain(st), 0, b) == b
  {
    hide Run, F, Xor, BlowfishChain;
    var c := BlowfishChain(st);
    var x := Run(c, 32, b);
    RunStart(c, b);
    RunNext(c, 32, b);
    RunNext(c, 33, b);
    ChainStep(st, 32, x);
    ChainStep(st, 33, Run(c, 33, b));
    XorDifference(x.l, st[16]);
    XorDifference(x.r, st[17]);
  }

  /** Keying adds the bytes of the repeated key into K, four to a word from its high end, and leaves S as it was. */
  lemma KeyedWord(st: State, key: seq<byte>, x: nat)
    requires |key| > 0 && x < 1042
    ensures
      var w := Xor(st[x], AddKey(st, key)[x]);
      if x >= 18 then w == Word(0)
      else
        && ByteAt(w, 24) == key[4 * x % |key|] && ByteAt(w, 16) == key[(4 * x + 1) % |key|]
        && ByteAt(w, 8) == key[(4 * x + 2) % |key|] && ByteAt(w, 0) == key[(4 * x + 3) % |key|]
  {
    hide Xor, ByteAt, Pack32;
    if x < 18 {
      XorDifference(st[x], StreamWord(key, x));
      PackBytes(Cyclic(key, 4 * x), Cyclic(key, 4 * x + 1), Cyclic(key, 4 * x + 2), Cyclic(key, 4 * x + 3));
    } else {
      XorSelf(st[x]);
    }
  }

  lemma XorSelf(x: Word)
    ensures Xor(x, x) == Word(0)
  {
  }

  /** What one more pair leaves of the state. */
  lemma OneMorePair(st: State, data: Data, n: nat, m: nat)
    requires data.Valid() && m < n <= 521
    ensures Fill(st, data, n).0[2 * n..] == Fill(st, data, n - 1).0[2 * (n - 1)..][2..]
    ensures Fill(st, data, n).0[..2 * m] == Fill(st, data, n - 1).0[..2 * m]
  {
    hide Encipher, AddData;
  }

  lemma {:induction false} FilledSoFar(st: State, data: Data, n: nat, m: nat)
    requires data.Valid() && m <= n <= 521
    ensures Fill(st, data, n).0[2 * n..] == st[2 * n..]
    ensures Fill(st, data, n).0[..2 * m] == Fill(st, data, m).0[..2 * m]
    decreases n
  {
    hide Encipher, AddData, Fill;
    if n == 0 {
      NothingFilled(st, data);
    } else {
      assert st[2 * n..] == st[2 * (n - 1)..][2..];
      if m < n {
        FilledSoFar(st, data, n - 1, m);
        OneMorePair(st, data, n, m);
      } else {
        FilledSoFar(st, data, n - 1, n - 1);
        OneMorePair(st, data, n, n - 1);
      }
    }
  }

  lemma NothingFilled(st: State, data: Data)
    requires data.Valid()
    ensures Fill(st, data, 0).0 == st
  {
  }

  /** The pair of words that stands at place m. */
  function PairAt(st: State, m: nat): Halves<Word>
    requires m < 521
  {
    Halves(st[2 * m], st[2 * m + 1])
  }

  /** Every pair of the expanded state is the pair before it, with the next eight data bytes added, enciphered under the
      state as it was then: expanded in front of the pair and only keyed from there on. */
  lemma ExpandedPair(st: State, key: seq<byte>, data: Data, m: nat)
    requires |key| > 0 && data.Valid() && m < 521
    ensures
      var t, keyed := Expand(st, key, data), AddKey(st, key);
      var before := if m == 0 then Halves(Word(0), Word(0)) else PairAt(t, m - 1);
      var fed := if data.Null? then before
                 else Halves(Xor(before.l, StreamWord(data.d, 2 * m)), Xor(before.r, StreamWord(data.d, 2 * m + 1)));
      |t[..2 * m] + keyed[2 * m..]| == 1042 && PairAt(t, m) == Encipher(t[..2 * m] + keyed[2 * m..], fed)
  {
    hide Encipher, AddKey, StreamWord, Xor;
    var t, keyed := Expand(st, key, data), AddKey(st, key);
    FilledSoFar(keyed, data, 521, m);
    FilledSoFar(keyed, data, 521, m + 1);
    FilledSoFar(keyed, data, m, m);
    PairStands(keyed, data, 521, m + 1);
    if m > 0 { PairStands(keyed, data, 521, m); }
    var s := Fill(keyed, data, m).0;
    assert s == s[..2 * m] + s[2 * m..];
    PairMade(keyed, data, m);
  }

  lemma PairMade(st: State, data: Data, m: nat)
    requires data.Valid() && m < 521
    ensures Fill(st, data, m + 1).1 == Encipher(Fill(st, data, m).0, AddData(data, m, Fill(st, data, m).1))
    ensures Fill(st, data, 0).1 == Halves(Word(0), Word(0))
  {
    hide Encipher, AddData;
  }

  lemma PairStands(st: State, data: Data, n: nat, m: nat)
    requires data.Valid() && 0 < m <= n <= 521
    ensures PairAt(Fill(st, data, n).0, m - 1) == Fill(st, data, m).1
  {
    FilledSoFar(st, data, n, m);
    hide Encipher, AddData;
    var r := Fill(st, data, n).0;
    assert r[2 * (m - 1)] == r[..2 * m][2 * (m - 1)] && r[2 * (m - 1) + 1] == r[..2 * m][2 * (m - 1) + 1];
  }

  /** The t-th word of the repeated data, byte by byte. */
  lemma StreamWordIs(d: seq<byte>, t: nat)
    requires |d| > 0
    ensures var w := StreamWord(d, t);
      && ByteAt(w, 24) == d[4 * t % |d|] && ByteAt(w, 16) == d[(4 * t + 1) % |d|]
      && ByteAt(w, 8) == d[(4 * t + 2) % |d|] && ByteAt(w, 0) == d[(4 * t + 3) % |d|]
  {
    hide ByteAt, Pack32;
    PackBytes(Cyclic(d, 4 * t), Cyclic(d, 4 * t + 1), Cyclic(d, 4 * t + 2), Cyclic(d, 4 * t + 3));
  }
}
