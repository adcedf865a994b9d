/** The routines of anubis.c, proved against the layers and schedules of module Anubis. */
module AnubisCipher {
  import opened Words
  import F = AnubisField
  import opened Anubis

  // ---- key selection as the code evaluates it ----

  function HornerWord(b: Build, kappa: seq<Word>, j: int, i: nat): Word
    requires 0 <= j < 4 && i < |kappa|
  {
    Pack(SelectHorner(b, kappa, j, 0, i), SelectHorner(b, kappa, j, 1, i),
         SelectHorner(b, kappa, j, 2, i), SelectHorner(b, kappa, j, 3, i))
  }

  /** One step of the selection loop: T4 of the next byte plus T5 of each byte of k, one column of T5 for each. */
  function SelectStep(b: Build, x: byte, k: Word): Word {
    Xor(Xor(Xor(Xor(T4(b, x), And(T5(b, At(k, 0)), Word(0xff00_0000))), And(T5(b, At(k, 1)), Word(0x00ff_0000))),
            And(T5(b, At(k, 2)), Word(0x0000_ff00))), And(T5(b, At(k, 3)), Word(0x0000_00ff)))
  }

  lemma SelectStepBytes(b: Build, x: byte, k: Word)
    ensures
      var a := S(b, x);
      SelectStep(b, x, k) == Pack(F.Plus(a, Scale(0, At(k, 0))), F.Plus(a, Scale(1, At(k, 1))),
                                  F.Plus(a, Scale(2, At(k, 2))), F.Plus(a, Scale(3, At(k, 3))))
  {
    hide T4, S, F.Times2, F.Times6, F.Times8, F.Plus, At, Xor, And, F.Pack;
    TableRows(b, x);
    T5Columns(b, At(k, 0));
    T5Columns(b, At(k, 1));
    T5Columns(b, At(k, 2));
    T5Columns(b, At(k, 3));
    hide T5, Pack;
    MaskedColumns(S(b, x), T5(b, At(k, 0)), T5(b, At(k, 1)), T5(b, At(k, 2)), T5(b, At(k, 3)));
  }

  /** The byte of T5 in column c is the multiple by the coefficient of that column. */
  lemma T5Columns(b: Build, x: byte)
    ensures T5(b, x) == Pack(x, F.Times2(x), F.Times6(x), F.Times8(x))
    ensures At(T5(b, x), 0) == x && At(T5(b, x), 1) == F.Times2(x)
    ensures At(T5(b, x), 2) == F.Times6(x) && At(T5(b, x), 3) == F.Times8(x)
  {
    hide At, F.Times2, F.Times6, F.Times8, F.Pack, AnubisTweakedTables.T5, AnubisOriginalTables.T5;
    AnubisTweakedTables.Vandermonde(x);
    AnubisOriginalTables.Vandermonde(x);
    PackAt(x, F.Times2(x), F.Times6(x), F.Times8(x));
  }

  lemma MaskedColumns(a: byte, t0: Word, t1: Word, t2: Word, t3: Word)
    ensures Xor(Xor(Xor(Xor(Pack(a, a, a, a), And(t0, Word(0xff00_0000))), And(t1, Word(0x00ff_0000))),
                And(t2, Word(0x0000_ff00))), And(t3, Word(0x0000_00ff)))
         == Pack(F.Plus(a, At(t0, 0)), F.Plus(a, At(t1, 1)), F.Plus(a, At(t2, 2)), F.Plus(a, At(t3, 3)))
  {
    hide Xor, And, Pack, At, F.Plus;
    MaskedByte(t0);
    MaskedByte(t1);
    MaskedByte(t2);
    MaskedByte(t3);
    var c0, c1, c2, c3 := At(t0, 0), At(t1, 1), At(t2, 2), At(t3, 3);
    PlusZero(a);
    PlusZero(F.Plus(a, c0));
    PlusZero(F.Plus(a, c1));
    PlusZero(F.Plus(a, c2));
    PackXor(a, a, a, a, c0, 0, 0, 0);
    PackXor(F.Plus(a, c0), a, a, a, 0, c1, 0, 0);
    PackXor(F.Plus(a, c0), F.Plus(a, c1), a, a, 0, 0, c2, 0);
    PackXor(F.Plus(a, c0), F.Plus(a, c1), F.Plus(a, c2), a, 0, 0, 0, c3);
  }

  lemma MaskedByte(t: Word)
    ensures And(t, Word(0xff00_0000)) == Pack(At(t, 0), 0, 0, 0)
    ensures And(t, Word(0x00ff_0000)) == Pack(0, At(t, 1), 0, 0)
    ensures And(t, Word(0x0000_ff00)) == Pack(0, 0, At(t, 2), 0)
    ensures And(t, Word(0x0000_00ff)) == Pack(0, 0, 0, At(t, 3))
  {
    hide And, Pack, At;
    MaskedByte0(t);
    MaskedByte1(t);
    MaskedByte2(t);
    MaskedByte3(t);
  }

  lemma MaskedByte0(t: Word)
    ensures And(t, Word(0xff00_0000)) == Pack(At(t, 0), 0, 0, 0)
  {
  }

  lemma MaskedByte1(t: Word)
    ensures And(t, Word(0x00ff_0000)) == Pack(0, At(t, 1), 0, 0)
  {
  }

  lemma MaskedByte2(t: Word)
    ensures And(t, Word(0x0000_ff00)) == Pack(0, 0, At(t, 2), 0)
  {
  }

  lemma MaskedByte3(t: Word)
    ensures And(t, Word(0x0000_00ff)) == Pack(0, 0, 0, At(t, 3))
  {
  }

  lemma PlusZero(a: byte)
    ensures F.Plus(a, 0) == a
  {
  }

  lemma PackXor(a0: byte, a1: byte, a2: byte, a3: byte, b0: byte, b1: byte, b2: byte, b3: byte)
    ensures Xor(Pack(a0, a1, a2, a3), Pack(b0, b1, b2, b3))
         == Pack(F.Plus(a0, b0), F.Plus(a1, b1), F.Plus(a2, b2), F.Plus(a3, b3))
  {
  }

  lemma HornerWordStart(b: Build, kappa: seq<Word>, j: int)
    requires 0 <= j < 4 && kappa != []
    ensures HornerWord(b, kappa, j, |kappa| - 1) == T4(b, At(kappa[|kappa| - 1], j))
  {
    hide T4, S, At, Pack;
    TableRows(b, At(kappa[|kappa| - 1], j));
  }

  lemma HornerWordStep(b: Build, kappa: seq<Word>, j: int, i: nat)
    requires 0 <= j < 4 && i < |kappa| - 1
    ensures HornerWord(b, kappa, j, i) == SelectStep(b, At(kappa[i], j), HornerWord(b, kappa, j, i + 1))
  {
    hide S, At, Pack, SelectStep, F.Plus, Scale;
    SelectStepBytes(b, At(kappa[i], j), HornerWord(b, kappa, j, i + 1));
    PackAt(SelectHorner(b, kappa, j, 0, i + 1), SelectHorner(b, kappa, j, 1, i + 1),
           SelectHorner(b, kappa, j, 2, i + 1), SelectHorner(b, kappa, j, 3, i + 1));
  }

  lemma HornerWordSelects(b: Build, kappa: seq<Word>, j: int)
    requires 0 <= j < 4 && kappa != []
    ensures HornerWord(b, kappa, j, 0) == SelectWord(b, kappa, j)
  {
    hide SelectSum, SelectHorner;
    HornerIsSum(b, kappa, j, 0);
    HornerIsSum(b, kappa, j, 1);
    HornerIsSum(b, kappa, j, 2);
    HornerIsSum(b, kappa, j, 3);
  }

  /** The selection loop, over the first n words of kappa. */
  method SelectRoundKey(b: Build, kappa: array<Word>, n: nat) returns (k0: Word, k1: Word, k2: Word, k3: Word)
    requires 1 <= n <= kappa.Length
    ensures State(k0, k1, k2, k3) == Select(b, kappa[..n])
  {
    hide *;
    ghost var ks := kappa[..n];
    k0 := T4(b, At(kappa[n - 1], 0));
    k1 := T4(b, At(kappa[n - 1], 1));
    k2 := T4(b, At(kappa[n - 1], 2));
    k3 := T4(b, At(kappa[n - 1], 3));
    HornerWordStart(b, ks, 0);
    HornerWordStart(b, ks, 1);
    HornerWordStart(b, ks, 2);
    HornerWordStart(b, ks, 3);
    var i := n - 2;
    while i >= 0
      invariant -1 <= i <= n - 2
      invariant k0 == HornerWord(b, ks, 0, i + 1) && k1 == HornerWord(b, ks, 1, i + 1)
      invariant k2 == HornerWord(b, ks, 2, i + 1) && k3 == HornerWord(b, ks, 3, i + 1)
    {
      HornerWordStep(b, ks, 0, i);
      HornerWordStep(b, ks, 1, i);
      HornerWordStep(b, ks, 2, i);
      HornerWordStep(b, ks, 3, i);
      k0 := SelectStep(b, At(kappa[i], 0), k0);
      k1 := SelectStep(b, At(kappa[i], 1), k1);
      k2 := SelectStep(b, At(kappa[i], 2), k2);
      k3 := SelectStep(b, At(kappa[i], 3), k3);
      i := i - 1;
    }
    HornerWordSelects(b, ks, 0);
    HornerWordSelects(b, ks, 1);
    HornerWordSelects(b, ks, 2);
    HornerWordSelects(b, ks, 3);
    SelectWords(b, ks);
  }

  lemma SelectWords(b: Build, kappa: seq<Word>)
    ensures Select(b, kappa)
         == State(SelectWord(b, kappa, 0), SelectWord(b, kappa, 1), SelectWord(b, kappa, 2), SelectWord(b, kappa, 3))
  {
  }

  lemma EvolveInter(b: Build, kappa: seq<Word>, r: nat, i: nat, j1: nat, j2: nat, j3: nat)
    requires 4 <= |kappa| && i < |kappa| && r < 19
    requires j1 == (if i == 0 then |kappa| - 1 else i - 1)
    requires j2 == (if j1 == 0 then |kappa| - 1 else j1 - 1)
    requires j3 == (if j2 == 0 then |kappa| - 1 else j2 - 1)
    ensures
      var inter := Xor(Xor(Xor(T0(b, At(kappa[i], 0)), T1(b, At(kappa[j1], 1))), T2(b, At(kappa[j2], 2))), T3(b, At(kappa[j3], 3)));
      Evolve(b, kappa, r)[i] == if i == 0 then Xor(inter, Rc(b, r)) else inter
  {
    hide T0, T1, T2, T3, S, At, Theta, Pack, Xor, Rc;
    var n := |kappa|;
    Cyclic(i, 1, n);
    Cyclic(i, 2, n);
    Cyclic(i, 3, n);
    TablesDiffuse(b, At(kappa[i], 0), At(kappa[j1], 1), At(kappa[j2], 2), At(kappa[j3], 3));
  }

  lemma Cyclic(i: nat, k: nat, n: nat)
    requires i < n && k < n
    ensures (i + n - k) % n == if i >= k then i - k else i - k + n
  {
    if i >= k {
      ModOnce(i - k, n);
    }
  }

  lemma ModOnce(x: nat, n: nat)
    requires x < n
    ensures (x + n) % n == x
  {
  }

  /** The evolution of the key state in place, through the scratch array. */
  method EvolveKappa(b: Build, kappa: array<Word>, inter: array<Word>, n: nat, r: nat)
    requires 4 <= n <= kappa.Length && n <= inter.Length && kappa != inter && r < 19
    modifies kappa, inter
    ensures kappa[..n] == Evolve(b, old(kappa[..n]), r)
  {
    hide *;
    ghost var ks := kappa[..n];
    ghost var next := Evolve(b, ks, r);
    for i := 0 to n
      invariant kappa[..n] == ks
      invariant forall m | 0 <= m < i :: next[m] == if m == 0 then Xor(inter[m], Rc(b, r)) else inter[m]
      modifies inter
    {
      var j := i;
      var x := T0(b, At(kappa[j], 0));
      j := if j == 0 then n - 1 else j - 1;
      ghost var j1 := j;
      x := Xor(x, T1(b, At(kappa[j], 1)));
      j := if j == 0 then n - 1 else j - 1;
      ghost var j2 := j;
      x := Xor(x, T2(b, At(kappa[j], 2)));
      j := if j == 0 then n - 1 else j - 1;
      x := Xor(x, T3(b, At(kappa[j], 3)));
      EvolveInter(b, ks, r, i, j1, j2, j);
      inter[i] := x;
    }
    kappa[0] := Xor(inter[0], Rc(b, r));
    for i := 1 to n
      invariant forall m | 0 <= m < i :: kappa[m] == next[m]
      modifies kappa
    {
      kappa[i] := inter[i];
    }
    assert kappa[..n] == next;
  }

  // ---- the key object ----

  ghost function Row4(a: array2<Word>, r: nat): State
    requires a.Length1 == 4 && r < a.Length0
    reads a
  {
    State(a[r, 0], a[r, 1], a[r, 2], a[r, 3])
  }

  /** The round keys in rows 0 .. n-1. */
  ghost function Rows4(a: array2<Word>, n: nat): (ks: seq<State>)
    requires a.Length1 == 4 && n <= a.Length0
    reads a
    ensures |ks| == n
  {
    seq(n, r requires 0 <= r < n reads a => Row4(a, r))
  }

  /** Fills rows 1 .. n-1 of `dec` with the diffused reversed keys, looking S-box values up through T4. */
  method InvertKeys(b: Build, enc: array2<Word>, dec: array2<Word>, R: nat)
    requires enc.Length1 == 4 && dec.Length1 == 4 && 1 <= R < enc.Length0 && R < dec.Length0 && enc != dec
    modifies dec
    ensures Rows4(dec, R + 1) == InverseSchedule(Rows4(enc, R + 1))
  {
    hide *;
    ghost var ks := Rows4(enc, R + 1);
    ghost var ds := InverseSchedule(ks);
    for i := 0 to 4
      invariant forall c | 0 <= c < i :: dec[0, c] == enc[R, c] && dec[R, c] == enc[0, c]
    {
      dec[0, i] := enc[R, i];
      dec[R, i] := enc[0, i];
    }
    for r := 1 to R
      invariant forall c | 0 <= c < 4 :: dec[0, c] == enc[R, c] && dec[R, c] == enc[0, c]
      invariant forall m, c | 1 <= m < r && 0 <= c < 4 :: dec[m, c] == Theta(enc[R - m, c])
    {
      for i := 0 to 4
        invariant forall c | 0 <= c < 4 :: dec[0, c] == enc[R, c] && dec[R, c] == enc[0, c]
        invariant forall m, c | 1 <= m < r && 0 <= c < 4 :: dec[m, c] == Theta(enc[R - m, c])
        invariant forall c | 0 <= c < i :: dec[r, c] == Theta(enc[R - r, c])
      {
        var v := enc[R - r, i];
        DiffuseThroughT4(b, v);
        dec[r, i] :=
          Xor(Xor(Xor(T0(b, At(T4(b, At(v, 0)), 3)), T1(b, At(T4(b, At(v, 1)), 3))),
                  T2(b, At(T4(b, At(v, 2)), 3))), T3(b, At(T4(b, At(v, 3)), 3)));
      }
    }
    forall m | 0 <= m < R + 1
      ensures Rows4(dec, R + 1)[m] == ds[m]
    {
      InverseScheduleRow(enc, dec, R, m);
    }
  }

  lemma InverseScheduleRow(enc: array2<Word>, dec: array2<Word>, R: nat, m: nat)
    requires enc.Length1 == 4 && dec.Length1 == 4 && 1 <= R < enc.Length0 && R < dec.Length0 && m <= R
    requires forall c | 0 <= c < 4 :: dec[0, c] == enc[R, c] && dec[R, c] == enc[0, c]
    requires forall m, c | 1 <= m < R && 0 <= c < 4 :: dec[m, c] == Theta(enc[R - m, c])
    ensures Rows4(dec, R + 1)[m] == InverseSchedule(Rows4(enc, R + 1))[m]
  {
    hide Theta;
    RowsAt(dec, R + 1, m);
    RowsAt(enc, R + 1, R - m);
    if 0 < m < R {
      assert dec[m, 0] == Theta(enc[R - m, 0]) && dec[m, 1] == Theta(enc[R - m, 1]);
      assert dec[m, 2] == Theta(enc[R - m, 2]) && dec[m, 3] == Theta(enc[R - m, 3]);
    }
  }

  /** The low byte of T4 is the S-box value, and the S-box of the S-box is the byte itself. */
  lemma DiffuseThroughT4(b: Build, v: Word)
    ensures Xor(Xor(Xor(T0(b, At(T4(b, At(v, 0)), 3)), T1(b, At(T4(b, At(v, 1)), 3))),
                    T2(b, At(T4(b, At(v, 2)), 3))), T3(b, At(T4(b, At(v, 3)), 3))) == Theta(v)
  {
    hide *;
    LowByteOfT4(b, At(v, 0));
    LowByteOfT4(b, At(v, 1));
    LowByteOfT4(b, At(v, 2));
    LowByteOfT4(b, At(v, 3));
    TablesDiffuse(b, S(b, At(v, 0)), S(b, At(v, 1)), S(b, At(v, 2)), S(b, At(v, 3)));
    SInvolution(b, At(v, 0));
    SInvolution(b, At(v, 1));
    SInvolution(b, At(v, 2));
    SInvolution(b, At(v, 3));
    AtPack(v);
  }

  lemma LowByteOfT4(b: Build, x: byte)
    ensures At(T4(b, x), 3) == S(b, x)
  {
    hide T4, S, At, Pack;
    var a := S(b, x);
    TableRows(b, x);
    assert T4(b, x) == Pack(a, a, a, a);
    PackAt(a, a, a, a);
    assert At(Pack(a, a, a, a), 3) == a;
  }

  // ---- the block routine ----

  ghost function ArrayState(a: array<Word>): State
    requires a.Length == 4
    reads a
  {
    State(a[0], a[1], a[2], a[3])
  }

  function LoadState(s: seq<byte>): State
    requires |s| == 16
  {
    State(Load32(s[..4]), Load32(s[4..8]), Load32(s[8..12]), Load32(s[12..]))
  }

  function StoreState(x: State): (s: seq<byte>)
    ensures |s| == 16
  {
    Store32(x.w0) + Store32(x.w1) + Store32(x.w2) + Store32(x.w3)
  }

  lemma LoadStoreState(x: State)
    ensures LoadState(StoreState(x)) == x
  {
    hide Load32, Store32;
    var s := StoreState(x);
    assert s[..4] == Store32(x.w0) && s[4..8] == Store32(x.w1) && s[8..12] == Store32(x.w2) && s[12..] == Store32(x.w3);
    LoadStore32(x.w0);
    LoadStore32(x.w1);
    LoadStore32(x.w2);
    LoadStore32(x.w3);
  }

  lemma StoreLoadState(s: seq<byte>)
    requires |s| == 16
    ensures StoreState(LoadState(s)) == s
  {
    hide Load32, Store32;
    StoreLoad32(s[..4]);
    StoreLoad32(s[4..8]);
    StoreLoad32(s[8..12]);
    StoreLoad32(s[12..]);
    assert s == s[..4] + s[4..8] + s[8..12] + s[12..];
  }

  lemma RunUnfold(b: Build, x: State, ks: seq<State>, r: nat)
    requires 0 < r < |ks|
    ensures
      var s := Run(b, x, ks, r - 1);
      Run(b, x, ks, r) == State(Xor(TableColumn(b, s, 0), ks[r].w0), Xor(TableColumn(b, s, 1), ks[r].w1),
                                Xor(TableColumn(b, s, 2), ks[r].w2), Xor(TableColumn(b, s, 3), ks[r].w3))
  {
    hide TableColumn, GammaTauRow, Theta, Xor;
    var s := Run(b, x, ks, r - 1);
    TableColumnIsRound(b, s, 0);
    TableColumnIsRound(b, s, 1);
    TableColumnIsRound(b, s, 2);
    TableColumnIsRound(b, s, 3);
  }

  lemma LastRound(b: Build, x: State, ks: seq<State>)
    requires |ks| >= 2
    ensures
      var s, k := Run(b, x, ks, |ks| - 2), ks[|ks| - 1];
      Crypt(b, x, ks) == State(Xor(MaskedColumn(b, s, 0), k.w0), Xor(MaskedColumn(b, s, 1), k.w1),
                               Xor(MaskedColumn(b, s, 2), k.w2), Xor(MaskedColumn(b, s, 3), k.w3))
  {
    hide MaskedColumn, GammaTauRow, Xor, Run;
    var s := Run(b, x, ks, |ks| - 2);
    MaskedColumnIsLastRound(b, s, 0);
    MaskedColumnIsLastRound(b, s, 1);
    MaskedColumnIsLastRound(b, s, 2);
    MaskedColumnIsLastRound(b, s, 3);
  }

  /** The block map of anubis_crypt on bytes. */
  function CryptBytes(b: Build, s: seq<byte>, ks: seq<State>): (r: seq<byte>)
    requires |s| == 16 && |ks| >= 2
    ensures |r| == 16
  {
    StoreState(Crypt(b, LoadState(s), ks))
  }

  function Quarter(s: seq<byte>, j: int): (r: seq<byte>)
    requires |s| == 16 && 0 <= j < 4
    ensures |r| == 4
  {
    s[4 * j..4 * j + 4]
  }

  lemma RowIsLoaded(s: seq<byte>, j: int)
    requires |s| == 16 && 0 <= j < 4
    ensures Row(LoadState(s), j) == Load32(Quarter(s, j))
  {
    hide Load32;
    assert s[0..4] == s[..4] && s[12..16] == s[12..];
  }

  /** Row j is loaded from the j-th four bytes of the block, and stored there. */
  lemma BytesSeenFromOutside(b: Build, s: seq<byte>, ks: seq<State>, i: int, j: int)
    requires |s| == 16 && |ks| >= 2 && 0 <= i < 4 && 0 <= j < 4
    ensures var x, t := LoadState(s), CryptBytes(b, s, ks);
      && Xor(Row(Run(b, x, ks, 0), j), Row(ks[0], j)) == Load32(Quarter(s, j))
      && S(b, At(Xor(Load32(Quarter(t, j)), Row(ks[|ks| - 1], j)), i)) == At(Row(Run(b, x, ks, |ks| - 2), i), j)
  {
    hide Load32, LoadState, StoreState, Run, Crypt, S, At, Xor, Row, Quarter;
    var x := LoadState(s);
    RowIsLoaded(s, j);
    RowIsLoaded(CryptBytes(b, s, ks), j);
    LoadStoreState(Crypt(b, x, ks));
    EndsSeenFromOutside(b, x, ks, i, j);
  }

  lemma RunStart(b: Build, x: State, ks: seq<State>)
    requires ks != []
    ensures Run(b, x, ks, 0) == SigmaS(x, ks[0])
  {
  }

  /** anubis_crypt; the buffers may be the same. */
  method AnubisCrypt(b: Build, plaintext: array<byte>, ciphertext: array<byte>, roundKey: array2<Word>, R: nat)
    requires plaintext.Length >= 16 && ciphertext.Length >= 16
    requires roundKey.Length1 == 4 && 1 <= R < roundKey.Length0 && ciphertext as object != roundKey
    modifies ciphertext
    ensures ciphertext[..16] == CryptBytes(b, old(plaintext[..16]), Rows4(roundKey, R + 1))
    ensures ciphertext[16..] == old(ciphertext[16..])
  {
    hide *;
    ghost var x := LoadState(plaintext[..16]);
    ghost var ks := Rows4(roundKey, R + 1);
    var state := new Word[4](i => Word(0));
    var inter := new Word[4](i => Word(0));
    LoadAndAddKey(plaintext, roundKey, state);
    RowsAt(roundKey, R + 1, 0);
    RunStart(b, x, ks);
    for r := 1 to R
      invariant ArrayState(state) == Run(b, x, ks, r - 1)
      modifies state, inter
    {
      FullRound(b, state, inter, roundKey, r);
      RowsAt(roundKey, R + 1, r);
      RunUnfold(b, x, ks, r);
    }
    FinalRound(b, state, inter, roundKey, R);
    RowsAt(roundKey, R + 1, R);
    LastRound(b, x, ks);
    StoreWords(inter, ciphertext);
    CryptBytesValue(b, old(plaintext[..16]), ks);
  }

  lemma CryptBytesValue(b: Build, s: seq<byte>, ks: seq<State>)
    requires |s| == 16 && |ks| >= 2
    ensures CryptBytes(b, s, ks) == StoreState(Crypt(b, LoadState(s), ks))
  {
  }

  lemma RowsAt(a: array2<Word>, n: nat, r: nat)
    requires a.Length1 == 4 && r < n <= a.Length0
    ensures Rows4(a, n)[r] == State(a[r, 0], a[r, 1], a[r, 2], a[r, 3])
  {
  }

  method LoadAndAddKey(plaintext: array<byte>, roundKey: array2<Word>, state: array<Word>)
    requires plaintext.Length >= 16 && roundKey.Length1 == 4 && roundKey.Length0 >= 1 && state.Length == 4
    requires plaintext as object != state && roundKey as object != state
    modifies state
    ensures ArrayState(state) == SigmaS(LoadState(plaintext[..16]), State(roundKey[0, 0], roundKey[0, 1], roundKey[0, 2], roundKey[0, 3]))
  {
    hide Load32, Xor;
    for i := 0 to 4
      invariant forall m | 0 <= m < i :: state[m] == Xor(Load32(plaintext[4 * m..4 * m + 4]), roundKey[0, m])
    {
      var w := LoadWord(plaintext, 4 * i);
      state[i] := Xor(w, roundKey[0, i]);
    }
    ghost var p := plaintext[..16];
    assert p[..4] == plaintext[0..4] && p[4..8] == plaintext[4..8] && p[8..12] == plaintext[8..12] && p[12..] == plaintext[12..16];
    assert forall m | 0 <= m < 4 :: state[m] == Xor(Load32(plaintext[4 * m..4 * m + 4]), roundKey[0, m]);
    assert state[0] == Xor(Load32(plaintext[4 * 0..4 * 0 + 4]), roundKey[0, 0]);
    assert state[1] == Xor(Load32(plaintext[4 * 1..4 * 1 + 4]), roundKey[0, 1]);
    assert state[2] == Xor(Load32(plaintext[4 * 2..4 * 2 + 4]), roundKey[0, 2]);
    assert state[3] == Xor(Load32(plaintext[4 * 3..4 * 3 + 4]), roundKey[0, 3]);
  }

  method FullRound(b: Build, state: array<Word>, inter: array<Word>, roundKey: array2<Word>, r: nat)
    requires state.Length == 4 && inter.Length == 4 && state != inter
    requires roundKey.Length1 == 4 && r < roundKey.Length0
    requires roundKey as object != state && roundKey as object != inter
    modifies state, inter
    ensures
      var s := old(ArrayState(state));
      ArrayState(state) == State(Xor(TableColumn(b, s, 0), roundKey[r, 0]), Xor(TableColumn(b, s, 1), roundKey[r, 1]),
                                 Xor(TableColumn(b, s, 2), roundKey[r, 2]), Xor(TableColumn(b, s, 3), roundKey[r, 3]))
  {
    hide T0, T1, T2, T3, At, Xor;
    inter[0] := Xor(Xor(Xor(Xor(T0(b, At(state[0], 0)), T1(b, At(state[1], 0))), T2(b, At(state[2], 0))),
                        T3(b, At(state[3], 0))), roundKey[r, 0]);
    inter[1] := Xor(Xor(Xor(Xor(T0(b, At(state[0], 1)), T1(b, At(state[1], 1))), T2(b, At(state[2], 1))),
                        T3(b, At(state[3], 1))), roundKey[r, 1]);
    inter[2] := Xor(Xor(Xor(Xor(T0(b, At(state[0], 2)), T1(b, At(state[1], 2))), T2(b, At(state[2], 2))),
                        T3(b, At(state[3], 2))), roundKey[r, 2]);
    inter[3] := Xor(Xor(Xor(Xor(T0(b, At(state[0], 3)), T1(b, At(state[1], 3))), T2(b, At(state[2], 3))),
                        T3(b, At(state[3], 3))), roundKey[r, 3]);
    state[0] := inter[0];
    state[1] := inter[1];
    state[2] := inter[2];
    state[3] := inter[3];
  }

  method FinalRound(b: Build, state: array<Word>, inter: array<Word>, roundKey: array2<Word>, R: nat)
    requires state.Length == 4 && inter.Length == 4 && state != inter
    requires roundKey.Length1 == 4 && R < roundKey.Length0
    requires roundKey as object != inter
    modifies inter
    ensures
      var s := old(ArrayState(state));
      ArrayState(inter) == State(Xor(MaskedColumn(b, s, 0), roundKey[R, 0]), Xor(MaskedColumn(b, s, 1), roundKey[R, 1]),
                                 Xor(MaskedColumn(b, s, 2), roundKey[R, 2]), Xor(MaskedColumn(b, s, 3), roundKey[R, 3]))
  {
    hide T0, T1, T2, T3, At, Xor, And;
    for j := 0 to 4
      invariant ArrayState(state) == old(ArrayState(state))
      invariant forall m | 0 <= m < j :: inter[m] == Xor(MaskedColumn(b, old(ArrayState(state)), m), roundKey[R, m])
    {
      inter[j] :=
        Xor(Xor(Xor(Xor(And(T0(b, At(state[0], j)), Word(0xff00_0000)), And(T1(b, At(state[1], j)), Word(0x00ff_0000))),
                    And(T2(b, At(state[2], j)), Word(0x0000_ff00))), And(T3(b, At(state[3], j)), Word(0x0000_00ff))),
            roundKey[R, j]);
    }
  }

  method StoreWords(inter: array<Word>, ciphertext: array<byte>)
    requires inter.Length == 4 && ciphertext.Length >= 16 && ciphertext as object != inter
    modifies ciphertext
    ensures ciphertext[..16] == StoreState(ArrayState(inter)) && ciphertext[16..] == old(ciphertext[16..])
  {
    hide Store32;
    StoreFour(ciphertext, inter[0], inter[1], inter[2], inter[3]);
  }

  /** The anubis part of symmetric_key. */
  class Key {
    var keyBits: int
    var R: int
    const roundKeyEnc: array2<Word>
    const roundKeyDec: array2<Word>

    ghost predicate Valid() {
      && roundKeyEnc.Length0 == 19 && roundKeyEnc.Length1 == 4
      && roundKeyDec.Length0 == 19 && roundKeyDec.Length1 == 4
      && roundKeyEnc != roundKeyDec
    }

    constructor ()
      ensures Valid() && fresh(roundKeyEnc) && fresh(roundKeyDec)
    {
      roundKeyEnc := new Word[19, 4]((i, j) => Word(0));
      roundKeyDec := new Word[19, 4]((i, j) => Word(0));
    }

    /** R, the round count, is stored before the requested number of rounds is checked, so a refused
        request still changes keyBits and R. */
    method Setup(b: Build, key: array<byte>, keylen: int, numRounds: int) returns (status: Status)
      requires Valid() && keylen <= key.Length
      requires key as object != roundKeyEnc && key as object != roundKeyDec
      modifies this, roundKeyEnc, roundKeyDec
      ensures !ValidKeyLength(keylen) ==> status == InvalidKeysize && keyBits == old(keyBits) && R == old(R)
      ensures ValidKeyLength(keylen) ==> keyBits == 8 * keylen && R == 8 + keylen / 4
      ensures ValidKeyLength(keylen) && numRounds != 0 && numRounds != R ==> status == InvalidRounds
      ensures status != Ok ==> Rows4(roundKeyEnc, 19) == old(Rows4(roundKeyEnc, 19)) && Rows4(roundKeyDec, 19) == old(Rows4(roundKeyDec, 19))
      ensures ValidKeyLength(keylen) && (numRounds == 0 || numRounds == R) ==>
        && status == Ok
        && Rows4(roundKeyEnc, R + 1) == EncKeys(b, old(key[..keylen]))
        && Rows4(roundKeyDec, R + 1) == InverseSchedule(EncKeys(b, old(key[..keylen])))
    {
      hide EncKeys, InverseSchedule;
      if keylen % 4 != 0 || keylen < 16 || keylen > 40 { return InvalidKeysize; }
      keyBits := keylen * 8;
      var N := keyBits / 32;
      R := 8 + N;
      if numRounds != 0 && numRounds != R { return InvalidRounds; }
      SetupEncKeys(b, key, keylen, roundKeyEnc);
      InvertKeys(b, roundKeyEnc, roundKeyDec, R);
      return Ok;
    }

    ghost predicate Apart(buffer: array<byte>) {
      buffer as object != roundKeyEnc && buffer as object != roundKeyDec
    }

    method EcbEncrypt(b: Build, pt: array<byte>, ct: array<byte>) returns (status: Status)
      requires Valid() && Apart(ct) && pt.Length >= 16 && ct.Length >= 16
      modifies ct
      ensures R < 12 || R > 18 ==> status == InvalidRounds && ct[..] == old(ct[..])
      ensures 12 <= R <= 18 ==>
        && status == Ok
        && ct[..16] == CryptBytes(b, old(pt[..16]), Rows4(roundKeyEnc, R + 1))
        && ct[16..] == old(ct[16..])
    {
      hide CryptBytes;
      if R < 12 || R > 18 { return InvalidRounds; }
      AnubisCrypt(b, pt, ct, roundKeyEnc, R);
      return Ok;
    }

    method EcbDecrypt(b: Build, ct: array<byte>, pt: array<byte>) returns (status: Status)
      requires Valid() && Apart(pt) && ct.Length >= 16 && pt.Length >= 16
      modifies pt
      ensures R < 12 || R > 18 ==> status == InvalidRounds && pt[..] == old(pt[..])
      ensures 12 <= R <= 18 ==>
        && status == Ok
        && pt[..16] == CryptBytes(b, old(ct[..16]), Rows4(roundKeyDec, R + 1))
        && pt[16..] == old(pt[16..])
    {
      hide CryptBytes;
      if R < 12 || R > 18 { return InvalidRounds; }
      AnubisCrypt(b, ct, pt, roundKeyDec, R);
      return Ok;
    }
  }

  /** Decryption undoes encryption and encryption undoes decryption, for any round keys. */
  lemma DecryptUndoesEncrypt(b: Build, s: seq<byte>, ks: seq<State>)
    requires |s| == 16 && |ks| >= 2
    ensures CryptBytes(b, CryptBytes(b, s, ks), InverseSchedule(ks)) == s
    ensures CryptBytes(b, CryptBytes(b, s, InverseSchedule(ks)), ks) == s
  {
    hide Crypt, LoadState, StoreState, InverseSchedule;
    CryptInverse(b, LoadState(s), ks);
    LoadStoreState(Crypt(b, LoadState(s), ks));
    LoadStoreState(Crypt(b, LoadState(s), InverseSchedule(ks)));
    StoreLoadState(s);
  }

  /** For every key length the setup accepts and either build: set up, encrypt and decrypt one buffer in place. */
  method RoundTripInPlace(b: Build, key: array<byte>, buffer: array<byte>)
    requires ValidKeyLength(key.Length) && buffer.Length == 16 && key != buffer
    modifies buffer
    ensures buffer[..] == old(buffer[..])
  {
    hide CryptBytes, EncKeys, InverseSchedule, Rows4;
    var skey := new Key();
    ghost var s := buffer[..];
    assert buffer[..16] == s && key[..key.Length] == key[..];
    var status := skey.Setup(b, key, key.Length, 0);
    status := skey.EcbEncrypt(b, buffer, buffer);
    status := skey.EcbDecrypt(b, buffer, buffer);
    DecryptUndoesEncrypt(b, s, EncKeys(b, key[..]));
    assert buffer[..] == buffer[..16];
  }

  // ---- a refused setup ----

  function RoundsFor(keylen: int): int {
    8 + keylen / 4
  }

  /** A request that setup refuses: for a length or for a number of rounds. */
  predicate Refused(keylen: int, numRounds: int) {
    !ValidKeyLength(keylen) || (numRounds != 0 && numRounds != RoundsFor(keylen))
  }

  /** The rounds that are run once the request is refused: those of the refused length, if that is valid. */
  function RoundsAfter(keylen: int, refused: int): (rounds: nat)
    requires ValidKeyLength(keylen)
    ensures 12 <= rounds <= 18
  {
    RoundsFor(if ValidKeyLength(refused) then refused else keylen)
  }

  predicate MeetsOnBytes(b: Build, s: seq<byte>, es: seq<State>, ds: seq<State>, other: nat)
    requires |s| == 16 && |es| >= 2 && other >= 1 && other < |ds|
  {
    Meets(b, LoadState(s), es, ds, other)
  }

  lemma WrongRoundsOnBytes(b: Build, s: seq<byte>, es: seq<State>, ds: seq<State>, other: nat)
    requires |s| == 16 && |es| >= 2 && |es| <= |ds| && ds[..|es|] == InverseSchedule(es) && 1 <= other < |ds|
    ensures CryptBytes(b, CryptBytes(b, s, es), ds[..other + 1]) == s <==> MeetsOnBytes(b, s, es, ds, other)
  {
    hide Crypt, LoadState, StoreState, InverseSchedule, Meets;
    var x := LoadState(s);
    WrongRoundCount(b, x, es, ds, other);
    LoadStoreState(Crypt(b, x, es));
    LoadStoreState(Crypt(b, Crypt(b, x, es), ds[..other + 1]));
    StoreLoadState(s);
  }

  lemma RowsPrefix(a: array2<Word>, n: nat, m: nat)
    requires a.Length1 == 4 && m <= n <= a.Length0
    ensures Rows4(a, n)[..m] == Rows4(a, m)
  {
  }

  /** A key of any accepted length is set up and a block encrypted; any other request is refused; the block is decrypted.
      The round keys are still those of the first key. The block comes back if and only if the two runs meet. */
  method RefusedSetup(b: Build, skey: Key, key: array<byte>, other: array<byte>, keylen: int, numRounds: int, buffer: array<byte>)
    returns (status: Status)
    requires skey.Valid() && skey.Apart(key) && skey.Apart(other) && skey.Apart(buffer)
    requires ValidKeyLength(key.Length) && keylen <= other.Length && Refused(keylen, numRounds)
    requires buffer.Length == 16 && key != buffer
    modifies skey, skey.roundKeyEnc, skey.roundKeyDec, buffer
    ensures status == if ValidKeyLength(keylen) then InvalidRounds else InvalidKeysize
    ensures skey.R == RoundsAfter(key.Length, keylen)
    ensures skey.Valid()
    ensures buffer[..] == old(buffer[..]) <==>
      MeetsOnBytes(b, old(buffer[..]), EncKeys(b, old(key[..])), Rows4(skey.roundKeyDec, 19), skey.R)
  {
    hide CryptBytes, EncKeys, InverseSchedule, Rows4, MeetsOnBytes;
    ghost var s := buffer[..];
    assert buffer[..16] == s && key[..key.Length] == key[..];
    status := skey.Setup(b, key, key.Length, 0);
    ghost var es, ds := EncKeys(b, key[..]), Rows4(skey.roundKeyDec, 19);
    RowsPrefix(skey.roundKeyDec, 19, |es|);
    status := skey.EcbEncrypt(b, buffer, buffer);
    status := skey.Setup(b, other, keylen, numRounds);
    RowsPrefix(skey.roundKeyDec, 19, skey.R + 1);
    var decrypted := skey.EcbDecrypt(b, buffer, buffer);
    WrongRoundsOnBytes(b, s, es, ds, skey.R);
    assert buffer[..] == buffer[..16];
  }

  lemma ValidLengths(n: int)
    ensures ValidKeyLength(n) <==> n % 4 == 0 && 16 <= n <= 40
  {
  }

  /** Loads the key state and fills rows 0 .. R of `enc`. */
  method SetupEncKeys(b: Build, key: array<byte>, keylen: int, enc: array2<Word>)
    requires ValidKeyLength(keylen) && keylen <= key.Length
    requires enc.Length0 == 19 && enc.Length1 == 4 && key as object != enc
    modifies enc
    ensures Rows4(enc, keylen / 4 + 9) == EncKeys(b, key[..keylen])
  {
    hide *;
    ValidLengths(keylen);
    var N := keylen / 4;
    var R := 8 + N;
    var kappa := new Word[10](i => Word(0));
    var inter := new Word[10](i => Word(0));
    ghost var words := KeyWords(key[..keylen]);
    for i := 0 to N
      invariant forall m | 0 <= m < i :: kappa[m] == words[m]
      modifies kappa
    {
      kappa[i] := LoadWord(key, 4 * i);
      KeyWordAt(key[..keylen], i);
      assert key[..keylen][4 * i..4 * i + 4] == key[4 * i..4 * i + 4];
    }
    assert kappa[..N] == words;
    KeyStateStart(b, words);
    ghost var spec := EncKeys(b, key[..keylen]);
    for r := 0 to R + 1
      invariant r <= R ==> kappa[..N] == KeyState(b, words, r)
      invariant forall m | 0 <= m < r :: State(enc[m, 0], enc[m, 1], enc[m, 2], enc[m, 3]) == spec[m]
    {
      var k0, k1, k2, k3 := SelectRoundKey(b, kappa, N);
      EncKeyAt(b, key[..keylen], r);
      enc[r, 0] := k0;
      enc[r, 1] := k1;
      enc[r, 2] := k2;
      enc[r, 3] := k3;
      if r < R {
        KeyStateStep(b, words, r);
        EvolveKappa(b, kappa, inter, N, r);
      }
    }
    RowsEqual(enc, R + 1, spec);
  }

  lemma RowsEqual(a: array2<Word>, n: nat, ks: seq<State>)
    requires a.Length1 == 4 && n <= a.Length0 && |ks| == n
    requires forall m | 0 <= m < n :: State(a[m, 0], a[m, 1], a[m, 2], a[m, 3]) == ks[m]
    ensures Rows4(a, n) == ks
  {
  }

  lemma KeyWordAt(key: seq<byte>, i: nat)
    requires |key| % 4 == 0 && 4 * i + 4 <= |key|
    ensures KeyWords(key)[i] == Load32(key[4 * i..4 * i + 4])
  {
    hide Load32;
  }

  lemma KeyStateStart(b: Build, words: seq<Word>)
    requires |words| >= 4
    ensures KeyState(b, words, 0) == words
  {
  }

  lemma KeyStateStep(b: Build, words: seq<Word>, r: nat)
    requires |words| >= 4 && r < 19
    ensures KeyState(b, words, r + 1) == Evolve(b, KeyState(b, words, r), r)
  {
    hide Evolve;
  }

  lemma EncKeyAt(b: Build, key: seq<byte>, r: nat)
    requires ValidKeyLength(|key|) && r < |key| / 4 + 9
    ensures EncKeys(b, key)[r] == Select(b, KeyState(b, KeyWords(key), r))
  {
    hide Select, KeyState, KeyWords;
  }

  /** Row j of round key r, from the key states on; their words are the user key's bytes, four to a word from its high end. */
  lemma RoundKeysOfKey(b: Build, key: seq<byte>, r: nat, i: nat)
    requires ValidKeyLength(|key|) && r < |key| / 4 + 9 && i < |key| / 4
    ensures EncKeys(b, key)[r] == Select(b, KeyState(b, KeyWords(key), r))
    ensures var w := KeyWords(key)[i];
      && ByteAt(w, 24) == key[4 * i] && ByteAt(w, 16) == key[4 * i + 1]
      && ByteAt(w, 8) == key[4 * i + 2] && ByteAt(w, 0) == key[4 * i + 3]
  {
    hide Select, KeyState, ByteAt, Pack32;
    PackBytes(key[4 * i], key[4 * i + 1], key[4 * i + 2], key[4 * i + 3]);
  }
}
