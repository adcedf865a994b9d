/** Anubis (anubis.c): one block routine for both directions, because the S-box, the transposition of the
    state and the diffusion matrix all undo themselves. */
module Anubis {
  import opened Words
  import F = AnubisField
  import AnubisTweakedTables
  import AnubisOriginalTables

  /** Whether the library was compiled with LTC_ANUBIS_TWEAK; the two builds differ in their tables only. */
  datatype Build = Tweaked | Original

  // ---- the lookup tables of a build ----

  function T0(b: Build, x: byte): Word {
    Word(if b.Tweaked? then AnubisTweakedTables.T0(x) else AnubisOriginalTables.T0(x))
  }

  function T1(b: Build, x: byte): Word {
    Word(if b.Tweaked? then AnubisTweakedTables.T1(x) else AnubisOriginalTables.T1(x))
  }

  function T2(b: Build, x: byte): Word {
    Word(if b.Tweaked? then AnubisTweakedTables.T2(x) else AnubisOriginalTables.T2(x))
  }

  function T3(b: Build, x: byte): Word {
    Word(if b.Tweaked? then AnubisTweakedTables.T3(x) else AnubisOriginalTables.T3(x))
  }

  function T4(b: Build, x: byte): Word {
    Word(if b.Tweaked? then AnubisTweakedTables.T4(x) else AnubisOriginalTables.T4(x))
  }

  function T5(b: Build, x: byte): Word {
    Word(if b.Tweaked? then AnubisTweakedTables.T5(x) else AnubisOriginalTables.T5(x))
  }

  function Rc(b: Build, r: nat): Word
    requires r < 19
  {
    Word(if b.Tweaked? then AnubisTweakedTables.RC[r] else AnubisOriginalTables.RC[r])
  }

  /** The S-box. */
  function S(b: Build, x: byte): byte {
    if b.Tweaked? then AnubisTweakedTables.S(x) else AnubisOriginalTables.S(x)
  }

  // ---- bytes of words ----

  /** Byte j of a word, counted from the high end. */
  function At(x: Word, j: int): byte
    requires 0 <= j < 4
  {
    F.Byte(x.w, j)
  }

  function Pack(b0: byte, b1: byte, b2: byte, b3: byte): Word {
    Word(F.Pack(b0, b1, b2, b3))
  }

  function Theta(x: Word): Word {
    Word(F.Theta(x.w))
  }

  lemma PackAt(b0: byte, b1: byte, b2: byte, b3: byte)
    ensures
      var w := Pack(b0, b1, b2, b3);
      At(w, 0) == b0 && At(w, 1) == b1 && At(w, 2) == b2 && At(w, 3) == b3
  {
    F.PackBytes(b0, b1, b2, b3);
  }

  lemma AtPack(x: Word)
    ensures Pack(At(x, 0), At(x, 1), At(x, 2), At(x, 3)) == x
  {
    F.PackOfBytes(x.w);
  }

  lemma ThetaTwice(x: Word)
    ensures Theta(Theta(x)) == x
  {
    F.ThetaInvolution(x.w);
  }

  lemma ThetaXor(x: Word, y: Word)
    ensures Theta(Xor(x, y)) == Xor(Theta(x), Theta(y))
  {
    hide F.Theta, F.Xor32, Xor;
    XorOfBits(x.w, y.w);
    F.ThetaLinear(x.w, y.w);
    XorOfBits(F.Theta(x.w), F.Theta(y.w));
  }

  lemma XorOfBits(x: bv32, y: bv32)
    ensures Xor(Word(x), Word(y)) == Word(F.Xor32(x, y))
  {
  }

  lemma SInvolution(b: Build, x: byte)
    ensures S(b, S(b, x)) == x
  {
    hide AnubisTweakedTables.S, AnubisOriginalTables.S;
    AnubisTweakedTables.SInvolution(x);
    AnubisOriginalTables.SInvolution(x);
  }

  // ---- the block routine, layer by layer ----

  /** The 4 by 4 byte state, one row per word. */
  datatype State = State(w0: Word, w1: Word, w2: Word, w3: Word)

  function Row(s: State, j: int): Word
    requires 0 <= j < 4
  {
    if j == 0 then s.w0 else if j == 1 then s.w1 else if j == 2 then s.w2 else s.w3
  }

  function SigmaS(s: State, k: State): State {
    State(Xor(s.w0, k.w0), Xor(s.w1, k.w1), Xor(s.w2, k.w2), Xor(s.w3, k.w3))
  }

  function ThetaS(s: State): State {
    State(Theta(s.w0), Theta(s.w1), Theta(s.w2), Theta(s.w3))
  }

  /** Substitute every byte and transpose: row j collects byte j of every row. */
  function GammaTauRow(b: Build, s: State, j: int): Word
    requires 0 <= j < 4
  {
    Pack(S(b, At(s.w0, j)), S(b, At(s.w1, j)), S(b, At(s.w2, j)), S(b, At(s.w3, j)))
  }

  function GammaTau(b: Build, s: State): State {
    State(GammaTauRow(b, s, 0), GammaTauRow(b, s, 1), GammaTauRow(b, s, 2), GammaTauRow(b, s, 3))
  }

  lemma GammaTauRowAt(b: Build, s: State, j: int)
    requires 0 <= j < 4
    ensures
      var t := GammaTauRow(b, s, j);
      At(t, 0) == S(b, At(s.w0, j)) && At(t, 1) == S(b, At(s.w1, j))
      && At(t, 2) == S(b, At(s.w2, j)) && At(t, 3) == S(b, At(s.w3, j))
  {
    hide At, S, Pack;
    PackAt(S(b, At(s.w0, j)), S(b, At(s.w1, j)), S(b, At(s.w2, j)), S(b, At(s.w3, j)));
  }

  /** Byte j of row k of the result is the substituted byte k of row j. */
  lemma GammaTauTransposes(b: Build, s: State, k: int, j: int)
    requires 0 <= j < 4 && 0 <= k < 4
    ensures At(Row(GammaTau(b, s), k), j) == S(b, At(Row(s, j), k))
  {
    hide At, S, Pack, GammaTauRow;
    GammaTauRowAt(b, s, k);
  }

  lemma GammaTauTwiceRow(b: Build, s: State, j: int)
    requires 0 <= j < 4
    ensures GammaTauRow(b, GammaTau(b, s), j) == Row(s, j)
  {
    hide At, S, Pack, GammaTau;
    var w, t := Row(s, j), GammaTau(b, s);
    GammaTauTransposes(b, s, 0, j);
    GammaTauTransposes(b, s, 1, j);
    GammaTauTransposes(b, s, 2, j);
    GammaTauTransposes(b, s, 3, j);
    SInvolution(b, At(w, 0));
    SInvolution(b, At(w, 1));
    SInvolution(b, At(w, 2));
    SInvolution(b, At(w, 3));
    AtPack(w);
  }

  lemma GammaTauTwice(b: Build, s: State)
    ensures GammaTau(b, GammaTau(b, s)) == s
  {
    GammaTauTwiceRow(b, s, 0);
    GammaTauTwiceRow(b, s, 1);
    GammaTauTwiceRow(b, s, 2);
    GammaTauTwiceRow(b, s, 3);
    hide GammaTauRow;
  }

  lemma SigmaTwice(s: State, k: State)
    ensures SigmaS(SigmaS(s, k), k) == s
  {
    hide Xor;
    XorTwice(s.w0, k.w0);
    XorTwice(s.w1, k.w1);
    XorTwice(s.w2, k.w2);
    XorTwice(s.w3, k.w3);
  }

  lemma ThetaSTwice(s: State)
    ensures ThetaS(ThetaS(s)) == s
  {
    hide Theta;
    ThetaTwice(s.w0);
    ThetaTwice(s.w1);
    ThetaTwice(s.w2);
    ThetaTwice(s.w3);
  }

  lemma ThetaSSigma(s: State, k: State)
    ensures SigmaS(ThetaS(s), ThetaS(k)) == ThetaS(SigmaS(s, k))
  {
    hide Theta, Xor;
    ThetaXor(s.w0, k.w0);
    ThetaXor(s.w1, k.w1);
    ThetaXor(s.w2, k.w2);
    ThetaXor(s.w3, k.w3);
  }

  /** The state after the initial key addition and r full rounds. */
  function Run(b: Build, x: State, ks: seq<State>, r: nat): State
    requires r < |ks|
  {
    if r == 0 then SigmaS(x, ks[0]) else SigmaS(ThetaS(GammaTau(b, Run(b, x, ks, r - 1))), ks[r])
  }

  /** |ks| - 2 full rounds, then a last round without diffusion. */
  function Crypt(b: Build, x: State, ks: seq<State>): State
    requires |ks| >= 2
  {
    SigmaS(GammaTau(b, Run(b, x, ks, |ks| - 2)), ks[|ks| - 1])
  }

  /** A round seen from its two ends: with the round key taken off row j and the diffusion undone, byte i is the substituted
      byte j of row i. */
  lemma RoundSeenFromOutside(b: Build, x: State, ks: seq<State>, r: nat, i: int, j: int)
    requires r + 1 < |ks| && 0 <= i < 4 && 0 <= j < 4
    ensures S(b, At(Theta(Xor(Row(Run(b, x, ks, r + 1), j), Row(ks[r + 1], j))), i)) == At(Row(Run(b, x, ks, r), i), j)
  {
    hide Theta, S, At, GammaTau, Xor;
    var s := Run(b, x, ks, r);
    var t := GammaTau(b, s);
    XorTwice(Theta(Row(t, j)), Row(ks[r + 1], j));
    ThetaTwice(Row(t, j));
    GammaTauTransposes(b, s, j, i);
    SInvolution(b, At(Row(s, i), j));
  }

  /** In front of the rounds the first key is added; the last round has no diffusion. */
  lemma EndsSeenFromOutside(b: Build, x: State, ks: seq<State>, i: int, j: int)
    requires |ks| >= 2 && 0 <= i < 4 && 0 <= j < 4
    ensures Xor(Row(Run(b, x, ks, 0), j), Row(ks[0], j)) == Row(x, j)
    ensures S(b, At(Xor(Row(Crypt(b, x, ks), j), Row(ks[|ks| - 1], j)), i)) == At(Row(Run(b, x, ks, |ks| - 2), i), j)
  {
    hide Theta, S, At, GammaTau, Xor;
    var s := Run(b, x, ks, |ks| - 2);
    XorTwice(Row(x, j), Row(ks[0], j));
    XorTwice(Row(GammaTau(b, s), j), Row(ks[|ks| - 1], j));
    GammaTauTransposes(b, s, j, i);
    SInvolution(b, At(Row(s, i), j));
  }

  /** Reversed keys, diffused except for the outer two. */
  function InverseSchedule(ks: seq<State>): (ds: seq<State>)
    requires |ks| >= 2
    ensures |ds| == |ks|
  {
    seq(|ks|, r requires 0 <= r < |ks| =>
      if r == 0 || r == |ks| - 1 then ks[|ks| - 1 - r] else ThetaS(ks[|ks| - 1 - r]))
  }

  /** Each decryption round peels one encryption round off. */
  lemma {:induction false} DecryptionState(b: Build, x: State, ks: seq<State>, r: nat)
    requires r <= |ks| - 2
    ensures Run(b, Crypt(b, x, ks), InverseSchedule(ks), r) == GammaTau(b, Run(b, x, ks, |ks| - 2 - r))
  {
    hide GammaTau, SigmaS, ThetaS;
    var n := |ks| - 1;
    var t := GammaTau(b, Run(b, x, ks, n - 1 - r));
    if r == 0 {
      SigmaTwice(t, ks[n]);
    } else {
      DecryptionState(b, x, ks, r - 1);
      GammaTauTwice(b, Run(b, x, ks, n - r));
      ThetaSSigma(SigmaS(ThetaS(t), ks[n - r]), ks[n - r]);
      SigmaTwice(ThetaS(t), ks[n - r]);
      ThetaSTwice(t);
    }
  }

  lemma InverseUndoes(b: Build, x: State, ks: seq<State>)
    requires |ks| >= 2
    ensures Crypt(b, Crypt(b, x, ks), InverseSchedule(ks)) == x
  {
    hide GammaTau, SigmaS, ThetaS;
    DecryptionState(b, x, ks, |ks| - 2);
    GammaTauTwice(b, Run(b, x, ks, 0));
    SigmaTwice(x, ks[0]);
  }

  /** The inverse of the inverse schedule is the schedule itself. */
  lemma InverseScheduleTwice(ks: seq<State>)
    requires |ks| >= 2
    ensures InverseSchedule(InverseSchedule(ks)) == ks
  {
    hide ThetaS;
    forall r | 0 <= r < |ks|
      ensures InverseSchedule(InverseSchedule(ks))[r] == ks[r]
    {
      ThetaSTwice(ks[r]);
    }
  }

  /** For any round keys, any number of rounds, either build: each schedule undoes the other. */
  lemma CryptInverse(b: Build, x: State, ks: seq<State>)
    requires |ks| >= 2
    ensures Crypt(b, Crypt(b, x, ks), InverseSchedule(ks)) == x
    ensures Crypt(b, Crypt(b, x, InverseSchedule(ks)), ks) == x
  {
    hide Crypt, InverseSchedule;
    InverseUndoes(b, x, ks);
    InverseUndoes(b, x, InverseSchedule(ks));
    InverseScheduleTwice(ks);
  }

  // ---- a round count that does not belong to the round keys ----

  lemma RoundsInjective(b: Build, s: State, u: State, k: State)
    ensures SigmaS(s, k) == SigmaS(u, k) <==> s == u
    ensures ThetaS(s) == ThetaS(u) <==> s == u
    ensures GammaTau(b, s) == GammaTau(b, u) <==> s == u
  {
    hide SigmaS, ThetaS, GammaTau;
    SigmaTwice(s, k);
    SigmaTwice(u, k);
    ThetaSTwice(s);
    ThetaSTwice(u);
    GammaTauTwice(b, s);
    GammaTauTwice(b, u);
  }

  /** Under two schedules that end alike, two blocks come to the same result if and only if they have the same state where
      the common end begins. */
  lemma {:induction false} SameEnd(b: Build, x: State, ks: seq<State>, i: nat, y: State, us: seq<State>, j: nat)
    requires i + 2 <= |ks| && j + 2 <= |us| && ks[i + 1..] == us[j + 1..]
    ensures Crypt(b, x, ks) == Crypt(b, y, us) <==> Run(b, x, ks, i) == Run(b, y, us, j)
    decreases |ks| - i
  {
    hide GammaTau, SigmaS, ThetaS;
    var s, u := Run(b, x, ks, i), Run(b, y, us, j);
    assert |ks| - i == |us| - j;
    assert ks[i + 1] == ks[i + 1..][0] == us[j + 1..][0] == us[j + 1];
    RoundsInjective(b, s, u, ks[i + 1]);
    RoundsInjective(b, GammaTau(b, s), GammaTau(b, u), ks[i + 1]);
    if i + 2 < |ks| {
      RoundsInjective(b, ThetaS(GammaTau(b, s)), ThetaS(GammaTau(b, u)), ks[i + 1]);
      assert ks[i + 2..] == ks[i + 1..][1..] && us[j + 2..] == us[j + 1..][1..];
      SameEnd(b, x, ks, i + 1, y, us, j + 1);
    }
  }

  /** With `es` the encryption keys and the first rows of `ds` their inverse schedule, decryption runs `other` rounds where
      encryption ran |es| - 1: the state of the block where the two runs must agree for it to come back. With fewer rounds
      the last decryption key is a diffused one of the inner keys; with more the further rows are whatever the key memory
      held before. */
  predicate Meets(b: Build, x: State, es: seq<State>, ds: seq<State>, other: nat)
    requires |es| >= 2 && other >= 1 && other < |ds|
  {
    var rounds := |es| - 1;
    if other == rounds then true
    else if other < rounds then Run(b, x, es, rounds - other) == SigmaS(x, ThetaS(es[rounds - other]))
    else Run(b, x, InverseSchedule(ds[..other + 1]), other - rounds) == SigmaS(x, es[0])
  }

  /** The schedule whose inverse decryption runs, in terms of the encryption keys. */
  lemma FewerKeys(es: seq<State>, ds: seq<State>, other: nat)
    requires |es| >= 2 && 1 <= other < |es| - 1 && |es| <= |ds| && ds[..|es|] == InverseSchedule(es)
    ensures var us := InverseSchedule(ds[..other + 1]); var d := |es| - 1 - other;
      us[0] == ThetaS(es[d]) && us[1..] == es[d + 1..]
  {
    hide ThetaS;
    var us, d := InverseSchedule(ds[..other + 1]), |es| - 1 - other;
    assert forall i | 0 <= i < |es| :: ds[i] == InverseSchedule(es)[i];
    forall r | 1 <= r < |us| ensures us[r] == es[d + r] {
      ThetaSTwice(es[d + r]);
    }
    assert us[1..] == es[d + 1..];
  }

  lemma MoreKeys(es: seq<State>, ds: seq<State>, other: nat)
    requires |es| >= 2 && |es| - 1 < other < |ds| && ds[..|es|] == InverseSchedule(es)
    ensures var us := InverseSchedule(ds[..other + 1]); var d := other - (|es| - 1);
      us[d + 1..] == es[1..]
  {
    hide ThetaS;
    var us, d := InverseSchedule(ds[..other + 1]), other - (|es| - 1);
    assert forall i | 0 <= i < |es| :: ds[i] == InverseSchedule(es)[i];
    forall r | 1 <= r < |es| ensures us[d + r] == es[r] {
      ThetaSTwice(es[r]);
    }
    assert us[d + 1..] == es[1..];
  }

  /** A block comes back from decryption with another number of rounds if and only if the two runs meet. */
  lemma WrongRoundCount(b: Build, x: State, es: seq<State>, ds: seq<State>, other: nat)
    requires |es| >= 2 && |es| <= |ds| && ds[..|es|] == InverseSchedule(es) && 1 <= other < |ds|
    ensures Crypt(b, Crypt(b, x, es), ds[..other + 1]) == x <==> Meets(b, x, es, ds, other)
  {
    hide Crypt, Run, GammaTau, SigmaS, ThetaS, InverseSchedule;
    var us := InverseSchedule(ds[..other + 1]);
    InverseScheduleTwice(ds[..other + 1]);
    CryptInverse(b, x, us);
    CryptInverse(b, Crypt(b, x, es), us);
    assert Crypt(b, Crypt(b, x, es), ds[..other + 1]) == x <==> Crypt(b, x, es) == Crypt(b, x, us);
    var rounds := |es| - 1;
    if other == rounds {
      InverseScheduleTwice(es);
    } else if other < rounds {
      FewerKeys(es, ds, other);
      SameEnd(b, x, es, rounds - other, x, us, 0);
      StartState(b, x, us);
    } else {
      MoreKeys(es, ds, other);
      SameEnd(b, x, us, other - rounds, x, es, 0);
      StartState(b, x, es);
    }
  }

  /** With more rounds than keys: of two contents of the key memory that differ in the last row read only, every block is
      lost under at least one. */
  lemma LeftoverDecides(b: Build, x: State, es: seq<State>, ds: seq<State>, us: seq<State>, other: nat)
    requires |es| >= 2 && |es| - 1 < other < |ds| && |ds| == |us|
    requires ds[..other] == us[..other] && ds[other] != us[other]
    ensures !(Meets(b, x, es, ds, other) && Meets(b, x, es, us, other))
  {
    hide Crypt, Run, GammaTau, SigmaS, ThetaS;
    var ks, ls, d := InverseSchedule(ds[..other + 1]), InverseSchedule(us[..other + 1]), other - (|es| - 1);
    forall r | 1 <= r < |ks| ensures ks[r] == ls[r] {
      assert ds[other - r] == ds[..other][other - r] == us[..other][other - r] == us[other - r];
    }
    assert ks[0] == ds[other] && ls[0] == us[other];
    assert ks[1..] == ls[1..] && ks[d + 1..] == ls[d + 1..];
    SameEnd(b, x, ks, 0, x, ls, 0);
    SameEnd(b, x, ks, d, x, ls, d);
    StartState(b, x, ks);
    StartState(b, x, ls);
    KeysCancel(x, ks[0], ls[0]);
  }

  lemma KeysCancel(x: State, k: State, l: State)
    ensures SigmaS(x, k) == SigmaS(x, l) ==> k == l
  {
    SigmaCommutes(x, k);
    SigmaCommutes(x, l);
    hide SigmaS;
    SigmaTwice(k, x);
    SigmaTwice(l, x);
  }

  lemma SigmaCommutes(x: State, k: State)
    ensures SigmaS(x, k) == SigmaS(k, x)
  {
  }

  lemma StartState(b: Build, x: State, ks: seq<State>)
    requires ks != []
    ensures Run(b, x, ks, 0) == SigmaS(x, ks[0])
  {
  }

  // ---- the tables compute the layers ----

  lemma TableRows(b: Build, x: byte)
    ensures
      var a := S(b, x);
      && T0(b, x) == Word(F.Row0(a)) && T1(b, x) == Word(F.Row1(a))
      && T2(b, x) == Word(F.Row2(a)) && T3(b, x) == Word(F.Row3(a))
      && T4(b, x) == Pack(a, a, a, a)
  {
    hide F.Row0, F.Row1, F.Row2, F.Row3, AnubisTweakedTables.S, AnubisOriginalTables.S, F.Pack;
    AnubisTweakedTables.Rows(x);
    AnubisOriginalTables.Rows(x);
  }

  /** Four table rows XORed together: substitution, transposition and diffusion in one step. */
  function TableColumn(b: Build, s: State, j: int): Word
    requires 0 <= j < 4
  {
    Xor(Xor(Xor(T0(b, At(s.w0, j)), T1(b, At(s.w1, j))), T2(b, At(s.w2, j))), T3(b, At(s.w3, j)))
  }

  lemma TableColumnIsRound(b: Build, s: State, j: int)
    requires 0 <= j < 4
    ensures TableColumn(b, s, j) == Theta(GammaTauRow(b, s, j))
  {
    TablesDiffuse(b, At(s.w0, j), At(s.w1, j), At(s.w2, j), At(s.w3, j));
  }

  /** T0 .. T3 on four bytes give the matrix times their S-box values. */
  lemma TablesDiffuse(b: Build, x0: byte, x1: byte, x2: byte, x3: byte)
    ensures Xor(Xor(Xor(T0(b, x0), T1(b, x1)), T2(b, x2)), T3(b, x3))
         == Theta(Pack(S(b, x0), S(b, x1), S(b, x2), S(b, x3)))
  {
    hide T0, T1, T2, T3, S, F.Row0, F.Row1, F.Row2, F.Row3, F.Byte, F.Pack, F.Xor32, Xor;
    TableRows(b, x0);
    TableRows(b, x1);
    TableRows(b, x2);
    TableRows(b, x3);
    var r0, r1 := F.Row0(S(b, x0)), F.Row1(S(b, x1));
    var r2, r3 := F.Row2(S(b, x2)), F.Row3(S(b, x3));
    F.PackBytes(S(b, x0), S(b, x1), S(b, x2), S(b, x3));
    XorOfBits(r0, r1);
    XorOfBits(r2, r3);
    XorOfBits(F.Xor32(r0, r1), F.Xor32(r2, r3));
    XorAssociative(Xor(Word(r0), Word(r1)), Word(r2), Word(r3));
  }

  /** The same four look-ups masked to one byte each: the last round has no diffusion. */
  function MaskedColumn(b: Build, s: State, j: int): Word
    requires 0 <= j < 4
  {
    Xor(Xor(Xor(And(T0(b, At(s.w0, j)), Word(0xff00_0000)), And(T1(b, At(s.w1, j)), Word(0x00ff_0000))),
            And(T2(b, At(s.w2, j)), Word(0x0000_ff00))), And(T3(b, At(s.w3, j)), Word(0x0000_00ff)))
  }

  lemma MaskedColumnIsLastRound(b: Build, s: State, j: int)
    requires 0 <= j < 4
    ensures MaskedColumn(b, s, j) == GammaTauRow(b, s, j)
  {
    hide T0, T1, T2, T3, S, F.Row0, F.Row1, F.Row2, F.Row3, F.Byte, F.Pack, Xor, And;
    TableRows(b, At(s.w0, j));
    TableRows(b, At(s.w1, j));
    TableRows(b, At(s.w2, j));
    TableRows(b, At(s.w3, j));
    MaskedRows(S(b, At(s.w0, j)), S(b, At(s.w1, j)), S(b, At(s.w2, j)), S(b, At(s.w3, j)));
  }

  lemma MaskedRows(a: byte, b: byte, c: byte, d: byte)
    ensures Xor(Xor(Xor(And(Word(F.Row0(a)), Word(0xff00_0000)), And(Word(F.Row1(b)), Word(0x00ff_0000))),
            And(Word(F.Row2(c)), Word(0x0000_ff00))), And(Word(F.Row3(d)), Word(0x0000_00ff))) == Pack(a, b, c, d)
  {
    hide F.Times2, F.Times4, F.Times6;
  }

  // ---- the key schedule ----

  /** The coefficient column c of the key selection: multiplication by 1, 2, 6 or 8. */
  function Scale(c: int, x: byte): byte
    requires 0 <= c < 4
  {
    if c == 0 then F.Times1(x) else if c == 1 then F.Times2(x) else if c == 2 then F.Times6(x) else F.Times8(x)
  }

  /** x times the n-th power of that coefficient. */
  function ScalePower(c: int, n: nat, x: byte): byte
    requires 0 <= c < 4
  {
    if n == 0 then x else Scale(c, ScalePower(c, n - 1, x))
  }

  /** Byte (j, c) of a round key: a polynomial in the coefficient whose terms are byte j of each key word,
      substituted; this is the sum over the key words. */
  function SelectSum(b: Build, kappa: seq<Word>, j: int, c: int, n: nat): byte
    requires 0 <= j < 4 && 0 <= c < 4 && n <= |kappa|
  {
    if n == 0 then 0
    else F.Plus(SelectSum(b, kappa, j, c, n - 1), ScalePower(c, n - 1, S(b, At(kappa[n - 1], j))))
  }

  /** The same polynomial from its last term down, as Horner's rule evaluates it. */
  function SelectHorner(b: Build, kappa: seq<Word>, j: int, c: int, i: nat): byte
    requires 0 <= j < 4 && 0 <= c < 4 && i < |kappa|
    decreases |kappa| - i
  {
    var t := S(b, At(kappa[i], j));
    if i == |kappa| - 1 then t else F.Plus(t, Scale(c, SelectHorner(b, kappa, j, c, i + 1)))
  }

  lemma ScaleLinear(c: int, x: byte, y: byte)
    requires 0 <= c < 4
    ensures Scale(c, F.Plus(x, y)) == F.Plus(Scale(c, x), Scale(c, y))
  {
    hide F.Plus, F.Times2, F.Times6, F.Times8;
    F.Times2Linear(x, y);
    F.TimesLinear(x, y);
  }

  lemma {:induction false} ScalePowerLinear(c: int, n: nat, x: byte, y: byte)
    requires 0 <= c < 4
    ensures ScalePower(c, n, F.Plus(x, y)) == F.Plus(ScalePower(c, n, x), ScalePower(c, n, y))
  {
    hide F.Plus, Scale;
    if n > 0 {
      ScalePowerLinear(c, n - 1, x, y);
      ScaleLinear(c, ScalePower(c, n - 1, x), ScalePower(c, n - 1, y));
    }
  }

  lemma {:induction false} ScalePowerShift(c: int, n: nat, x: byte)
    requires 0 <= c < 4
    ensures ScalePower(c, n, Scale(c, x)) == ScalePower(c, n + 1, x)
  {
    hide Scale;
    if n > 0 {
      ScalePowerShift(c, n - 1, x);
    }
  }

  lemma PlusAssociative(x: byte, y: byte, z: byte)
    ensures F.Plus(F.Plus(x, y), z) == F.Plus(x, F.Plus(y, z))
    ensures F.Plus(0, x) == x
  {
  }

  /** The first n terms and the scaled Horner value of the rest add up to the whole. */
  lemma {:induction false} HornerSplit(b: Build, kappa: seq<Word>, j: int, c: int, n: nat)
    requires 0 <= j < 4 && 0 <= c < 4 && n < |kappa|
    ensures F.Plus(SelectSum(b, kappa, j, c, n), ScalePower(c, n, SelectHorner(b, kappa, j, c, n)))
         == SelectSum(b, kappa, j, c, |kappa|)
    decreases |kappa| - n
  {
    hide F.Plus, Scale, S, At;
    if n < |kappa| - 1 {
      var t, rest := S(b, At(kappa[n], j)), SelectHorner(b, kappa, j, c, n + 1);
      ScalePowerLinear(c, n, t, Scale(c, rest));
      ScalePowerShift(c, n, rest);
      PlusAssociative(SelectSum(b, kappa, j, c, n), ScalePower(c, n, t), ScalePower(c, n + 1, rest));
      HornerSplit(b, kappa, j, c, n + 1);
    }
  }

  /** Horner's rule from the last key word to the first evaluates the sum. */
  lemma HornerIsSum(b: Build, kappa: seq<Word>, j: int, c: int)
    requires 0 <= j < 4 && 0 <= c < 4 && kappa != []
    ensures SelectHorner(b, kappa, j, c, 0) == SelectSum(b, kappa, j, c, |kappa|)
  {
    hide F.Plus, S, At, Scale, SelectHorner;
    HornerSplit(b, kappa, j, c, 0);
    PlusAssociative(SelectHorner(b, kappa, j, c, 0), 0, 0);
  }

  function SelectWord(b: Build, kappa: seq<Word>, j: int): Word
    requires 0 <= j < 4
  {
    Pack(SelectSum(b, kappa, j, 0, |kappa|), SelectSum(b, kappa, j, 1, |kappa|),
         SelectSum(b, kappa, j, 2, |kappa|), SelectSum(b, kappa, j, 3, |kappa|))
  }

  /** The round key of a key state. */
  function Select(b: Build, kappa: seq<Word>): State {
    State(SelectWord(b, kappa, 0), SelectWord(b, kappa, 1), SelectWord(b, kappa, 2), SelectWord(b, kappa, 3))
  }

  lemma {:induction false} HornerBehind(b: Build, w: Word, kappa: seq<Word>, j: int, c: int, i: nat)
    requires 0 <= j < 4 && 0 <= c < 4 && i < |kappa|
    ensures SelectHorner(b, [w] + kappa, j, c, i + 1) == SelectHorner(b, kappa, j, c, i)
    decreases |kappa| - i
  {
    hide F.Plus, Scale, S, At;
    if i < |kappa| - 1 { HornerBehind(b, w, kappa, j, c, i + 1); }
  }

  lemma PlusBack(x: byte, y: byte)
    ensures F.Plus(F.Plus(x, y), y) == x
  {
  }

  lemma HornerFront(b: Build, w: Word, kappa: seq<Word>, j: int, c: int)
    requires 0 <= j < 4 && 0 <= c < 4 && kappa != []
    ensures F.Plus(SelectSum(b, [w] + kappa, j, c, |kappa| + 1), Scale(c, SelectSum(b, kappa, j, c, |kappa|))) == S(b, At(w, j))
  {
    hide F.Plus, Scale, S, At, SelectSum;
    HornerIsSum(b, kappa, j, c);
    HornerIsSum(b, [w] + kappa, j, c);
    HornerBehind(b, w, kappa, j, c, 0);
    PlusBack(S(b, At(w, j)), Scale(c, SelectHorner(b, kappa, j, c, 0)));
  }

  lemma SelectedBytes(b: Build, kappa: seq<Word>, j: int)
    requires 0 <= j < 4
    ensures var w := Row(Select(b, kappa), j);
      && At(w, 0) == SelectSum(b, kappa, j, 0, |kappa|) && At(w, 1) == SelectSum(b, kappa, j, 1, |kappa|)
      && At(w, 2) == SelectSum(b, kappa, j, 2, |kappa|) && At(w, 3) == SelectSum(b, kappa, j, 3, |kappa|)
  {
    hide At, Pack, SelectSum;
    PackAt(SelectSum(b, kappa, j, 0, |kappa|), SelectSum(b, kappa, j, 1, |kappa|),
           SelectSum(b, kappa, j, 2, |kappa|), SelectSum(b, kappa, j, 3, |kappa|));
  }

  /** Row j of a round key takes byte j of every key word: one more word in front multiplies the four bytes of the row by 1, 2, 6
      and 8 and adds the substituted byte of that word to each of them. */
  lemma SelectSeenFromOutside(b: Build, w: Word, kappa: seq<Word>, j: int)
    requires 0 <= j < 4 && kappa != []
    ensures
      var k, q, t := Row(Select(b, kappa), j), Row(Select(b, [w] + kappa), j), S(b, At(w, j));
      && F.Plus(At(q, 0), At(k, 0)) == t && F.Plus(At(q, 1), F.Times2(At(k, 1))) == t
      && F.Plus(At(q, 2), F.Times6(At(k, 2))) == t && F.Plus(At(q, 3), F.Times8(At(k, 3))) == t
  {
    hide At, Select, SelectSum, S, F.Plus, F.Times2, F.Times6, F.Times8;
    SelectedBytes(b, kappa, j);
    SelectedBytes(b, [w] + kappa, j);
    HornerFront(b, w, kappa, j, 0);
    HornerFront(b, w, kappa, j, 1);
    HornerFront(b, w, kappa, j, 2);
    HornerFront(b, w, kappa, j, 3);
  }

  /** Of a single word it takes byte j four times. */
  lemma SelectOfOne(b: Build, w: Word, j: int)
    requires 0 <= j < 4
    ensures var k, t := Row(Select(b, [w]), j), S(b, At(w, j)); At(k, 0) == At(k, 1) == At(k, 2) == At(k, 3) == t
  {
    hide At, Select, SelectSum, S, F.Plus;
    SelectedBytes(b, [w], j);
    HornerIsSum(b, [w], j, 0);
    HornerIsSum(b, [w], j, 1);
    HornerIsSum(b, [w], j, 2);
    HornerIsSum(b, [w], j, 3);
  }

  /** Key evolution of one word: bytes taken along a diagonal, substituted, diffused, and the round constant in word 0. */
  function EvolveWord(b: Build, kappa: seq<Word>, r: nat, i: nat): Word
    requires |kappa| >= 4 && i < |kappa| && r < 19
  {
    var n := |kappa|;
    var w := Theta(Pack(S(b, At(kappa[i], 0)), S(b, At(kappa[(i + n - 1) % n], 1)),
                        S(b, At(kappa[(i + n - 2) % n], 2)), S(b, At(kappa[(i + n - 3) % n], 3))));
    if i == 0 then Xor(w, Rc(b, r)) else w
  }

  /** Four S-box values in a row, as a word. */
  function FourValues(b: Build, x: byte): Word {
    Pack(S(b, x), S(b, x + 1), S(b, x + 2), S(b, x + 3))
  }

  lemma FourInTables(b: Build, x: byte)
    ensures FourValues(b, x) == Word(if b.Tweaked? then AnubisTweakedTables.Four(x) else AnubisOriginalTables.Four(x))
  {
    hide AnubisTweakedTables.S, AnubisOriginalTables.S, F.Pack;
  }

  /** The round constants are the S-box values of 0, 1, 2, ..., four at a time. */
  lemma RoundConstants(b: Build, r: nat)
    requires r < 19
    ensures Rc(b, r) == FourValues(b, F.TimesFour(r))
  {
    hide AnubisTweakedTables.Four, AnubisOriginalTables.Four, FourValues, F.TimesFour;
    FourInTables(b, F.TimesFour(r));
    AnubisTweakedTables.Constants(r);
    AnubisOriginalTables.Constants(r);
  }

  function Evolve(b: Build, kappa: seq<Word>, r: nat): (next: seq<Word>)
    requires |kappa| >= 4 && r < 19
    ensures |next| == |kappa|
  {
    seq(|kappa|, i requires 0 <= i < |kappa| => EvolveWord(b, kappa, r, i))
  }

  function KeyState(b: Build, kappa: seq<Word>, r: nat): (k: seq<Word>)
    requires |kappa| >= 4 && r <= 19
    ensures |k| == |kappa|
  {
    if r == 0 then kappa else Evolve(b, KeyState(b, kappa, r - 1), r - 1)
  }

  /** What is added to word i behind the diffusion of step r. */
  function ConstantAt(b: Build, r: nat, i: nat): Word
    requires r < 19
  {
    if i == 0 then FourValues(b, F.TimesFour(r)) else Word(0)
  }

  /** The substituted diagonal that word i of the next key state is made of. */
  function Diagonal(b: Build, kappa: seq<Word>, i: nat): Word
    requires |kappa| >= 4 && i < |kappa|
  {
    var n := |kappa|;
    Pack(S(b, At(kappa[i], 0)), S(b, At(kappa[(i + n - 1) % n], 1)),
         S(b, At(kappa[(i + n - 2) % n], 2)), S(b, At(kappa[(i + n - 3) % n], 3)))
  }

  lemma EvolvedDiagonal(b: Build, kappa: seq<Word>, r: nat, i: nat)
    requires |kappa| >= 4 && r < 19 && i < |kappa|
    ensures Theta(Xor(Evolve(b, kappa, r)[i], ConstantAt(b, r, i))) == Diagonal(b, kappa, i)
  {
    hide S, At, Pack, Theta, Xor, Rc, FourValues, F.TimesFour;
    var w := Diagonal(b, kappa, i);
    RoundConstants(b, r);
    XorTwice(Theta(w), Rc(b, r));
    XorZero(Theta(w));
    ThetaTwice(w);
  }

  lemma DiagonalByte(b: Build, kappa: seq<Word>, i: nat, t: int)
    requires |kappa| >= 4 && i < |kappa| && 0 <= t < 4
    ensures S(b, At(Diagonal(b, kappa, i), t)) == At(kappa[(i + |kappa| - t) % |kappa|], t)
  {
    hide S, At, Pack;
    var n := |kappa|;
    var x0, x1 := At(kappa[i], 0), At(kappa[(i + n - 1) % n], 1);
    var x2, x3 := At(kappa[(i + n - 2) % n], 2), At(kappa[(i + n - 3) % n], 3);
    SameIndex(i, n);
    PackAt(S(b, x0), S(b, x1), S(b, x2), S(b, x3));
    SInvolution(b, x0);
    SInvolution(b, x1);
    SInvolution(b, x2);
    SInvolution(b, x3);
  }

  lemma SameIndex(i: nat, n: nat)
    requires i < n
    ensures (i + n - 0) % n == i
  {
  }

  /** Every byte of a key state can be read off the next one: with the constant taken off and the diffusion undone, byte t
      of word i is the substituted byte t of the word t places before. */
  lemma EvolvedByte(b: Build, kappa: seq<Word>, r: nat, i: nat, t: int)
    requires |kappa| >= 4 && r < 19 && i < |kappa| && 0 <= t < 4
    ensures S(b, At(Theta(Xor(Evolve(b, kappa, r)[i], ConstantAt(b, r, i))), t)) == At(kappa[(i + |kappa| - t) % |kappa|], t)
  {
    hide S, At, Theta, Xor, Evolve, Diagonal, ConstantAt;
    EvolvedDiagonal(b, kappa, r, i);
    DiagonalByte(b, kappa, i, t);
  }

  lemma XorZero(a: Word)
    ensures Xor(a, Word(0)) == a
  {
  }

  /** ... through the whole schedule: the key states that the round keys are selected from. */
  lemma KeyStateByte(b: Build, kappa: seq<Word>, r: nat, i: nat, t: int)
    requires |kappa| >= 4 && r < 19 && i < |kappa| && 0 <= t < 4
    ensures S(b, At(Theta(Xor(KeyState(b, kappa, r + 1)[i], ConstantAt(b, r, i))), t))
         == At(KeyState(b, kappa, r)[(i + |kappa| - t) % |kappa|], t)
    ensures KeyState(b, kappa, 0) == kappa
  {
    hide S, At, Theta, Xor, Evolve, ConstantAt;
    EvolvedByte(b, KeyState(b, kappa, r), r, i, t);
  }

  /** The user key as big-endian words. */
  function KeyWords(key: seq<byte>): (k: seq<Word>)
    requires |key| % 4 == 0
    ensures |k| == |key| / 4
  {
    seq(|key| / 4, i requires 0 <= i < |key| / 4 => Load32(key[4 * i..4 * i + 4]))
  }

  predicate ValidKeyLength(n: int) {
    n % 4 == 0 && 16 <= n <= 40
  }

  /** The encryption round keys: one for each of the 8 + N rounds and the initial addition. */
  function EncKeys(b: Build, key: seq<byte>): (ks: seq<State>)
    requires ValidKeyLength(|key|)
    ensures |ks| == |key| / 4 + 9
  {
    seq(|key| / 4 + 9, r requires 0 <= r < |key| / 4 + 9 => Select(b, KeyState(b, KeyWords(key), r)))
  }
}
