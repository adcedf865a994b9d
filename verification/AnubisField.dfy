/** Bytes as elements of GF(2^8) modulo x^8 + x^4 + x^3 + x^2 + 1, and the matrix had(1, 2, 4, 6). */
module AnubisField {

  function Plus(a: bv8, b: bv8): bv8 { a ^ b }

  function Times1(a: bv8): bv8 { a }

  /** Multiplication by x: a shift, reduced when the top bit falls out. */
  function Times2(a: bv8): bv8 {
    if a < 128 then a << 1 else (a << 1) ^ 0x1d
  }

  function Times4(a: bv8): bv8 { Times2(Times2(a)) }

  function Times6(a: bv8): bv8 { Plus(Times4(a), Times2(a)) }

  function Times8(a: bv8): bv8 { Times2(Times4(a)) }

  function Pack(b0: bv8, b1: bv8, b2: bv8, b3: bv8): bv32 {
    ((b0 as bv32) << 24) | ((b1 as bv32) << 16) | ((b2 as bv32) << 8) | (b3 as bv32)
  }

  /** Byte i of a word, counted from the high end. */
  function Byte(w: bv32, i: int): bv8
    requires 0 <= i < 4
  {
    if i == 0 then ((w >> 24) & 0xff) as bv8
    else if i == 1 then ((w >> 16) & 0xff) as bv8
    else if i == 2 then ((w >> 8) & 0xff) as bv8
    else (w & 0xff) as bv8
  }

  /** Four times r, as a byte. */
  function TimesFour(r: nat): bv8
    requires r < 19
  {
    if r == 0 then 0 else if r == 1 then 4 else if r == 2 then 8 else if r == 3 then 12 else if r == 4 then 16 else if r == 5 then 20 else
    if r == 6 then 24 else if r == 7 then 28 else if r == 8 then 32 else if r == 9 then 36 else if r == 10 then 40 else if r == 11 then 44 else
    if r == 12 then 48 else if r == 13 then 52 else if r == 14 then 56 else if r == 15 then 60 else if r == 16 then 64 else if r == 17 then 68 else 72
  }

  // The rows of the Hadamard matrix, scaled by a.

  function Row0(a: bv8): bv32 { Pack(a, Times2(a), Times4(a), Times6(a)) }

  function Row1(a: bv8): bv32 { Pack(Times2(a), a, Times6(a), Times4(a)) }

  function Row2(a: bv8): bv32 { Pack(Times4(a), Times6(a), a, Times2(a)) }

  function Row3(a: bv8): bv32 { Pack(Times6(a), Times4(a), Times2(a), a) }

  function Xor32(v: bv32, w: bv32): bv32 { v ^ w }

  /** The diffusion of one word: its four bytes times the matrix. */
  function Theta(w: bv32): bv32 {
    Xor32(Xor32(Row0(Byte(w, 0)), Row1(Byte(w, 1))), Xor32(Row2(Byte(w, 2)), Row3(Byte(w, 3))))
  }

  // ---- linearity ----

  lemma PlusAssociative(a: bv8, b: bv8, c: bv8)
    ensures Plus(Plus(a, b), c) == Plus(a, Plus(b, c))
  {
  }

  lemma PlusCommutes(a: bv8, b: bv8)
    ensures Plus(a, b) == Plus(b, a)
  {
  }

  lemma PlusShuffle(a: bv8, b: bv8, c: bv8, d: bv8)
    ensures Plus(Plus(a, b), Plus(c, d)) == Plus(Plus(a, c), Plus(b, d))
  {
    hide Plus;
    PlusAssociative(a, b, Plus(c, d));
    PlusAssociative(b, c, d);
    PlusCommutes(b, c);
    PlusAssociative(c, b, d);
    PlusAssociative(a, c, Plus(b, d));
  }

  lemma Xor32Associative(a: bv32, b: bv32, c: bv32)
    ensures Xor32(Xor32(a, b), c) == Xor32(a, Xor32(b, c))
  {
  }

  lemma Xor32Commutes(a: bv32, b: bv32)
    ensures Xor32(a, b) == Xor32(b, a)
  {
  }

  lemma XorShuffle(a: bv32, b: bv32, c: bv32, d: bv32)
    ensures Xor32(Xor32(a, b), Xor32(c, d)) == Xor32(Xor32(a, c), Xor32(b, d))
  {
    hide Xor32;
    Xor32Associative(a, b, Xor32(c, d));
    Xor32Associative(b, c, d);
    Xor32Commutes(b, c);
    Xor32Associative(c, b, d);
    Xor32Associative(a, c, Xor32(b, d));
  }

  function Shifted(a: bv8): bv8 { a << 1 }

  /** What is added back when the top bit falls out. */
  function Reduction(a: bv8): bv8 { if a < 128 then 0 else 0x1d }

  lemma Times2Parts(a: bv8)
    ensures Times2(a) == Plus(Shifted(a), Reduction(a))
  {
  }

  lemma ShiftedLinear(a: bv8, b: bv8)
    ensures Shifted(Plus(a, b)) == Plus(Shifted(a), Shifted(b))
  {
  }

  lemma ReductionLinear(a: bv8, b: bv8)
    ensures Reduction(Plus(a, b)) == Plus(Reduction(a), Reduction(b))
  {
  }

  lemma Times2Linear(a: bv8, b: bv8)
    ensures Times2(Plus(a, b)) == Plus(Times2(a), Times2(b))
  {
    hide Plus, Times2, Shifted, Reduction;
    Times2Parts(a);
    Times2Parts(b);
    Times2Parts(Plus(a, b));
    ShiftedLinear(a, b);
    ReductionLinear(a, b);
    PlusShuffle(Shifted(a), Shifted(b), Reduction(a), Reduction(b));
  }

  lemma TimesLinear(a: bv8, b: bv8)
    ensures Times4(Plus(a, b)) == Plus(Times4(a), Times4(b))
    ensures Times6(Plus(a, b)) == Plus(Times6(a), Times6(b))
    ensures Times8(Plus(a, b)) == Plus(Times8(a), Times8(b))
  {
    hide Times2, Plus;
    Times2Linear(a, b);
    Times2Linear(Times2(a), Times2(b));
    Times2Linear(Times4(a), Times4(b));
    PlusShuffle(Times4(a), Times4(b), Times2(a), Times2(b));
  }

  lemma PackLinear(a0: bv8, a1: bv8, a2: bv8, a3: bv8, b0: bv8, b1: bv8, b2: bv8, b3: bv8)
    ensures Pack(Plus(a0, b0), Plus(a1, b1), Plus(a2, b2), Plus(a3, b3)) == Xor32(Pack(a0, a1, a2, a3), Pack(b0, b1, b2, b3))
  {
  }

  lemma RowsLinear(a: bv8, b: bv8)
    ensures Row0(Plus(a, b)) == Xor32(Row0(a), Row0(b))
    ensures Row1(Plus(a, b)) == Xor32(Row1(a), Row1(b))
    ensures Row2(Plus(a, b)) == Xor32(Row2(a), Row2(b))
    ensures Row3(Plus(a, b)) == Xor32(Row3(a), Row3(b))
  {
    hide Pack, Times2, Times4, Times6, Plus, Xor32;
    Times2Linear(a, b);
    TimesLinear(a, b);
    PackLinear(a, Times2(a), Times4(a), Times6(a), b, Times2(b), Times4(b), Times6(b));
    PackLinear(Times2(a), a, Times6(a), Times4(a), Times2(b), b, Times6(b), Times4(b));
    PackLinear(Times4(a), Times6(a), a, Times2(a), Times4(b), Times6(b), b, Times2(b));
    PackLinear(Times6(a), Times4(a), Times2(a), a, Times6(b), Times4(b), Times2(b), b);
  }

  lemma Byte0Linear(v: bv32, w: bv32)
    ensures Byte(Xor32(v, w), 0) == Plus(Byte(v, 0), Byte(w, 0))
  {
  }

  lemma Byte1Linear(v: bv32, w: bv32)
    ensures Byte(Xor32(v, w), 1) == Plus(Byte(v, 1), Byte(w, 1))
  {
  }

  lemma Byte2Linear(v: bv32, w: bv32)
    ensures Byte(Xor32(v, w), 2) == Plus(Byte(v, 2), Byte(w, 2))
  {
  }

  lemma Byte3Linear(v: bv32, w: bv32)
    ensures Byte(Xor32(v, w), 3) == Plus(Byte(v, 3), Byte(w, 3))
  {
  }

  lemma ByteLinear(v: bv32, w: bv32, i: int)
    requires 0 <= i < 4
    ensures Byte(Xor32(v, w), i) == Plus(Byte(v, i), Byte(w, i))
  {
    hide Byte, Xor32, Plus;
    if i == 0 { Byte0Linear(v, w); }
    else if i == 1 { Byte1Linear(v, w); }
    else if i == 2 { Byte2Linear(v, w); }
    else { Byte3Linear(v, w); }
  }

  lemma ThetaLinear(v: bv32, w: bv32)
    ensures Theta(Xor32(v, w)) == Xor32(Theta(v), Theta(w))
  {
    hide Byte, Row0, Row1, Row2, Row3, Xor32, Plus;
    ByteLinear(v, w, 0);
    ByteLinear(v, w, 1);
    ByteLinear(v, w, 2);
    ByteLinear(v, w, 3);
    RowsLinear(Byte(v, 0), Byte(w, 0));
    RowsLinear(Byte(v, 1), Byte(w, 1));
    RowsLinear(Byte(v, 2), Byte(w, 2));
    RowsLinear(Byte(v, 3), Byte(w, 3));
    var a0, a1, a2, a3 := Row0(Byte(v, 0)), Row1(Byte(v, 1)), Row2(Byte(v, 2)), Row3(Byte(v, 3));
    var b0, b1, b2, b3 := Row0(Byte(w, 0)), Row1(Byte(w, 1)), Row2(Byte(w, 2)), Row3(Byte(w, 3));
    XorShuffle(a0, b0, a1, b1);
    XorShuffle(a2, b2, a3, b3);
    XorShuffle(Xor32(a0, a1), Xor32(b0, b1), Xor32(a2, a3), Xor32(b2, b3));
  }

  // ---- the matrix squared is the identity ----

  // The four bytes of the matrix times a column of bytes.

  function Dot0(a: bv8, b: bv8, c: bv8, d: bv8): bv8 { Plus(Plus(a, Times2(b)), Plus(Times4(c), Times6(d))) }

  function Dot1(a: bv8, b: bv8, c: bv8, d: bv8): bv8 { Plus(Plus(Times2(a), b), Plus(Times6(c), Times4(d))) }

  function Dot2(a: bv8, b: bv8, c: bv8, d: bv8): bv8 { Plus(Plus(Times4(a), Times6(b)), Plus(c, Times2(d))) }

  function Dot3(a: bv8, b: bv8, c: bv8, d: bv8): bv8 { Plus(Plus(Times6(a), Times4(b)), Plus(Times2(c), d)) }

  /** 1 + 4 + 16 + 20 = 1, and the mixed products cancel in pairs. */
  lemma FirstRow(a: bv8)
    ensures
      var b, c, d := Times2(a), Times4(a), Times6(a);
      Dot0(a, b, c, d) == a && Dot1(a, b, c, d) == 0 && Dot2(a, b, c, d) == 0 && Dot3(a, b, c, d) == 0
  {
  }

  lemma SecondRow(a: bv8)
    ensures
      var b, c, d := Times2(a), Times4(a), Times6(a);
      Dot0(b, a, d, c) == 0 && Dot1(b, a, d, c) == a && Dot2(b, a, d, c) == 0 && Dot3(b, a, d, c) == 0
  {
  }

  lemma ThirdRow(a: bv8)
    ensures
      var b, c, d := Times2(a), Times4(a), Times6(a);
      Dot0(c, d, a, b) == 0 && Dot1(c, d, a, b) == 0 && Dot2(c, d, a, b) == a && Dot3(c, d, a, b) == 0
  {
  }

  lemma FourthRow(a: bv8)
    ensures
      var b, c, d := Times2(a), Times4(a), Times6(a);
      Dot0(d, c, b, a) == 0 && Dot1(d, c, b, a) == 0 && Dot2(d, c, b, a) == 0 && Dot3(d, c, b, a) == a
  {
  }

  lemma ThetaOfPack(a: bv8, b: bv8, c: bv8, d: bv8)
    ensures Theta(Pack(a, b, c, d)) == Pack(Dot0(a, b, c, d), Dot1(a, b, c, d), Dot2(a, b, c, d), Dot3(a, b, c, d))
  {
    hide Byte, Pack, Times2, Times4, Times6, Plus, Xor32;
    PackBytes(a, b, c, d);
    PackLinear(a, Times2(a), Times4(a), Times6(a), Times2(b), b, Times6(b), Times4(b));
    PackLinear(Times4(c), Times6(c), c, Times2(c), Times6(d), Times4(d), Times2(d), d);
    PackLinear(Plus(a, Times2(b)), Plus(Times2(a), b), Plus(Times4(a), Times6(b)), Plus(Times6(a), Times4(b)),
               Plus(Times4(c), Times6(d)), Plus(Times6(c), Times4(d)), Plus(c, Times2(d)), Plus(Times2(c), d));
  }

  lemma ThetaOfRows(a: bv8)
    ensures Theta(Row0(a)) == Pack(a, 0, 0, 0) && Theta(Row1(a)) == Pack(0, a, 0, 0)
    ensures Theta(Row2(a)) == Pack(0, 0, a, 0) && Theta(Row3(a)) == Pack(0, 0, 0, a)
  {
    hide Pack, Times2, Times4, Times6, Theta, Dot0, Dot1, Dot2, Dot3;
    var b, c, d := Times2(a), Times4(a), Times6(a);
    FirstRow(a);
    SecondRow(a);
    ThirdRow(a);
    FourthRow(a);
    ThetaOfPack(a, b, c, d);
    ThetaOfPack(b, a, d, c);
    ThetaOfPack(c, d, a, b);
    ThetaOfPack(d, c, b, a);
  }

  lemma SplitBytes(w: bv32)
    ensures Xor32(Xor32(Pack(Byte(w, 0), 0, 0, 0), Pack(0, Byte(w, 1), 0, 0)),
                  Xor32(Pack(0, 0, Byte(w, 2), 0), Pack(0, 0, 0, Byte(w, 3)))) == w
  {
  }

  lemma ThetaInvolution(w: bv32)
    ensures Theta(Theta(w)) == w
  {
    var r0, r1, r2, r3 := Row0(Byte(w, 0)), Row1(Byte(w, 1)), Row2(Byte(w, 2)), Row3(Byte(w, 3));
    assert Theta(w) == Xor32(Xor32(r0, r1), Xor32(r2, r3));
    hide *;
    ThetaOfRows(Byte(w, 0));
    ThetaOfRows(Byte(w, 1));
    ThetaOfRows(Byte(w, 2));
    ThetaOfRows(Byte(w, 3));
    SplitBytes(w);
    ThetaLinear(Xor32(r0, r1), Xor32(r2, r3));
    ThetaLinear(r0, r1);
    ThetaLinear(r2, r3);
  }

  lemma PackBytes(b0: bv8, b1: bv8, b2: bv8, b3: bv8)
    ensures Byte(Pack(b0, b1, b2, b3), 0) == b0
    ensures Byte(Pack(b0, b1, b2, b3), 1) == b1
    ensures Byte(Pack(b0, b1, b2, b3), 2) == b2
    ensures Byte(Pack(b0, b1, b2, b3), 3) == b3
  {
  }

  lemma PackOfBytes(w: bv32)
    ensures Pack(Byte(w, 0), Byte(w, 1), Byte(w, 2), Byte(w, 3)) == w
  {
  }
}
