/** KASUMI (kasumi.c): the round functions with their ranges and inverses, the key schedule and the cipher.
    The source's 16-bit values live in full-width unsigned words, so that they stay below 2^16 is proved. */
module Kasumi {
  import opened Words
  import opened Feistel
  import T = KasumiTables

  // ---- ranges ----

  predicate Fits7(x: Word) { x.w < 0x80 }

  predicate Fits9(x: Word) { x.w < 0x200 }

  predicate Fits16(x: Word) { x.w < 0x10000 }

  function Low7(x: Word): (r: Word)
    ensures Fits7(r)
  {
    Word(x.w & 0x7f)
  }

  function Low9(x: Word): (r: Word)
    ensures Fits9(r)
  {
    Word(x.w & 0x1ff)
  }

  /** The upper nine bits of an input. */
  function High9(x: Word): (r: Word)
    ensures Fits9(r)
  {
    Word((x.w >> 7) & 0x1ff)
  }

  /** The upper seven bits of a subkey. */
  function High7(x: Word): (r: Word)
    requires Fits16(x)
    ensures Fits7(r)
  {
    Word(x.w >> 9)
  }

  lemma XorFits7(x: Word, y: Word)
    requires Fits7(x) && Fits7(y)
    ensures Fits7(Xor(x, y))
  {
  }

  lemma XorFits9(x: Word, y: Word)
    requires Fits9(x) && Fits9(y)
    ensures Fits9(Xor(x, y))
  {
  }

  lemma XorFits16(x: Word, y: Word)
    requires Fits16(x) && Fits16(y)
    ensures Fits16(Xor(x, y))
  {
  }

  lemma Fits7In9(x: Word)
    requires Fits7(x)
    ensures Fits9(x)
  {
  }

  lemma XorFits(x: Word, y: Word)
    ensures Fits7(x) && Fits7(y) ==> Fits7(Xor(x, y))
    ensures Fits9(x) && Fits9(y) ==> Fits9(Xor(x, y))
    ensures Fits9(x) && Fits7(y) ==> Fits9(Xor(x, y))
    ensures Fits16(x) && Fits16(y) ==> Fits16(Xor(x, y))
  {
    hide Fits7, Fits9, Fits16, Xor;
    if Fits7(y) { Fits7In9(y); }
    if Fits7(x) && Fits7(y) { XorFits7(x, y); }
    if Fits9(x) && Fits9(y) { XorFits9(x, y); }
    if Fits16(x) && Fits16(y) { XorFits16(x, y); }
  }

  // ---- the tables, with their index ranges as preconditions ----

  function Index7(x: Word): bv7
    requires Fits7(x)
  {
    x.w as bv7
  }

  function Widen7(x: bv7): (r: Word)
    ensures Fits7(r)
  {
    Word(x as bv32)
  }

  lemma Narrow7(x: Word, i: bv7)
    ensures Fits7(x) ==> Widen7(Index7(x)) == x
    ensures Index7(Widen7(i)) == i
  {
  }

  function S7(x: Word): (r: Word)
    requires Fits7(x)
    ensures Fits7(r)
  {
    Widen7(T.S7(Index7(x)))
  }

  function S7Inverse(x: Word): (r: Word)
    requires Fits7(x)
    ensures Fits7(r)
  {
    Widen7(T.S7Inverse(Index7(x)))
  }

  function Index9(x: Word): bv9
    requires Fits9(x)
  {
    x.w as bv9
  }

  function Widen9(x: bv9): (r: Word)
    ensures Fits9(r)
  {
    Word(x as bv32)
  }

  lemma Narrow9(x: Word, i: bv9)
    ensures Fits9(x) ==> Widen9(Index9(x)) == x
    ensures Index9(Widen9(i)) == i
  {
  }

  function S9(x: Word): (r: Word)
    requires Fits9(x)
    ensures Fits9(r)
  {
    Widen9(T.S9(Index9(x)))
  }

  function S9Inverse(x: Word): (r: Word)
    requires Fits9(x)
    ensures Fits9(r)
  {
    Widen9(T.S9Inverse(Index9(x)))
  }

  lemma S7Permutes(x: Word)
    requires Fits7(x)
    ensures S7Inverse(S7(x)) == x && S7(S7Inverse(x)) == x
  {
    hide T.S7, T.S7Inverse, Fits7, Index7, Widen7;
    var i := Index7(x);
    T.S7Bijective(i);
    Narrow7(x, T.S7(i));
    Narrow7(x, T.S7Inverse(i));
  }

  lemma S9Permutes(x: Word)
    requires Fits9(x)
    ensures S9Inverse(S9(x)) == x && S9(S9Inverse(x)) == x
  {
    hide T.S9, T.S9Inverse, Fits9, Index9, Widen9;
    var i := Index9(x);
    T.S9Bijective(i);
    Narrow9(x, T.S9(i));
    Narrow9(x, T.S9Inverse(i));
  }

  // ---- FI: 16 bits as a nine-bit and a seven-bit half ----

  datatype Split = Split(nine: Word, seven: Word)

  ghost predicate InRange(x: Split) { Fits9(x.nine) && Fits7(x.seven) }

  /** The first table step; every index is in range. */
  function Confuse(x: Split): (r: Split)
    requires InRange(x)
    ensures InRange(r)
  {
    hide S9, S7, Xor, Fits7, Fits9;
    var nine := Xor(S9(x.nine), x.seven);
    var seven := Xor(S7(x.seven), Low7(nine));
    XorFits(S9(x.nine), x.seven);
    XorFits(S7(x.seven), Low7(nine));
    Split(nine, seven)
  }

  function Unconfuse(x: Split): (r: Split)
    requires InRange(x)
    ensures InRange(r)
  {
    hide S9Inverse, S7Inverse, Xor, Fits7, Fits9;
    XorFits(x.seven, Low7(x.nine));
    var seven := S7Inverse(Xor(x.seven, Low7(x.nine)));
    S7Permutes(Xor(x.seven, Low7(x.nine)));
    XorFits(x.nine, seven);
    S9Permutes(Xor(x.nine, seven));
    Split(S9Inverse(Xor(x.nine, seven)), seven)
  }

  lemma UnconfuseInverts(x: Split)
    requires InRange(x)
    ensures Unconfuse(Confuse(x)) == x && Confuse(Unconfuse(x)) == x
  {
    hide S9, S7, S9Inverse, S7Inverse, Xor, Fits7, Fits9, Low7;
    var c := Confuse(x);
    XorTwice(S7(x.seven), Low7(c.nine));
    S7Permutes(x.seven);
    XorTwice(S9(x.nine), x.seven);
    S9Permutes(x.nine);
    var u := Unconfuse(x);
    XorFits(x.seven, Low7(x.nine));
    S7Permutes(Xor(x.seven, Low7(x.nine)));
    XorFits(x.nine, u.seven);
    S9Permutes(Xor(x.nine, u.seven));
    XorTwice(x.nine, u.seven);
    XorTwice(x.seven, Low7(x.nine));
  }

  function AddKey(x: Split, subkey: Word): (r: Split)
    requires InRange(x) && Fits16(subkey)
    ensures InRange(r)
  {
    hide Xor, Fits7, Fits9, Fits16;
    XorFits(x.seven, High7(subkey));
    XorFits(x.nine, Low9(subkey));
    Split(Xor(x.nine, Low9(subkey)), Xor(x.seven, High7(subkey)))
  }

  lemma AddKeyTwice(x: Split, subkey: Word)
    requires InRange(x) && Fits16(subkey)
    ensures AddKey(AddKey(x, subkey), subkey) == x
  {
    hide Xor, Low9, High7;
    XorTwice(x.nine, Low9(subkey));
    XorTwice(x.seven, High7(subkey));
  }

  /** The seven-bit half goes on top, added with +. */
  function Glue(x: Split): Word {
    Word((x.seven.w << 9) + x.nine.w)
  }

  function Unglue(x: Word): Split
    requires Fits16(x)
  {
    Split(Low9(x), High7(x))
  }

  lemma GlueInverts(s: Split, x: Word)
    requires InRange(s) && Fits16(x)
    ensures Fits16(Glue(s)) && Unglue(Glue(s)) == s
    ensures InRange(Unglue(x)) && Glue(Unglue(x)) == x
  {
  }

  function Take(x: Word): (s: Split)
    ensures InRange(s)
  {
    Split(High9(x), Low7(x))
  }

  function Untake(s: Split): Word {
    Word((s.nine.w << 7) | s.seven.w)
  }

  lemma TakeInverts(s: Split, x: Word)
    requires InRange(s) && Fits16(x)
    ensures Untake(Take(x)) == x && Fits16(Untake(s)) && Take(Untake(s)) == s
  {
  }

  function FI(x: Word, subkey: Word): (r: Word)
    requires Fits16(x) && Fits16(subkey)
    ensures Fits16(r)
  {
    hide Confuse, AddKey, Glue, Take, Fits16;
    GlueInverts(Confuse(AddKey(Confuse(Take(x)), subkey)), x);
    Glue(Confuse(AddKey(Confuse(Take(x)), subkey)))
  }

  function FIInverse(y: Word, subkey: Word): (r: Word)
    requires Fits16(y) && Fits16(subkey)
    ensures Fits16(r)
  {
    hide Unconfuse, AddKey, Unglue, Untake, Fits16;
    GlueInverts(Split(Word(0), Word(0)), y);
    TakeInverts(Unconfuse(AddKey(Unconfuse(Unglue(y)), subkey)), y);
    Untake(Unconfuse(AddKey(Unconfuse(Unglue(y)), subkey)))
  }

  /** FI is a bijection of the 16-bit values for every 16-bit subkey. */
  lemma FIBijective(x: Word, subkey: Word)
    requires Fits16(x) && Fits16(subkey)
    ensures FIInverse(FI(x, subkey), subkey) == x
    ensures FI(FIInverse(x, subkey), subkey) == x
  {
    hide Confuse, Unconfuse, AddKey, Glue, Unglue, Take, Untake, Fits16, InRange;
    var s1 := Confuse(Take(x));
    var s2 := AddKey(s1, subkey);
    GlueInverts(Confuse(s2), x);
    UnconfuseInverts(s2);
    AddKeyTwice(s1, subkey);
    UnconfuseInverts(Take(x));
    TakeInverts(Take(x), x);
    var u1 := Unconfuse(Unglue(x));
    var u2 := AddKey(u1, subkey);
    TakeInverts(Unconfuse(u2), x);
    UnconfuseInverts(u2);
    AddKeyTwice(u1, subkey);
    UnconfuseInverts(Unglue(x));
  }

  /** FI as the source computes it, one reassignment after another. */
  method ComputeFI(x: Word, subkey: Word) returns (r: Word)
    requires Fits16(x) && Fits16(subkey)
    ensures r == FI(x, subkey)
  {
    hide Fits7, Fits9, Fits16, Xor, S7, S9, High9, Low7, Low9, High7;
    var nine, seven := High9(x), Low7(x);
    ghost var taken := Split(nine, seven);
    XorFits(S9(nine), seven);
    nine := Xor(S9(nine), seven);
    seven := Xor(S7(seven), Low7(nine));
    assert Split(nine, seven) == Confuse(taken);
    seven := Xor(seven, High7(subkey));
    nine := Xor(nine, Low9(subkey));
    assert Split(nine, seven) == AddKey(Confuse(taken), subkey);
    nine := Xor(S9(nine), seven);
    seven := Xor(S7(seven), Low7(nine));
    r := Glue(Split(nine, seven));
  }

  // ---- FO and FL on 32 bits ----

  /** The eight subkeys of a round. */
  datatype RoundKey = RoundKey(KL1: Word, KL2: Word, KO1: Word, KO2: Word, KO3: Word, KI1: Word, KI2: Word, KI3: Word)

  predicate KeyFits(k: RoundKey) {
    && Fits16(k.KL1) && Fits16(k.KL2) && Fits16(k.KO1) && Fits16(k.KO2) && Fits16(k.KO3)
    && Fits16(k.KI1) && Fits16(k.KI2) && Fits16(k.KI3)
  }

  type Subkeys = k: RoundKey | KeyFits(k)
    witness RoundKey(Word(0), Word(0), Word(0), Word(0), Word(0), Word(0), Word(0), Word(0))

  function Upper(x: Word): (r: Word)
    ensures Fits16(r)
  {
    Word(x.w >> 16)
  }

  function Lower(x: Word): (r: Word)
    ensures Fits16(r)
  {
    Word(x.w & 0xffff)
  }

  function Join16(hi: Word, lo: Word): Word {
    Word((hi.w << 16) + lo.w)
  }

  lemma JoinInverts(x: Word, hi: Word, lo: Word)
    requires Fits16(hi) && Fits16(lo)
    ensures Join16(Upper(x), Lower(x)) == x
    ensures Upper(Join16(hi, lo)) == hi && Lower(Join16(hi, lo)) == lo
  {
  }

  function FOStep(x: Word, other: Word, ko: Word, ki: Word): (r: Word)
    requires Fits16(x) && Fits16(other) && Fits16(ko) && Fits16(ki)
    ensures Fits16(r)
  {
    hide Fits16, Fits7, Fits9, Xor, FI;
    XorFits(x, ko);
    XorFits(FI(Xor(x, ko), ki), other);
    Xor(FI(Xor(x, ko), ki), other)
  }

  function FOUnstep(y: Word, other: Word, ko: Word, ki: Word): (r: Word)
    requires Fits16(y) && Fits16(other) && Fits16(ko) && Fits16(ki)
    ensures Fits16(r)
  {
    hide Fits16, Fits7, Fits9, Xor, FIInverse;
    XorFits(y, other);
    XorFits(FIInverse(Xor(y, other), ki), ko);
    Xor(FIInverse(Xor(y, other), ki), ko)
  }

  lemma FOStepInverts(x: Word, other: Word, ko: Word, ki: Word)
    requires Fits16(x) && Fits16(other) && Fits16(ko) && Fits16(ki)
    ensures FOUnstep(FOStep(x, other, ko, ki), other, ko, ki) == x
    ensures FOStep(FOUnstep(x, other, ko, ki), other, ko, ki) == x
  {
    hide Fits16, Fits7, Fits9, Xor, FI, FIInverse;
    XorFits(x, ko);
    XorTwice(FI(Xor(x, ko), ki), other);
    FIBijective(Xor(x, ko), ki);
    XorTwice(x, ko);
    XorFits(x, other);
    XorTwice(FIInverse(Xor(x, other), ki), ko);
    FIBijective(Xor(x, other), ki);
    XorTwice(x, other);
  }

  function FO(x: Word, k: Subkeys): Word {
    var left := FOStep(Upper(x), Lower(x), k.KO1, k.KI1);
    var right := FOStep(Lower(x), left, k.KO2, k.KI2);
    Join16(right, FOStep(left, right, k.KO3, k.KI3))
  }

  function FOInverse(y: Word, k: Subkeys): Word {
    var right := Upper(y);
    var left := FOUnstep(Lower(y), right, k.KO3, k.KI3);
    var lower := FOUnstep(right, left, k.KO2, k.KI2);
    Join16(FOUnstep(left, lower, k.KO1, k.KI1), lower)
  }

  /** FO is a bijection of the 32-bit words for every choice of subkeys. */
  lemma FOBijective(x: Word, k: Subkeys)
    ensures FOInverse(FO(x, k), k) == x
    ensures FO(FOInverse(x, k), k) == x
  {
    hide Fits16, FOStep, FOUnstep, Join16, Upper, Lower;
    var left := FOStep(Upper(x), Lower(x), k.KO1, k.KI1);
    var right := FOStep(Lower(x), left, k.KO2, k.KI2);
    JoinInverts(x, right, FOStep(left, right, k.KO3, k.KI3));
    FOStepInverts(left, right, k.KO3, k.KI3);
    FOStepInverts(Lower(x), left, k.KO2, k.KI2);
    FOStepInverts(Upper(x), Lower(x), k.KO1, k.KI1);
    var l := FOUnstep(Lower(x), Upper(x), k.KO3, k.KI3);
    var lower := FOUnstep(Upper(x), l, k.KO2, k.KI2);
    JoinInverts(x, FOUnstep(l, lower, k.KO1, k.KI1), lower);
    FOStepInverts(l, lower, k.KO1, k.KI1);
    FOStepInverts(Upper(x), l, k.KO2, k.KI2);
    FOStepInverts(Lower(x), Upper(x), k.KO3, k.KI3);
  }

  /** The macro ROL16: a rotation of 16 bits held in a full-width word. */
  function Rol16(x: Word, n: bv6): (r: Word)
    requires n <= 16
    ensures Fits16(r)
  {
    Word(((x.w << n) | (x.w >> (16 - n))) & 0xffff)
  }

  /** On values below 2^16 the macro loses nothing: rotating the rest of the way restores the value. */
  lemma Rol16Inverts(x: Word, n: bv6)
    requires Fits16(x) && n <= 16
    ensures Rol16(Rol16(x, n), 16 - n) == x
  {
  }

  /** The two additions of FL: the AND form into the lower half, the OR form into the upper half. */
  function AndForm(l: Word, key: Word): (r: Word)
    ensures Fits16(r)
  {
    Rol16(And(l, key), 1)
  }

  function OrForm(r: Word, key: Word): (s: Word)
    ensures Fits16(s)
  {
    Rol16(Or(r, key), 1)
  }

  function FL(x: Word, k: Subkeys): Word {
    var r := Xor(Lower(x), AndForm(Upper(x), k.KL1));
    Join16(Xor(Upper(x), OrForm(r, k.KL2)), r)
  }

  function FLInverse(y: Word, k: Subkeys): Word {
    var l := Xor(Upper(y), OrForm(Lower(y), k.KL2));
    Join16(l, Xor(Lower(y), AndForm(l, k.KL1)))
  }

  /** FL is a bijection of the 32-bit words for every choice of subkeys. */
  lemma FLBijective(x: Word, k: Subkeys)
    ensures FLInverse(FL(x, k), k) == x
    ensures FL(FLInverse(x, k), k) == x
  {
    hide Fits7, Fits9, Fits16, Join16, Upper, Lower, AndForm, OrForm, Xor;
    var l, r := Upper(x), Lower(x);
    var r1 := Xor(r, AndForm(l, k.KL1));
    XorFits(r, AndForm(l, k.KL1));
    XorFits(l, OrForm(r1, k.KL2));
    JoinInverts(x, Xor(l, OrForm(r1, k.KL2)), r1);
    XorTwice(l, OrForm(r1, k.KL2));
    XorTwice(r, AndForm(l, k.KL1));
    var l1 := Xor(l, OrForm(r, k.KL2));
    XorFits(l, OrForm(r, k.KL2));
    XorFits(r, AndForm(l1, k.KL1));
    JoinInverts(x, l1, Xor(r, AndForm(l1, k.KL1)));
    XorTwice(l, OrForm(r, k.KL2));
    XorTwice(r, AndForm(l1, k.KL1));
  }

  method ComputeFO(x: Word, k: Subkeys) returns (r: Word)
    ensures r == FO(x, k)
  {
    hide Fits7, Fits9, Fits16, Xor, FI, Upper, Lower, Join16;
    var left, right := Upper(x), Lower(x);
    XorFits(left, k.KO1);
    left := Xor(left, k.KO1);
    left := ComputeFI(left, k.KI1);
    XorFits(left, right);
    left := Xor(left, right);

    XorFits(right, k.KO2);
    right := Xor(right, k.KO2);
    right := ComputeFI(right, k.KI2);
    XorFits(right, left);
    right := Xor(right, left);

    XorFits(left, k.KO3);
    left := Xor(left, k.KO3);
    left := ComputeFI(left, k.KI3);
    XorFits(left, right);
    left := Xor(left, right);
    r := Join16(right, left);
  }

  method ComputeFL(x: Word, k: Subkeys) returns (y: Word)
    ensures y == FL(x, k)
  {
    hide Fits16, Xor, And, Or, Rol16, Upper, Lower, Join16;
    var l, r := Upper(x), Lower(x);
    var a := And(l, k.KL1);
    r := Xor(r, Rol16(a, 1));
    var b := Or(r, k.KL2);
    l := Xor(l, Rol16(b, 1));
    y := Join16(l, r);
  }
}
