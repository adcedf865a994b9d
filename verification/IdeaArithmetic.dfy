/** IDEA's 16-bit arithmetic (idea.c): XOR, addition mod 2^16, and multiplication mod 65537
    in which the word 0 stands for 65536. */
module IdeaArithmetic {
  import opened Fermat

  type Half = n: int | 0 <= n < 65536

  const P := 65537

  function Xor(a: Half, b: Half): Half {
    PowerOfTwo16();
    XorBits(a, b, 16)
  }

  /** The exclusive or of the n low bits of a and b. */
  function XorBits(a: nat, b: nat, n: nat): (r: nat)
    ensures r < PowerOfTwo(n)
  {
    if n == 0 then 0 else Bit(a, b) + 2 * XorBits(a / 2, b / 2, n - 1)
  }

  /** The exclusive or of the lowest bits. */
  function Bit(a: nat, b: nat): nat {
    if a % 2 == b % 2 then 0 else 1
  }

  function PowerOfTwo(n: nat): nat {
    if n == 0 then 1 else 2 * PowerOfTwo(n - 1)
  }

  lemma PowerOfTwo16()
    ensures PowerOfTwo(16) == 65536
  {
    assert PowerOfTwo(4) == 16;
    assert PowerOfTwo(8) == 256;
    assert PowerOfTwo(12) == 4096;
  }

  function Add(a: Half, b: Half): Half {
    (a + b) % 65536
  }

  function AddInv(a: Half): Half {
    (0 - a) % 65536
  }

  /** The element of 1 .. 65536 a word stands for, and the word that stands for an element. */
  function Element(a: Half): (n: int)
    ensures 1 <= n <= 65536
  {
    if a == 0 then 65536 else a
  }

  function Word(n: int): Half
    requires 1 <= n <= 65536
  {
    if n == 65536 then 0 else n
  }

  /** The product in the group of units mod 65537. */
  function Mul(a: Half, b: Half): (r: Half)
    ensures Element(r) == (Element(a) * Element(b)) % P
  {
    ProductIsUnit(Element(a), Element(b));
    Word((Element(a) * Element(b)) % P)
  }

  lemma ProductIsUnit(m: int, n: int)
    requires 1 <= m <= 65536 && 1 <= n <= 65536
    ensures 1 <= (m * n) % P <= 65536
  {
    hide IsPrime;
    FermatPrime();
    if (m * n) % P == 0 {
      ZeroProduct(P, m, n);
      SmallMod(n, P);
    }
  }

  // ---- group laws ----

  lemma XorCancels(a: Half, b: Half, t: Half)
    ensures Xor(Xor(a, t), Xor(b, t)) == Xor(a, b)
    ensures Xor(Xor(a, t), t) == a
  {
    PowerOfTwo16();
    XorBitsCancel(a, b, t, 16);
  }

  lemma BitCancels(a: nat, b: nat, t: nat)
    ensures Bit(Bit(a, t), Bit(b, t)) == Bit(a, b)
    ensures Bit(Bit(a, t), t) == a % 2
    ensures Bit(a, t) < 2
  {
  }

  lemma XorBitsStep(a: nat, b: nat, n: nat)
    requires n > 0
    ensures XorBits(a, b, n) % 2 == Bit(a, b)
    ensures XorBits(a, b, n) / 2 == XorBits(a / 2, b / 2, n - 1)
    ensures XorBits(a, b, n) == Bit(a, b) + 2 * XorBits(a / 2, b / 2, n - 1)
  {
  }

  lemma BitOfRemainder(a: nat, b: nat)
    ensures Bit(a, b) == Bit(a % 2, b) == Bit(a, b % 2) == Bit(a % 2, b % 2)
  {
  }

  lemma {:induction false} XorBitsCancel(a: nat, b: nat, t: nat, n: nat)
    ensures XorBits(XorBits(a, t, n), XorBits(b, t, n), n) == XorBits(a, b, n)
    ensures a < PowerOfTwo(n) ==> XorBits(XorBits(a, t, n), t, n) == a
  {
    if n > 0 {
      XorBitsCancel(a / 2, b / 2, t / 2, n - 1);
      var u, v := XorBits(a, t, n), XorBits(b, t, n);
      XorBitsStep(a, t, n);
      XorBitsStep(b, t, n);
      XorBitsStep(u, v, n);
      XorBitsStep(u, t, n);
      XorBitsStep(a, b, n);
      BitOfRemainder(u, v);
      BitOfRemainder(u, t);
      BitOfRemainder(a, b);
      BitCancels(a, b, t);
      hide XorBits, Bit;
    }
  }

  lemma {:induction false} XorBitsCommutes(a: nat, b: nat, n: nat)
    ensures XorBits(a, b, n) == XorBits(b, a, n)
  {
    if n > 0 {
      XorBitsCommutes(a / 2, b / 2, n - 1);
    }
  }

  lemma XorCommutes(a: Half, b: Half)
    ensures Xor(a, b) == Xor(b, a)
  {
    XorBitsCommutes(a, b, 16);
  }

  lemma AddCancels(a: Half, k: Half)
    ensures Add(Add(a, k), AddInv(k)) == a
  {
  }

  lemma MulAssociative(a: Half, b: Half, c: Half)
    ensures Mul(Mul(a, b), c) == Mul(a, Mul(b, c))
  {
    var x, y, z := Element(a), Element(b), Element(c);
    ModFactor(x * y, z, P);
    ModFactor(y * z, x, P);
    MulAssoc(x, y, z);
    SameElement(Mul(Mul(a, b), c), Mul(a, Mul(b, c)));
  }

  lemma SameElement(a: Half, b: Half)
    requires Element(a) == Element(b)
    ensures a == b
  {
  }

  lemma MulOne(a: Half)
    ensures Mul(a, 1) == a && Mul(1, a) == a
  {
    SmallMod(Element(a), P);
  }

  /** Powers of a word, as words. */
  function MulPower(x: Half, n: nat): Half
    requires n > 0
  {
    if n == 1 then x else Mul(x, MulPower(x, n - 1))
  }

  lemma {:induction false} PowerIsResidue(x: Half, n: nat)
    requires n > 0
    ensures Element(MulPower(x, n)) == Pow(Element(x), n) % P
  {
    var e := Element(x);
    if n == 1 {
      assert Pow(e, 1) == e * Pow(e, 0) == e;
      SmallMod(e, P);
    } else {
      PowerIsResidue(x, n - 1);
      ModFactor(Pow(e, n - 1), e, P);
    }
  }

  lemma {:induction false} PowerAdds(x: Half, m: nat, n: nat)
    requires m > 0 && n > 0
    ensures MulPower(x, m + n) == Mul(MulPower(x, m), MulPower(x, n))
  {
    if m > 1 {
      PowerAdds(x, m - 1, n);
      MulAssociative(x, MulPower(x, m - 1), MulPower(x, n));
    }
  }

  /** The multiplicative inverse is the power 65535. */
  function MulInv(x: Half): Half {
    MulPower(x, 65535)
  }

  /** Fermat: every word, 0 included, times its power 65535 is 1. */
  lemma MulInverse(x: Half)
    ensures Mul(x, MulInv(x)) == 1
  {
    hide IsPrime, MulPower;
    FermatPrime();
    LittleTheorem(Element(x), P);
    PowerIsResidue(x, 65536);
    PowerUnfold(x, 65536);
    SameElement(Mul(x, MulInv(x)), 1);
  }

  lemma PowerUnfold(x: Half, n: nat)
    requires n > 1
    ensures MulPower(x, n) == Mul(x, MulPower(x, n - 1))
  {
  }

  lemma MulCancels(a: Half, k: Half)
    ensures Mul(Mul(a, k), MulInv(k)) == a
  {
    hide Mul, MulInv;
    MulAssociative(a, k, MulInv(k));
    MulInverse(k);
    MulOne(a);
  }

  /** The inverses of the inverses. */
  lemma InversesTwice(k: Half)
    ensures MulInv(MulInv(k)) == k && AddInv(AddInv(k)) == k
  {
    hide *;
    AddInvTwice(k);
    MulCancels(k, MulInv(k));
    MulInverse(k);
    MulOne(MulInv(MulInv(k)));
  }

  lemma AddInvTwice(k: Half)
    ensures AddInv(AddInv(k)) == k
  {
  }

  // ---- the routines ----

  /** The low-minus-high trick: 65536 is -1 mod 65537, so high*65536 + low is low - high. */
  lemma LowMinusHigh(n: int, low: int, high: int)
    requires n == high * 65536 + low && 0 <= low < 65536 && 0 <= high < 65536
    ensures n % P == if low >= high then low - high else low - high + P
  {
    ModShift(low - high, high, P);
    if low >= high {
      SmallMod(low - high, P);
    } else {
      ModShift(low - high, 1, P);
      SmallMod(low - high + P, P);
    }
  }

  /** A word product with a factor 0 is the wrapped difference 1 - a - b. */
  lemma MulByZero(a: Half, b: Half)
    requires a == 0 || b == 0
    ensures Mul(a, b) == (1 - a - b) % 65536
  {
    var c := if a == 0 then b else a;
    var e := Element(c);
    assert Element(a) * Element(b) == 65536 * e;
    assert 65536 * e == (P - e) + P * (e - 1);
    ModShift(P - e, e - 1, P);
    SmallMod(P - e, P);
  }

  /** What the low-minus-high branch computes from a nonzero product. */
  lemma LowMinusHighWraps(n: int)
    requires 0 < n < 65536 * 65536 && n % P != 0
    ensures
      var p := (n % 65536 - n / 65536) % 0x1_0000_0000;
      (p % 65536 - (p / 65536) % 65536) % 65536 == Word(n % P)
  {
    var low, high := n % 65536, n / 65536;
    LowMinusHigh(n, low, high);
    if low >= high {
      SmallMod(low - high, 0x1_0000_0000);
      SmallMod(low - high, 65536);
    } else {
      var p := low - high + 0x1_0000_0000;
      ModShift(low - high, 1, 0x1_0000_0000);
      SmallMod(p, 0x1_0000_0000);
      assert p == 65535 * 65536 + (low - high + 65536);
      ModShift(low - high + 65536, 65535, 65536);
    }
  }

  /** The macro MUL(a, b); its local p is an unsigned 32-bit word and its result is cut to 16 bits. */
  method MUL(a: Half, b: Half) returns (r: Half)
    ensures r == Mul(a, b)
  {
    hide Mul;
    var p: int := a * b;
    if p != 0 {
      ProductBound(a, b);
      MulOfNonzero(a, b);
      LowMinusHighWraps(p);
      p := (p % 65536 - p / 65536) % 0x1_0000_0000;
      r := (p % 65536 - (p / 65536) % 65536) % 65536;
    } else {
      ProductIsZero(a, b);
      MulByZero(a, b);
      r := (1 - a - b) % 65536;
    }
  }

  lemma MulOfNonzero(a: Half, b: Half)
    requires a * b != 0
    ensures (a * b) % P != 0 && Mul(a, b) == Word((a * b) % P)
  {
    assert a != 0 && b != 0;
    ProductIsUnit(a, b);
  }

  lemma ProductBound(a: Half, b: Half)
    ensures 0 <= a * b < 65536 * 65536
  {
    ProductOfNats(a, b);
    ProductOfNats(65535 - a, b);
    assert (65535 - a) * b == 65535 * b - a * b;
  }

  lemma ProductOfNats(a: nat, b: nat)
    ensures a * b >= 0
  {
  }

  lemma ProductIsZero(a: Half, b: Half)
    requires a * b == 0
    ensures a == 0 || b == 0
  {
  }

  /** Fifteen square-and-multiply steps: the exponent runs through 1, 3, 7, ..., 65535. */
  method SMulInv(x: Half) returns (y: Half)
    ensures y == MulInv(x)
  {
    y := x;
    ghost var e: nat := 1;
    for i := 0 to 15
      invariant e == Exponent(i) && e > 0 && y == MulPower(x, e)
    {
      PowerAdds(x, e, e);
      y := MUL(y, y);
      PowerAdds(x, 2 * e, 1);
      y := MUL(y, x);
      e := 2 * e + 1;
    }
    ExponentReached();
  }

  function Exponent(i: nat): nat {
    if i == 0 then 1 else 2 * Exponent(i - 1) + 1
  }

  lemma ExponentReached()
    ensures Exponent(15) == 65535
  {
    assert Exponent(4) == 31;
    assert Exponent(8) == 511;
    assert Exponent(12) == 8191;
  }

  method SAddInv(x: Half) returns (y: Half)
    ensures Add(x, y) == 0 && y == AddInv(x)
  {
    y := (0 - x) % 65536;
  }
}
