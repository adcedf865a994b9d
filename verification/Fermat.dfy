/** Fermat's little theorem, by the permutation argument: multiplying 1 .. p-1 by x only reorders them mod p. */
module Fermat {

  ghost predicate Divides(d: int, n: int)
    requires d != 0
  {
    n % d == 0
  }

  ghost predicate IsPrime(p: int) {
    2 <= p && forall d | 2 <= d < p :: !Divides(d, p)
  }

  function Pow(x: int, n: nat): int {
    if n == 0 then 1 else x * Pow(x, n - 1)
  }

  lemma MulAssoc(a: int, b: int, c: int)
    ensures a * b * c == a * (b * c)
  {
  }

  // ---- arithmetic modulo p ----

  lemma ModShift(x: int, k: int, p: int)
    requires p > 0
    ensures (x + p * k) % p == x % p
  {
    var y := x + p * k;
    var d := y / p - x / p - k;
    assert p * d == x % p - y % p by {
      assert y == p * (y / p) + y % p && x == p * (x / p) + x % p;
      assert p * d == p * (y / p) - p * (x / p) - p * k;
    }
    MultipleIsLarge(p, d);
  }

  lemma MultipleIsLarge(p: int, d: int)
    requires p > 0
    ensures d >= 1 ==> p * d >= p
    ensures d <= -1 ==> p * d <= -p
  {
  }

  /** A factor may be reduced before multiplying. */
  lemma ModFactor(a: int, b: int, p: int)
    requires p > 0
    ensures ((a % p) * b) % p == (a * b) % p
    ensures (b * (a % p)) % p == (b * a) % p
  {
    var q := a / p;
    assert a * b == (a % p) * b + p * (q * b) by {
      assert a == a % p + p * q;
      assert (p * q) * b == p * (q * b);
    }
    ModShift((a % p) * b, q * b, p);
  }

  lemma ModEqualMeansZero(a: int, b: int, p: int)
    requires p > 0 && a % p == b % p
    ensures (a - b) % p == 0
  {
    assert a - b == 0 + p * (a / p - b / p);
    ModShift(0, a / p - b / p, p);
  }

  lemma ZeroMeansModEqual(a: int, b: int, p: int)
    requires p > 0 && (a - b) % p == 0
    ensures a % p == b % p
  {
    assert a == b + p * ((a - b) / p);
    ModShift(b, (a - b) / p, p);
  }

  /** A prime that divides a product and is larger than one positive factor divides the other. */
  lemma {:induction false} ZeroProduct(p: int, a: int, b: int)
    requires IsPrime(p) && 0 < a < p && (a * b) % p == 0
    ensures b % p == 0
    decreases a
  {
    if a > 1 {
      var q, r := p / a, p % a;
      assert !Divides(a, p);
      assert p == a * q + r && 0 < r < a;
      var m := a * b / p;
      assert a * b == p * m;
      assert r * b == p * (b - q * m) by {
        assert r * b == p * b - (a * q) * b;
        assert (a * q) * b == q * (a * b);
        assert q * (p * m) == p * (q * m);
      }
      ModShift(0, b - q * m, p);
      ZeroProduct(p, r, b);
    }
  }

  // ---- the permutation argument ----

  function Factorial(n: nat): nat {
    if n == 0 then 1 else n * Factorial(n - 1)
  }

  /** The product of the members of s that lie in 1 .. n. */
  function Product(s: set<int>, n: nat): int {
    if n == 0 then 1 else (if n in s then n else 1) * Product(s, n - 1)
  }

  function Range(n: nat): set<int> {
    if n == 0 then {} else Range(n - 1) + {n as int}
  }

  /** The residues of x, 2x, ..., nx. */
  function Image(x: int, n: nat, p: int): set<int>
    requires p > 0
  {
    if n == 0 then {} else Image(x, n - 1, p) + {(x * n) % p}
  }

  lemma {:induction false} RangeFacts(n: nat)
    ensures forall y: int :: y in Range(n) <==> 1 <= y <= n
    ensures |Range(n)| == n
  {
    if n > 0 {
      RangeFacts(n - 1);
    }
  }

  lemma {:induction false} ProductOfRange(n: nat, m: nat)
    requires n <= m
    ensures Product(Range(m), n) == Factorial(n)
  {
    RangeFacts(m);
    if n > 0 {
      ProductOfRange(n - 1, m);
    }
  }

  lemma {:induction false} ProductOutside(s: set<int>, y: int, n: nat)
    requires y > n
    ensures Product(s + {y}, n) == Product(s, n)
  {
    if n > 0 {
      ProductOutside(s, y, n - 1);
    }
  }

  lemma {:induction false} ProductInsert(s: set<int>, y: int, n: nat)
    requires 1 <= y <= n && y !in s
    ensures Product(s + {y}, n) == y * Product(s, n)
  {
    if y == n {
      ProductOutside(s, y, n - 1);
    } else {
      ProductInsert(s, y, n - 1);
      var c := if n in s then n else 1;
      assert c * (y * Product(s, n - 1)) == y * (c * Product(s, n - 1));
    }
  }

  lemma {:induction false} ProductOfNone(n: nat)
    ensures Product({}, n) == 1
  {
    if n > 0 {
      ProductOfNone(n - 1);
    }
  }

  lemma SmallMod(a: int, p: int)
    requires 0 <= a < p
    ensures a % p == a
  {
  }

  /** Different multipliers give different residues. */
  lemma DistinctResidues(x: int, n: nat, k: nat, p: int)
    requires IsPrime(p) && 0 < x < p && k < n < p
    ensures (x * n) % p != (x * k) % p
  {
    hide IsPrime;
    if (x * n) % p == (x * k) % p {
      ModEqualMeansZero(x * n, x * k, p);
      assert x * n - x * k == x * (n - k);
      ZeroProduct(p, x, n - k);
      SmallMod(n - k, p);
    }
  }

  lemma {:induction false} NewResidue(x: int, n: nat, k: nat, p: int)
    requires IsPrime(p) && 0 < x < p && k < n < p
    ensures (x * n) % p !in Image(x, k, p)
  {
    hide IsPrime;
    if k > 0 {
      NewResidue(x, n, k - 1, p);
      DistinctResidues(x, n, k, p);
    }
  }

  lemma ResidueIsPositive(x: int, n: nat, p: int)
    requires IsPrime(p) && 0 < x < p && 0 < n < p
    ensures 1 <= (x * n) % p <= p - 1
  {
    hide IsPrime;
    DistinctResidues(x, n, 0, p);
    assert x * 0 == 0;
    SmallMod(0, p);
  }

  lemma ResidueProduct(x: int, n: nat, rest: int, power: int, fact: int, p: int)
    requires p > 0 && rest % p == (power * fact) % p
    ensures ((x * n) % p * rest) % p == ((x * power) * (n * fact)) % p
  {
    var xn := x * n;
    ModFactor(xn, rest, p);
    ModFactor(rest, xn, p);
    ModFactor(power * fact, xn, p);
    Regroup(x, n, power, fact);
  }

  lemma {:induction false} ImageFacts(x: int, n: nat, p: int)
    requires IsPrime(p) && 0 < x < p && n < p
    ensures |Image(x, n, p)| == n
    ensures Image(x, n, p) <= Range(p - 1)
  {
    hide IsPrime;
    RangeFacts(p - 1);
    if n > 0 {
      ImageFacts(x, n - 1, p);
      NewResidue(x, n, n - 1, p);
      ResidueIsPositive(x, n, p);
    }
  }

  lemma {:induction false} ImageProduct(x: int, n: nat, p: int)
    requires IsPrime(p) && 0 < x < p && n < p
    ensures Product(Image(x, n, p), p - 1) % p == (Pow(x, n) * Factorial(n)) % p
  {
    hide IsPrime, Product;
    if n == 0 {
      ProductOfNone(p - 1);
    } else {
      ImageProduct(x, n - 1, p);
      NewResidue(x, n, n - 1, p);
      ResidueIsPositive(x, n, p);
      var rest := Product(Image(x, n - 1, p), p - 1);
      ProductInsert(Image(x, n - 1, p), (x * n) % p, p - 1);
      ResidueProduct(x, n, rest, Pow(x, n - 1), Factorial(n - 1), p);
    }
  }

  lemma Regroup(a: int, b: int, c: int, d: int)
    ensures a * b * (c * d) == (a * c) * (b * d)
  {
    assert a * b * (c * d) == a * (b * (c * d));
    assert b * (c * d) == c * (b * d);
    assert a * (c * (b * d)) == (a * c) * (b * d);
  }

  lemma SameSizeSubset(s: set<int>, t: set<int>)
    requires s <= t && |s| == |t|
    ensures s == t
  {
    assert |t - s| == |t| - |s|;
    assert t == s + (t - s);
  }

  lemma {:induction false} CancelFactorial(a: int, n: nat, p: int)
    requires IsPrime(p) && n < p && (a * Factorial(n)) % p == 0
    ensures a % p == 0
  {
    if n > 0 {
      assert a * Factorial(n) == n * (a * Factorial(n - 1));
      ZeroProduct(p, n, a * Factorial(n - 1));
      CancelFactorial(a, n - 1, p);
    }
  }

  lemma LittleTheorem(x: int, p: int)
    requires IsPrime(p) && 0 < x < p
    ensures Pow(x, p - 1) % p == 1
  {
    ImageFacts(x, p - 1, p);
    ImageProduct(x, p - 1, p);
    RangeFacts(p - 1);
    SameSizeSubset(Image(x, p - 1, p), Range(p - 1));
    ProductOfRange(p - 1, p - 1);
    CancelOnce(Pow(x, p - 1), p);
  }

  lemma CancelOnce(a: int, p: int)
    requires IsPrime(p) && Factorial(p - 1) % p == (a * Factorial(p - 1)) % p
    ensures a % p == 1
  {
    var f := Factorial(p - 1);
    ModEqualMeansZero(a * f, f, p);
    assert a * f - f == (a - 1) * f;
    CancelFactorial(a - 1, p - 1, p);
    ZeroMeansModEqual(a, 1, p);
    SmallMod(1, p);
  }

  // ---- the prime 65537 ----

  /** No number in d .. e-1 divides n; halving keeps the evaluation shallow. */
  predicate NoDivisor(n: nat, d: nat, e: nat)
    requires 0 < d < e
    decreases e - d
  {
    if d + 1 == e then n % d != 0 else var m := (d + e) / 2; NoDivisor(n, d, m) && NoDivisor(n, m, e)
  }

  lemma {:induction false} NoDivisorMeans(n: nat, d: nat, e: nat, k: nat)
    requires 0 < d <= k < e && NoDivisor(n, d, e)
    ensures n % k != 0
    decreases e - d
  {
    if d + 1 < e {
      var m := (d + e) / 2;
      if k < m { NoDivisorMeans(n, d, m, k); } else { NoDivisorMeans(n, m, e, k); }
    }
  }

  lemma NoDivisorBelow66(d: nat)
    requires 2 <= d < 66
    ensures 65537 % d != 0
  {
    if d < 18 {
      NoDivisorMeans(65537, 2, 18, d);
    } else if d < 34 {
      NoDivisorMeans(65537, 18, 34, d);
    } else if d < 50 {
      NoDivisorMeans(65537, 34, 50, d);
    } else {
      NoDivisorMeans(65537, 50, 66, d);
    }
  }

  lemma NoDivisorBelow130(d: nat)
    requires 66 <= d < 130
    ensures 65537 % d != 0
  {
    if d < 82 {
      NoDivisorMeans(65537, 66, 82, d);
    } else if d < 98 {
      NoDivisorMeans(65537, 82, 98, d);
    } else if d < 114 {
      NoDivisorMeans(65537, 98, 114, d);
    } else {
      NoDivisorMeans(65537, 114, 130, d);
    }
  }

  lemma NoDivisorBelow194(d: nat)
    requires 130 <= d < 194
    ensures 65537 % d != 0
  {
    if d < 146 {
      NoDivisorMeans(65537, 130, 146, d);
    } else if d < 162 {
      NoDivisorMeans(65537, 146, 162, d);
    } else if d < 178 {
      NoDivisorMeans(65537, 162, 178, d);
    } else {
      NoDivisorMeans(65537, 178, 194, d);
    }
  }

  lemma NoDivisorBelow258(d: nat)
    requires 194 <= d < 258
    ensures 65537 % d != 0
  {
    if d < 210 {
      NoDivisorMeans(65537, 194, 210, d);
    } else if d < 226 {
      NoDivisorMeans(65537, 210, 226, d);
    } else if d < 242 {
      NoDivisorMeans(65537, 226, 242, d);
    } else {
      NoDivisorMeans(65537, 242, 258, d);
    }
  }

  lemma NoSmallDivisor(d: nat)
    requires 2 <= d <= 257
    ensures 65537 % d != 0
  {
    if d < 66 {
      NoDivisorBelow66(d);
    } else if d < 130 {
      NoDivisorBelow130(d);
    } else if d < 194 {
      NoDivisorBelow194(d);
    } else {
      NoDivisorBelow258(d);
    }
  }

  /** Of two factors of a number below 257 * 257, one is at most 256. */
  lemma CofactorIsSmall(n: nat, d: nat, q: nat)
    requires d * q == n && 257 <= d < n && n < 257 * 257
    ensures 2 <= q <= 256
  {
    ProductIsLarge(d, q);
  }

  lemma ProductIsLarge(d: nat, q: nat)
    ensures d >= 257 && q >= 257 ==> d * q >= 257 * 257
  {
    if d >= 257 && q >= 257 {
      assert d * q >= 257 * q;
    }
  }

  lemma FermatPrime()
    ensures IsPrime(65537)
  {
    hide NoDivisor;
    forall d | 2 <= d < 65537
      ensures !Divides(d, 65537)
    {
      if 65537 % d == 0 {
        if d <= 256 {
          NoSmallDivisor(d);
        } else {
          var q := 65537 / d;
          CofactorIsSmall(65537, d, q);
          assert 65537 == 0 + q * d;
          ModShift(0, d, q);
          NoSmallDivisor(q);
        }
      }
    }
  }
}
