/** The S-boxes of KASUMI (kasumi.c) as what they are made of: the bits of S7 are cubic polynomials of the bits of its index,
    those of S9 quadratic ones. */
module KasumiBoxes {
  import opened KasumiTables

  function S7Polynomials(x: bv7): bv7 {
    var x0, x1, x2, x3, x4 := x & 1, (x >> 1) & 1, (x >> 2) & 1, (x >> 3) & 1, (x >> 4) & 1;
    var x5, x6 := (x >> 5) & 1, (x >> 6) & 1;
    var y0 := x4 ^ x5 ^ x6 ^ (x0 & x6) ^ (x1 & x3) ^ (x1 & x6) ^ (x2 & x5) ^ (x3 & x6) ^ (x0 & x1 & x4)
      ^ (x1 & x5 & x6) ^ (x2 & x4 & x6) ^ (x3 & x4 & x5) ^ (x4 & x5 & x6);
    var y1 := 1 ^ x5 ^ x6 ^ (x0 & x1) ^ (x0 & x4) ^ (x2 & x4) ^ (x3 & x6) ^ (x0 & x2 & x6) ^ (x0 & x3 & x5)
      ^ (x1 & x2 & x5) ^ (x4 & x5 & x6);
    var y2 := 1 ^ x0 ^ (x0 & x3) ^ (x0 & x6) ^ (x1 & x5) ^ (x2 & x3) ^ (x2 & x6) ^ (x4 & x6) ^ (x0 & x1 & x6)
      ^ (x0 & x2 & x5) ^ (x0 & x3 & x4) ^ (x1 & x2 & x4);
    var y3 := x1 ^ (x0 & x5) ^ (x1 & x4) ^ (x2 & x6) ^ (x3 & x4) ^ (x0 & x1 & x2) ^ (x0 & x1 & x5) ^ (x1 & x3 & x6)
      ^ (x1 & x4 & x5) ^ (x2 & x3 & x5);
    var y4 := 1 ^ x3 ^ (x0 & x2) ^ (x0 & x5) ^ (x1 & x3) ^ (x1 & x4) ^ (x1 & x6) ^ (x3 & x6) ^ (x5 & x6)
      ^ (x0 & x1 & x4) ^ (x0 & x3 & x6) ^ (x0 & x4 & x5) ^ (x1 & x3 & x5) ^ (x2 & x3 & x4);
    var y5 := 1 ^ x2 ^ (x0 & x2) ^ (x0 & x3) ^ (x0 & x5) ^ (x1 & x6) ^ (x2 & x5) ^ (x4 & x5) ^ (x0 & x2 & x4)
      ^ (x0 & x3 & x6) ^ (x1 & x2 & x3) ^ (x1 & x2 & x6) ^ (x2 & x5 & x6) ^ (x3 & x4 & x6);
    var y6 := x6 ^ (x0 & x4) ^ (x1 & x2) ^ (x1 & x5) ^ (x3 & x5) ^ (x0 & x1 & x3) ^ (x0 & x1 & x6) ^ (x0 & x5 & x6)
      ^ (x1 & x4 & x6) ^ (x2 & x3 & x6);
    y0 | (y1 << 1) | (y2 << 2) | (y3 << 3) | (y4 << 4) | (y5 << 5) | (y6 << 6)
  }

  lemma S7IsCubic(x: bv7)
    ensures S7(x) == S7Polynomials(x)
  {
  }

  function S9Polynomials(x: bv9): bv9 {
    var x0, x1, x2, x3, x4 := x & 1, (x >> 1) & 1, (x >> 2) & 1, (x >> 3) & 1, (x >> 4) & 1;
    var x5, x6, x7, x8 := (x >> 5) & 1, (x >> 6) & 1, (x >> 7) & 1, (x >> 8) & 1;
    var y0 := 1 ^ x3 ^ (x0 & x2) ^ (x0 & x7) ^ (x1 & x7) ^ (x2 & x5) ^ (x2 & x7) ^ (x4 & x8) ^ (x5 & x6) ^ (x5 & x8)
      ^ (x7 & x8);
    var y1 := 1 ^ x1 ^ x6 ^ (x0 & x1) ^ (x0 & x4) ^ (x0 & x5) ^ (x1 & x4) ^ (x1 & x7) ^ (x2 & x3) ^ (x2 & x7)
      ^ (x3 & x5) ^ (x5 & x8);
    var y2 := 1 ^ x1 ^ x8 ^ (x0 & x3) ^ (x0 & x5) ^ (x0 & x8) ^ (x2 & x6) ^ (x3 & x4) ^ (x3 & x6) ^ (x4 & x7)
      ^ (x5 & x6) ^ (x5 & x7) ^ (x6 & x7);
    var y3 := x0 ^ x5 ^ (x0 & x3) ^ (x0 & x6) ^ (x0 & x8) ^ (x1 & x2) ^ (x1 & x6) ^ (x1 & x8) ^ (x2 & x4) ^ (x4 & x7)
      ^ (x7 & x8);
    var y4 := x4 ^ (x0 & x1) ^ (x0 & x5) ^ (x0 & x7) ^ (x1 & x3) ^ (x1 & x8) ^ (x2 & x8) ^ (x3 & x6) ^ (x3 & x8)
      ^ (x6 & x7);
    var y5 := 1 ^ x2 ^ (x0 & x6) ^ (x1 & x4) ^ (x1 & x6) ^ (x3 & x7) ^ (x4 & x5) ^ (x4 & x7) ^ (x5 & x8) ^ (x6 & x7)
      ^ (x6 & x8) ^ (x7 & x8);
    var y6 := x0 ^ x7 ^ (x1 & x5) ^ (x1 & x8) ^ (x2 & x3) ^ (x2 & x5) ^ (x3 & x6) ^ (x3 & x8) ^ (x4 & x5) ^ (x4 & x6)
      ^ (x5 & x6) ^ (x5 & x8) ^ (x7 & x8);
    var y7 := 1 ^ x3 ^ x8 ^ (x0 & x1) ^ (x0 & x2) ^ (x0 & x3) ^ (x1 & x2) ^ (x2 & x3) ^ (x2 & x6) ^ (x2 & x7)
      ^ (x3 & x6) ^ (x4 & x5) ^ (x5 & x7);
    var y8 := x2 ^ x7 ^ (x0 & x1) ^ (x1 & x2) ^ (x1 & x5) ^ (x1 & x6) ^ (x2 & x5) ^ (x2 & x8) ^ (x3 & x4) ^ (x3 & x8)
      ^ (x4 & x6);
    y0 | (y1 << 1) | (y2 << 2) | (y3 << 3) | (y4 << 4) | (y5 << 5) | (y6 << 6) | (y7 << 7) | (y8 << 8)
  }

  lemma S9IsQuadratic(x: bv9)
    ensures S9(x) == S9Polynomials(x)
  {
  }
}
