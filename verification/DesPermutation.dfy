/** The initial and final permutation of DES (des.c): the delta-swap networks of the small-code build, the
    look-up tables of the default build, and the proof that they agree and undo each other. */
module DesPermutation {
  import opened Words
  import T = DesTables

  /** The two halves of a block, unboxed: these lemmas are about bits. */
  datatype Halves = Halves(l: bv32, r: bv32)

  function Raw(b: Block): Halves { Halves(b.l.w, b.r.w) }

  function Boxed(h: Halves): Block { Block(Word(h.l), Word(h.r)) }

  function Swap(b: Halves): Halves { Halves(b.r, b.l) }

  // ---- single operations, named so that proofs about data flow need not look at bits ----

  function Plus(x: bv32, y: bv32): bv32 { x ^ y }

  function Mask(x: bv32, m: bv32): bv32 { x & m }

  function Up(x: bv32, n: bv6): bv32
    requires n <= 32
  {
    x << n
  }

  function Down(x: bv32, n: bv6): bv32
    requires n <= 32
  {
    x >> n
  }

  function TurnLeft(x: bv32): bv32 { (x << 1) | (x >> 31) }

  function TurnRight(x: bv32): bv32 { (x >> 1) | (x << 31) }

  lemma PlusCommutes(x: bv32, y: bv32)
    ensures Plus(x, y) == Plus(y, x)
  {
  }

  lemma PlusAssociative(x: bv32, y: bv32, z: bv32)
    ensures Plus(Plus(x, y), z) == Plus(x, Plus(y, z))
  {
  }

  lemma PlusCancels(x: bv32, y: bv32)
    ensures Plus(Plus(x, y), y) == x
  {
  }

  lemma PlusShuffle(a: bv32, b: bv32, c: bv32, d: bv32)
    ensures Plus(Plus(a, b), Plus(c, d)) == Plus(Plus(a, c), Plus(b, d))
  {
    hide Plus;
    PlusAssociative(a, b, Plus(c, d));
    PlusAssociative(b, c, d);
    PlusCommutes(b, c);
    PlusAssociative(c, b, d);
    PlusAssociative(a, c, Plus(b, d));
  }

  lemma MaskLinear0f0f0f0f(x: bv32, y: bv32)
    ensures Mask(Plus(x, y), 0x0f0f0f0f) == Plus(Mask(x, 0x0f0f0f0f), Mask(y, 0x0f0f0f0f))
  {
  }

  lemma MaskLinear0000ffff(x: bv32, y: bv32)
    ensures Mask(Plus(x, y), 0x0000ffff) == Plus(Mask(x, 0x0000ffff), Mask(y, 0x0000ffff))
  {
  }

  lemma MaskLinear33333333(x: bv32, y: bv32)
    ensures Mask(Plus(x, y), 0x33333333) == Plus(Mask(x, 0x33333333), Mask(y, 0x33333333))
  {
  }

  lemma MaskLinear00ff00ff(x: bv32, y: bv32)
    ensures Mask(Plus(x, y), 0x00ff00ff) == Plus(Mask(x, 0x00ff00ff), Mask(y, 0x00ff00ff))
  {
  }

  lemma MaskLinearaaaaaaaa(x: bv32, y: bv32)
    ensures Mask(Plus(x, y), 0xaaaaaaaa) == Plus(Mask(x, 0xaaaaaaaa), Mask(y, 0xaaaaaaaa))
  {
  }

  /** The masks that occur. */
  predicate IsMask(m: bv32) {
    m == 0x0f0f0f0f || m == 0x0000ffff || m == 0x33333333 || m == 0x00ff00ff || m == 0xaaaaaaaa
  }

  lemma MaskLinear(x: bv32, y: bv32, m: bv32)
    requires IsMask(m)
    ensures Mask(Plus(x, y), m) == Plus(Mask(x, m), Mask(y, m))
  {
    hide Mask, Plus;
    if
    case m == 0x0f0f0f0f => MaskLinear0f0f0f0f(x, y);
    case m == 0x0000ffff => MaskLinear0000ffff(x, y);
    case m == 0x33333333 => MaskLinear33333333(x, y);
    case m == 0x00ff00ff => MaskLinear00ff00ff(x, y);
    case m == 0xaaaaaaaa => MaskLinearaaaaaaaa(x, y);
  }

  /** The shift counts that occur. */
  predicate IsShift(n: bv6) {
    n == 2 || n == 4 || n == 8 || n == 16
  }

  lemma UpLinear2(x: bv32, y: bv32)
    ensures Up(Plus(x, y), 2) == Plus(Up(x, 2), Up(y, 2))
  {
  }

  lemma UpLinear4(x: bv32, y: bv32)
    ensures Up(Plus(x, y), 4) == Plus(Up(x, 4), Up(y, 4))
  {
  }

  lemma UpLinear8(x: bv32, y: bv32)
    ensures Up(Plus(x, y), 8) == Plus(Up(x, 8), Up(y, 8))
  {
  }

  lemma UpLinear16(x: bv32, y: bv32)
    ensures Up(Plus(x, y), 16) == Plus(Up(x, 16), Up(y, 16))
  {
  }

  lemma UpLinear(x: bv32, y: bv32, n: bv6)
    requires IsShift(n)
    ensures Up(Plus(x, y), n) == Plus(Up(x, n), Up(y, n))
  {
    hide Up, Plus;
    if
    case n == 2 => UpLinear2(x, y);
    case n == 4 => UpLinear4(x, y);
    case n == 8 => UpLinear8(x, y);
    case n == 16 => UpLinear16(x, y);
  }

  lemma DownLinear2(x: bv32, y: bv32)
    ensures Down(Plus(x, y), 2) == Plus(Down(x, 2), Down(y, 2))
  {
  }

  lemma DownLinear4(x: bv32, y: bv32)
    ensures Down(Plus(x, y), 4) == Plus(Down(x, 4), Down(y, 4))
  {
  }

  lemma DownLinear8(x: bv32, y: bv32)
    ensures Down(Plus(x, y), 8) == Plus(Down(x, 8), Down(y, 8))
  {
  }

  lemma DownLinear16(x: bv32, y: bv32)
    ensures Down(Plus(x, y), 16) == Plus(Down(x, 16), Down(y, 16))
  {
  }

  lemma DownLinear(x: bv32, y: bv32, n: bv6)
    requires IsShift(n)
    ensures Down(Plus(x, y), n) == Plus(Down(x, n), Down(y, n))
  {
    hide Down, Plus;
    if
    case n == 2 => DownLinear2(x, y);
    case n == 4 => DownLinear4(x, y);
    case n == 8 => DownLinear8(x, y);
    case n == 16 => DownLinear16(x, y);
  }

  lemma TurnLeftLinear(x: bv32, y: bv32)
    ensures TurnLeft(Plus(x, y)) == Plus(TurnLeft(x), TurnLeft(y))
  {
  }

  lemma TurnRightLinear(x: bv32, y: bv32)
    ensures TurnRight(Plus(x, y)) == Plus(TurnRight(x), TurnRight(y))
  {
  }

  lemma TurnsCancel(x: bv32)
    ensures TurnRight(TurnLeft(x)) == x && TurnLeft(TurnRight(x)) == x
  {
  }

  // ---- delta swaps: exchange the bits of one half under a mask with shifted bits of the other ----

  function Delta(b: Halves, n: bv6, m: bv32): Halves
    requires n <= 32
  {
    var work := Mask(Plus(Down(b.l, n), b.r), m);
    Halves(Plus(b.l, Up(work, n)), Plus(b.r, work))
  }

  /** The shifts with their masks: no bit under the mask is lost by the shift. */
  predicate IsDelta(n: bv6, m: bv32) {
    (n == 4 && m == 0x0f0f0f0f) || (n == 16 && m == 0x0000ffff) || (n == 2 && m == 0x33333333) || (n == 8 && m == 0x00ff00ff)
  }

  lemma ShiftKeeps4(y: bv32)
    ensures Down(Up(Mask(y, 0x0f0f0f0f), 4), 4) == Mask(y, 0x0f0f0f0f)
  {
  }

  lemma ShiftKeeps16(y: bv32)
    ensures Down(Up(Mask(y, 0x0000ffff), 16), 16) == Mask(y, 0x0000ffff)
  {
  }

  lemma ShiftKeeps2(y: bv32)
    ensures Down(Up(Mask(y, 0x33333333), 2), 2) == Mask(y, 0x33333333)
  {
  }

  lemma ShiftKeeps8(y: bv32)
    ensures Down(Up(Mask(y, 0x00ff00ff), 8), 8) == Mask(y, 0x00ff00ff)
  {
  }

  lemma ShiftKeeps(n: bv6, m: bv32, y: bv32)
    requires IsDelta(n, m)
    ensures Down(Up(Mask(y, m), n), n) == Mask(y, m)
  {
    hide Down, Up, Mask;
    if
    case n == 4 => ShiftKeeps4(y);
    case n == 16 => ShiftKeeps16(y);
    case n == 2 => ShiftKeeps2(y);
    case n == 8 => ShiftKeeps8(y);
  }

  lemma DeltaInvolutive(b: Halves, n: bv6, m: bv32)
    requires IsDelta(n, m)
    ensures Delta(Delta(b, n, m), n, m) == b
  {
    hide Plus, Mask, Up, Down;
    var x := Plus(Down(b.l, n), b.r);
    var work := Mask(x, m);
    var c := Delta(b, n, m);
    DownLinear(b.l, Up(work, n), n);
    ShiftKeeps(n, m, x);
    PlusShuffle(Down(b.l, n), work, b.r, work);
    PlusCancels(x, work);
    PlusAssociative(x, work, work);
    PlusCancels(b.l, Up(work, n));
    PlusCancels(b.r, work);
  }

  lemma DeltaLinear(a: Halves, b: Halves, n: bv6, m: bv32)
    requires IsDelta(n, m)
    ensures Delta(XorHalves(a, b), n, m) == XorHalves(Delta(a, n, m), Delta(b, n, m))
  {
    hide Plus, Mask, Up, Down;
    var x, y := Plus(Down(a.l, n), a.r), Plus(Down(b.l, n), b.r);
    DownLinear(a.l, b.l, n);
    PlusShuffle(Down(a.l, n), Down(b.l, n), a.r, b.r);
    MaskLinear(x, y, m);
    UpLinear(Mask(x, m), Mask(y, m), n);
    PlusShuffle(a.l, b.l, Up(Mask(x, m), n), Up(Mask(y, m), n));
    PlusShuffle(a.r, b.r, Mask(x, m), Mask(y, m));
  }

  function XorHalves(a: Halves, b: Halves): Halves { Halves(Plus(a.l, b.l), Plus(a.r, b.r)) }

  function Delta4(b: Halves): Halves { Delta(b, 4, 0x0f0f0f0f) }

  function Delta16(b: Halves): Halves { Delta(b, 16, 0x0000ffff) }

  /** These two shift the right half. */
  function Delta2(b: Halves): Halves { Swap(Delta(Swap(b), 2, 0x33333333)) }

  function Delta8(b: Halves): Halves { Swap(Delta(Swap(b), 8, 0x00ff00ff)) }

  /** The bits under the mask, exchanged in place. */
  function MaskSwap(b: Halves): Halves {
    var work := Mask(Plus(b.l, b.r), 0xaaaaaaaa);
    Halves(Plus(b.l, work), Plus(b.r, work))
  }

  /** Rotate the right half, exchange the bits under the mask, rotate the left half. */
  function Twist(b: Halves): Halves {
    var c := MaskSwap(Halves(b.l, TurnLeft(b.r)));
    Halves(TurnLeft(c.l), c.r)
  }

  function Untwist(b: Halves): Halves {
    var c := MaskSwap(Halves(TurnRight(b.l), b.r));
    Halves(c.l, TurnRight(c.r))
  }

  lemma MaskSwapInvolutive(b: Halves)
    ensures MaskSwap(MaskSwap(b)) == b
  {
    hide Plus, Mask;
    var x := Plus(b.l, b.r);
    var work := Mask(x, 0xaaaaaaaa);
    PlusShuffle(b.l, work, b.r, work);
    PlusCancels(x, work);
    PlusAssociative(x, work, work);
    PlusCancels(b.l, work);
    PlusCancels(b.r, work);
  }

  lemma MaskSwapLinear(a: Halves, b: Halves)
    ensures MaskSwap(XorHalves(a, b)) == XorHalves(MaskSwap(a), MaskSwap(b))
  {
    hide Plus, Mask;
    var x, y := Plus(a.l, a.r), Plus(b.l, b.r);
    PlusShuffle(a.l, b.l, a.r, b.r);
    MaskLinear(x, y, 0xaaaaaaaa);
    PlusShuffle(a.l, b.l, Mask(x, 0xaaaaaaaa), Mask(y, 0xaaaaaaaa));
    PlusShuffle(a.r, b.r, Mask(x, 0xaaaaaaaa), Mask(y, 0xaaaaaaaa));
  }

  /** The initial permutation of the small-code build. */
  function DeltaIP(b: Halves): Halves {
    Twist(Delta8(Delta2(Delta16(Delta4(b)))))
  }

  function DeltaIPInverse(b: Halves): Halves {
    Delta4(Delta16(Delta2(Delta8(Untwist(b)))))
  }

  function FinalTwist(b: Halves): Halves {
    var c := MaskSwap(Halves(b.l, TurnRight(b.r)));
    Halves(TurnRight(c.l), c.r)
  }

  /** The final permutation of the small-code build: the inverse network with the two halves in each other's place. */
  function DeltaFP(b: Halves): Halves {
    Swap(Delta4(Delta16(Delta2(Delta8(Swap(FinalTwist(b)))))))
  }

  lemma DeltasInvolutive(b: Halves)
    ensures Delta4(Delta4(b)) == b && Delta16(Delta16(b)) == b && Delta2(Delta2(b)) == b && Delta8(Delta8(b)) == b
  {
    hide Delta;
    DeltaInvolutive(b, 4, 0x0f0f0f0f);
    DeltaInvolutive(b, 16, 0x0000ffff);
    DeltaInvolutive(Swap(b), 2, 0x33333333);
    DeltaInvolutive(Swap(b), 8, 0x00ff00ff);
  }

  lemma TwistInverse(b: Halves)
    ensures Untwist(Twist(b)) == b && Twist(Untwist(b)) == b
  {
    hide MaskSwap, TurnLeft, TurnRight;
    MaskSwapInvolutive(Halves(b.l, TurnLeft(b.r)));
    MaskSwapInvolutive(Halves(TurnRight(b.l), b.r));
    TurnsCancel(MaskSwap(Halves(b.l, TurnLeft(b.r))).l);
    TurnsCancel(b.r);
    TurnsCancel(MaskSwap(Halves(TurnRight(b.l), b.r)).r);
    TurnsCancel(b.l);
  }

  /** The initial permutation can be undone, on either side. */
  lemma DeltaIPInverts(b: Halves)
    ensures DeltaIPInverse(DeltaIP(b)) == b && DeltaIP(DeltaIPInverse(b)) == b
  {
    hide Delta4, Delta16, Delta2, Delta8, Twist, Untwist;
    var b1 := Delta4(b);
    var b2 := Delta16(b1);
    var b3 := Delta2(b2);
    TwistInverse(Delta8(b3));
    DeltasInvolutive(b);
    DeltasInvolutive(b1);
    DeltasInvolutive(b2);
    DeltasInvolutive(b3);
    TwistInverse(b);
    var c1 := Untwist(b);
    var c2 := Delta8(c1);
    var c3 := Delta2(c2);
    DeltasInvolutive(c1);
    DeltasInvolutive(c2);
    DeltasInvolutive(c3);
    DeltasInvolutive(Delta16(c3));
  }

  lemma TwistsMatch(b: Halves)
    ensures Untwist(Swap(b)) == Swap(FinalTwist(b))
  {
    hide Plus, Mask, TurnRight;
    PlusCommutes(b.l, TurnRight(b.r));
  }

  /** The final permutation is the inverse of the initial one between two exchanges of the halves. */
  lemma DeltaFPIsInverse(b: Halves)
    ensures Swap(DeltaFP(b)) == DeltaIPInverse(Swap(b))
  {
    hide Delta4, Delta16, Delta2, Delta8, Untwist, FinalTwist;
    TwistsMatch(b);
  }

  // ---- the permutation of the standard ----

  function Join(b: Halves): bv64 { ((b.l as bv64) << 32) | (b.r as bv64) }

  function Split(t: bv64): Halves { Halves((t >> 32) as bv32, (t & 0xffff_ffff) as bv32) }

  lemma SplitJoin(b: Halves)
    ensures Split(Join(b)) == b
  {
  }

  /** Bit k of a block, counted from 0 at the most significant end as the standard counts from 1. */
  function BitOf(b: Halves, k: bv6): bool {
    (Join(b) >> (63 - k)) & 1 == 1
  }

  /** Bit 8*i+k of the output, for row i and column k of the standard's table (58, 50, ..., 2; 60, 52, ..., 4; ...):
      the columns count input bytes from the last to the first, the rows pick the odd bits, then the even ones. */
  function StandardSource(row: bv6, column: bv6): bv6
    requires row < 8 && column < 8
  {
    (7 - column) * 8 + (if row < 4 then 2 * row + 1 else 2 * (row - 4))
  }

  function RotatedBack(b: Halves): Halves {
    Halves(TurnRight(b.l), TurnRight(b.r))
  }

  /** The delta-swap network moves every bit where the standard's table says, and leaves both halves rotated left
      by one bit, which is how the rounds expect them. */
  lemma DeltaIPIsStandard(b: Halves, row: bv6, column: bv6)
    requires row < 8 && column < 8
    ensures BitOf(RotatedBack(DeltaIP(b)), 8 * row + column) == BitOf(b, StandardSource(row, column))
  {
    hide BitOf, DeltaIP, RotatedBack, StandardSource;
    if
    case row >> 1 == 0 => StandardRows0(b, row, column);
    case row >> 1 == 1 => StandardRows1(b, row, column);
    case row >> 1 == 2 => StandardRows2(b, row, column);
    case row >> 1 == 3 => StandardRows3(b, row, column);
  }

  lemma StandardRows0(b: Halves, row: bv6, column: bv6)
    requires row >> 1 == 0 && column < 8
    ensures BitOf(RotatedBack(DeltaIP(b)), 8 * row + column) == BitOf(b, StandardSource(row, column))
  {
  }

  lemma StandardRows1(b: Halves, row: bv6, column: bv6)
    requires row >> 1 == 1 && column < 8
    ensures BitOf(RotatedBack(DeltaIP(b)), 8 * row + column) == BitOf(b, StandardSource(row, column))
  {
  }

  lemma StandardRows2(b: Halves, row: bv6, column: bv6)
    requires row >> 1 == 2 && column < 8
    ensures BitOf(RotatedBack(DeltaIP(b)), 8 * row + column) == BitOf(b, StandardSource(row, column))
  {
  }

  lemma StandardRows3(b: Halves, row: bv6, column: bv6)
    requires row >> 1 == 3 && column < 8
    ensures BitOf(RotatedBack(DeltaIP(b)), 8 * row + column) == BitOf(b, StandardSource(row, column))
  {
  }

  // ---- linearity ----

  lemma Delta4Linear(a: Halves, b: Halves)
    ensures Delta4(XorHalves(a, b)) == XorHalves(Delta4(a), Delta4(b))
  {
    hide Delta, XorHalves;
    DeltaLinear(a, b, 4, 0x0f0f0f0f);
  }

  lemma Delta16Linear(a: Halves, b: Halves)
    ensures Delta16(XorHalves(a, b)) == XorHalves(Delta16(a), Delta16(b))
  {
    hide Delta, XorHalves;
    DeltaLinear(a, b, 16, 0x0000ffff);
  }

  lemma Delta2Linear(a: Halves, b: Halves)
    ensures Delta2(XorHalves(a, b)) == XorHalves(Delta2(a), Delta2(b))
  {
    hide Delta, XorHalves, Swap;
    SwapLinear(a, b);
    DeltaLinear(Swap(a), Swap(b), 2, 0x33333333);
    SwapLinear(Delta(Swap(a), 2, 0x33333333), Delta(Swap(b), 2, 0x33333333));
  }

  lemma Delta8Linear(a: Halves, b: Halves)
    ensures Delta8(XorHalves(a, b)) == XorHalves(Delta8(a), Delta8(b))
  {
    hide Delta, XorHalves, Swap;
    SwapLinear(a, b);
    DeltaLinear(Swap(a), Swap(b), 8, 0x00ff00ff);
    SwapLinear(Delta(Swap(a), 8, 0x00ff00ff), Delta(Swap(b), 8, 0x00ff00ff));
  }

  lemma TwistLinear(a: Halves, b: Halves)
    ensures Twist(XorHalves(a, b)) == XorHalves(Twist(a), Twist(b))
  {
    hide MaskSwap, TurnLeft, Plus;
    var c, d := MaskSwap(Halves(a.l, TurnLeft(a.r))), MaskSwap(Halves(b.l, TurnLeft(b.r)));
    TurnLeftLinear(a.r, b.r);
    MaskSwapLinear(Halves(a.l, TurnLeft(a.r)), Halves(b.l, TurnLeft(b.r)));
    TurnLeftLinear(c.l, d.l);
  }

  lemma UntwistLinear(a: Halves, b: Halves)
    ensures Untwist(XorHalves(a, b)) == XorHalves(Untwist(a), Untwist(b))
  {
    hide MaskSwap, TurnRight, Plus;
    var c, d := MaskSwap(Halves(TurnRight(a.l), a.r)), MaskSwap(Halves(TurnRight(b.l), b.r));
    TurnRightLinear(a.l, b.l);
    MaskSwapLinear(Halves(TurnRight(a.l), a.r), Halves(TurnRight(b.l), b.r));
    TurnRightLinear(c.r, d.r);
  }

  lemma SwapLinear(a: Halves, b: Halves)
    ensures Swap(XorHalves(a, b)) == XorHalves(Swap(a), Swap(b))
    ensures Swap(Swap(a)) == a
  {
    hide Plus;
  }

  lemma DeltaIPLinear(a: Halves, b: Halves)
    ensures DeltaIP(XorHalves(a, b)) == XorHalves(DeltaIP(a), DeltaIP(b))
  {
    hide Delta4, Delta16, Delta2, Delta8, Twist, XorHalves;
    var a1, b1 := Delta4(a), Delta4(b);
    var a2, b2 := Delta16(a1), Delta16(b1);
    var a3, b3 := Delta2(a2), Delta2(b2);
    Delta4Linear(a, b);
    Delta16Linear(a1, b1);
    Delta2Linear(a2, b2);
    Delta8Linear(a3, b3);
    TwistLinear(Delta8(a3), Delta8(b3));
  }

  lemma DeltaIPInverseLinear(a: Halves, b: Halves)
    ensures DeltaIPInverse(XorHalves(a, b)) == XorHalves(DeltaIPInverse(a), DeltaIPInverse(b))
  {
    hide Delta4, Delta16, Delta2, Delta8, Untwist, XorHalves;
    var a1, b1 := Untwist(a), Untwist(b);
    var a2, b2 := Delta8(a1), Delta8(b1);
    var a3, b3 := Delta2(a2), Delta2(b2);
    UntwistLinear(a, b);
    Delta8Linear(a1, b1);
    Delta2Linear(a2, b2);
    Delta16Linear(a3, b3);
    Delta4Linear(Delta16(a3), Delta16(b3));
  }

  lemma DeltaFPLinear(a: Halves, b: Halves)
    ensures DeltaFP(XorHalves(a, b)) == XorHalves(DeltaFP(a), DeltaFP(b))
  {
    hide DeltaFP, DeltaIPInverse, Swap, XorHalves;
    DeltaFPIsInverse(XorHalves(a, b));
    DeltaFPIsInverse(a);
    DeltaFPIsInverse(b);
    SwapLinear(a, b);
    SwapLinear(DeltaFP(a), DeltaFP(b));
    SwapLinear(DeltaFP(XorHalves(a, b)), b);
    SwapLinear(XorHalves(DeltaFP(a), DeltaFP(b)), b);
    DeltaIPInverseLinear(Swap(a), Swap(b));
  }

  lemma JoinLinear(a: Halves, b: Halves)
    ensures Join(XorHalves(a, b)) == Xor64(Join(a), Join(b))
  {
  }

  function Xor64(a: bv64, b: bv64): bv64 { a ^ b }

  function JoinedIP(b: Halves): bv64 { Join(DeltaIP(b)) }

  function JoinedFP(b: Halves): bv64 { Join(DeltaFP(b)) }

  lemma JoinedIPLinear(a: Halves, b: Halves)
    ensures JoinedIP(XorHalves(a, b)) == Xor64(JoinedIP(a), JoinedIP(b))
  {
    hide DeltaIP, Join, Xor64, XorHalves;
    DeltaIPLinear(a, b);
    JoinLinear(DeltaIP(a), DeltaIP(b));
  }

  lemma JoinedFPLinear(a: Halves, b: Halves)
    ensures JoinedFP(XorHalves(a, b)) == Xor64(JoinedFP(a), JoinedFP(b))
  {
    hide DeltaFP, Join, Xor64, XorHalves;
    DeltaFPLinear(a, b);
    JoinLinear(DeltaFP(a), DeltaFP(b));
  }

  // ---- the tables ----

  /** Byte n of a word, counted from the low end. */
  function Byte0(x: bv32): byte { (x & 0xff) as byte }

  function Byte1(x: bv32): byte { ((x >> 8) & 0xff) as byte }

  function Byte2(x: bv32): byte { ((x >> 16) & 0xff) as byte }

  function Byte3(x: bv32): byte { ((x >> 24) & 0xff) as byte }

  /** A block that is zero but for byte 0 of its left half. */
  function Placed0(x: byte): Halves { Halves(x as bv32, 0) }

  /** A block that is zero but for byte 1 of its left half. */
  function Placed1(x: byte): Halves { Halves((x as bv32) << 8, 0) }

  /** A block that is zero but for byte 2 of its left half. */
  function Placed2(x: byte): Halves { Halves((x as bv32) << 16, 0) }

  /** A block that is zero but for byte 3 of its left half. */
  function Placed3(x: byte): Halves { Halves((x as bv32) << 24, 0) }

  /** A block that is zero but for byte 0 of its right half. */
  function Placed4(x: byte): Halves { Halves(0, x as bv32) }

  /** A block that is zero but for byte 1 of its right half. */
  function Placed5(x: byte): Halves { Halves(0, (x as bv32) << 8) }

  /** A block that is zero but for byte 2 of its right half. */
  function Placed6(x: byte): Halves { Halves(0, (x as bv32) << 16) }

  /** A block that is zero but for byte 3 of its right half. */
  function Placed7(x: byte): Halves { Halves(0, (x as bv32) << 24) }

  lemma IpEntry0(x: byte)
    ensures T.Ip0(x) == JoinedIP(Placed0(x))
  {
  }

  lemma IpEntry1(x: byte)
    ensures T.Ip1(x) == JoinedIP(Placed1(x))
  {
  }

  lemma IpEntry2(x: byte)
    ensures T.Ip2(x) == JoinedIP(Placed2(x))
  {
  }

  lemma IpEntry3(x: byte)
    ensures T.Ip3(x) == JoinedIP(Placed3(x))
  {
  }

  lemma IpEntry4(x: byte)
    ensures T.Ip4(x) == JoinedIP(Placed4(x))
  {
  }

  lemma IpEntry5(x: byte)
    ensures T.Ip5(x) == JoinedIP(Placed5(x))
  {
  }

  lemma IpEntry6(x: byte)
    ensures T.Ip6(x) == JoinedIP(Placed6(x))
  {
  }

  lemma IpEntry7(x: byte)
    ensures T.Ip7(x) == JoinedIP(Placed7(x))
  {
  }

  lemma FpEntry0(x: byte)
    ensures T.Fp0(x) == JoinedFP(Placed0(x))
  {
  }

  lemma FpEntry1(x: byte)
    ensures T.Fp1(x) == JoinedFP(Placed1(x))
  {
  }

  lemma FpEntry2(x: byte)
    ensures T.Fp2(x) == JoinedFP(Placed2(x))
  {
  }

  lemma FpEntry3(x: byte)
    ensures T.Fp3(x) == JoinedFP(Placed3(x))
  {
  }

  lemma FpEntry4(x: byte)
    ensures T.Fp4(x) == JoinedFP(Placed4(x))
  {
  }

  lemma FpEntry5(x: byte)
    ensures T.Fp5(x) == JoinedFP(Placed5(x))
  {
  }

  lemma FpEntry6(x: byte)
    ensures T.Fp6(x) == JoinedFP(Placed6(x))
  {
  }

  lemma FpEntry7(x: byte)
    ensures T.Fp7(x) == JoinedFP(Placed7(x))
  {
  }

  function Sum8(t0: bv64, t1: bv64, t2: bv64, t3: bv64, t4: bv64, t5: bv64, t6: bv64, t7: bv64): bv64 {
    Xor64(Xor64(Xor64(Xor64(Xor64(Xor64(Xor64(t0, t1), t2), t3), t4), t5), t6), t7)
  }

  /** The initial permutation of the default build: eight table entries, added. */
  function TableIP(b: Halves): Halves {
    Split(Sum8(T.Ip0(Byte0(b.l)), T.Ip1(Byte1(b.l)), T.Ip2(Byte2(b.l)), T.Ip3(Byte3(b.l)),
               T.Ip4(Byte0(b.r)), T.Ip5(Byte1(b.r)), T.Ip6(Byte2(b.r)), T.Ip7(Byte3(b.r))))
  }

  function TableFP(b: Halves): Halves {
    Split(Sum8(T.Fp0(Byte0(b.l)), T.Fp1(Byte1(b.l)), T.Fp2(Byte2(b.l)), T.Fp3(Byte3(b.l)),
               T.Fp4(Byte0(b.r)), T.Fp5(Byte1(b.r)), T.Fp6(Byte2(b.r)), T.Fp7(Byte3(b.r))))
  }

  lemma SumOfBytes(x: bv32)
    ensures ((((Byte0(x) as bv32) ^ ((Byte1(x) as bv32) << 8)) ^ ((Byte2(x) as bv32) << 16)) ^ ((Byte3(x) as bv32) << 24)) == x
  {
  }

  lemma SumOfLeft(x: bv32)
    ensures XorHalves(XorHalves(XorHalves(Placed0(Byte0(x)), Placed1(Byte1(x))), Placed2(Byte2(x))), Placed3(Byte3(x)))
         == Halves(x, 0)
  {
    hide Byte0, Byte1, Byte2, Byte3;
    SumOfBytes(x);
  }

  lemma SumOfRight(x: bv32)
    ensures XorHalves(XorHalves(XorHalves(Placed4(Byte0(x)), Placed5(Byte1(x))), Placed6(Byte2(x))), Placed7(Byte3(x)))
         == Halves(0, x)
  {
    hide Byte0, Byte1, Byte2, Byte3;
    SumOfBytes(x);
  }

  lemma XorHalvesAssociative(a: Halves, b: Halves, c: Halves)
    ensures XorHalves(XorHalves(a, b), c) == XorHalves(a, XorHalves(b, c))
  {
    hide Plus;
    PlusAssociative(a.l, b.l, c.l);
    PlusAssociative(a.r, b.r, c.r);
  }

  lemma SumOfHalves(l: bv32, r: bv32)
    ensures XorHalves(Halves(l, 0), Halves(0, r)) == Halves(l, r)
  {
  }

  /** A block is the sum of its eight placed bytes. */
  lemma SumOfPlaced(b: Halves)
    ensures b ==
      XorHalves(XorHalves(XorHalves(XorHalves(XorHalves(XorHalves(XorHalves(
        Placed0(Byte0(b.l)), Placed1(Byte1(b.l))), Placed2(Byte2(b.l))), Placed3(Byte3(b.l))),
        Placed4(Byte0(b.r))), Placed5(Byte1(b.r))), Placed6(Byte2(b.r))), Placed7(Byte3(b.r)))
  {
    hide *;
    var left := Halves(b.l, 0);
    var p4, p5, p6, p7 := Placed4(Byte0(b.r)), Placed5(Byte1(b.r)), Placed6(Byte2(b.r)), Placed7(Byte3(b.r));
    SumOfLeft(b.l);
    SumOfRight(b.r);
    XorHalvesAssociative(left, p4, p5);
    XorHalvesAssociative(left, XorHalves(p4, p5), p6);
    XorHalvesAssociative(left, XorHalves(XorHalves(p4, p5), p6), p7);
    SumOfHalves(b.l, b.r);
  }

  lemma JoinedIPSum(p0: Halves, p1: Halves, p2: Halves, p3: Halves, p4: Halves, p5: Halves, p6: Halves, p7: Halves)
    ensures
      JoinedIP(XorHalves(XorHalves(XorHalves(XorHalves(XorHalves(XorHalves(XorHalves(p0, p1), p2), p3), p4), p5), p6), p7))
      == Sum8(JoinedIP(p0), JoinedIP(p1), JoinedIP(p2), JoinedIP(p3), JoinedIP(p4), JoinedIP(p5), JoinedIP(p6), JoinedIP(p7))
  {
    hide JoinedIP, XorHalves, Xor64;
    var s1 := XorHalves(p0, p1);
    var s2 := XorHalves(s1, p2);
    var s3 := XorHalves(s2, p3);
    var s4 := XorHalves(s3, p4);
    var s5 := XorHalves(s4, p5);
    var s6 := XorHalves(s5, p6);
    JoinedIPLinear(p0, p1);
    JoinedIPLinear(s1, p2);
    JoinedIPLinear(s2, p3);
    JoinedIPLinear(s3, p4);
    JoinedIPLinear(s4, p5);
    JoinedIPLinear(s5, p6);
    JoinedIPLinear(s6, p7);
  }

  /** The table-driven initial permutation is the delta-swap network, on every block. */
  lemma TableIPAgrees(b: Halves)
    ensures TableIP(b) == DeltaIP(b)
  {
    hide *;
    var x0, x1, x2, x3 := Byte0(b.l), Byte1(b.l), Byte2(b.l), Byte3(b.l);
    var x4, x5, x6, x7 := Byte0(b.r), Byte1(b.r), Byte2(b.r), Byte3(b.r);
    SumOfPlaced(b);
    JoinedIPSum(Placed0(x0), Placed1(x1), Placed2(x2), Placed3(x3), Placed4(x4), Placed5(x5), Placed6(x6), Placed7(x7));
    IpEntry0(x0);
    IpEntry1(x1);
    IpEntry2(x2);
    IpEntry3(x3);
    IpEntry4(x4);
    IpEntry5(x5);
    IpEntry6(x6);
    IpEntry7(x7);
    TableIPValue(b);
  }

  lemma TableIPValue(b: Halves)
    ensures TableIP(b) == Split(Sum8(T.Ip0(Byte0(b.l)), T.Ip1(Byte1(b.l)), T.Ip2(Byte2(b.l)), T.Ip3(Byte3(b.l)),
                                   T.Ip4(Byte0(b.r)), T.Ip5(Byte1(b.r)), T.Ip6(Byte2(b.r)), T.Ip7(Byte3(b.r))))
    ensures Split(JoinedIP(b)) == DeltaIP(b)
  {
    hide T.Ip0, T.Ip1, T.Ip2, T.Ip3, T.Ip4, T.Ip5, T.Ip6, T.Ip7, DeltaIP, Split, Join, Xor64, Byte0, Byte1, Byte2, Byte3;
    SplitJoin(DeltaIP(b));
  }

  lemma JoinedFPSum(p0: Halves, p1: Halves, p2: Halves, p3: Halves, p4: Halves, p5: Halves, p6: Halves, p7: Halves)
    ensures
      JoinedFP(XorHalves(XorHalves(XorHalves(XorHalves(XorHalves(XorHalves(XorHalves(p0, p1), p2), p3), p4), p5), p6), p7))
      == Sum8(JoinedFP(p0), JoinedFP(p1), JoinedFP(p2), JoinedFP(p3), JoinedFP(p4), JoinedFP(p5), JoinedFP(p6), JoinedFP(p7))
  {
    hide JoinedFP, XorHalves, Xor64;
    var s1 := XorHalves(p0, p1);
    var s2 := XorHalves(s1, p2);
    var s3 := XorHalves(s2, p3);
    var s4 := XorHalves(s3, p4);
    var s5 := XorHalves(s4, p5);
    var s6 := XorHalves(s5, p6);
    JoinedFPLinear(p0, p1);
    JoinedFPLinear(s1, p2);
    JoinedFPLinear(s2, p3);
    JoinedFPLinear(s3, p4);
    JoinedFPLinear(s4, p5);
    JoinedFPLinear(s5, p6);
    JoinedFPLinear(s6, p7);
  }

  /** The table-driven final permutation is the delta-swap network, on every block. */
  lemma TableFPAgrees(b: Halves)
    ensures TableFP(b) == DeltaFP(b)
  {
    hide *;
    var x0, x1, x2, x3 := Byte0(b.l), Byte1(b.l), Byte2(b.l), Byte3(b.l);
    var x4, x5, x6, x7 := Byte0(b.r), Byte1(b.r), Byte2(b.r), Byte3(b.r);
    SumOfPlaced(b);
    JoinedFPSum(Placed0(x0), Placed1(x1), Placed2(x2), Placed3(x3), Placed4(x4), Placed5(x5), Placed6(x6), Placed7(x7));
    FpEntry0(x0);
    FpEntry1(x1);
    FpEntry2(x2);
    FpEntry3(x3);
    FpEntry4(x4);
    FpEntry5(x5);
    FpEntry6(x6);
    FpEntry7(x7);
    TableFPValue(b);
  }

  lemma TableFPValue(b: Halves)
    ensures TableFP(b) == Split(Sum8(T.Fp0(Byte0(b.l)), T.Fp1(Byte1(b.l)), T.Fp2(Byte2(b.l)), T.Fp3(Byte3(b.l)),
                                   T.Fp4(Byte0(b.r)), T.Fp5(Byte1(b.r)), T.Fp6(Byte2(b.r)), T.Fp7(Byte3(b.r))))
    ensures Split(JoinedFP(b)) == DeltaFP(b)
  {
    hide T.Fp0, T.Fp1, T.Fp2, T.Fp3, T.Fp4, T.Fp5, T.Fp6, T.Fp7, DeltaFP, Split, Join, Xor64, Byte0, Byte1, Byte2, Byte3;
    SplitJoin(DeltaFP(b));
  }
}
