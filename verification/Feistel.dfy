/** Feistel chains: each step adds into one half a function of the other. One inversion theorem serves KASUMI,
    Blowfish, SEED and CAST5, whatever their round functions, key schedules and numbers of rounds. */
module Feistel {
  import opened Words

  datatype Halves<H> = Halves(l: H, r: H)

  /** Step i adds f(i, other half) into the left half where intoLeft(i), into the right half elsewhere.
      A function that ignores the half is a key addition. */
  datatype Chain<!H> = Chain(plus: (H, H) -> H, intoLeft: nat -> bool, f: (nat, H) -> H)

  /** Adding the same value a second time takes it away again, as exclusive or does. */
  ghost predicate Cancels<H(!new)>(c: Chain<H>) {
    forall x, y :: c.plus(c.plus(x, y), y) == x
  }

  function Step<H>(c: Chain<H>, i: nat, b: Halves<H>): Halves<H> {
    if c.intoLeft(i) then Halves(c.plus(b.l, c.f(i, b.r)), b.r) else Halves(b.l, c.plus(b.r, c.f(i, b.l)))
  }

  /** Steps 0 .. n-1 in order. */
  function Run<H>(c: Chain<H>, n: nat, b: Halves<H>): Halves<H> {
    if n == 0 then b else Step(c, n - 1, Run(c, n - 1, b))
  }

  /** Steps n-1 .. 0. */
  function Unrun<H>(c: Chain<H>, n: nat, b: Halves<H>): Halves<H> {
    if n == 0 then b else Unrun(c, n - 1, Step(c, n - 1, b))
  }

  lemma StepInvolution<H(!new)>(c: Chain<H>, i: nat, b: Halves<H>)
    requires Cancels(c)
    ensures Step(c, i, Step(c, i, b)) == b
  {
  }

  /** Steps taken in the reverse order undo a chain, and the chain undoes them. */
  lemma {:induction false} UnrunUndoesRun<H(!new)>(c: Chain<H>, n: nat, b: Halves<H>)
    requires Cancels(c)
    ensures Unrun(c, n, Run(c, n, b)) == b
    ensures Run(c, n, Unrun(c, n, b)) == b
    decreases n
  {
    hide Step, Cancels;
    if n > 0 {
      StepInvolution(c, n - 1, Run(c, n - 1, b));
      UnrunUndoesRun(c, n - 1, b);
      StepInvolution(c, n - 1, b);
      UnrunUndoesRun(c, n - 1, Step(c, n - 1, b));
    }
  }

  function Exchange<H>(b: Halves<H>): Halves<H> { Halves(b.r, b.l) }

  /** Chain `d` replays chain `c` backwards on exchanged halves: the same functions in the opposite order, each into the
      other half. */
  ghost predicate Mirrors<H(!new)>(d: Chain<H>, c: Chain<H>, n: nat) {
    && d.plus == c.plus
    && (forall i: nat | i < n :: d.intoLeft(i) == !c.intoLeft(n - 1 - i))
    && (forall i: nat, x | i < n :: d.f(i, x) == c.f(n - 1 - i, x))
  }

  lemma MirrorStep<H(!new)>(d: Chain<H>, c: Chain<H>, n: nat, i: nat, b: Halves<H>)
    requires Mirrors(d, c, n) && i < n
    ensures Step(d, i, Exchange(b)) == Exchange(Step(c, n - 1 - i, b))
  {
  }

  lemma {:induction false} MirrorRun<H(!new)>(d: Chain<H>, c: Chain<H>, n: nat, k: nat, b: Halves<H>)
    requires Mirrors(d, c, n) && Cancels(c) && k <= n
    ensures Run(d, k, Exchange(Run(c, n, b))) == Exchange(Run(c, n - k, b))
    decreases k
  {
    hide Step, Mirrors, Exchange, Cancels;
    if k > 0 {
      MirrorRun(d, c, n, k - 1, b);
      MirrorStep(d, c, n, k - 1, Run(c, n - k + 1, b));
      StepInvolution(c, n - k, Run(c, n - k, b));
    }
  }

  /** A cipher that exchanges the halves at the end is undone by itself under the mirrored schedule. */
  lemma MirrorUndoesRun<H(!new)>(d: Chain<H>, c: Chain<H>, n: nat, b: Halves<H>)
    requires Mirrors(d, c, n) && Cancels(c)
    ensures Exchange(Run(d, n, Exchange(Run(c, n, b)))) == b
  {
    MirrorRun(d, c, n, n, b);
  }

  // ---- one step at a time ----

  lemma RunStart<H>(c: Chain<H>, b: Halves<H>)
    ensures Run(c, 0, b) == b && Unrun(c, 0, b) == b
  {
  }

  lemma RunNext<H>(c: Chain<H>, n: nat, b: Halves<H>)
    ensures Run(c, n + 1, b) == Step(c, n, Run(c, n, b))
  {
  }

  lemma UnrunNext<H>(c: Chain<H>, n: nat, b: Halves<H>)
    ensures Unrun(c, n + 1, b) == Unrun(c, n, Step(c, n, b))
  {
  }

  // ---- chains on stored 64-bit blocks ----

  lemma XorCancels(c: Chain<Word>)
    requires c.plus == Xor
    ensures Cancels(c)
  {
    forall x, y
      ensures Xor(Xor(x, y), y) == x
    {
      XorTwice(x, y);
    }
  }

  function LoadHalves(s: seq<byte>): Halves<Word>
    requires |s| == 8
  {
    var b := LoadBlock(s);
    Halves(b.l, b.r)
  }

  function StoreHalves(h: Halves<Word>): (s: seq<byte>)
    ensures |s| == 8
  {
    StoreBlock(Block(h.l, h.r))
  }

  lemma LoadStoreHalves(h: Halves<Word>, s: seq<byte>)
    requires |s| == 8
    ensures LoadHalves(StoreHalves(h)) == h && StoreHalves(LoadHalves(s)) == s
  {
    hide LoadBlock, StoreBlock;
    LoadStoreBlock(Block(h.l, h.r));
    StoreLoadBlock(s);
  }

  function RunBytes(c: Chain<Word>, n: nat, s: seq<byte>): (r: seq<byte>)
    requires |s| == 8
    ensures |r| == 8
  {
    StoreHalves(Run(c, n, LoadHalves(s)))
  }

  function UnrunBytes(c: Chain<Word>, n: nat, s: seq<byte>): (r: seq<byte>)
    requires |s| == 8
    ensures |r| == 8
  {
    StoreHalves(Unrun(c, n, LoadHalves(s)))
  }

  /** Any chain of exclusive ors is undone on stored bytes, in both orders. */
  lemma UnrunUndoesRunOnBytes(c: Chain<Word>, n: nat, s: seq<byte>)
    requires c.plus == Xor && |s| == 8
    ensures UnrunBytes(c, n, RunBytes(c, n, s)) == s
    ensures RunBytes(c, n, UnrunBytes(c, n, s)) == s
  {
    hide LoadHalves, StoreHalves, Run, Unrun, Cancels;
    XorCancels(c);
    var h := LoadHalves(s);
    LoadStoreHalves(Run(c, n, h), s);
    LoadStoreHalves(Unrun(c, n, h), s);
    UnrunUndoesRun(c, n, h);
  }
}
