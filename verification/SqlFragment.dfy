/** Trees of joined and wrapped expressions: what every clause renderer and statement builder of Query.swift puts
    together before it asks for the expression. */
module SqlFragment {
  import opened SqlTemplate

  datatype Fragment =
    | Leaf(e: Expr)
    | Joined(separator: string, parts: seq<Fragment>)
    | Wrapped(op: string, part: Fragment)

  function Compile(f: Fragment): Expr {
    match f
    case Leaf(e) => e
    case Joined(separator, parts) => Join(separator, CompileAll(parts))
    case Wrapped(op, part) => Wrap(op, Compile(part))
  }

  function CompileAll(fs: seq<Fragment>): (es: seq<Expr>)
    ensures |es| == |fs|
  {
    if fs == [] then [] else [Compile(fs[0])] + CompileAll(fs[1..])
  }

  /** The separators and operators of a tree contain no question mark. */
  predicate Plain(f: Fragment) {
    match f
    case Leaf(e) => true
    case Joined(separator, parts) => Holes(separator) == 0 && AllPlain(parts)
    case Wrapped(op, part) => Holes(op) == 0 && Plain(part)
  }

  predicate AllPlain(fs: seq<Fragment>) {
    fs == [] || (Plain(fs[0]) && AllPlain(fs[1..]))
  }

  /** The leaves from left to right. */
  function Leaves(f: Fragment): seq<Expr> {
    match f
    case Leaf(e) => [e]
    case Joined(separator, parts) => AllLeaves(parts)
    case Wrapped(op, part) => Leaves(part)
  }

  function AllLeaves(fs: seq<Fragment>): seq<Expr> {
    if fs == [] then [] else Leaves(fs[0]) + AllLeaves(fs[1..])
  }

  lemma {:induction false} TotalExcessAppend(a: seq<Expr>, b: seq<Expr>)
    ensures TotalExcess(a + b) == TotalExcess(a) + TotalExcess(b)
  {
    if a == [] {
      assert a + b == b;
    } else {
      assert (a + b)[1..] == a[1..] + b;
      TotalExcessAppend(a[1..], b);
    }
  }

  lemma {:induction false} AllBindingsConcat(a: seq<Expr>, b: seq<Expr>)
    ensures AllBindings(a + b) == AllBindings(a) + AllBindings(b)
  {
    if a == [] {
      assert a + b == b;
    } else {
      assert (a + b)[1..] == a[1..] + b;
      AllBindingsConcat(a[1..], b);
    }
  }

  /** A tree has as many unfilled holes as its leaves have together. */
  lemma {:induction false} CompileExcess(f: Fragment)
    requires Plain(f)
    ensures Excess(Compile(f)) == TotalExcess(Leaves(f))
    decreases f
  {
    hide Excess;
    match f
    case Leaf(e) => assert [e][1..] == [];
    case Joined(separator, parts) =>
      CompileAllExcess(parts);
      JoinExcess(separator, CompileAll(parts));
    case Wrapped(op, part) =>
      CompileExcess(part);
      WrapExcess(op, Compile(part));
  }

  lemma {:induction false} CompileAllExcess(fs: seq<Fragment>)
    requires AllPlain(fs)
    ensures TotalExcess(CompileAll(fs)) == TotalExcess(AllLeaves(fs))
    decreases fs
  {
    hide Excess;
    if fs != [] {
      CompileExcess(fs[0]);
      CompileAllExcess(fs[1..]);
      assert CompileAll(fs)[1..] == CompileAll(fs[1..]);
      TotalExcessAppend(Leaves(fs[0]), AllLeaves(fs[1..]));
    }
  }

  /** The bindings of a tree are those of its leaves, from left to right. */
  lemma {:induction false} CompileBindings(f: Fragment)
    ensures Compile(f).bindings == AllBindings(Leaves(f))
    decreases f
  {
    match f
    case Leaf(e) =>
      assert [e][1..] == [];
      assert e.bindings + [] == e.bindings;
    case Joined(separator, parts) => CompileAllBindings(parts);
    case Wrapped(op, part) => CompileBindings(part);
  }

  lemma {:induction false} CompileAllBindings(fs: seq<Fragment>)
    ensures AllBindings(CompileAll(fs)) == AllBindings(AllLeaves(fs))
    decreases fs
  {
    if fs != [] {
      CompileBindings(fs[0]);
      CompileAllBindings(fs[1..]);
      assert CompileAll(fs)[1..] == CompileAll(fs[1..]);
      AllBindingsConcat(Leaves(fs[0]), AllLeaves(fs[1..]));
    }
  }

  predicate LeavesBalanced(f: Fragment) {
    forall e | e in Leaves(f) :: Balanced(e)
  }

  predicate AllLeavesBalanced(fs: seq<Fragment>) {
    forall e | e in AllLeaves(fs) :: Balanced(e)
  }

  /** The text of a tree with every leaf printed on its own. */
  function TextOf(f: Fragment): string
    requires LeavesBalanced(f)
    decreases f
  {
    match f
    case Leaf(e) =>
      assert e in Leaves(f);
      Print(e)
    case Joined(separator, parts) =>
      assert Leaves(f) == AllLeaves(parts);
      JoinText(separator, TextsOf(parts))
    case Wrapped(op, part) =>
      assert Leaves(f) == Leaves(part);
      op + "(" + TextOf(part) + ")"
  }

  function TextsOf(fs: seq<Fragment>): (r: seq<string>)
    requires AllLeavesBalanced(fs)
    ensures |r| == |fs|
    decreases fs
  {
    if fs == [] then []
    else
      assert forall e | e in Leaves(fs[0]) :: e in AllLeaves(fs);
      assert forall e | e in AllLeaves(fs[1..]) :: e in AllLeaves(fs);
      [TextOf(fs[0])] + TextsOf(fs[1..])
  }

  /** Printing a whole tree is printing its leaves and putting the texts together. */
  lemma {:induction false} CompilePrints(f: Fragment)
    requires Plain(f) && LeavesBalanced(f)
    ensures Balanced(Compile(f)) && Print(Compile(f)) == TextOf(f)
    decreases f
  {
    hide Balanced, Print;
    match f
    case Leaf(e) => assert e in Leaves(f);
    case Joined(separator, parts) =>
      assert Leaves(f) == AllLeaves(parts);
      CompileAllPrints(parts);
      JoinPrints(separator, CompileAll(parts));
    case Wrapped(op, part) =>
      assert Leaves(f) == Leaves(part);
      CompilePrints(part);
      WrapPrints(op, Compile(part));
  }

  lemma {:induction false} CompileAllPrints(fs: seq<Fragment>)
    requires AllPlain(fs) && AllLeavesBalanced(fs)
    ensures forall e | e in CompileAll(fs) :: Balanced(e)
    ensures Printed(CompileAll(fs)) == TextsOf(fs)
    decreases fs
  {
    hide Balanced, Print, Printed, Compile, Leaves, TextOf, Plain;
    if fs == [] {
      PrintedNone();
    } else {
      AllLeavesSplit(fs);
      CompilePrints(fs[0]);
      CompileAllPrints(fs[1..]);
      assert CompileAll(fs)[0] == Compile(fs[0]) && CompileAll(fs)[1..] == CompileAll(fs[1..]);
      PrintedCons(CompileAll(fs));
    }
  }

  lemma AllLeavesSplit(fs: seq<Fragment>)
    requires fs != [] && AllLeavesBalanced(fs)
    ensures LeavesBalanced(fs[0]) && AllLeavesBalanced(fs[1..])
  {
    hide Balanced;
    assert forall e | e in Leaves(fs[0]) :: e in AllLeaves(fs);
    assert forall e | e in AllLeaves(fs[1..]) :: e in AllLeaves(fs);
  }

  lemma PrintedNone()
    ensures Printed([]) == []
  {
  }

  lemma PrintedCons(es: seq<Expr>)
    requires es != [] && Balanced(es[0]) && forall e | e in es[1..] :: Balanced(e)
    ensures (forall e | e in es :: Balanced(e)) && Printed(es) == [Print(es[0])] + Printed(es[1..])
  {
    hide Balanced, Print;
    assert es == [es[0]] + es[1..];
  }
}
