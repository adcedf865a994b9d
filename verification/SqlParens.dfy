/** Parentheses: the text of a tree fixes where they stand, so a tree that is read with other parentheses than it was built
    with is read as different operations too. */
module SqlParens {
  import opened SqlTemplate
  import opened SqlGrammar
  import opened SqlReader

  /** The operations alone. */
  function Plain<V>(t: Tree<V>): Tree<V> {
    match t
    case Name(_, _) => t
    case Val(_) => t
    case Bin(op, l, r) => Bin(op, Plain(l), Plain(r))
    case Un(op, e) => Un(op, Plain(e))
    case Between(e, lo, hi) => Between(Plain(e), Plain(lo), Plain(hi))
    case Paren(e) => Plain(e)
  }

  /** A token and the number of parentheses around it. */
  datatype Mark = Mark(token: Token, depth: int)

  function At(toks: seq<Token>, depth: int): (r: seq<Mark>)
    ensures |r| == |toks|
  {
    seq(|toks|, i requires 0 <= i < |toks| => Mark(toks[i], depth))
  }

  /** The tokens of a tree but for the parentheses, with their depths. */
  function Marks<V>(t: Tree<V>, depth: int): (r: seq<Mark>)
    ensures r != []
  {
    match t
    case Name(qualifiers, name) => At(PathTokens(qualifiers, name), depth)
    case Val(_) => At([Hole], depth)
    case Bin(op, l, r) => Marks(l, depth) + At(OpTokens(op), depth) + Marks(r, depth)
    case Un(op, e) => At([PrefixTokens(op)], depth) + Marks(e, depth)
    case Between(e, lo, hi) =>
      Marks(e, depth) + At([Word("BETWEEN")], depth) + Marks(lo, depth) + At([Word("AND")], depth) + Marks(hi, depth)
    case Paren(e) => Marks(e, depth + 1)
  }

  /** The same, from the tokens. */
  function Measured(toks: seq<Token>, depth: int): seq<Mark> {
    if toks == [] then []
    else if toks[0] == LParen then Measured(toks[1..], depth + 1)
    else if toks[0] == RParen then Measured(toks[1..], depth - 1)
    else [Mark(toks[0], depth)] + Measured(toks[1..], depth)
  }

  lemma {:induction false} MeasuredFlat(toks: seq<Token>, rest: seq<Token>, depth: int)
    requires LParen !in toks && RParen !in toks
    ensures Measured(toks + rest, depth) == At(toks, depth) + Measured(rest, depth)
  {
    if toks == [] {
      assert toks + rest == rest;
    } else {
      assert toks[0] in toks && forall k | k in toks[1..] :: k in toks;
      assert (toks + rest)[1..] == toks[1..] + rest;
      MeasuredFlat(toks[1..], rest, depth);
      assert At(toks, depth) == [Mark(toks[0], depth)] + At(toks[1..], depth);
    }
  }

  lemma {:induction false} PathFlat(qualifiers: seq<string>, name: string)
    ensures LParen !in PathTokens(qualifiers, name) && RParen !in PathTokens(qualifiers, name)
  {
    if qualifiers != [] { PathFlat(qualifiers[1..], name); }
  }

  lemma OpFlat(op: InfixOp)
    ensures LParen !in OpTokens(op) && RParen !in OpTokens(op) && OpTokens(op) != []
  {
  }

  lemma {:induction false} MeasuredTree<V>(t: Tree<V>, rest: seq<Token>, depth: int)
    ensures Measured(Tokens(t) + rest, depth) == Marks(t, depth) + Measured(rest, depth)
    decreases t, 1
  {
    hide OpTokens, At, Measured;
    match t
    case Name(qualifiers, name) =>
      PathFlat(qualifiers, name);
      MeasuredFlat(PathTokens(qualifiers, name), rest, depth);
    case Val(_) => MeasuredFlat([Hole], rest, depth);
    case Bin(op, l, r) =>
      var k2 := Tokens(r) + rest;
      var k1 := OpTokens(op) + k2;
      OpFlat(op);
      MeasuredTree(r, rest, depth);
      MeasuredFlat(OpTokens(op), k2, depth);
      MeasuredTree(l, k1, depth);
      assert Tokens(t) + rest == Tokens(l) + k1;
      Regroup5(Marks(l, depth), At(OpTokens(op), depth), Marks(r, depth), Measured(rest, depth));
    case Un(op, e) =>
      MeasuredTree(e, rest, depth);
      MeasuredFlat([PrefixTokens(op)], Tokens(e) + rest, depth);
      assert Tokens(t) + rest == [PrefixTokens(op)] + (Tokens(e) + rest);
    case Between(e, lo, hi) =>
      MeasuredBetween(e, lo, hi, rest, depth);
    case Paren(e) =>
      MeasuredTree(e, [RParen] + rest, depth + 1);
      MeasuredParens(Tokens(e), rest, depth);
  }

  lemma {:induction false} MeasuredBetween<V>(e: Tree<V>, lo: Tree<V>, hi: Tree<V>, rest: seq<Token>, depth: int)
    ensures Measured(Tokens(Between(e, lo, hi)) + rest, depth) == Marks(Between(e, lo, hi), depth) + Measured(rest, depth)
    decreases Between(e, lo, hi), 0
  {
    hide At, Measured;
    var k4 := Tokens(hi) + rest;
    var k3 := [Word("AND")] + k4;
    var k2 := Tokens(lo) + k3;
    var k1 := [Word("BETWEEN")] + k2;
    MeasuredTree(hi, rest, depth);
    MeasuredFlat([Word("AND")], k4, depth);
    MeasuredTree(lo, k3, depth);
    MeasuredFlat([Word("BETWEEN")], k2, depth);
    MeasuredTree(e, k1, depth);
    BetweenTokens(e, lo, hi);
    assert Marks(Between(e, lo, hi), depth) == Marks(e, depth) + At([Word("BETWEEN")], depth) + Marks(lo, depth)
                                               + At([Word("AND")], depth) + Marks(hi, depth);
    hide Tokens, Marks;
    Regroup6(Marks(e, depth), At([Word("BETWEEN")], depth), Marks(lo, depth), At([Word("AND")], depth), Marks(hi, depth),
             Measured(rest, depth));
    Regroup6(Tokens(e), [Word("BETWEEN")], Tokens(lo), [Word("AND")], Tokens(hi), rest);
    Regroup6(Tokens(e), [Word("BETWEEN")], Tokens(lo), [Word("AND")], Tokens(hi), []);
  }

  lemma Regroup5<T>(a: seq<T>, b: seq<T>, c: seq<T>, d: seq<T>)
    ensures a + (b + (c + d)) == a + b + c + d
  {
  }

  lemma Regroup6<T>(a: seq<T>, b: seq<T>, c: seq<T>, d: seq<T>, e: seq<T>, f: seq<T>)
    ensures a + (b + (c + (d + (e + f)))) == a + b + c + d + e + f
    ensures a + b + c + d + e + [] == a + b + c + d + e && e + [] == e
  {
  }

  lemma MeasuredParens(inner: seq<Token>, rest: seq<Token>, depth: int)
    ensures Measured([LParen] + inner + [RParen] + rest, depth) == Measured(inner + ([RParen] + rest), depth + 1)
    ensures Measured([RParen] + rest, depth + 1) == Measured(rest, depth)
  {
    var toks := [LParen] + inner + [RParen] + rest;
    assert toks[1..] == inner + ([RParen] + rest) && ([RParen] + rest)[1..] == rest;
  }

  // ---- the depths determine the parentheses ----

  /** `n` pairs of parentheses around a tree. */
  function Nested<V>(t: Tree<V>, n: nat): Tree<V>
    decreases n
  {
    if n == 0 then t else Nested(Paren(t), n - 1)
  }

  lemma {:induction false} NestedOuter<V>(t: Tree<V>, n: nat)
    ensures Nested(t, n + 1) == Paren(Nested(t, n))
    decreases n
  {
    if n > 0 { NestedOuter(Paren(t), n - 1); }
  }

  lemma {:induction false} NoShallower<V>(t: Tree<V>, depth: int)
    ensures forall m | m in Marks(t, depth) :: m.depth >= depth
    decreases t
  {
    match t
    case Name(_, _) =>
    case Val(_) =>
    case Bin(_, l, r) =>
      NoShallower(l, depth);
      NoShallower(r, depth);
    case Un(_, e) => NoShallower(e, depth);
    case Between(e, lo, hi) =>
      NoShallower(e, depth);
      NoShallower(lo, depth);
      NoShallower(hi, depth);
    case Paren(e) => NoShallower(e, depth + 1);
  }

  /** Outside its parentheses a tree has a token. */
  lemma HasShallow<V>(t: Tree<V>, depth: int)
    requires !t.Paren?
    ensures exists m | m in Marks(t, depth) :: m.depth == depth
  {
    match t
    case Name(_, _) => assert Marks(t, depth)[0].depth == depth;
    case Val(_) => assert Marks(t, depth)[0].depth == depth;
    case Bin(op, l, r) =>
      OpFlat(op);
      assert Marks(t, depth)[|Marks(l, depth)|] == At(OpTokens(op), depth)[0];
    case Un(_, _) => assert Marks(t, depth)[0].depth == depth;
    case Between(e, _, _) => assert Marks(t, depth)[|Marks(e, depth)|].depth == depth;
  }

  lemma {:induction false} MarksCount<V>(t: Tree<V>, u: Tree<V>, d: int, e: int)
    requires Plain(t) == Plain(u)
    ensures |Marks(t, d)| == |Marks(u, e)|
    decreases t, u
  {
    if t.Paren? {
      MarksCount(t.e, u, d + 1, e);
    } else if u.Paren? {
      MarksCount(t, u.e, d, e + 1);
    } else {
      match t
      case Bin(_, l, r) =>
        MarksCount(l, u.l, d, e);
        MarksCount(r, u.r, d, e);
      case Un(_, x) => MarksCount(x, u.e, d, e);
      case Between(x, lo, hi) =>
        MarksCount(x, u.e, d, e);
        MarksCount(lo, u.lo, d, e);
        MarksCount(hi, u.hi, d, e);
      case _ =>
    }
  }

  /** Equal operations whose tokens lie equally deep differ only by parentheses around the whole. */
  lemma {:induction false} MarksDetermine<V>(t: Tree<V>, u: Tree<V>, d: int, e: int)
    requires Plain(t) == Plain(u) && Marks(t, d) == Marks(u, e) && d <= e
    ensures t == Nested(u, e - d)
    decreases t, 1, u
  {
    hide OpTokens, At;
    if u.Paren? {
      MarksDetermine(t, u.e, d, e + 1);
    } else if t.Paren? {
      if d < e {
        MarksDetermine(t.e, u, d + 1, e);
        NestedOuter(u, e - d - 1);
      } else {
        NoShallower(t.e, d + 1);
        HasShallow(u, e);
        assert false;
      }
    } else {
      HasShallow(t, d);
      NoShallower(u, e);
      assert d == e;
      MarksOperands(t, u, d);
    }
  }

  lemma {:induction false} MarksOperands<V>(t: Tree<V>, u: Tree<V>, d: int)
    requires Plain(t) == Plain(u) && Marks(t, d) == Marks(u, d) && !t.Paren? && !u.Paren?
    ensures t == u
    decreases t, 0
  {
    hide OpTokens, At;
    match t
    case Name(_, _) =>
    case Val(_) =>
    case Bin(op, l, r) =>
      MarksCount(l, u.l, d, d);
      var n := |Marks(l, d)|;
      var k := n + |At(OpTokens(op), d)|;
      assert Marks(t, d)[..n] == Marks(l, d) && Marks(u, d)[..n] == Marks(u.l, d);
      assert Marks(t, d)[k..] == Marks(r, d) && Marks(u, d)[k..] == Marks(u.r, d);
      MarksDetermine(l, u.l, d, d);
      MarksDetermine(r, u.r, d, d);
    case Un(op, e) =>
      assert Marks(t, d)[1..] == Marks(e, d) && Marks(u, d)[1..] == Marks(u.e, d);
      MarksDetermine(e, u.e, d, d);
    case Between(e, lo, hi) =>
      MarksCount(e, u.e, d, d);
      MarksCount(lo, u.lo, d, d);
      var n, k := |Marks(e, d)|, |Marks(e, d)| + 1 + |Marks(lo, d)|;
      assert Marks(t, d)[..n] == Marks(e, d) && Marks(u, d)[..n] == Marks(u.e, d);
      assert Marks(t, d)[n + 1..k] == Marks(lo, d) && Marks(u, d)[n + 1..k] == Marks(u.lo, d);
      assert Marks(t, d)[k + 1..] == Marks(hi, d) && Marks(u, d)[k + 1..] == Marks(u.hi, d);
      MarksDetermine(e, u.e, d, d);
      MarksDetermine(lo, u.lo, d, d);
      MarksDetermine(hi, u.hi, d, d);
  }

  /** The text of the same operations is the same only with the same parentheses. */
  lemma TextFixesParens<V>(t: Tree<V>, u: Tree<V>)
    requires Plain(t) == Plain(u) && Tokens(t) == Tokens(u)
    ensures t == u
  {
    hide Measured, Marks, Tokens;
    MeasuredTree(t, [], 0);
    MeasuredTree(u, [], 0);
    assert Tokens(t) + [] == Tokens(t) && Tokens(u) + [] == Tokens(u);
    MeasuredEnd();
    assert Marks(t, 0) + [] == Marks(t, 0) && Marks(u, 0) + [] == Marks(u, 0);
    MarksDetermine(t, u, 0, 0);
  }

  lemma MeasuredEnd()
    ensures Measured([], 0) == []
  {
  }

  /** The operations that a database carries out are those of the source exactly when they respect the precedences. */
  lemma OperationsAsBuilt(t: Tree<Literal>)
    requires SignsWrap(t)
    ensures (Read(Compile(t)).Some? && Plain(Read(Compile(t)).value) == Plain(t)) <==> WellGrouped(t)
  {
    hide Read, Compile, Plain, Tokens, WellGrouped;
    CompiledReadsAsBuilt(t);
    if Read(Compile(t)).Some? {
      var u := Read(Compile(t)).value;
      ReadingIsWellGrouped(t, u);
      if Plain(u) == Plain(t) { TextFixesParens(u, t); }
    }
  }
}
