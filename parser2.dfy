/** 3_ParsingArithExp/Parser2.py: a recursive-descent parser for infix
    arithmetic with two precedence levels, whose rules recurse on their
    right:

      E ::= T ('+' E | '-' E | empty)
      T ::= F ('*' T | '/' T | empty)
      F ::= num | '(' E ')'

    Precedence comes out right, but chains of one level group to the
    right, so "2 - 3 - 4" is read as 2 - (3 - 4). `F` returns `None` when
    the current token is neither a number nor '('. */
module Parser2 {
  import opened Wrappers
  import opened Tokens
  import opened Streams
  import opened Lexer
  import opened Exp
  import opened Prefix
  import opened InfixTrees

  /** What `E()` returns and leaves unread, from a stream of items. */
  function ParseE(items: seq<Item<char>>): (r: Result<(Tree, seq<Item<char>>), ParseError<char>>)
    requires WellFormed(items)
    ensures r.Ok? ==> WellFormed(r.value.1) && |r.value.1| <= |items|
    decreases |items|, 2
  {
    match ParseT(items)
    case Fail(err) => Fail(err)
    case Ok((exp, rest)) =>
      match rest[0]
      case Bad(c) => Fail(LexError(c))
      case Tok(t) =>
        if t.kind == ADD || t.kind == SUB then
          match ParseE(rest[1..])
          case Fail(err) => Fail(err)
          case Ok((right, after)) => Ok((Node(OpOf(t.kind), exp, right), after))
        else
          Ok((exp, rest))
  }

  /** `T()`: a factor, then optionally '*' or '/' and another term. */
  function ParseT(items: seq<Item<char>>): (r: Result<(Tree, seq<Item<char>>), ParseError<char>>)
    requires WellFormed(items)
    ensures r.Ok? ==> WellFormed(r.value.1) && |r.value.1| <= |items|
    decreases |items|, 1
  {
    match ParseF(items)
    case Fail(err) => Fail(err)
    case Ok((exp, rest)) =>
      match rest[0]
      case Bad(c) => Fail(LexError(c))
      case Tok(t) =>
        if t.kind == MUL || t.kind == DIV then
          match ParseT(rest[1..])
          case Fail(err) => Fail(err)
          case Ok((right, after)) => Ok((Node(OpOf(t.kind), exp, right), after))
        else
          Ok((exp, rest))
  }

  /** `F()`: a number, or an expression between parentheses; for any other
      token, `None`, with nothing consumed. */
  function ParseF(items: seq<Item<char>>): (r: Result<(Tree, seq<Item<char>>), ParseError<char>>)
    requires WellFormed(items)
    ensures r.Ok? ==> WellFormed(r.value.1) && |r.value.1| <= |items|
    decreases |items|, 0
  {
    match items[0]
    case Bad(c) => Fail(LexError(c))
    case Tok(t) =>
      if t.kind == NUM then
        Ok((Leaf(DecimalValue(t.text)), items[1..]))
      else if t.kind == LPR then
        match ParseE(items[1..])
        case Fail(err) => Fail(err)
        case Ok((node, rest)) =>
          match Eat(rest, RPR)
          case Fail(err) => Fail(err)
          case Ok(rest') => Ok((node, rest'))
      else
        Ok((Hole, items))
  }

  /** A factor not followed by '*' or '/' is a whole term. */
  lemma {:induction false} TermStop(items: seq<Item<char>>, x: Tree, after: seq<Item<char>>)
    requires WellFormed(items) && ParseF(items) == Ok((x, after))
    requires after[0].Tok? && !(after[0].token.kind in {MUL, DIV})
    ensures ParseT(items) == Ok((x, after))
  {
  }

  /** A term not followed by '+' or '-' is a whole expression. */
  lemma {:induction false} ExpressionStop(items: seq<Item<char>>, x: Tree, after: seq<Item<char>>)
    requires WellFormed(items) && ParseT(items) == Ok((x, after))
    requires after[0].Tok? && !(after[0].token.kind in {ADD, SUB})
    ensures ParseE(items) == Ok((x, after))
  {
  }

  /** A factor, '*' or '/', and a term make a product node. */
  lemma {:induction false} ProductLink(op: BinOp, items: seq<Item<char>>, x: Tree, gr: seq<Item<char>>, y: Tree, after: seq<Item<char>>)
    requires op == Mul || op == Div
    requires WellFormed(items) && WellFormed(gr) && WellFormed([Tok(OpToken(op))] + gr)
    requires ParseF(items) == Ok((x, [Tok(OpToken(op))] + gr)) && ParseT(gr) == Ok((y, after))
    ensures ParseT(items) == Ok((Node(op, x, y), after))
  {
    assert ([Tok(OpToken(op))] + gr)[1..] == gr;
  }

  /** A term, '+' or '-', and an expression make a sum node. */
  lemma {:induction false} SumLink(op: BinOp, items: seq<Item<char>>, x: Tree, gr: seq<Item<char>>, y: Tree, after: seq<Item<char>>)
    requires op == Add || op == Sub
    requires WellFormed(items) && WellFormed(gr) && WellFormed([Tok(OpToken(op))] + gr)
    requires ParseT(items) == Ok((x, [Tok(OpToken(op))] + gr)) && ParseE(gr) == Ok((y, after))
    ensures ParseE(items) == Ok((Node(op, x, y), after))
  {
    assert ([Tok(OpToken(op))] + gr)[1..] == gr;
  }

  /** A factor followed by ')' or EOF is a whole expression. */
  lemma {:induction false} FactorAlone(items: seq<Item<char>>, x: Tree, rest: seq<Item<char>>)
    requires WellFormed(items) && Closes(rest) && ParseF(items) == Ok((x, rest))
    ensures ParseT(items) == Ok((x, rest)) && ParseE(items) == Ok((x, rest))
  {
    TermStop(items, x, rest);
    ExpressionStop(items, x, rest);
  }

  /** An expression between parentheses is a factor. */
  lemma {:induction false} GroupFactor(x: Tree, inner: seq<Item<char>>, after: seq<Item<char>>)
    requires WellFormed(inner) && WellFormed([Tok(LeftParen)] + inner)
    requires ParseE(inner) == Ok((x, [Tok(RightParen)] + after))
    ensures ParseF([Tok(LeftParen)] + inner) == Ok((x, after))
  {
    assert ([Tok(LeftParen)] + inner)[1..] == inner;
    assert ([Tok(RightParen)] + after)[1..] == after;
  }

  /** Two factors around one operator, then ')' or EOF, make one node,
      whichever the operator's level. */
  lemma {:induction false} NodeOfFactors(op: BinOp, xl: Tree, xr: Tree, items: seq<Item<char>>, gr: seq<Item<char>>, rest: seq<Item<char>>)
    requires WellFormed(items) && WellFormed(gr) && Closes(rest)
    requires WellFormed([Tok(OpToken(op))] + gr)
    requires ParseF(items) == Ok((xl, [Tok(OpToken(op))] + gr)) && ParseF(gr) == Ok((xr, rest))
    ensures ParseE(items) == Ok((Node(op, xl, xr), rest))
  {
    FactorAlone(gr, xr, rest);
    if op == Mul || op == Div {
      ProductLink(op, items, xl, gr, xr, rest);
      ExpressionStop(items, Node(op, xl, xr), rest);
    } else {
      TermStop(items, xl, [Tok(OpToken(op))] + gr);
      SumLink(op, items, xl, gr, xr, rest);
    }
  }

  /** One node of `print_infix`'s output: "(" left ") op (" right ")" parses
      as the node. */
  lemma {:induction false} ParseInfixNode(op: BinOp, xl: Tree, xr: Tree, il: seq<Item<char>>, m: seq<Item<char>>, rest: seq<Item<char>>)
    requires WellFormed(rest) && Closes(rest) && WellFormed(m) && WellFormed(il)
    requires ParseE(m) == Ok((xr, [Tok(RightParen)] + rest))
    requires ParseE(il) == Ok((xl, [Tok(RightParen), Tok(OpToken(op)), Tok(LeftParen)] + m))
    ensures WellFormed([Tok(LeftParen)] + il) && ParseE([Tok(LeftParen)] + il) == Ok((Node(op, xl, xr), rest))
  {
    var gr := [Tok(LeftParen)] + m;
    var after := [Tok(OpToken(op))] + gr;
    StreamCons(LeftParen, m);
    StreamCons(OpToken(op), gr);
    StreamCons(LeftParen, il);
    MiddleRegrouped(op, m);
    GroupFactor(xr, m, rest);
    GroupFactor(xl, il, after);
    NodeOfFactors(op, xl, xr, [Tok(LeftParen)] + il, gr, rest);
  }

  /** A number followed by ')' or EOF parses as a leaf. */
  lemma {:induction false} ParseNumber(n: nat, rest: seq<Item<char>>)
    requires WellFormed(rest) && Closes(rest)
    ensures WellFormed([Tok(NumToken(n))] + rest) && ParseE([Tok(NumToken(n))] + rest) == Ok((Leaf(n), rest))
  {
    var items := [Tok(NumToken(n))] + rest;
    StreamCons(NumToken(n), rest);
    assert items[1..] == rest;
    FactorAlone(items, Leaf(n), rest);
  }

  /** The induction step of `ParseInfixItems`, from its two hypotheses. */
  lemma {:induction false} ParseInfixStep(op: BinOp, l: Exp, r: Exp, rest: seq<Item<char>>)
    requires NonNegative(l) && NonNegative(r) && WellFormed(rest) && Closes(rest)
    requires var m := InfixItems(r, [Tok(RightParen)] + rest);
             WellFormed(m) && ParseE(m) == Ok((Embed(r), [Tok(RightParen)] + rest))
    requires var mid := [Tok(RightParen), Tok(OpToken(op)), Tok(LeftParen)] + InfixItems(r, [Tok(RightParen)] + rest);
             WellFormed(InfixItems(l, mid)) && ParseE(InfixItems(l, mid)) == Ok((Embed(l), mid))
    ensures WellFormed(InfixItems(Bin(op, l, r), rest)) &&
            ParseE(InfixItems(Bin(op, l, r), rest)) == Ok((Embed(Bin(op, l, r)), rest))
  {
    var m := InfixItems(r, [Tok(RightParen)] + rest);
    var mid := [Tok(RightParen), Tok(OpToken(op)), Tok(LeftParen)] + m;
    ParseInfixNode(op, Embed(l), Embed(r), InfixItems(l, mid), m, rest);
  }

  /** Parser2 reads back what `print_infix` writes: the items of a
      non-negative tree, followed by ')' or EOF, parse as that tree, and
      exactly its items are consumed. */
  lemma {:induction false} ParseInfixItems(e: Exp, rest: seq<Item<char>>)
    requires NonNegative(e) && WellFormed(rest) && Closes(rest)
    ensures WellFormed(InfixItems(e, rest)) && ParseE(InfixItems(e, rest)) == Ok((Embed(e), rest))
  {
    match e
    case Num(n) =>
      ParseNumber(n, rest);
    case Bin(op, l, r) =>
      var rp := [Tok(RightParen)] + rest;
      StreamCons(RightParen, rest);
      ParseInfixItems(r, rp);
      var mid := [Tok(RightParen), Tok(OpToken(op)), Tok(LeftParen)] + InfixItems(r, rp);
      MiddleWellFormed(op, InfixItems(r, rp));
      ParseInfixItems(l, mid);
      ParseInfixStep(op, l, r, rest);
  }

  /** Parsing what `print_infix` prints gives back the tree, up to EOF. */
  lemma {:induction false} PrintInfixRoundTrip(e: Exp)
    requires NonNegative(e)
    ensures ParseE(Items(PrintInfix(e), 0)) == Ok((Embed(e), [Tok(EofToken)]))
  {
    ItemsOfPrintInfix(e);
    ParseInfixItems(e, [Tok(EofToken)]);
  }

  /** A number is a factor. */
  lemma {:induction false} NumberFactor(n: nat, rest: seq<Item<char>>)
    requires WellFormed(rest)
    ensures WellFormed([Tok(NumToken(n))] + rest) && ParseF([Tok(NumToken(n))] + rest) == Ok((Leaf(n), rest))
  {
    StreamCons(NumToken(n), rest);
    assert ([Tok(NumToken(n))] + rest)[1..] == rest;
  }

  /** `T` over a chain reads its leading run of `*` and `/` links and
      groups them to the right. */
  lemma {:induction false} TermChain(first: nat, links: seq<Link>, rest: seq<Item<char>>)
    requires WellFormed(rest) && Closes(rest)
    ensures var k := MulRun(links);
            WellFormed(ChainItems(first, links, rest)) &&
            ParseT(ChainItems(first, links, rest)) == Ok((Embed(RightFold(first, links[..k])), ChainTail(links[k..], rest)))
    decreases |links|
  {
    var k := MulRun(links);
    var tail := ChainTail(links, rest);
    ChainTailHead(links, rest);
    NumberFactor(first, tail);
    if k == 0 {
      assert links[..k] == [] && links[k..] == links;
      TermStop(ChainItems(first, links, rest), Leaf(first), tail);
    } else {
      TermChain(links[0].n, links[1..], rest);
      TermChainStep(first, links, rest);
    }
  }

  /** The induction step of `TermChain`: one product link in front of the
      run. */
  lemma {:induction false} TermChainStep(first: nat, links: seq<Link>, rest: seq<Item<char>>)
    requires WellFormed(rest) && Closes(rest) && MulRun(links) > 0
    requires var k, n := MulRun(links[1..]), links[0].n;
             WellFormed(ChainItems(n, links[1..], rest)) &&
             ParseT(ChainItems(n, links[1..], rest)) == Ok((Embed(RightFold(n, links[1..][..k])), ChainTail(links[1..][k..], rest)))
    ensures var k := MulRun(links);
            WellFormed(ChainItems(first, links, rest)) &&
            ParseT(ChainItems(first, links, rest)) == Ok((Embed(RightFold(first, links[..k])), ChainTail(links[k..], rest)))
  {
    var k := MulRun(links);
    var op, n := links[0].op, links[0].n;
    var tail := ChainTail(links, rest);
    LinkCons(first, links, rest);
    NumberFactor(first, tail);
    ProductLink(op, ChainItems(first, links, rest), Leaf(first), ChainItems(n, links[1..], rest),
                Embed(RightFold(n, links[1..][..k - 1])), ChainTail(links[k..], rest));
  }

  /** A chain whose first link is a product: the first number, that link's
      operator, then the chain from the link's number, grouped to the right. */
  lemma {:induction false} LinkCons(first: nat, links: seq<Link>, rest: seq<Item<char>>)
    requires WellFormed(rest) && MulRun(links) > 0
    ensures var k, op, n := MulRun(links), links[0].op, links[0].n;
            (op == Mul || op == Div) && MulRun(links[1..]) == k - 1 &&
            WellFormed(ChainTail(links, rest)) && WellFormed(ChainItems(n, links[1..], rest)) &&
            ChainItems(first, links, rest) == [Tok(NumToken(first))] + ChainTail(links, rest) &&
            ChainTail(links, rest) == [Tok(OpToken(op))] + ChainItems(n, links[1..], rest) &&
            Embed(RightFold(first, links[..k])) == Node(op, Leaf(first), Embed(RightFold(n, links[1..][..k - 1]))) &&
            links[k..] == links[1..][k - 1..]
  {
    ChainCons(links, rest);
    RunCons(first, links);
  }

  /** Parser2 reads a chain without parentheses with `*` and `/` before `+`
      and `-`, each level grouped to the right. */
  lemma {:induction false} ParseChain(first: nat, links: seq<Link>, rest: seq<Item<char>>)
    requires WellFormed(rest) && Closes(rest)
    ensures WellFormed(ChainItems(first, links, rest)) &&
            ParseE(ChainItems(first, links, rest)) == Ok((Embed(RightChain(first, links)), rest))
    decreases |links|
  {
    var k := MulRun(links);
    if k == |links| {
      ParseChainStop(first, links, rest);
    } else {
      var n, tail := links[k].n, links[k + 1..];
      ParseChain(n, tail, rest);
      ParseChainLink(first, links, n, tail, rest);
    }
  }

  /** The base of `ParseChain`: a chain of products only is one term. */
  lemma {:induction false} ParseChainStop(first: nat, links: seq<Link>, rest: seq<Item<char>>)
    requires WellFormed(rest) && Closes(rest) && MulRun(links) == |links|
    ensures WellFormed(ChainItems(first, links, rest)) &&
            ParseE(ChainItems(first, links, rest)) == Ok((Embed(RightChain(first, links)), rest))
  {
    var k := MulRun(links);
    TermChain(first, links, rest);
    assert links[k..] == [];
    ExpressionStop(ChainItems(first, links, rest), Embed(RightFold(first, links[..k])), rest);
  }

  /** The induction step of `ParseChain`: the leading term, one sum link,
      then the chain after it. */
  lemma {:induction false} ParseChainLink(first: nat, links: seq<Link>, n: nat, tail: seq<Link>, rest: seq<Item<char>>)
    requires WellFormed(rest) && Closes(rest) && MulRun(links) < |links|
    requires n == links[MulRun(links)].n && tail == links[MulRun(links) + 1..]
    requires WellFormed(ChainItems(n, tail, rest)) &&
             ParseE(ChainItems(n, tail, rest)) == Ok((Embed(RightChain(n, tail)), rest))
    ensures WellFormed(ChainItems(first, links, rest)) &&
            ParseE(ChainItems(first, links, rest)) == Ok((Embed(RightChain(first, links)), rest))
  {
    var k := MulRun(links);
    var op, n := links[k].op, links[k].n;
    var gr := ChainItems(n, links[k + 1..], rest);
    TermChain(first, links, rest);
    SumLinkAt(links, k, rest);
    RightChainLink(first, links);
    SumLink(op, ChainItems(first, links, rest), Embed(RightFold(first, links[..k])), gr, Embed(RightChain(n, links[k + 1..])), rest);
  }

  /** The items after the leading run: the sum operator of link k, then
      the chain from that link's number. */
  lemma {:induction false} SumLinkAt(links: seq<Link>, k: nat, rest: seq<Item<char>>)
    requires k < |links| && WellFormed(rest)
    ensures WellFormed(ChainItems(links[k].n, links[k + 1..], rest))
    ensures ChainTail(links[k..], rest) == [Tok(OpToken(links[k].op))] + ChainItems(links[k].n, links[k + 1..], rest)
    ensures WellFormed(ChainTail(links[k..], rest))
  {
    assert links[k..][0] == links[k] && links[k..][1..] == links[k + 1..];
    ChainCons(links[k..], rest);
  }

  /** A chain with a sum link after its leading run is that link's node. */
  lemma {:induction false} RightChainLink(first: nat, links: seq<Link>)
    requires MulRun(links) < |links|
    ensures var k := MulRun(links);
            Embed(RightChain(first, links)) ==
            Node(links[k].op, Embed(RightFold(first, links[..k])), Embed(RightChain(links[k].n, links[k + 1..])))
  {
  }

  /** Chains of one level group to the right: "2 - 3 - 4" is 2 - (3 - 4). */
  lemma {:induction false} RightAssociative(first: nat, links: seq<Link>)
    requires Additive(links) || Multiplicative(links)
    ensures ParseE(Items(ChainText(first, links), 0)) == Ok((Embed(RightFold(first, links)), [Tok(EofToken)]))
  {
    ItemsOfChain(first, links);
    ParseChain(first, links, [Tok(EofToken)]);
    RightChainUniform(first, links);
  }

  /** What Parser2 makes of one operand of a binary operator. */
  function OperandTree(a: Operand): Exp
  {
    match a
    case Number(n) => Num(n)
    case Group(first, links) => RightChain(first, links)
  }

  /** An operand is a factor: a number, or a chain between parentheses. */
  lemma {:induction false} OperandFactor(a: Operand, after: seq<Item<char>>)
    requires WellFormed(after)
    ensures WellFormed(OperandItems(a, after)) && ParseF(OperandItems(a, after)) == Ok((Embed(OperandTree(a)), after))
  {
    OperandItemsWellFormed(a, after);
    var items := OperandItems(a, after);
    match a
    case Number(n) =>
      assert items[1..] == after;
    case Group(first, links) =>
      StreamCons(RightParen, after);
      ParseChain(first, links, [Tok(RightParen)] + after);
      GroupFactor(Embed(RightChain(first, links)), ChainItems(first, links, [Tok(RightParen)] + after), after);
  }

  /** Two operands around one operator make one node, whatever the
      operator's level. */
  lemma {:induction false} ParseBinary(a: Operand, op: BinOp, b: Operand, rest: seq<Item<char>>)
    requires WellFormed(rest) && Closes(rest)
    ensures WellFormed(BinaryItems(a, op, b, rest)) &&
            ParseE(BinaryItems(a, op, b, rest)) == Ok((Embed(Bin(op, OperandTree(a), OperandTree(b))), rest))
  {
    var gr := OperandItems(b, rest);
    OperandFactor(b, rest);
    StreamCons(OpToken(op), gr);
    OperandFactor(a, [Tok(OpToken(op))] + gr);
    NodeOfFactors(op, Embed(OperandTree(a)), Embed(OperandTree(b)), BinaryItems(a, op, b, rest), gr, rest);
  }

  /** `Parser(Lexer(text)).E()` returns the tree of `e` and stops at EOF. */
  predicate ParsesTo(text: string, e: Exp)
  {
    ParseE(Items(text, 0)) == Ok((Embed(e), [Tok(EofToken)]))
  }

  lemma {:induction false} ParseChainText(first: nat, links: seq<Link>)
    ensures ParsesTo(ChainText(first, links), RightChain(first, links))
  {
    ItemsOfChain(first, links);
    ParseChain(first, links, [Tok(EofToken)]);
  }

  lemma {:induction false} ParseBinaryText(a: Operand, op: BinOp, b: Operand)
    ensures ParsesTo(BinaryText(a, op, b), Bin(op, OperandTree(a), OperandTree(b)))
  {
    ItemsOfBinary(a, op, b);
    EofCloses();
    ParseBinary(a, op, b, [Tok(EofToken)]);
  }

  /** The doctests: "2 + 3 + 4" gives 9, "2 * 3 * 4" 24, "(2 + 3) * 4" and
      "4 * (2 + 3)" 20, "2 * 3 + 4" 10. */
  lemma {:induction false} DoctestSum()
    ensures ParsesTo("2 + 3 + 4", Bin(Add, Num(2), Bin(Add, Num(3), Num(4))))
    ensures Eval(Bin(Add, Num(2), Bin(Add, Num(3), Num(4)))) == Ok(9)
  {
    TextSum();
    RightAssociative(2, [Link(Add, 3), Link(Add, 4)]);
  }

  lemma {:induction false} DoctestProduct()
    ensures ParsesTo("2 * 3 * 4", Bin(Mul, Num(2), Bin(Mul, Num(3), Num(4))))
    ensures Eval(Bin(Mul, Num(2), Bin(Mul, Num(3), Num(4)))) == Ok(24)
  {
    TextProduct();
    RightAssociative(2, [Link(Mul, 3), Link(Mul, 4)]);
  }

  lemma {:induction false} DoctestGroupTimes()
    ensures ParsesTo("(2 + 3) * 4", Bin(Mul, Bin(Add, Num(2), Num(3)), Num(4)))
    ensures Eval(Bin(Mul, Bin(Add, Num(2), Num(3)), Num(4))) == Ok(20)
  {
    var g := Group(2, [Link(Add, 3)]);
    assert OperandTree(g) == Bin(Add, Num(2), Num(3)) by {
      RightChainUniform(2, [Link(Add, 3)]);
    }
    assert ParsesTo(BinaryText(g, Mul, Number(4)), Bin(Mul, Bin(Add, Num(2), Num(3)), Num(4))) by {
      ParseBinaryText(g, Mul, Number(4));
    }
    TextGroupTimes();
  }

  lemma {:induction false} DoctestTimesGroup()
    ensures ParsesTo("4 * (2 + 3)", Bin(Mul, Num(4), Bin(Add, Num(2), Num(3))))
    ensures Eval(Bin(Mul, Num(4), Bin(Add, Num(2), Num(3)))) == Ok(20)
  {
    var g := Group(2, [Link(Add, 3)]);
    assert OperandTree(g) == Bin(Add, Num(2), Num(3)) by {
      RightChainUniform(2, [Link(Add, 3)]);
    }
    assert ParsesTo(BinaryText(Number(4), Mul, g), Bin(Mul, Num(4), Bin(Add, Num(2), Num(3)))) by {
      ParseBinaryText(Number(4), Mul, g);
    }
    TextTimesGroup();
  }

  /** "2 * 3 + 4": the product is taken first. */
  lemma {:induction false} DoctestPrecedence()
    ensures ParsesTo("2 * 3 + 4", Bin(Add, Bin(Mul, Num(2), Num(3)), Num(4)))
    ensures Eval(Bin(Add, Bin(Mul, Num(2), Num(3)), Num(4))) == Ok(10)
  {
    var links := [Link(Mul, 3), Link(Add, 4)];
    TextMixed();
    ParseChainText(2, links);
    assert MulRun(links) == 1 by {
      assert links[1..] == [Link(Add, 4)];
    }
    assert links[..1] == [Link(Mul, 3)] && links[2..] == [];
  }

  /** "2 - 3 - 4" is read as 2 - (3 - 4), which is 3: the doctest of
      Parser2 expects -5, the value of (2 - 3) - 4. */
  lemma {:induction false} DoctestDifference()
    ensures ParsesTo("2 - 3 - 4", Bin(Sub, Num(2), Bin(Sub, Num(3), Num(4))))
    ensures Eval(Bin(Sub, Num(2), Bin(Sub, Num(3), Num(4)))) == Ok(3)
    ensures Eval(Bin(Sub, Num(2), Bin(Sub, Num(3), Num(4)))) != Ok(-5)
  {
    TextDifference();
    RightAssociative(2, [Link(Sub, 3), Link(Sub, 4)]);
  }

  /** The parser object: the lexer it reads from and its current token. A
      lexical error raised while reading a token is kept as the current item
      and surfaces when the parser next looks at its current token. */
  class Parser {
    const lexer: Lexer
    var current: Item<char>

    ghost predicate Valid()
      reads this, lexer
    {
      lexer.Valid() &&
      (current.Tok? ==> Lexeme(current.token)) &&
      (current.Tok? && current.token.kind == EOF ==> current.token == EofToken && lexer.position == |lexer.input|)
    }

    /** The items the parser has yet to read: the current one and then what
        the lexer's `next_valid_token` returns from its position on. */
    ghost function Rest(): (r: seq<Item<char>>)
      reads this, lexer
      requires Valid()
      ensures WellFormed(r) && r[0] == current
    {
      if Final(current) then [current]
      else
        StreamCons(current.token, Items(lexer.input, lexer.position));
        [current] + Items(lexer.input, lexer.position)
    }

    /** `__init__`: keeps the lexer and reads the first token. */
    constructor (lexer: Lexer)
      requires lexer.Valid()
      modifies lexer
      ensures Valid() && this.lexer == lexer
      ensures Rest() == Items(lexer.input, old(lexer.position))
    {
      this.lexer := lexer;
      var r := lexer.NextValidToken();
      current := ToItem(r);
    }

    /** `eat(kind)`. */
    method Eat(k: Kind) returns (r: Result<(), ParseError<char>>)
      requires Valid()
      modifies this, lexer
      ensures Valid()
      ensures match InfixTrees.Eat(old(Rest()), k)
              case Fail(err) => r == Fail(err)
              case Ok(rest) => r == Ok(()) && Rest() == rest
    {
      if current.Bad? {
        return Fail(LexError(current.error));
      }
      if current.token.kind != k {
        return Fail(UnexpectedToken(current.token.kind));
      }
      var n := lexer.NextValidToken();
      current := ToItem(n);
      return Ok(());
    }

    /** `E()`. */
    method E() returns (r: Result<Tree, ParseError<char>>)
      requires Valid()
      modifies this, lexer
      ensures Valid() && Outcome(ParseE(old(Rest())), r, Rest())
      decreases |Rest()|, 2
    {
      var exp := T();
      if exp.Fail? {
        return exp;
      }
      var token := current;
      if token.Bad? {
        return Fail(LexError(token.error));
      }
      if token.token.kind == ADD || token.token.kind == SUB {
        var op := OpOf(token.token.kind);
        var _ := Eat(token.token.kind);
        var right := E();
        if right.Fail? {
          return right;
        }
        r := Ok(Node(op, exp.value, right.value));
      } else {
        r := exp;
      }
    }

    /** `T()`. */
    method T() returns (r: Result<Tree, ParseError<char>>)
      requires Valid()
      modifies this, lexer
      ensures Valid() && Outcome(ParseT(old(Rest())), r, Rest())
      decreases |Rest()|, 1
    {
      var exp := F();
      if exp.Fail? {
        return exp;
      }
      var token := current;
      if token.Bad? {
        return Fail(LexError(token.error));
      }
      if token.token.kind == MUL || token.token.kind == DIV {
        var op := OpOf(token.token.kind);
        var _ := Eat(token.token.kind);
        var right := T();
        if right.Fail? {
          return right;
        }
        r := Ok(Node(op, exp.value, right.value));
      } else {
        r := exp;
      }
    }

    /** `F()`. */
    method F() returns (r: Result<Tree, ParseError<char>>)
      requires Valid()
      modifies this, lexer
      ensures Valid() && Outcome(ParseF(old(Rest())), r, Rest())
      decreases |Rest()|, 0
    {
      var token := current;
      if token.Bad? {
        return Fail(LexError(token.error));
      }
      if token.token.kind == NUM {
        var _ := Eat(NUM);
        return Ok(Leaf(DecimalValue(token.token.text)));
      } else if token.token.kind == LPR {
        var _ := Eat(LPR);
        var node := E();
        if node.Fail? {
          return node;
        }
        var closed := Eat(RPR);
        if closed.Fail? {
          return Fail(closed.error);
        }
        return node;
      }
      return Ok(Hole);
    }
  }
}
