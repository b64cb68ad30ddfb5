/** 3_ParsingArithExp/Parser3.py: a recursive-descent parser for infix
    arithmetic with two precedence levels, whose `EE` and `TT` fold each new
    operand into a left accumulator, so that chains group to the left:

      E ::= T EE      EE ::= ('+' | '-') T EE | empty
      T ::= F TT      TT ::= ('*' | '/') F TT | empty
      F ::= num | '(' E ')'

    `F` returns `None` when the current token is neither a number nor '('. */
module Parser3 {
  import opened Wrappers
  import opened Tokens
  import opened Streams
  import opened Lexer
  import opened Exp
  import opened Prefix
  import opened InfixTrees

  /** What `E()` returns and leaves unread, from a stream of items. */
  function ParseE(items: seq<Item<char>>): (r: Result<(Tree, seq<Item<char>>), ParseError<char>>)
    requires WellFormed(items)
    ensures r.Ok? ==> WellFormed(r.value.1) && |r.value.1| <= |items|
    decreases |items|, 4
  {
    match ParseT(items)
    case Fail(err) => Fail(err)
    case Ok((exp, rest)) => ParseEE(rest, exp)
  }

  /** `EE(left)`: while the current token is '+' or '-', eats it, parses a
      term and makes it the right child of a new node over `left`. */
  function ParseEE(items: seq<Item<char>>, left: Tree): (r: Result<(Tree, seq<Item<char>>), ParseError<char>>)
    requires WellFormed(items)
    ensures r.Ok? ==> WellFormed(r.value.1) && |r.value.1| <= |items|
    decreases |items|, 3
  {
    match items[0]
    case Bad(c) => Fail(LexError(c))
    case Tok(t) =>
      if t.kind == ADD || t.kind == SUB then
        match ParseT(items[1..])
        case Fail(err) => Fail(err)
        case Ok((right, rest)) => ParseEE(rest, Node(OpOf(t.kind), left, right))
      else
        Ok((left, items))
  }

  /** `T()`: a factor, then its continuation `TT`. */
  function ParseT(items: seq<Item<char>>): (r: Result<(Tree, seq<Item<char>>), ParseError<char>>)
    requires WellFormed(items)
    ensures r.Ok? ==> WellFormed(r.value.1) && |r.value.1| <= |items|
    decreases |items|, 2
  {
    match ParseF(items)
    case Fail(err) => Fail(err)
    case Ok((exp, rest)) => ParseTT(rest, exp)
  }

  /** `TT(left)`: the same as `EE` for '*' and '/', over factors. */
  function ParseTT(items: seq<Item<char>>, left: Tree): (r: Result<(Tree, seq<Item<char>>), ParseError<char>>)
    requires WellFormed(items)
    ensures r.Ok? ==> WellFormed(r.value.1) && |r.value.1| <= |items|
    decreases |items|, 1
  {
    match items[0]
    case Bad(c) => Fail(LexError(c))
    case Tok(t) =>
      if t.kind == MUL || t.kind == DIV then
        match ParseF(items[1..])
        case Fail(err) => Fail(err)
        case Ok((right, rest)) => ParseTT(rest, Node(OpOf(t.kind), left, right))
      else
        Ok((left, items))
  }

  /** `F()`: a number, or an expression between parentheses; for any other
      token, `None`, with nothing consumed. */
  function ParseF(items: seq<Item<char>>): (r: Result<(Tree, seq<Item<char>>), ParseError<char>>)
    requires WellFormed(items)
    ensures r.Ok? ==> WellFormed(r.value.1) && |r.value.1| <= |items|
    decreases |items|, 0
  {
    match items[0]
    case Bad(c) => Fail(LexError(c))
    case Tok(t) =>
      if t.kind == NUM then
        Ok((Leaf(DecimalValue(t.text)), items[1..]))
      else if t.kind == LPR then
        match ParseE(items[1..])
        case Fail(err) => Fail(err)
        case Ok((node, rest)) =>
          match Eat(rest, RPR)
          case Fail(err) => Fail(err)
          case Ok(rest') => Ok((node, rest'))
      else
        Ok((Hole, items))
  }

  /** `EE` and `TT` leave their argument and the stream alone when no
      operator of their level comes next. */
  lemma {:induction false} ContinuationsStop(items: seq<Item<char>>, left: Tree)
    requires WellFormed(items) && items[0].Tok?
    ensures !(items[0].token.kind in {ADD, SUB}) ==> ParseEE(items, left) == Ok((left, items))
    ensures !(items[0].token.kind in {MUL, DIV}) ==> ParseTT(items, left) == Ok((left, items))
  {
  }

  /** `F` on a token that starts no factor returns `None` and consumes
      nothing; `E` then returns it unchanged when no operator follows. */
  lemma {:induction false} MissingFactor(items: seq<Item<char>>)
    requires WellFormed(items) && items[0].Tok? && items[0].token.kind in {EOF, RPR}
    ensures ParseE(items) == Ok((Hole, items))
  {
    assert ParseF(items) == Ok((Hole, items));
    ContinuationsStop(items, Hole);
  }

  /** An expression between parentheses is a factor. */
  lemma {:induction false} GroupFactor(x: Tree, inner: seq<Item<char>>, after: seq<Item<char>>)
    requires WellFormed(inner) && WellFormed([Tok(LeftParen)] + inner)
    requires ParseE(inner) == Ok((x, [Tok(RightParen)] + after))
    ensures ParseF([Tok(LeftParen)] + inner) == Ok((x, after))
  {
    assert ([Tok(LeftParen)] + inner)[1..] == inner;
    assert ([Tok(RightParen)] + after)[1..] == after;
  }

  /** A factor followed by '*' or '/' and a second factor, then ')' or EOF,
      is a product node. */
  lemma {:induction false} ProductOfFactors(op: BinOp, xl: Tree, xr: Tree, items: seq<Item<char>>, gr: seq<Item<char>>, rest: seq<Item<char>>)
    requires op == Mul || op == Div
    requires WellFormed(items) && WellFormed(gr) && WellFormed(rest) && Closes(rest)
    requires WellFormed([Tok(OpToken(op))] + gr)
    requires ParseF(items) == Ok((xl, [Tok(OpToken(op))] + gr)) && ParseF(gr) == Ok((xr, rest))
    ensures ParseE(items) == Ok((Node(op, xl, xr), rest))
  {
    var after := [Tok(OpToken(op))] + gr;
    assert after[1..] == gr;
    ContinuationsStop(rest, Node(op, xl, xr));
    assert ParseTT(after, xl) == Ok((Node(op, xl, xr), rest));
  }

  /** A factor followed by '+' or '-' and a second factor, then ')' or EOF,
      is a sum node. */
  lemma {:induction false} SumOfFactors(op: BinOp, xl: Tree, xr: Tree, items: seq<Item<char>>, gr: seq<Item<char>>, rest: seq<Item<char>>)
    requires op == Add || op == Sub
    requires WellFormed(items) && WellFormed(gr) && WellFormed(rest) && Closes(rest)
    requires WellFormed([Tok(OpToken(op))] + gr)
    requires ParseF(items) == Ok((xl, [Tok(OpToken(op))] + gr)) && ParseF(gr) == Ok((xr, rest))
    ensures ParseE(items) == Ok((Node(op, xl, xr), rest))
  {
    var after := [Tok(OpToken(op))] + gr;
    assert after[1..] == gr;
    ContinuationsStop(after, xl);
    ContinuationsStop(rest, xr);
    ContinuationsStop(rest, Node(op, xl, xr));
    assert ParseT(items) == Ok((xl, after));
    assert ParseT(gr) == Ok((xr, rest));
  }

  /** One node of `print_infix`'s output: "(" left ") op (" right ")" parses
      as the node, whichever the operator's level. */
  lemma {:induction false} ParseInfixNode(op: BinOp, xl: Tree, xr: Tree, il: seq<Item<char>>, m: seq<Item<char>>, rest: seq<Item<char>>)
    requires WellFormed(rest) && Closes(rest) && WellFormed(m) && WellFormed(il)
    requires ParseE(m) == Ok((xr, [Tok(RightParen)] + rest))
    requires ParseE(il) == Ok((xl, [Tok(RightParen), Tok(OpToken(op)), Tok(LeftParen)] + m))
    ensures WellFormed([Tok(LeftParen)] + il) && ParseE([Tok(LeftParen)] + il) == Ok((Node(op, xl, xr), rest))
  {
    var gr := [Tok(LeftParen)] + m;
    var after := [Tok(OpToken(op))] + gr;
    StreamCons(LeftParen, m);
    StreamCons(OpToken(op), gr);
    StreamCons(LeftParen, il);
    MiddleRegrouped(op, m);
    GroupFactor(xr, m, rest);
    GroupFactor(xl, il, after);
    if op == Mul || op == Div {
      ProductOfFactors(op, xl, xr, [Tok(LeftParen)] + il, gr, rest);
    } else {
      SumOfFactors(op, xl, xr, [Tok(LeftParen)] + il, gr, rest);
    }
  }

  /** A number followed by ')' or EOF parses as a leaf. */
  lemma {:induction false} ParseNumber(n: nat, rest: seq<Item<char>>)
    requires WellFormed(rest) && Closes(rest)
    ensures WellFormed([Tok(NumToken(n))] + rest) && ParseE([Tok(NumToken(n))] + rest) == Ok((Leaf(n), rest))
  {
    var items := [Tok(NumToken(n))] + rest;
    StreamCons(NumToken(n), rest);
    assert items[1..] == rest;
    assert ParseF(items) == Ok((Leaf(n), rest));
    ContinuationsStop(rest, Leaf(n));
  }

  /** The induction step of `ParseInfixItems`, from its two hypotheses. */
  lemma {:induction false} ParseInfixStep(op: BinOp, l: Exp, r: Exp, rest: seq<Item<char>>)
    requires NonNegative(l) && NonNegative(r) && WellFormed(rest) && Closes(rest)
    requires var m := InfixItems(r, [Tok(RightParen)] + rest);
             WellFormed(m) && ParseE(m) == Ok((Embed(r), [Tok(RightParen)] + rest))
    requires var mid := [Tok(RightParen), Tok(OpToken(op)), Tok(LeftParen)] + InfixItems(r, [Tok(RightParen)] + rest);
             WellFormed(InfixItems(l, mid)) && ParseE(InfixItems(l, mid)) == Ok((Embed(l), mid))
    ensures WellFormed(InfixItems(Bin(op, l, r), rest)) &&
            ParseE(InfixItems(Bin(op, l, r), rest)) == Ok((Embed(Bin(op, l, r)), rest))
  {
    var m := InfixItems(r, [Tok(RightParen)] + rest);
    var mid := [Tok(RightParen), Tok(OpToken(op)), Tok(LeftParen)] + m;
    ParseInfixNode(op, Embed(l), Embed(r), InfixItems(l, mid), m, rest);
  }

  /** Parser3 reads back what `print_infix` writes: the items of a
      non-negative tree, followed by ')' or EOF, parse as that tree, and
      exactly its items are consumed. */
  lemma {:induction false} ParseInfixItems(e: Exp, rest: seq<Item<char>>)
    requires NonNegative(e) && WellFormed(rest) && Closes(rest)
    ensures WellFormed(InfixItems(e, rest)) && ParseE(InfixItems(e, rest)) == Ok((Embed(e), rest))
  {
    match e
    case Num(n) =>
      ParseNumber(n, rest);
    case Bin(op, l, r) =>
      var rp := [Tok(RightParen)] + rest;
      StreamCons(RightParen, rest);
      ParseInfixItems(r, rp);
      var mid := [Tok(RightParen), Tok(OpToken(op)), Tok(LeftParen)] + InfixItems(r, rp);
      MiddleWellFormed(op, InfixItems(r, rp));
      ParseInfixItems(l, mid);
      ParseInfixStep(op, l, r, rest);
  }

  /** Parsing what `print_infix` prints gives back the tree, up to EOF. */
  lemma {:induction false} PrintInfixRoundTrip(e: Exp)
    requires NonNegative(e)
    ensures ParseE(Items(PrintInfix(e), 0)) == Ok((Embed(e), [Tok(EofToken)]))
  {
    ItemsOfPrintInfix(e);
    ParseInfixItems(e, [Tok(EofToken)]);
  }

  /** One `*` or `/` link in front of a term's continuation. */
  lemma {:induction false} ProductStep(op: BinOp, n: nat, acc: Tree, tail: seq<Item<char>>)
    requires op == Mul || op == Div
    requires WellFormed(tail)
    ensures WellFormed([Tok(OpToken(op)), Tok(NumToken(n))] + tail)
    ensures ParseTT([Tok(OpToken(op)), Tok(NumToken(n))] + tail, acc) == ParseTT(tail, Node(op, acc, Leaf(n)))
  {
    var items := [Tok(OpToken(op)), Tok(NumToken(n))] + tail;
    StreamCons(NumToken(n), tail);
    assert items == [Tok(OpToken(op))] + ([Tok(NumToken(n))] + tail);
    StreamCons(OpToken(op), [Tok(NumToken(n))] + tail);
    assert items[1..] == [Tok(NumToken(n))] + tail;
    assert ([Tok(NumToken(n))] + tail)[1..] == tail;
    assert ParseF([Tok(NumToken(n))] + tail) == Ok((Leaf(n), tail));
  }

  /** One `+` or `-` link in front of an expression's continuation: the
      term after it is parsed by `T`, that is `F` and then `TT`. */
  lemma {:induction false} SumStep(op: BinOp, n: nat, acc: Tree, tail: seq<Item<char>>)
    requires op == Add || op == Sub
    requires WellFormed(tail)
    ensures WellFormed([Tok(OpToken(op)), Tok(NumToken(n))] + tail)
    ensures ParseEE([Tok(OpToken(op)), Tok(NumToken(n))] + tail, acc) ==
            match ParseTT(tail, Leaf(n))
            case Fail(err) => Fail(err)
            case Ok((term, after)) => ParseEE(after, Node(op, acc, term))
  {
    var items := [Tok(OpToken(op)), Tok(NumToken(n))] + tail;
    StreamCons(NumToken(n), tail);
    assert items == [Tok(OpToken(op))] + ([Tok(NumToken(n))] + tail);
    StreamCons(OpToken(op), [Tok(NumToken(n))] + tail);
    assert items[1..] == [Tok(NumToken(n))] + tail;
    assert ([Tok(NumToken(n))] + tail)[1..] == tail;
    assert ParseF([Tok(NumToken(n))] + tail) == Ok((Leaf(n), tail));
  }

  /** `TT` over a chain's tail folds the leading `*` and `/` links into its
      accumulator, to the left, and stops at the first `+` or `-`. */
  lemma {:induction false} TermChain(acc: Exp, links: seq<Link>, rest: seq<Item<char>>)
    requires WellFormed(rest) && Closes(rest)
    ensures var k := MulRun(links);
            WellFormed(ChainTail(links, rest)) &&
            ParseTT(ChainTail(links, rest), Embed(acc)) == Ok((Embed(LeftFold(acc, links[..k])), ChainTail(links[k..], rest)))
    decreases |links|
  {
    var k := MulRun(links);
    ChainTailHead(links, rest);
    if links == [] || k == 0 {
      assert links[..k] == [] && links[k..] == links;
      ContinuationsStop(ChainTail(links, rest), Embed(acc));
    } else {
      TermChain(Bin(links[0].op, acc, Num(links[0].n)), links[1..], rest);
      TermChainStep(acc, links, rest);
    }
  }

  /** The induction step of `TermChain`: one product link folded into the
      accumulator. */
  lemma {:induction false} TermChainStep(acc: Exp, links: seq<Link>, rest: seq<Item<char>>)
    requires WellFormed(rest) && MulRun(links) > 0
    requires var k, next := MulRun(links[1..]), Bin(links[0].op, acc, Num(links[0].n));
             WellFormed(ChainTail(links[1..], rest)) &&
             ParseTT(ChainTail(links[1..], rest), Embed(next)) == Ok((Embed(LeftFold(next, links[1..][..k])), ChainTail(links[1..][k..], rest)))
    ensures var k := MulRun(links);
            WellFormed(ChainTail(links, rest)) &&
            ParseTT(ChainTail(links, rest), Embed(acc)) == Ok((Embed(LeftFold(acc, links[..k])), ChainTail(links[k..], rest)))
  {
    var op, n := links[0].op, links[0].n;
    var tail := ChainTail(links[1..], rest);
    LinkCons(acc, links, rest);
    ProductStep(op, n, Embed(acc), tail);
  }

  /** A chain whose first link is a product: that link, then the rest of
      the run, folded from the accumulator. */
  lemma {:induction false} LinkCons(acc: Exp, links: seq<Link>, rest: seq<Item<char>>)
    requires MulRun(links) > 0
    ensures var k, op, n := MulRun(links), links[0].op, links[0].n;
            (op == Mul || op == Div) && MulRun(links[1..]) == k - 1 &&
            ChainTail(links, rest) == [Tok(OpToken(op)), Tok(NumToken(n))] + ChainTail(links[1..], rest) &&
            Embed(Bin(op, acc, Num(n))) == Node(op, Embed(acc), Leaf(n)) &&
            LeftFold(acc, links[..k]) == LeftFold(Bin(op, acc, Num(n)), links[1..][..k - 1]) &&
            links[k..] == links[1..][k - 1..]
  {
    var k := MulRun(links);
    assert links[..k][1..] == links[1..][..k - 1];
  }

  /** `EE` over a chain's tail that starts with `+` or `-` adds, to the left,
      one term after another, each term folded by `TermChain`. */
  lemma {:induction false} SumChain(acc: Exp, links: seq<Link>, rest: seq<Item<char>>)
    requires WellFormed(rest) && Closes(rest)
    requires links != [] ==> links[0].op == Add || links[0].op == Sub
    ensures WellFormed(ChainTail(links, rest)) &&
            ParseEE(ChainTail(links, rest), Embed(acc)) == Ok((Embed(SumFrom(acc, links)), rest))
    decreases |links|
  {
    ChainTailHead(links, rest);
    if links == [] {
      ContinuationsStop(rest, Embed(acc));
    } else {
      var op, n := links[0].op, links[0].n;
      var k := MulRun(links[1..]);
      var term := LeftFold(Num(n), links[1..][..k]);
      TermChain(Num(n), links[1..], rest);
      SumStep(op, n, Embed(acc), ChainTail(links[1..], rest));
      assert links[1..][k..] == links[1 + k..];
      SumChain(Bin(op, acc, term), links[1 + k..], rest);
    }
  }

  /** Parser3 reads a chain without parentheses the way arithmetic is
      written: `*` and `/` before `+` and `-`, each level grouped to the
      left. */
  lemma {:induction false} ParseChain(first: nat, links: seq<Link>, rest: seq<Item<char>>)
    requires WellFormed(rest) && Closes(rest)
    ensures WellFormed(ChainItems(first, links, rest)) &&
            ParseE(ChainItems(first, links, rest)) == Ok((Embed(LeftChain(first, links)), rest))
  {
    var k := MulRun(links);
    var items := ChainItems(first, links, rest);
    var tail := ChainTail(links, rest);
    ChainItemsWellFormed(first, links, rest);
    ChainTailHead(links, rest);
    assert items[1..] == tail;
    assert ParseF(items) == Ok((Leaf(first), tail));
    TermChain(Num(first), links, rest);
    SumChain(LeftFold(Num(first), links[..k]), links[k..], rest);
  }

  /** Chains of one level group to the left: "2 - 3 - 4" is (2 - 3) - 4. */
  lemma {:induction false} LeftAssociative(first: nat, links: seq<Link>)
    requires Additive(links) || Multiplicative(links)
    ensures ParseE(Items(ChainText(first, links), 0)) == Ok((Embed(LeftFold(Num(first), links)), [Tok(EofToken)]))
  {
    ItemsOfChain(first, links);
    ParseChain(first, links, [Tok(EofToken)]);
    LeftChainUniform(first, links);
  }

  /** What Parser3 makes of one operand of a binary operator. */
  function OperandTree(a: Operand): Exp
  {
    match a
    case Number(n) => Num(n)
    case Group(first, links) => LeftChain(first, links)
  }

  /** An operand is a factor: a number, or a chain between parentheses. */
  lemma {:induction false} OperandFactor(a: Operand, after: seq<Item<char>>)
    requires WellFormed(after)
    ensures WellFormed(OperandItems(a, after)) && ParseF(OperandItems(a, after)) == Ok((Embed(OperandTree(a)), after))
  {
    OperandItemsWellFormed(a, after);
    var items := OperandItems(a, after);
    match a
    case Number(n) =>
      assert items[1..] == after;
    case Group(first, links) =>
      StreamCons(RightParen, after);
      ParseChain(first, links, [Tok(RightParen)] + after);
      GroupFactor(Embed(LeftChain(first, links)), ChainItems(first, links, [Tok(RightParen)] + after), after);
  }

  /** Two operands around one operator make one node, whatever the
      operator's level. */
  lemma {:induction false} ParseBinary(a: Operand, op: BinOp, b: Operand, rest: seq<Item<char>>)
    requires WellFormed(rest) && Closes(rest)
    ensures WellFormed(BinaryItems(a, op, b, rest)) &&
            ParseE(BinaryItems(a, op, b, rest)) == Ok((Embed(Bin(op, OperandTree(a), OperandTree(b))), rest))
  {
    var gr := OperandItems(b, rest);
    OperandFactor(b, rest);
    StreamCons(OpToken(op), gr);
    OperandFactor(a, [Tok(OpToken(op))] + gr);
    NodeOfFactors(op, Embed(OperandTree(a)), Embed(OperandTree(b)), BinaryItems(a, op, b, rest), gr, rest);
  }

  /** Two factors around any operator make one node. */
  lemma {:induction false} NodeOfFactors(op: BinOp, xl: Tree, xr: Tree, items: seq<Item<char>>, gr: seq<Item<char>>, rest: seq<Item<char>>)
    requires WellFormed(items) && WellFormed(gr) && WellFormed(rest) && Closes(rest)
    requires WellFormed([Tok(OpToken(op))] + gr)
    requires ParseF(items) == Ok((xl, [Tok(OpToken(op))] + gr)) && ParseF(gr) == Ok((xr, rest))
    ensures ParseE(items) == Ok((Node(op, xl, xr), rest))
  {
    if op == Mul || op == Div {
      ProductOfFactors(op, xl, xr, items, gr, rest);
    } else {
      SumOfFactors(op, xl, xr, items, gr, rest);
    }
  }

  /** `Parser(Lexer(text)).E()` returns the tree of `e` and stops at EOF. */
  predicate ParsesTo(text: string, e: Exp)
  {
    ParseE(Items(text, 0)) == Ok((Embed(e), [Tok(EofToken)]))
  }

  lemma {:induction false} ParseChainText(first: nat, links: seq<Link>)
    ensures ParsesTo(ChainText(first, links), LeftChain(first, links))
  {
    ItemsOfChain(first, links);
    ParseChain(first, links, [Tok(EofToken)]);
  }

  lemma {:induction false} ParseBinaryText(a: Operand, op: BinOp, b: Operand)
    ensures ParsesTo(BinaryText(a, op, b), Bin(op, OperandTree(a), OperandTree(b)))
  {
    ItemsOfBinary(a, op, b);
    EofCloses();
    ParseBinary(a, op, b, [Tok(EofToken)]);
  }

  /** The doctests: "2 + 3 + 4" gives 9, "2 * 3 * 4" 24, "(2 + 3) * 4" and
      "4 * (2 + 3)" 20, "2 * 3 + 4" 10, and "2 - 3 - 4" -5. */
  lemma {:induction false} DoctestSum()
    ensures ParsesTo("2 + 3 + 4", Bin(Add, Bin(Add, Num(2), Num(3)), Num(4)))
    ensures Eval(Bin(Add, Bin(Add, Num(2), Num(3)), Num(4))) == Ok(9)
  {
    TextSum();
    LeftAssociative(2, [Link(Add, 3), Link(Add, 4)]);
  }

  lemma {:induction false} DoctestProduct()
    ensures ParsesTo("2 * 3 * 4", Bin(Mul, Bin(Mul, Num(2), Num(3)), Num(4)))
    ensures Eval(Bin(Mul, Bin(Mul, Num(2), Num(3)), Num(4))) == Ok(24)
  {
    TextProduct();
    LeftAssociative(2, [Link(Mul, 3), Link(Mul, 4)]);
  }

  lemma {:induction false} DoctestGroupTimes()
    ensures ParsesTo("(2 + 3) * 4", Bin(Mul, Bin(Add, Num(2), Num(3)), Num(4)))
    ensures Eval(Bin(Mul, Bin(Add, Num(2), Num(3)), Num(4))) == Ok(20)
  {
    var g := Group(2, [Link(Add, 3)]);
    assert OperandTree(g) == Bin(Add, Num(2), Num(3)) by {
      LeftChainUniform(2, [Link(Add, 3)]);
    }
    assert ParsesTo(BinaryText(g, Mul, Number(4)), Bin(Mul, Bin(Add, Num(2), Num(3)), Num(4))) by {
      ParseBinaryText(g, Mul, Number(4));
    }
    TextGroupTimes();
  }

  lemma {:induction false} DoctestTimesGroup()
    ensures ParsesTo("4 * (2 + 3)", Bin(Mul, Num(4), Bin(Add, Num(2), Num(3))))
    ensures Eval(Bin(Mul, Num(4), Bin(Add, Num(2), Num(3)))) == Ok(20)
  {
    var g := Group(2, [Link(Add, 3)]);
    assert OperandTree(g) == Bin(Add, Num(2), Num(3)) by {
      LeftChainUniform(2, [Link(Add, 3)]);
    }
    assert ParsesTo(BinaryText(Number(4), Mul, g), Bin(Mul, Num(4), Bin(Add, Num(2), Num(3)))) by {
      ParseBinaryText(Number(4), Mul, g);
    }
    TextTimesGroup();
  }

  /** "2 * 3 + 4": the product is taken first. */
  lemma {:induction false} DoctestPrecedence()
    ensures ParsesTo("2 * 3 + 4", Bin(Add, Bin(Mul, Num(2), Num(3)), Num(4)))
    ensures Eval(Bin(Add, Bin(Mul, Num(2), Num(3)), Num(4))) == Ok(10)
  {
    var links := [Link(Mul, 3), Link(Add, 4)];
    TextMixed();
    ParseChainText(2, links);
    assert MulRun(links) == 1 by {
      assert links[1..] == [Link(Add, 4)];
    }
    assert links[..1] == [Link(Mul, 3)] && links[1..] == [Link(Add, 4)];
    assert MulRun(links[1..][1..]) == 0;
    assert links[1..][1..][..0] == [] && links[1..][1 + 0..] == [];
  }

  /** "2 - 3 - 4" is (2 - 3) - 4, which is -5, as the doctest expects. */
  lemma {:induction false} DoctestDifference()
    ensures ParsesTo("2 - 3 - 4", Bin(Sub, Bin(Sub, Num(2), Num(3)), Num(4)))
    ensures Eval(Bin(Sub, Bin(Sub, Num(2), Num(3)), Num(4))) == Ok(-5)
  {
    TextDifference();
    LeftAssociative(2, [Link(Sub, 3), Link(Sub, 4)]);
  }

  /** The parser object: the lexer it reads from and its current token. A
      lexical error raised while reading a token is kept as the current item
      and surfaces when the parser next looks at its current token; every
      `eat` is followed by such a look before `E()` returns, so a parse ends
      with the same error as when it is raised inside `eat`. */
  class Parser {
    const lexer: Lexer
    var current: Item<char>

    ghost predicate Valid()
      reads this, lexer
    {
      lexer.Valid() &&
      (current.Tok? ==> Lexeme(current.token)) &&
      (current.Tok? && current.token.kind == EOF ==> current.token == EofToken && lexer.position == |lexer.input|)
    }

    /** The items the parser has yet to read: the current one and then what
        the lexer's `next_valid_token` returns from its position on. */
    ghost function Rest(): (r: seq<Item<char>>)
      reads this, lexer
      requires Valid()
      ensures WellFormed(r) && r[0] == current
    {
      if Final(current) then [current]
      else
        StreamCons(current.token, Items(lexer.input, lexer.position));
        [current] + Items(lexer.input, lexer.position)
    }

    /** `__init__`: keeps the lexer and reads the first token. */
    constructor (lexer: Lexer)
      requires lexer.Valid()
      modifies lexer
      ensures Valid() && this.lexer == lexer
      ensures Rest() == Items(lexer.input, old(lexer.position))
    {
      this.lexer := lexer;
      var r := lexer.NextValidToken();
      current := ToItem(r);
    }

    /** `eat(kind)`. */
    method Eat(k: Kind) returns (r: Result<(), ParseError<char>>)
      requires Valid()
      modifies this, lexer
      ensures Valid()
      ensures match InfixTrees.Eat(old(Rest()), k)
              case Fail(err) => r == Fail(err)
              case Ok(rest) => r == Ok(()) && Rest() == rest
    {
      if current.Bad? {
        return Fail(LexError(current.error));
      }
      if current.token.kind != k {
        return Fail(UnexpectedToken(current.token.kind));
      }
      var n := lexer.NextValidToken();
      current := ToItem(n);
      return Ok(());
    }

    /** `E()`: a term, then its continuation. */
    method E() returns (r: Result<Tree, ParseError<char>>)
      requires Valid()
      modifies this, lexer
      ensures Valid() && Outcome(ParseE(old(Rest())), r, Rest())
      decreases |Rest()|, 4
    {
      var exp := T();
      if exp.Fail? {
        return exp;
      }
      r := EE(exp.value);
    }

    /** `EE(left)`. */
    method EE(left: Tree) returns (r: Result<Tree, ParseError<char>>)
      requires Valid()
      modifies this, lexer
      ensures Valid() && Outcome(ParseEE(old(Rest()), left), r, Rest())
      decreases |Rest()|, 3
    {
      var token := current;
      if token.Bad? {
        return Fail(LexError(token.error));
      }
      if token.token.kind == ADD || token.token.kind == SUB {
        var op := OpOf(token.token.kind);
        var _ := Eat(token.token.kind);
        var right := T();
        if right.Fail? {
          return right;
        }
        r := EE(Node(op, left, right.value));
      } else {
        r := Ok(left);
      }
    }

    /** `T()`: a factor, then its continuation. */
    method T() returns (r: Result<Tree, ParseError<char>>)
      requires Valid()
      modifies this, lexer
      ensures Valid() && Outcome(ParseT(old(Rest())), r, Rest())
      decreases |Rest()|, 2
    {
      var exp := F();
      if exp.Fail? {
        return exp;
      }
      r := TT(exp.value);
    }

    /** `TT(left)`. */
    method TT(left: Tree) returns (r: Result<Tree, ParseError<char>>)
      requires Valid()
      modifies this, lexer
      ensures Valid() && Outcome(ParseTT(old(Rest()), left), r, Rest())
      decreases |Rest()|, 1
    {
      var token := current;
      if token.Bad? {
        return Fail(LexError(token.error));
      }
      if token.token.kind == MUL || token.token.kind == DIV {
        var op := OpOf(token.token.kind);
        var _ := Eat(token.token.kind);
        var right := F();
        if right.Fail? {
          return right;
        }
        r := TT(Node(op, left, right.value));
      } else {
        r := Ok(left);
      }
    }

    /** `F()`. */
    method F() returns (r: Result<Tree, ParseError<char>>)
      requires Valid()
      modifies this, lexer
      ensures Valid() && Outcome(ParseF(old(Rest())), r, Rest())
      decreases |Rest()|, 0
    {
      var token := current;
      if token.Bad? {
        return Fail(LexError(token.error));
      }
      if token.token.kind == NUM {
        var _ := Eat(NUM);
        return Ok(Leaf(DecimalValue(token.token.text)));
      } else if token.token.kind == LPR {
        var _ := Eat(LPR);
        var node := E();
        if node.Fail? {
          return node;
        }
        var closed := Eat(RPR);
        if closed.Fail? {
          return Fail(closed.error);
        }
        return node;
      }
      return Ok(Hole);
    }
  }
}
