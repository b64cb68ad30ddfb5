/** What the three infix parsers of 3_ParsingArithExp (Parser1.py, Parser2.py
    and Parser3.py) share: the trees they build, which may hold Python's
    `None` where a factor was missing, `eat`, and the token streams of the
    texts they are given. */
module InfixTrees {
  import opened Wrappers
  import opened Tokens
  import opened Streams
  import opened Lexer
  import opened Exp
  import opened Prefix

  /** A parser's result: `F` (or `E` in Parser1) returns `None` without
      raising when the current token starts no factor, and the binary node
      built around it keeps that `None` as a child. */
  datatype Tree = Hole | Leaf(n: int) | Node(op: BinOp, left: Tree, right: Tree)

  /** An expression tree as a parse tree. */
  function Embed(e: Exp): (t: Tree)
    ensures t != Hole
  {
    match e
    case Num(n) => Leaf(n)
    case Bin(op, l, r) => Node(op, Embed(l), Embed(r))
  }

  /** The expression a parse tree stands for, when it holds no `None`
      (`eval` on a `None` child raises). */
  function Complete(t: Tree): (r: Option<Exp>)
    ensures t == Hole ==> r == None
  {
    match t
    case Hole => None
    case Leaf(n) => Some(Num(n))
    case Node(op, l, r) =>
      match (Complete(l), Complete(r))
      case (Some(a), Some(b)) => Some(Bin(op, a, b))
      case _ => None
  }

  /** `Complete` undoes `Embed`. */
  lemma {:induction false} CompleteEmbed(e: Exp)
    ensures Complete(Embed(e)) == Some(e)
  {
    match e
    case Num(_) =>
    case Bin(_, l, r) =>
      CompleteEmbed(l);
      CompleteEmbed(r);
  }

  /** A tree without `None` is the embedding of the expression it stands for. */
  lemma {:induction false} EmbedComplete(t: Tree)
    requires Complete(t).Some?
    ensures Embed(Complete(t).value) == t
  {
    match t
    case Leaf(_) =>
    case Node(_, l, r) =>
      EmbedComplete(l);
      EmbedComplete(r);
  }

  /** `eat(kind)`: the current token must have that kind, and then the
      parser reads the next one; the EOF token is followed by EOF again. A
      token of another kind raises ValueError "Unexpected token". */
  function Eat(items: seq<Item<char>>, k: Kind): (r: Result<seq<Item<char>>, ParseError<char>>)
    requires WellFormed(items)
    ensures r.Ok? <==> items[0].Tok? && items[0].token.kind == k
    ensures r.Ok? ==> WellFormed(r.value) && r.value == (if k == EOF then items else items[1..])
    ensures items[0].Bad? ==> r == Fail(LexError(items[0].error))
    ensures items[0].Tok? && items[0].token.kind != k ==> r == Fail(UnexpectedToken(items[0].token.kind))
  {
    match items[0]
    case Bad(c) => Fail(LexError(c))
    case Tok(t) =>
      if t.kind != k then Fail(UnexpectedToken(t.kind))
      else if k == EOF then Ok(items)
      else Ok(items[1..])
  }

  /** What a parsing function returns, given what its specification says
      about the stream it started from. */
  predicate Outcome(p: Result<(Tree, seq<Item<char>>), ParseError<char>>, r: Result<Tree, ParseError<char>>, rest: seq<Item<char>>)
  {
    match p
    case Fail(err) => r == Fail(err)
    case Ok((t, left)) => r == Ok(t) && rest == left
  }

  function OpToken(op: BinOp): (t: Token)
    ensures IsOperator(t.kind) && OpOf(t.kind) == op
  {
    Token(Symbol(op), KindOf(op))
  }

  function NumToken(n: nat): (t: Token)
    ensures t.kind == NUM && Lexeme(t)
  {
    Token(DecimalText(n), NUM)
  }

  /** A stream whose next item ends any operand: ')' or EOF. */
  predicate Closes(items: seq<Item<char>>)
  {
    |items| > 0 && items[0].Tok? && (items[0].token.kind == RPR || items[0].token.kind == EOF)
  }

  /** The stream left once the lexer has reached the end of its input. */
  lemma {:induction false} EofCloses()
    ensures WellFormed<char>([Tok(EofToken)]) && Closes([Tok(EofToken)])
  {
    var eof: seq<Item<char>> := [Tok(EofToken)];
    assert eof[0] == Tok(EofToken);
  }

  /** The items the lexer gives for `print_infix(e)`, in front of `rest`. */
  function InfixItems(e: Exp, rest: seq<Item<char>>): (r: seq<Item<char>>)
    requires NonNegative(e)
    ensures |r| > |rest|
  {
    match e
    case Num(n) => [Tok(NumToken(n))] + rest
    case Bin(op, l, r) =>
      [Tok(LeftParen)] + InfixItems(l, [Tok(RightParen), Tok(OpToken(op)), Tok(LeftParen)] + InfixItems(r, [Tok(RightParen)] + rest))
  }

  /** The items between a node's operands, one at a time. */
  lemma {:induction false} MiddleRegrouped(op: BinOp, m: seq<Item<char>>)
    ensures [Tok(RightParen)] + ([Tok(OpToken(op))] + ([Tok(LeftParen)] + m)) == [Tok(RightParen), Tok(OpToken(op)), Tok(LeftParen)] + m
  {
  }

  /** The items between a node's operands keep the stream well formed. */
  lemma {:induction false} MiddleWellFormed(op: BinOp, m: seq<Item<char>>)
    requires WellFormed(m)
    ensures WellFormed([Tok(RightParen), Tok(OpToken(op)), Tok(LeftParen)] + m)
  {
    StreamCons(LeftParen, m);
    StreamCons(OpToken(op), [Tok(LeftParen)] + m);
    StreamCons(RightParen, [Tok(OpToken(op))] + ([Tok(LeftParen)] + m));
    MiddleRegrouped(op, m);
  }

  lemma {:induction false} InfixItemsWellFormed(e: Exp, rest: seq<Item<char>>)
    requires NonNegative(e) && WellFormed(rest)
    ensures WellFormed(InfixItems(e, rest))
  {
    match e
    case Num(n) =>
      StreamCons(NumToken(n), rest);
    case Bin(op, l, r) =>
      StreamCons(RightParen, rest);
      InfixItemsWellFormed(r, [Tok(RightParen)] + rest);
      var mid := InfixItems(r, [Tok(RightParen)] + rest);
      MiddleWellFormed(op, mid);
      InfixItemsWellFormed(l, [Tok(RightParen), Tok(OpToken(op)), Tok(LeftParen)] + mid);
      StreamCons(LeftParen, InfixItems(l, [Tok(RightParen), Tok(OpToken(op)), Tok(LeftParen)] + mid));
  }

  /** The tokens of `print_infix(e)`. */
  function InfixTokens(e: Exp): (ts: seq<Token>)
    requires NonNegative(e)
  {
    match e
    case Num(n) => [NumToken(n)]
    case Bin(op, l, r) =>
      [LeftParen] + (InfixTokens(l) + ([RightParen, OpToken(op), LeftParen] + (InfixTokens(r) + [RightParen])))
  }

  lemma {:induction false} InfixItemsOfTokens(e: Exp, rest: seq<Item<char>>)
    requires NonNegative(e)
    ensures ToItems(InfixTokens(e)) + rest == InfixItems(e, rest)
  {
    match e
    case Num(n) =>
    case Bin(op, l, r) =>
      var tl, tr := InfixTokens(l), InfixTokens(r);
      var mid := [RightParen, OpToken(op), LeftParen];
      var z := tr + [RightParen];
      var y := mid + z;
      var x := tl + y;
      assert ToItems<char>(z) + rest == InfixItems(r, [Tok(RightParen)] + rest) by {
        ToItemsAppend<char>(tr, [RightParen], rest);
        assert ToItems<char>([RightParen]) == [Tok(RightParen)];
        InfixItemsOfTokens(r, [Tok(RightParen)] + rest);
      }
      assert ToItems<char>(y) + rest == [Tok(RightParen), Tok(OpToken(op)), Tok(LeftParen)] + InfixItems(r, [Tok(RightParen)] + rest) by {
        ToItemsAppend<char>(mid, z, rest);
        assert ToItems<char>(mid) == [Tok(RightParen), Tok(OpToken(op)), Tok(LeftParen)];
      }
      assert ToItems<char>(x) + rest == InfixItems(l, ToItems<char>(y) + rest) by {
        ToItemsAppend<char>(tl, y, rest);
        InfixItemsOfTokens(l, ToItems<char>(y) + rest);
      }
      ToItemsCons<char>(LeftParen, x, rest);
  }

  /** A text that lexes without error, between parentheses. */
  lemma {:induction false} LexGroup(x: string, tx: seq<Token>)
    requires Yielded(x, 0) == (tx, None)
    ensures Yielded("(" + x + ")", 0) == ([LeftParen] + tx + [RightParen], None)
  {
    YieldedSingle('(', LPR);
    assert "(" == ['('];
    assert Separated("(", x);
    YieldedConcat("(", x, 0);
    YieldedSingle(')', RPR);
    assert ")" == [')'];
    assert Separated("(" + x, ")");
    YieldedConcat("(" + x, ")", 0);
  }

  /** The text of a node lexes as '(', its left operand's tokens, ") op (",
      its right operand's tokens and ')'. */
  lemma {:induction false} LexInfixNode(op: BinOp, pl: string, pr: string, tl: seq<Token>, tr: seq<Token>)
    requires Yielded(pl, 0) == (tl, None) && Yielded(pr, 0) == (tr, None)
    ensures Yielded("(" + pl + ") " + Symbol(op) + " (" + pr + ")", 0) ==
            ([LeftParen] + (tl + ([RightParen, OpToken(op), LeftParen] + (tr + [RightParen]))), None)
  {
    var g1, g2 := "(" + pl + ")", "(" + pr + ")";
    var t1, t2 := [LeftParen] + tl + [RightParen], [LeftParen] + tr + [RightParen];
    LexGroup(pl, tl);
    LexGroup(pr, tr);
    LexSymbol(op);
    LexJoin(g1, Symbol(op), g2, t1, [OpToken(op)], t2);
    NodeTextRegrouped(Symbol(op), pl, pr);
    NodeTokensRegrouped(OpToken(op), tl, tr);
  }

  lemma {:induction false} NodeTextRegrouped(sym: string, pl: string, pr: string)
    ensures "(" + pl + ") " + sym + " (" + pr + ")" == ("(" + pl + ")") + " " + sym + " " + ("(" + pr + ")")
  {
    assert ") " == ")" + " " && " (" == " " + "(";
  }

  lemma {:induction false} NodeTokensRegrouped(t: Token, tl: seq<Token>, tr: seq<Token>)
    ensures [LeftParen] + tl + [RightParen] + [t] + ([LeftParen] + tr + [RightParen]) ==
            [LeftParen] + (tl + ([RightParen, t, LeftParen] + (tr + [RightParen])))
  {
    assert [RightParen] + [t] + [LeftParen] == [RightParen, t, LeftParen];
  }

  /** The lexer reads back from `print_infix` exactly the tree's tokens. */
  lemma {:induction false} LexPrintInfix(e: Exp)
    requires NonNegative(e)
    ensures Yielded(PrintInfix(e), 0) == (InfixTokens(e), None)
  {
    match e
    case Num(n) =>
      YieldedDigits(DecimalText(n));
    case Bin(op, l, r) =>
      LexPrintInfix(l);
      LexPrintInfix(r);
      LexInfixNode(op, PrintInfix(l), PrintInfix(r), InfixTokens(l), InfixTokens(r));
  }

  /** The items the lexer gives for `print_infix(e)`. */
  lemma {:induction false} ItemsOfPrintInfix(e: Exp)
    requires NonNegative(e)
    ensures Items(PrintInfix(e), 0) == InfixItems(e, [Tok(EofToken)])
  {
    LexPrintInfix(e);
    ItemsAgreeWithTokens(PrintInfix(e), 0);
    InfixItemsOfTokens(e, [Tok(EofToken)]);
  }

  /** One link of a chain "n0 op1 n1 op2 n2 ...": an operator and the number
      after it. */
  datatype Link = Link(op: BinOp, n: nat)

  /** A chain with only `+` and `-`. */
  predicate Additive(links: seq<Link>)
  {
    forall i :: 0 <= i < |links| ==> links[i].op == Add || links[i].op == Sub
  }

  /** A chain with only `*` and `/`. */
  predicate Multiplicative(links: seq<Link>)
  {
    forall i :: 0 <= i < |links| ==> links[i].op == Mul || links[i].op == Div
  }

  /** The chain grouped to the left: ((n0 op1 n1) op2 n2) ..., starting from
      the tree `acc` in place of n0. */
  function LeftFold(acc: Exp, links: seq<Link>): Exp
    decreases |links|
  {
    if links == [] then acc else LeftFold(Bin(links[0].op, acc, Num(links[0].n)), links[1..])
  }

  /** The chain grouped to the right: n0 op1 (n1 op2 (n2 ...)). */
  function RightFold(first: nat, links: seq<Link>): Exp
    decreases |links|
  {
    if links == [] then Num(first) else Bin(links[0].op, Num(first), RightFold(links[0].n, links[1..]))
  }

  /** How many links at the front of a chain are products. */
  function MulRun(links: seq<Link>): (k: nat)
    ensures k <= |links| && Multiplicative(links[..k])
    ensures k < |links| ==> links[k].op == Add || links[k].op == Sub
    decreases |links|
  {
    if links == [] || links[0].op == Add || links[0].op == Sub then 0
    else
      var k := 1 + MulRun(links[1..]);
      assert forall i :: 1 <= i < k ==> links[..k][i] == links[1..][..k - 1][i - 1];
      k
  }

  /** Precedence with left grouping at both levels: `acc`, then for each
      `+` or `-` link, a new node over the product of that number and the
      `*` and `/` links that follow it, grouped to the left. */
  function SumFrom(acc: Exp, links: seq<Link>): Exp
    decreases |links|
  {
    if links == [] then acc
    else
      var k := MulRun(links[1..]);
      SumFrom(Bin(links[0].op, acc, LeftFold(Num(links[0].n), links[1..][..k])), links[1 + k..])
  }

  /** A chain read with `*` and `/` binding tighter than `+` and `-`, and
      every operator grouping to the left, as arithmetic is written. */
  function LeftChain(first: nat, links: seq<Link>): Exp
  {
    var k := MulRun(links);
    SumFrom(LeftFold(Num(first), links[..k]), links[k..])
  }

  /** A chain read with `*` and `/` binding tighter than `+` and `-`, but
      every operator grouping to the right. */
  function RightChain(first: nat, links: seq<Link>): Exp
    decreases |links|
  {
    var k := MulRun(links);
    var term := RightFold(first, links[..k]);
    if k == |links| then term else Bin(links[k].op, term, RightChain(links[k].n, links[k + 1..]))
  }

  /** Without `*` and `/`, a chain grouped by precedence is grouped to the
      left; with only `*` and `/`, too. */
  lemma {:induction false} SumFromAdditive(acc: Exp, links: seq<Link>)
    requires Additive(links)
    ensures SumFrom(acc, links) == LeftFold(acc, links)
    decreases |links|
  {
    if links != [] {
      assert MulRun(links[1..]) == 0 by {
        assert links[1..] != [] ==> links[1..][0] == links[1];
      }
      assert links[1..][..0] == [] && links[1 + 0..] == links[1..];
      SumFromAdditive(Bin(links[0].op, acc, Num(links[0].n)), links[1..]);
    }
  }

  lemma {:induction false} LeftChainUniform(first: nat, links: seq<Link>)
    requires Additive(links) || Multiplicative(links)
    ensures LeftChain(first, links) == LeftFold(Num(first), links)
  {
    if Additive(links) {
      assert links != [] ==> MulRun(links) == 0;
      assert links[..0] == [] && links[0..] == links;
      SumFromAdditive(Num(first), links);
    } else {
      MulRunAll(links);
      assert links[..|links|] == links && links[|links|..] == [];
    }
  }

  /** A chain with only `*` and `/` is one product. */
  lemma {:induction false} MulRunAll(links: seq<Link>)
    requires Multiplicative(links)
    ensures MulRun(links) == |links|
    decreases |links|
  {
    if links != [] {
      MulRunAll(links[1..]);
    }
  }

  lemma {:induction false} RightChainUniform(first: nat, links: seq<Link>)
    requires Additive(links) || Multiplicative(links)
    ensures RightChain(first, links) == RightFold(first, links)
    decreases |links|
  {
    if Multiplicative(links) {
      MulRunAll(links);
      assert links[..|links|] == links;
    } else if links != [] {
      assert MulRun(links) == 0;
      assert links[..0] == [] && links[0 + 1..] == links[1..];
      RightChainUniform(links[0].n, links[1..]);
    }
  }

  /** A chain written with single spaces, as in "2 - 3 - 4". */
  function ChainText(first: nat, links: seq<Link>): string
    decreases |links|
  {
    if links == [] then DecimalText(first)
    else DecimalText(first) + " " + Symbol(links[0].op) + " " + ChainText(links[0].n, links[1..])
  }

  function ChainTokens(first: nat, links: seq<Link>): seq<Token>
    decreases |links|
  {
    if links == [] then [NumToken(first)]
    else [NumToken(first)] + ([OpToken(links[0].op)] + ChainTokens(links[0].n, links[1..]))
  }

  /** The items of a chain after its first number, in front of `rest`. */
  function ChainTail(links: seq<Link>, rest: seq<Item<char>>): (r: seq<Item<char>>)
    ensures |r| == 2 * |links| + |rest|
    decreases |links|
  {
    if links == [] then rest
    else [Tok(OpToken(links[0].op)), Tok(NumToken(links[0].n))] + ChainTail(links[1..], rest)
  }

  function ChainItems(first: nat, links: seq<Link>, rest: seq<Item<char>>): seq<Item<char>>
  {
    [Tok(NumToken(first))] + ChainTail(links, rest)
  }

  lemma {:induction false} ChainTailWellFormed(links: seq<Link>, rest: seq<Item<char>>)
    requires WellFormed(rest)
    ensures WellFormed(ChainTail(links, rest)) && WellFormed(ChainItems(0, links, rest))
    decreases |links|
  {
    var tail := ChainTail(links, rest);
    if links != [] {
      ChainTailWellFormed(links[1..], rest);
      var inner := ChainTail(links[1..], rest);
      StreamCons(NumToken(links[0].n), inner);
      StreamCons(OpToken(links[0].op), [Tok(NumToken(links[0].n))] + inner);
      assert tail == [Tok(OpToken(links[0].op))] + ([Tok(NumToken(links[0].n))] + inner);
    }
    StreamCons(NumToken(0), tail);
  }

  lemma {:induction false} ChainItemsWellFormed(first: nat, links: seq<Link>, rest: seq<Item<char>>)
    requires WellFormed(rest)
    ensures WellFormed(ChainItems(first, links, rest))
  {
    ChainTailWellFormed(links, rest);
    StreamCons(NumToken(first), ChainTail(links, rest));
  }

  /** The head of a chain's tail: its first operator, or what follows it. */
  lemma {:induction false} ChainTailHead(links: seq<Link>, rest: seq<Item<char>>)
    requires WellFormed(rest) && Closes(rest)
    ensures WellFormed(ChainTail(links, rest)) && ChainTail(links, rest)[0].Tok?
    ensures links == [] ==> ChainTail(links, rest) == rest
    ensures links != [] ==> ChainTail(links, rest)[0].token.kind == KindOf(links[0].op)
  {
    ChainTailWellFormed(links, rest);
  }

  /** A chain with a first link: its operator, then the chain that starts
      at the link's number. */
  lemma {:induction false} ChainCons(links: seq<Link>, rest: seq<Item<char>>)
    requires links != [] && WellFormed(rest)
    ensures WellFormed(ChainItems(links[0].n, links[1..], rest))
    ensures ChainTail(links, rest) == [Tok(OpToken(links[0].op))] + ChainItems(links[0].n, links[1..], rest)
    ensures WellFormed(ChainTail(links, rest))
  {
    ChainItemsWellFormed(links[0].n, links[1..], rest);
    ChainTailWellFormed(links, rest);
    ChainTailUnfold(links, rest);
  }

  lemma {:induction false} ChainTailUnfold(links: seq<Link>, rest: seq<Item<char>>)
    requires links != []
    ensures ChainTail(links, rest) == [Tok(OpToken(links[0].op))] + ChainItems(links[0].n, links[1..], rest)
  {
    var op, num := Tok(OpToken(links[0].op)), Tok(NumToken(links[0].n));
    var t := ChainTail(links[1..], rest);
    assert [op, num] + t == [op] + ([num] + t);
  }

  /** A run of products that starts at the first link is that link in front
      of the run that starts at the second. */
  lemma {:induction false} RunCons(first: nat, links: seq<Link>)
    requires MulRun(links) > 0
    ensures var k := MulRun(links);
            MulRun(links[1..]) == k - 1 &&
            RightFold(first, links[..k]) == Bin(links[0].op, Num(first), RightFold(links[0].n, links[1..][..k - 1])) &&
            LeftFold(Num(first), links[..k]) == LeftFold(Bin(links[0].op, Num(first), Num(links[0].n)), links[1..][..k - 1]) &&
            links[k..] == links[1..][k - 1..]
  {
    var k := MulRun(links);
    assert links[..k][1..] == links[1..][..k - 1];
  }

  lemma {:induction false} ChainItemsOfTokens(first: nat, links: seq<Link>, rest: seq<Item<char>>)
    ensures ToItems(ChainTokens(first, links)) + rest == ChainItems(first, links, rest)
    decreases |links|
  {
    if links != [] {
      var op, n := OpToken(links[0].op), links[0].n;
      var inner := ChainTokens(n, links[1..]);
      ChainItemsOfTokens(n, links[1..], rest);
      ToItemsCons<char>(op, inner, rest);
      ToItemsCons<char>(NumToken(first), [op] + inner, rest);
    }
  }

  /** The lexer reads a chain's text as its tokens. */
  lemma {:induction false} LexChain(first: nat, links: seq<Link>)
    ensures Yielded(ChainText(first, links), 0) == (ChainTokens(first, links), None)
    decreases |links|
  {
    var d := DecimalText(first);
    YieldedDigits(d);
    if links != [] {
      var op, n := links[0].op, links[0].n;
      var tail, tt := ChainText(n, links[1..]), ChainTokens(n, links[1..]);
      LexChain(n, links[1..]);
      LexSymbol(op);
      LexJoin(d, Symbol(op), tail, [NumToken(first)], [OpToken(op)], tt);
      assert ChainText(first, links) == d + " " + Symbol(op) + " " + tail;
      assert ChainTokens(first, links) == [NumToken(first)] + [OpToken(op)] + tt;
    }
  }

  lemma {:induction false} ItemsOfChain(first: nat, links: seq<Link>)
    ensures Items(ChainText(first, links), 0) == ChainItems(first, links, [Tok(EofToken)])
  {
    LexChain(first, links);
    ItemsAgreeWithTokens(ChainText(first, links), 0);
    ChainItemsOfTokens(first, links, [Tok(EofToken)]);
  }

  /** An operand of a single binary operator: a number, or a chain between
      parentheses, as in "(2 - 3) - (4 - 10)". */
  datatype Operand = Number(n: nat) | Group(first: nat, links: seq<Link>)

  function OperandText(a: Operand): string
  {
    match a
    case Number(n) => DecimalText(n)
    case Group(first, links) => "(" + ChainText(first, links) + ")"
  }

  function OperandTokens(a: Operand): seq<Token>
  {
    match a
    case Number(n) => [NumToken(n)]
    case Group(first, links) => [LeftParen] + (ChainTokens(first, links) + [RightParen])
  }

  function OperandItems(a: Operand, rest: seq<Item<char>>): seq<Item<char>>
  {
    match a
    case Number(n) => [Tok(NumToken(n))] + rest
    case Group(first, links) => [Tok(LeftParen)] + ChainItems(first, links, [Tok(RightParen)] + rest)
  }

  lemma {:induction false} OperandItemsWellFormed(a: Operand, rest: seq<Item<char>>)
    requires WellFormed(rest)
    ensures WellFormed(OperandItems(a, rest))
  {
    match a
    case Number(n) =>
      StreamCons(NumToken(n), rest);
    case Group(first, links) =>
      StreamCons(RightParen, rest);
      ChainItemsWellFormed(first, links, [Tok(RightParen)] + rest);
      StreamCons(LeftParen, ChainItems(first, links, [Tok(RightParen)] + rest));
  }

  lemma {:induction false} LexOperand(a: Operand)
    ensures Yielded(OperandText(a), 0) == (OperandTokens(a), None)
  {
    match a
    case Number(n) =>
      YieldedDigits(DecimalText(n));
    case Group(first, links) =>
      LexOperandGroup(first, links);
  }

  lemma {:induction false} LexOperandGroup(first: nat, links: seq<Link>)
    ensures Yielded("(" + ChainText(first, links) + ")", 0) == ([LeftParen] + (ChainTokens(first, links) + [RightParen]), None)
  {
    var ct := ChainTokens(first, links);
    LexChain(first, links);
    LexGroup(ChainText(first, links), ct);
    assert [LeftParen] + ct + [RightParen] == [LeftParen] + (ct + [RightParen]);
  }

  lemma {:induction false} OperandItemsOfTokens(a: Operand, rest: seq<Item<char>>)
    ensures ToItems(OperandTokens(a)) + rest == OperandItems(a, rest)
  {
    match a
    case Number(n) =>
    case Group(first, links) =>
      var ct := ChainTokens(first, links);
      ToItemsAppend<char>(ct, [RightParen], rest);
      assert ToItems<char>([RightParen]) == [Tok(RightParen)];
      ChainItemsOfTokens(first, links, [Tok(RightParen)] + rest);
      ToItemsCons<char>(LeftParen, ct + [RightParen], rest);
  }

  /** Two operands around one operator, as in "(2 + 3) * 4". */
  function BinaryText(a: Operand, op: BinOp, b: Operand): string
  {
    OperandText(a) + " " + Symbol(op) + " " + OperandText(b)
  }

  function BinaryItems(a: Operand, op: BinOp, b: Operand, rest: seq<Item<char>>): seq<Item<char>>
  {
    OperandItems(a, [Tok(OpToken(op))] + OperandItems(b, rest))
  }

  lemma {:induction false} BinaryItemsWellFormed(a: Operand, op: BinOp, b: Operand, rest: seq<Item<char>>)
    requires WellFormed(rest)
    ensures WellFormed(BinaryItems(a, op, b, rest))
  {
    OperandItemsWellFormed(b, rest);
    StreamCons(OpToken(op), OperandItems(b, rest));
    OperandItemsWellFormed(a, [Tok(OpToken(op))] + OperandItems(b, rest));
  }

  lemma {:induction false} LexBinary(a: Operand, op: BinOp, b: Operand)
    ensures Yielded(BinaryText(a, op, b), 0) == (OperandTokens(a) + ([OpToken(op)] + OperandTokens(b)), None)
  {
    var ta, tb := OperandTokens(a), OperandTokens(b);
    assert Yielded(BinaryText(a, op, b), 0) == (ta + [OpToken(op)] + tb, None) by {
      LexOperand(a);
      LexOperand(b);
      LexSymbol(op);
      LexJoin(OperandText(a), Symbol(op), OperandText(b), ta, [OpToken(op)], tb);
    }
    assert ta + [OpToken(op)] + tb == ta + ([OpToken(op)] + tb);
  }

  lemma {:induction false} ItemsOfBinary(a: Operand, op: BinOp, b: Operand)
    ensures Items(BinaryText(a, op, b), 0) == BinaryItems(a, op, b, [Tok(EofToken)])
  {
    var ta, tb := OperandTokens(a), OperandTokens(b);
    var eof := [Tok(EofToken)];
    LexBinary(a, op, b);
    ItemsAgreeWithTokens(BinaryText(a, op, b), 0);
    assert Items(BinaryText(a, op, b), 0) == ToItems(ta + ([OpToken(op)] + tb)) + eof;
    OperandItemsOfTokens(b, eof);
    ToItemsCons<char>(OpToken(op), tb, eof);
    ToItemsAppend<char>(ta, [OpToken(op)] + tb, eof);
    OperandItemsOfTokens(a, ToItems<char>([OpToken(op)] + tb) + eof);
  }

  /** A chain's text, one link at a time. */
  lemma {:induction false} ChainTextCons(first: nat, l: Link, links: seq<Link>, head: string, tail: string)
    requires DecimalText(first) == head && ChainText(l.n, links) == tail
    ensures ChainText(first, [l] + links) == head + " " + Symbol(l.op) + " " + tail
  {
    assert ([l] + links)[1..] == links;
  }

  lemma {:induction false} ChainTextOne(n: nat, text: string)
    requires DecimalText(n) == text
    ensures ChainText(n, []) == text
  {
  }

  /** The texts of the parsers' doctests, as chains and single binary
      operators. */
  lemma {:induction false} TextOfChain(a: nat, op1: BinOp, b: nat, op2: BinOp, c: nat, ta: string, tb: string, tc: string)
    requires DecimalText(a) == ta && DecimalText(b) == tb && DecimalText(c) == tc
    ensures ChainText(a, [Link(op1, b), Link(op2, c)]) == ta + " " + Symbol(op1) + " " + tb + " " + Symbol(op2) + " " + tc
  {
    ChainTextOne(c, tc);
    ChainTextCons(b, Link(op2, c), [], tb, tc);
    assert [Link(op2, c)] == [Link(op2, c)] + [];
    ChainTextCons(a, Link(op1, b), [Link(op2, c)], ta, tb + " " + Symbol(op2) + " " + tc);
    assert [Link(op1, b), Link(op2, c)] == [Link(op1, b)] + [Link(op2, c)];
  }

  lemma {:induction false} TextOfGroup(a: nat, op: BinOp, b: nat, ta: string, tb: string)
    requires DecimalText(a) == ta && DecimalText(b) == tb
    ensures OperandText(Group(a, [Link(op, b)])) == "(" + ta + " " + Symbol(op) + " " + tb + ")"
  {
    ChainTextOne(b, tb);
    ChainTextCons(a, Link(op, b), [], ta, tb);
    assert [Link(op, b)] == [Link(op, b)] + [];
    var inner := ChainText(a, [Link(op, b)]);
    assert OperandText(Group(a, [Link(op, b)])) == "(" + inner + ")";
    Parenthesised(ta, Symbol(op), tb);
  }

  /** Parentheses around `x op y`, regrouped. */
  lemma {:induction false} Parenthesised(x: string, op: string, y: string)
    ensures "(" + (x + " " + op + " " + y) + ")" == "(" + x + " " + op + " " + y + ")"
  {
  }

  lemma {:induction false} SmallDecimals()
    ensures DecimalText(2) == "2" && DecimalText(3) == "3" && DecimalText(4) == "4" && DecimalText(10) == "10"
  {
  }

  lemma {:induction false} TextSum()
    ensures ChainText(2, [Link(Add, 3), Link(Add, 4)]) == "2 + 3 + 4"
  {
    SmallDecimals();
    TextOfChain(2, Add, 3, Add, 4, "2", "3", "4");
  }

  lemma {:induction false} TextProduct()
    ensures ChainText(2, [Link(Mul, 3), Link(Mul, 4)]) == "2 * 3 * 4"
  {
    SmallDecimals();
    TextOfChain(2, Mul, 3, Mul, 4, "2", "3", "4");
  }

  lemma {:induction false} TextMixed()
    ensures ChainText(2, [Link(Mul, 3), Link(Add, 4)]) == "2 * 3 + 4"
  {
    SmallDecimals();
    TextOfChain(2, Mul, 3, Add, 4, "2", "3", "4");
  }

  lemma {:induction false} TextDifference()
    ensures ChainText(2, [Link(Sub, 3), Link(Sub, 4)]) == "2 - 3 - 4"
  {
    SmallDecimals();
    TextOfChain(2, Sub, 3, Sub, 4, "2", "3", "4");
  }

  lemma {:induction false} TextGroupTimes()
    ensures BinaryText(Group(2, [Link(Add, 3)]), Mul, Number(4)) == "(2 + 3) * 4"
  {
    SmallDecimals();
    TextOfGroup(2, Add, 3, "2", "3");
  }

  lemma {:induction false} TextTimesGroup()
    ensures BinaryText(Number(4), Mul, Group(2, [Link(Add, 3)])) == "4 * (2 + 3)"
  {
    SmallDecimals();
    TextOfGroup(2, Add, 3, "2", "3");
  }

  lemma {:induction false} TextGroupPlus()
    ensures BinaryText(Group(2, [Link(Mul, 3)]), Add, Number(4)) == "(2 * 3) + 4"
  {
    SmallDecimals();
    TextOfGroup(2, Mul, 3, "2", "3");
  }

  lemma {:induction false} TextGroupsMinus()
    ensures BinaryText(Group(2, [Link(Sub, 3)]), Sub, Group(4, [Link(Sub, 10)])) == "(2 - 3) - (4 - 10)"
  {
    SmallDecimals();
    TextOfGroup(2, Sub, 3, "2", "3");
    TextOfGroup(4, Sub, 10, "4", "10");
  }
}
