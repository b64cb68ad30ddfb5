/** 3_ParsingArithExp/Parser1.py: a recursive-descent parser for infix
    arithmetic with one level for all four operators:

      E ::= num F | '(' E ')' F
      F ::= ('+' | '-' | '*' | '/') E F | empty

    The operand after an operator is a whole `E`, which reads the rest of
    the chain, so every chain without parentheses groups to the right and
    there is no precedence: "2 * 3 + 4" is read as 2 * (3 + 4). `E`
    returns `None` when the current token is neither a number nor '('. */
module Parser1 {
  import opened Wrappers
  import opened Tokens
  import opened Streams
  import opened Lexer
  import opened Exp
  import opened Prefix
  import opened InfixTrees

  /** What `E()` returns and leaves unread, from a stream of items. */
  function ParseE(items: seq<Item<char>>): (r: Result<(Tree, seq<Item<char>>), ParseError<char>>)
    requires WellFormed(items)
    ensures r.Ok? ==> WellFormed(r.value.1) && |r.value.1| <= |items|
    decreases |items|
  {
    match items[0]
    case Bad(c) => Fail(LexError(c))
    case Tok(t) =>
      if t.kind == NUM then
        ParseF(items[1..], Leaf(DecimalValue(t.text)))
      else if t.kind == LPR then
        match ParseE(items[1..])
        case Fail(err) => Fail(err)
        case Ok((node, rest)) =>
          match Eat(rest, RPR)
          case Fail(err) => Fail(err)
          case Ok(rest') => ParseF(rest', node)
      else
        Ok((Hole, items))
  }

  /** `F(left)`: while an operator comes next, eats it, parses an `E` and
      makes it the right child of a new node over `left`. */
  function ParseF(items: seq<Item<char>>, left: Tree): (r: Result<(Tree, seq<Item<char>>), ParseError<char>>)
    requires WellFormed(items)
    ensures r.Ok? ==> WellFormed(r.value.1) && |r.value.1| <= |items|
    decreases |items|
  {
    match items[0]
    case Bad(c) => Fail(LexError(c))
    case Tok(t) =>
      if IsOperator(t.kind) then
        match ParseE(items[1..])
        case Fail(err) => Fail(err)
        case Ok((right, rest)) => ParseF(rest, Node(OpOf(t.kind), left, right))
      else
        Ok((left, items))
  }

  /** `F` leaves its argument and the stream alone at ')' or EOF. */
  lemma {:induction false} ContinuationStops(items: seq<Item<char>>, left: Tree)
    requires WellFormed(items) && Closes(items)
    ensures ParseF(items, left) == Ok((left, items))
  {
  }

  /** `E` at ')' or EOF returns `None` and consumes nothing. */
  lemma {:induction false} MissingOperand(items: seq<Item<char>>)
    requires WellFormed(items) && Closes(items)
    ensures ParseE(items) == Ok((Hole, items))
  {
  }

  /** An operator, then an expression that reads up to ')' or EOF, makes a
      node over `left`. */
  lemma {:induction false} Continue(op: BinOp, left: Tree, gr: seq<Item<char>>, x: Tree, rest: seq<Item<char>>)
    requires WellFormed(gr) && WellFormed([Tok(OpToken(op))] + gr) && Closes(rest)
    requires ParseE(gr) == Ok((x, rest))
    ensures ParseF([Tok(OpToken(op))] + gr, left) == Ok((Node(op, left, x), rest))
  {
    assert ([Tok(OpToken(op))] + gr)[1..] == gr;
    ContinuationStops(rest, Node(op, left, x));
  }

  /** A number starts an expression: `F` goes on from the token after it. */
  lemma {:induction false} LeadNumber(n: nat, tail: seq<Item<char>>)
    requires WellFormed(tail)
    ensures WellFormed([Tok(NumToken(n))] + tail) && ParseE([Tok(NumToken(n))] + tail) == ParseF(tail, Leaf(n))
  {
    StreamCons(NumToken(n), tail);
    assert ([Tok(NumToken(n))] + tail)[1..] == tail;
  }

  /** An expression between parentheses starts an expression: `F` goes on
      from the token after ')'. */
  lemma {:induction false} LeadGroup(inner: seq<Item<char>>, x: Tree, after: seq<Item<char>>)
    requires WellFormed(inner) && WellFormed(after)
    requires ParseE(inner) == Ok((x, [Tok(RightParen)] + after))
    ensures WellFormed([Tok(LeftParen)] + inner) && ParseE([Tok(LeftParen)] + inner) == ParseF(after, x)
  {
    StreamCons(LeftParen, inner);
    assert ([Tok(LeftParen)] + inner)[1..] == inner;
    assert ([Tok(RightParen)] + after)[1..] == after;
  }

  /** An expression between parentheses, then ')' or EOF, is the
      expression. */
  lemma {:induction false} GroupAlone(m: seq<Item<char>>, x: Tree, rest: seq<Item<char>>)
    requires WellFormed(m) && WellFormed(rest) && Closes(rest)
    requires ParseE(m) == Ok((x, [Tok(RightParen)] + rest))
    ensures WellFormed([Tok(LeftParen)] + m) && ParseE([Tok(LeftParen)] + m) == Ok((x, rest))
  {
    LeadGroup(m, x, rest);
    ContinuationStops(rest, x);
  }

  /** One node of `print_infix`'s output: "(" left ") op (" right ")" parses
      as the node. */
  lemma {:induction false} ParseInfixNode(op: BinOp, xl: Tree, xr: Tree, il: seq<Item<char>>, m: seq<Item<char>>, rest: seq<Item<char>>)
    requires WellFormed(rest) && Closes(rest) && WellFormed(m) && WellFormed(il)
    requires ParseE(m) == Ok((xr, [Tok(RightParen)] + rest))
    requires ParseE(il) == Ok((xl, [Tok(RightParen), Tok(OpToken(op)), Tok(LeftParen)] + m))
    ensures WellFormed([Tok(LeftParen)] + il) && ParseE([Tok(LeftParen)] + il) == Ok((Node(op, xl, xr), rest))
  {
    var after := [Tok(OpToken(op))] + ([Tok(LeftParen)] + m);
    InfixTail(op, xl, xr, m, rest);
    MiddleRegrouped(op, m);
    LeadGroup(il, xl, after);
  }

  /** After a node's left operand: the operator and the right operand
      between parentheses. */
  lemma {:induction false} InfixTail(op: BinOp, xl: Tree, xr: Tree, m: seq<Item<char>>, rest: seq<Item<char>>)
    requires WellFormed(rest) && Closes(rest) && WellFormed(m)
    requires ParseE(m) == Ok((xr, [Tok(RightParen)] + rest))
    ensures var after := [Tok(OpToken(op))] + ([Tok(LeftParen)] + m);
            WellFormed(after) && ParseF(after, xl) == Ok((Node(op, xl, xr), rest))
  {
    var gr := [Tok(LeftParen)] + m;
    GroupAlone(m, xr, rest);
    StreamCons(OpToken(op), gr);
    Continue(op, xl, gr, xr, rest);
  }

  /** A number followed by ')' or EOF parses as a leaf. */
  lemma {:induction false} ParseNumber(n: nat, rest: seq<Item<char>>)
    requires WellFormed(rest) && Closes(rest)
    ensures WellFormed([Tok(NumToken(n))] + rest) && ParseE([Tok(NumToken(n))] + rest) == Ok((Leaf(n), rest))
  {
    LeadNumber(n, rest);
    ContinuationStops(rest, Leaf(n));
  }

  /** The induction step of `ParseInfixItems`, from its two hypotheses. */
  lemma {:induction false} ParseInfixStep(op: BinOp, l: Exp, r: Exp, rest: seq<Item<char>>)
    requires NonNegative(l) && NonNegative(r) && WellFormed(rest) && Closes(rest)
    requires var m := InfixItems(r, [Tok(RightParen)] + rest);
             WellFormed(m) && ParseE(m) == Ok((Embed(r), [Tok(RightParen)] + rest))
    requires var mid := [Tok(RightParen), Tok(OpToken(op)), Tok(LeftParen)] + InfixItems(r, [Tok(RightParen)] + rest);
             WellFormed(InfixItems(l, mid)) && ParseE(InfixItems(l, mid)) == Ok((Embed(l), mid))
    ensures WellFormed(InfixItems(Bin(op, l, r), rest)) &&
            ParseE(InfixItems(Bin(op, l, r), rest)) == Ok((Embed(Bin(op, l, r)), rest))
  {
    var m := InfixItems(r, [Tok(RightParen)] + rest);
    var mid := [Tok(RightParen), Tok(OpToken(op)), Tok(LeftParen)] + m;
    ParseInfixNode(op, Embed(l), Embed(r), InfixItems(l, mid), m, rest);
  }

  /** Parser1 reads back what `print_infix` writes: the items of a
      non-negative tree, followed by ')' or EOF, parse as that tree, and
      exactly its items are consumed. Every subtree is between parentheses,
      so the missing precedence does not matter here. */
  lemma {:induction false} ParseInfixItems(e: Exp, rest: seq<Item<char>>)
    requires NonNegative(e) && WellFormed(rest) && Closes(rest)
    ensures WellFormed(InfixItems(e, rest)) && ParseE(InfixItems(e, rest)) == Ok((Embed(e), rest))
  {
    match e
    case Num(n) =>
      ParseNumber(n, rest);
    case Bin(op, l, r) =>
      var rp := [Tok(RightParen)] + rest;
      StreamCons(RightParen, rest);
      ParseInfixItems(r, rp);
      var mid := [Tok(RightParen), Tok(OpToken(op)), Tok(LeftParen)] + InfixItems(r, rp);
      MiddleWellFormed(op, InfixItems(r, rp));
      ParseInfixItems(l, mid);
      ParseInfixStep(op, l, r, rest);
  }

  /** Parsing what `print_infix` prints gives back the tree, up to EOF. */
  lemma {:induction false} PrintInfixRoundTrip(e: Exp)
    requires NonNegative(e)
    ensures ParseE(Items(PrintInfix(e), 0)) == Ok((Embed(e), [Tok(EofToken)]))
  {
    ItemsOfPrintInfix(e);
    ParseInfixItems(e, [Tok(EofToken)]);
  }

  /** Parser1 reads any chain without parentheses grouped to the right,
      whatever its operators: n0 op1 (n1 op2 (n2 ...)). */
  lemma {:induction false} ParseChain(first: nat, links: seq<Link>, rest: seq<Item<char>>)
    requires WellFormed(rest) && Closes(rest)
    ensures WellFormed(ChainItems(first, links, rest)) &&
            ParseE(ChainItems(first, links, rest)) == Ok((Embed(RightFold(first, links)), rest))
    decreases |links|
  {
    if links == [] {
      ParseNumber(first, rest);
    } else {
      ParseChain(links[0].n, links[1..], rest);
      ParseChainStep(first, links, rest);
    }
  }

  /** The induction step of `ParseChain`: one link in front of a chain. */
  lemma {:induction false} ParseChainStep(first: nat, links: seq<Link>, rest: seq<Item<char>>)
    requires WellFormed(rest) && Closes(rest) && links != []
    requires var n := links[0].n;
             WellFormed(ChainItems(n, links[1..], rest)) &&
             ParseE(ChainItems(n, links[1..], rest)) == Ok((Embed(RightFold(n, links[1..])), rest))
    ensures WellFormed(ChainItems(first, links, rest)) &&
            ParseE(ChainItems(first, links, rest)) == Ok((Embed(RightFold(first, links)), rest))
  {
    ChainContinues(first, links, rest);
    LeadNumber(first, ChainTail(links, rest));
  }

  /** After the chain's first number, `F` reads the rest of the chain. */
  lemma {:induction false} ChainContinues(first: nat, links: seq<Link>, rest: seq<Item<char>>)
    requires WellFormed(rest) && Closes(rest) && links != []
    requires var n := links[0].n;
             WellFormed(ChainItems(n, links[1..], rest)) &&
             ParseE(ChainItems(n, links[1..], rest)) == Ok((Embed(RightFold(n, links[1..])), rest))
    ensures WellFormed(ChainTail(links, rest)) &&
            ParseF(ChainTail(links, rest), Leaf(first)) == Ok((Embed(RightFold(first, links)), rest))
  {
    var op, n := links[0].op, links[0].n;
    ChainCons(links, rest);
    Continue(op, Leaf(first), ChainItems(n, links[1..], rest), Embed(RightFold(n, links[1..])), rest);
  }

  /** What Parser1 makes of one operand of a binary operator. */
  function OperandTree(a: Operand): Exp
  {
    match a
    case Number(n) => Num(n)
    case Group(first, links) => RightFold(first, links)
  }

  /** An operand starts an expression: `F` goes on from the token after
      it. */
  lemma {:induction false} LeadOperand(a: Operand, after: seq<Item<char>>)
    requires WellFormed(after)
    ensures WellFormed(OperandItems(a, after)) && ParseE(OperandItems(a, after)) == ParseF(after, Embed(OperandTree(a)))
  {
    OperandItemsWellFormed(a, after);
    match a
    case Number(n) =>
      LeadNumber(n, after);
    case Group(first, links) =>
      StreamCons(RightParen, after);
      ParseChain(first, links, [Tok(RightParen)] + after);
      LeadGroup(ChainItems(first, links, [Tok(RightParen)] + after), Embed(RightFold(first, links)), after);
  }

  /** Two operands around one operator make one node. */
  lemma {:induction false} ParseBinary(a: Operand, op: BinOp, b: Operand, rest: seq<Item<char>>)
    requires WellFormed(rest) && Closes(rest)
    ensures WellFormed(BinaryItems(a, op, b, rest)) &&
            ParseE(BinaryItems(a, op, b, rest)) == Ok((Embed(Bin(op, OperandTree(a), OperandTree(b))), rest))
  {
    var gr := OperandItems(b, rest);
    LeadOperand(b, rest);
    ContinuationStops(rest, Embed(OperandTree(b)));
    StreamCons(OpToken(op), gr);
    LeadOperand(a, [Tok(OpToken(op))] + gr);
    Continue(op, Embed(OperandTree(a)), gr, Embed(OperandTree(b)), rest);
  }

  /** `Parser(Lexer(text)).E()` returns the tree of `e` and stops at EOF. */
  predicate ParsesTo(text: string, e: Exp)
  {
    ParseE(Items(text, 0)) == Ok((Embed(e), [Tok(EofToken)]))
  }

  lemma {:induction false} ParseChainText(first: nat, links: seq<Link>)
    ensures ParsesTo(ChainText(first, links), RightFold(first, links))
  {
    ItemsOfChain(first, links);
    ParseChain(first, links, [Tok(EofToken)]);
  }

  lemma {:induction false} ParseBinaryText(a: Operand, op: BinOp, b: Operand)
    ensures ParsesTo(BinaryText(a, op, b), Bin(op, OperandTree(a), OperandTree(b)))
  {
    var eof := [Tok(EofToken)];
    var items := BinaryItems(a, op, b, eof);
    assert Items(BinaryText(a, op, b), 0) == items by {
      ItemsOfBinary(a, op, b);
    }
    assert ParseE(items) == Ok((Embed(Bin(op, OperandTree(a), OperandTree(b))), eof)) by {
      ParseBinary(a, op, b, eof);
    }
  }

  /** The doctests: "2 + 3 + 4" gives 9, "2 * 3 * 4" 24, "(2 + 3) * 4" and
      "4 * (2 + 3)" 20, "(2 * 3) + 4" 10, "(2 - 3) - (4 - 10)" 5. */
  lemma {:induction false} DoctestSum()
    ensures ParsesTo("2 + 3 + 4", Bin(Add, Num(2), Bin(Add, Num(3), Num(4))))
    ensures Eval(Bin(Add, Num(2), Bin(Add, Num(3), Num(4)))) == Ok(9)
  {
    TextSum();
    ParseChainText(2, [Link(Add, 3), Link(Add, 4)]);
  }

  lemma {:induction false} DoctestProduct()
    ensures ParsesTo("2 * 3 * 4", Bin(Mul, Num(2), Bin(Mul, Num(3), Num(4))))
    ensures Eval(Bin(Mul, Num(2), Bin(Mul, Num(3), Num(4)))) == Ok(24)
  {
    TextProduct();
    ParseChainText(2, [Link(Mul, 3), Link(Mul, 4)]);
  }

  lemma {:induction false} DoctestGroupTimes()
    ensures ParsesTo("(2 + 3) * 4", Bin(Mul, Bin(Add, Num(2), Num(3)), Num(4)))
    ensures Eval(Bin(Mul, Bin(Add, Num(2), Num(3)), Num(4))) == Ok(20)
  {
    var g := Group(2, [Link(Add, 3)]);
    assert ParsesTo(BinaryText(g, Mul, Number(4)), Bin(Mul, Bin(Add, Num(2), Num(3)), Num(4))) by {
      ParseBinaryText(g, Mul, Number(4));
    }
    TextGroupTimes();
  }

  lemma {:induction false} DoctestTimesGroup()
    ensures ParsesTo("4 * (2 + 3)", Bin(Mul, Num(4), Bin(Add, Num(2), Num(3))))
    ensures Eval(Bin(Mul, Num(4), Bin(Add, Num(2), Num(3)))) == Ok(20)
  {
    var g := Group(2, [Link(Add, 3)]);
    assert ParsesTo(BinaryText(Number(4), Mul, g), Bin(Mul, Num(4), Bin(Add, Num(2), Num(3)))) by {
      ParseBinaryText(Number(4), Mul, g);
    }
    TextTimesGroup();
  }

  lemma {:induction false} DoctestGroupPlus()
    ensures ParsesTo("(2 * 3) + 4", Bin(Add, Bin(Mul, Num(2), Num(3)), Num(4)))
    ensures Eval(Bin(Add, Bin(Mul, Num(2), Num(3)), Num(4))) == Ok(10)
  {
    TextGroupPlus();
    ParseBinaryText(Group(2, [Link(Mul, 3)]), Add, Number(4));
  }

  lemma {:induction false} DoctestGroupsMinus()
    ensures ParsesTo("(2 - 3) - (4 - 10)", Bin(Sub, Bin(Sub, Num(2), Num(3)), Bin(Sub, Num(4), Num(10))))
    ensures Eval(Bin(Sub, Bin(Sub, Num(2), Num(3)), Bin(Sub, Num(4), Num(10)))) == Ok(5)
  {
    TextGroupsMinus();
    ParseBinaryText(Group(2, [Link(Sub, 3)]), Sub, Group(4, [Link(Sub, 10)]));
  }

  /** Without parentheses there is no precedence: "2 * 3 + 4" is read as
      2 * (3 + 4), which is 14. */
  lemma {:induction false} NoPrecedence()
    ensures ParsesTo("2 * 3 + 4", Bin(Mul, Num(2), Bin(Add, Num(3), Num(4))))
    ensures Eval(Bin(Mul, Num(2), Bin(Add, Num(3), Num(4)))) == Ok(14)
  {
    TextMixed();
    ParseChainText(2, [Link(Mul, 3), Link(Add, 4)]);
  }

  /** The parser object: the lexer it reads from and its current token. A
      lexical error raised while reading a token is kept as the current item
      and surfaces when the parser next looks at its current token. */
  class Parser {
    const lexer: Lexer
    var current: Item<char>

    ghost predicate Valid()
      reads this, lexer
    {
      lexer.Valid() &&
      (current.Tok? ==> Lexeme(current.token)) &&
      (current.Tok? && current.token.kind == EOF ==> current.token == EofToken && lexer.position == |lexer.input|)
    }

    /** The items the parser has yet to read: the current one and then what
        the lexer's `next_valid_token` returns from its position on. */
    ghost function Rest(): (r: seq<Item<char>>)
      reads this, lexer
      requires Valid()
      ensures WellFormed(r) && r[0] == current
    {
      if Final(current) then [current]
      else
        StreamCons(current.token, Items(lexer.input, lexer.position));
        [current] + Items(lexer.input, lexer.position)
    }

    /** `__init__`: keeps the lexer and reads the first token. */
    constructor (lexer: Lexer)
      requires lexer.Valid()
      modifies lexer
      ensures Valid() && this.lexer == lexer
      ensures Rest() == Items(lexer.input, old(lexer.position))
    {
      this.lexer := lexer;
      var r := lexer.NextValidToken();
      current := ToItem(r);
    }

    /** `eat(kind)`. */
    method Eat(k: Kind) returns (r: Result<(), ParseError<char>>)
      requires Valid()
      modifies this, lexer
      ensures Valid()
      ensures match InfixTrees.Eat(old(Rest()), k)
              case Fail(err) => r == Fail(err)
              case Ok(rest) => r == Ok(()) && Rest() == rest
    {
      if current.Bad? {
        return Fail(LexError(current.error));
      }
      if current.token.kind != k {
        return Fail(UnexpectedToken(current.token.kind));
      }
      var n := lexer.NextValidToken();
      current := ToItem(n);
      return Ok(());
    }

    /** `E()`. */
    method E() returns (r: Result<Tree, ParseError<char>>)
      requires Valid()
      modifies this, lexer
      ensures Valid() && Outcome(ParseE(old(Rest())), r, Rest())
      decreases |Rest()|
    {
      var token := current;
      if token.Bad? {
        return Fail(LexError(token.error));
      }
      if token.token.kind == NUM {
        var _ := Eat(NUM);
        r := F(Leaf(DecimalValue(token.token.text)));
      } else if token.token.kind == LPR {
        var _ := Eat(LPR);
        var node := E();
        if node.Fail? {
          return node;
        }
        var closed := Eat(RPR);
        if closed.Fail? {
          return Fail(closed.error);
        }
        r := F(node.value);
      } else {
        r := Ok(Hole);
      }
    }

    /** `F(left)`. */
    method F(left: Tree) returns (r: Result<Tree, ParseError<char>>)
      requires Valid()
      modifies this, lexer
      ensures Valid() && Outcome(ParseF(old(Rest()), left), r, Rest())
      decreases |Rest()|
    {
      var token := current;
      if token.Bad? {
        return Fail(LexError(token.error));
      }
      if IsOperator(token.token.kind) {
        var op := OpOf(token.token.kind);
        var _ := Eat(token.token.kind);
        var right := E();
        if right.Fail? {
          return right;
        }
        r := F(Node(op, left, right.value));
      } else {
        r := Ok(left);
      }
    }
  }
}
