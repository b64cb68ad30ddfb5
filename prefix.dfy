/** `compute_prefix` (3_ParsingArithExp/Lexer.py and 4_bottomUp/Lexer.py),
    whose code `parse_infix` of 3_ParsingArithExp/Parser0.py repeats: a
    prefix-notation parser that reads its tokens from a shared `Lexer`. */
module Prefix {
  import opened Wrappers
  import opened Tokens
  import opened Streams
  import opened Lexer
  import opened Exp

  /** Why parsing stops: a token of the wrong kind (ValueError "Unexpected
      token type"), or the error the lexer raised. */
  datatype ParseError<E> = UnexpectedToken(kind: Kind) | LexError(error: E)

  /** The node class an operator token selects. */
  function OpOf(k: Kind): (op: BinOp)
    requires IsOperator(k)
    ensures Symbol(op) == match k
                          case ADD => "+"
                          case SUB => "-"
                          case MUL => "*"
                          case DIV => "/"
  {
    match k
    case ADD => Add
    case SUB => Sub
    case MUL => Mul
    case DIV => Div
  }

  /** The kind of token the lexer makes of an operator's symbol. */
  function KindOf(op: BinOp): (k: Kind)
    ensures IsOperator(k) && OpOf(k) == op
  {
    match op
    case Add => ADD
    case Sub => SUB
    case Mul => MUL
    case Div => DIV
  }

  /** What `compute_prefix` does to the stream of `next_valid_token` results:
      the tree it returns and the items it leaves unread. */
  function Parse<E(==)>(items: seq<Item<E>>): (r: Result<(Exp, seq<Item<E>>), ParseError<E>>)
    requires WellFormed(items)
    ensures r.Ok? ==> ProperSuffix(r.value.1, items) && WellFormed(r.value.1)
    decreases |items|
  {
    match items[0]
    case Bad(err) => Fail(LexError(err))
    case Tok(t) =>
      if t.kind == NUM then
        Ok((Num(DecimalValue(t.text)), items[1..]))
      else if IsOperator(t.kind) then
        match Parse(items[1..])
        case Fail(err) => Fail(err)
        case Ok((a, rest)) =>
          match Parse(rest)
          case Fail(err) => Fail(err)
          case Ok((b, rest')) =>
            ProperSuffixTrans(rest', rest, items[1..]);
            ProperSuffixTrans(rest', items[1..], items);
            Ok((Bin(OpOf(t.kind), a, b), rest'))
      else
        Fail(UnexpectedToken(t.kind))
  }

  /** `compute_prefix(lexer)`: reads one token; a NUM is a leaf, an operator
      reads its left and then its right operand by two recursive calls, and
      any other token is an error. Tokens after the expression stay unread. */
  method ComputePrefix(lexer: Lexer) returns (r: Result<Exp, ParseError<char>>)
    requires lexer.Valid()
    modifies lexer
    ensures lexer.Valid() && old(lexer.position) <= lexer.position
    ensures match Parse(Items(lexer.input, old(lexer.position)))
            case Fail(err) => r == Fail(err)
            case Ok((e, rest)) => r == Ok(e) && Items(lexer.input, lexer.position) == rest
    decreases |lexer.input| - lexer.position
  {
    var tok := lexer.NextValidToken();
    match tok
    case Fail(c) =>
      return Fail(LexError(c));
    case Ok(t) =>
      if t.kind == NUM {
        return Ok(Num(DecimalValue(t.text)));
      } else if IsOperator(t.kind) {
        var a := ComputePrefix(lexer);
        if a.Fail? {
          return Fail(a.error);
        }
        var b := ComputePrefix(lexer);
        if b.Fail? {
          return Fail(b.error);
        }
        return Ok(Bin(OpOf(t.kind), a.value, b.value));
      } else {
        return Fail(UnexpectedToken(t.kind));
      }
  }

  /** A tree whose literals are all non-negative: `print_prefix` writes a
      negative literal with a leading '-', which lexes as SUB. */
  predicate NonNegative(e: Exp)
  {
    match e
    case Num(n) => n >= 0
    case Bin(_, l, r) => NonNegative(l) && NonNegative(r)
  }

  /** The tokens of a tree in prefix order. */
  function PrefixTokens(e: Exp): (ts: seq<Token>)
    requires NonNegative(e)
    ensures forall i :: 0 <= i < |ts| ==> Lexeme(ts[i]) && ts[i].kind != EOF
  {
    match e
    case Num(n) => [Token(DecimalText(n), NUM)]
    case Bin(op, l, r) => [Token(Symbol(op), KindOf(op))] + PrefixTokens(l) + PrefixTokens(r)
  }

  /** Two texts joined by a space lex to the tokens of the first followed by
      those of the second. */
  lemma {:induction false} LexSpaced(a: string, b: string)
    requires Yielded(a, 0).1 == None
    ensures Yielded(a + " " + b, 0) == (Yielded(a, 0).0 + Yielded(b, 0).0, Yielded(b, 0).1)
  {
    var ta := Yielded(a, 0).0;
    assert Yielded(a + " ", 0) == (ta, None) by {
      YieldedSingle(' ', WSP);
      assert Separated(a, " ");
      YieldedConcat(a, " ", 0);
      assert ta + [] == ta;
    }
    assert Separated(a + " ", b);
    YieldedConcat(a + " ", b, 0);
  }

  /** Three texts joined by spaces lex to the tokens of each in turn. */
  lemma {:induction false} LexSpaced3(a: string, b: string, c: string)
    requires Yielded(a, 0).1 == None && Yielded(b, 0).1 == None
    ensures Yielded(a + " " + b + " " + c, 0) ==
              (Yielded(a, 0).0 + Yielded(b, 0).0 + Yielded(c, 0).0, Yielded(c, 0).1)
  {
    LexSpaced(a, b);
    LexSpaced(a + " " + b, c);
  }

  /** Three texts that lex without error, joined by spaces. */
  lemma {:induction false} LexJoin(x: string, y: string, z: string, tx: seq<Token>, ty: seq<Token>, tz: seq<Token>)
    requires Yielded(x, 0) == (tx, None) && Yielded(y, 0) == (ty, None) && Yielded(z, 0) == (tz, None)
    ensures Yielded(x + " " + y + " " + z, 0) == (tx + ty + tz, None)
  {
    LexSpaced3(x, y, z);
  }

  /** An operator's symbol lexes as its token. */
  lemma {:induction false} LexSymbol(op: BinOp)
    ensures Yielded(Symbol(op), 0) == ([Token(Symbol(op), KindOf(op))], None)
  {
    var sym := Symbol(op);
    assert sym == [sym[0]] && !IsDigit(sym[0]);
    YieldedSingle(sym[0], KindOf(op));
  }

  /** The text of a node lexes as its operator's token, then its operands'. */
  lemma {:induction false} LexPrefixNode(op: BinOp, l: Exp, r: Exp)
    requires NonNegative(l) && NonNegative(r)
    requires Yielded(PrintPrefix(l), 0) == (PrefixTokens(l), None)
    requires Yielded(PrintPrefix(r), 0) == (PrefixTokens(r), None)
    ensures Yielded(PrintPrefix(Bin(op, l, r)), 0) == (PrefixTokens(Bin(op, l, r)), None)
  {
    LexSymbol(op);
    LexJoin(Symbol(op), PrintPrefix(l), PrintPrefix(r), [Token(Symbol(op), KindOf(op))], PrefixTokens(l), PrefixTokens(r));
  }

  /** The lexer reads back from `print_prefix` exactly the tree's tokens in
      prefix order, without error. */
  lemma {:induction false} LexPrintPrefix(e: Exp)
    requires NonNegative(e)
    ensures Yielded(PrintPrefix(e), 0) == (PrefixTokens(e), None)
  {
    match e
    case Num(n) =>
      YieldedDigits(DecimalText(n));
    case Bin(op, l, r) =>
      LexPrintPrefix(l);
      LexPrintPrefix(r);
      LexPrefixNode(op, l, r);
  }

  /** An operator token followed by two parsed operands parses to the node. */
  lemma {:induction false} ParseBinStep<E>(op: BinOp, xs: seq<Item<E>>, l: Exp, mid: seq<Item<E>>, r: Exp, rest: seq<Item<E>>)
    requires WellFormed(xs) && Parse(xs) == Ok((l, mid))
    requires WellFormed(mid) && Parse(mid) == Ok((r, rest))
    requires WellFormed([Tok(Token(Symbol(op), KindOf(op)))] + xs)
    ensures Parse([Tok(Token(Symbol(op), KindOf(op)))] + xs) == Ok((Bin(op, l, r), rest))
  {
    var items := [Tok(Token(Symbol(op), KindOf(op)))] + xs;
    assert items[1..] == xs;
  }

  /** A number token parses to its leaf. */
  lemma {:induction false} ParseNumStep<E>(n: nat, rest: seq<Item<E>>)
    requires WellFormed([Tok(Token(DecimalText(n), NUM))] + rest)
    ensures Parse([Tok(Token(DecimalText(n), NUM))] + rest) == Ok((Num(n), rest))
  {
    var items := [Tok(Token(DecimalText(n), NUM))] + rest;
    assert items[1..] == rest;
  }

  /** The tokens of a node are its operator's token followed by the tokens of
      its left and of its right operand. */
  lemma {:induction false} BinItems<E>(op: BinOp, l: Exp, r: Exp, rest: seq<Item<E>>)
    requires NonNegative(l) && NonNegative(r)
    ensures ToItems<E>(PrefixTokens(Bin(op, l, r))) + rest ==
            [Tok(Token(Symbol(op), KindOf(op)))] + (ToItems<E>(PrefixTokens(l)) + (ToItems<E>(PrefixTokens(r)) + rest))
  {
    ItemsOfThree(Token(Symbol(op), KindOf(op)), PrefixTokens(l), PrefixTokens(r), rest);
  }

  /** Parsing the tokens of a tree, followed by any stream, gives back the
      tree and leaves that stream unread. */
  lemma {:induction false} ParsePrefixTokens<E>(e: Exp, rest: seq<Item<E>>)
    requires NonNegative(e) && WellFormed(rest)
    ensures WellFormed(ToItems<E>(PrefixTokens(e)) + rest)
    ensures Parse(ToItems<E>(PrefixTokens(e)) + rest) == Ok((e, rest))
  {
    StreamAfter(PrefixTokens(e), rest);
    match e
    case Num(n) =>
      assert ToItems<E>(PrefixTokens(e)) + rest == [Tok(Token(DecimalText(n), NUM))] + rest;
      ParseNumStep(n, rest);
    case Bin(op, l, r) =>
      ParsePrefixTokens(r, rest);
      var afterL := ToItems<E>(PrefixTokens(r)) + rest;
      ParsePrefixTokens(l, afterL);
      BinItems(op, l, r, rest);
      ParseBinStep(op, ToItems<E>(PrefixTokens(l)) + afterL, l, afterL, r, rest);
  }

  /** `compute_prefix` undoes `print_prefix`: for every tree whose literals
      are non-negative, the lexer and parser rebuild the printed tree, and
      nothing but EOF follows it. */
  lemma {:induction false} PrefixRoundTrip(e: Exp)
    requires NonNegative(e)
    ensures var s := PrintPrefix(e);
            Parse(Items(s, 0)) == Ok((e, [Tok(EofToken)]))
  {
    var s := PrintPrefix(e);
    LexPrintPrefix(e);
    ItemsAgreeWithTokens(s, 0);
    assert Items(s, 0) == ToItems<char>(PrefixTokens(e)) + [Tok(EofToken)];
    ParsePrefixTokens<char>(e, [Tok(EofToken)]);
  }

  /** The first doctest: "+ 3 * 4 2" parses to 3 + (4 * 2), which is 11. */
  lemma {:induction false} PrefixExampleEleven()
    ensures Parse(Items("+ 3 * 4 2", 0)) ==
            Ok((Bin(Add, Num(3), Bin(Mul, Num(4), Num(2))), [Tok(EofToken)]))
    ensures Eval(Bin(Add, Num(3), Bin(Mul, Num(4), Num(2)))) == Ok(11)
  {
    var e := Bin(Add, Num(3), Bin(Mul, Num(4), Num(2)));
    assert PrintPrefix(e) == "+ 3 * 4 2";
    PrefixRoundTrip(e);
  }

  /** The tree of the second doctest, printed in prefix. */
  lemma {:induction false} PrintedFourteen()
    ensures PrintPrefix(Bin(Add, Bin(Mul, Num(3), Num(4)), Num(2))) == "+ * 3 4 2"
  {
    assert PrintPrefix(Bin(Mul, Num(3), Num(4))) == "* 3 4";
  }

  /** The second doctest: "+ * 3 4 2" parses to (3 * 4) + 2, which is 14. */
  lemma {:induction false} PrefixExampleFourteen()
    ensures Parse(Items("+ * 3 4 2", 0)) ==
            Ok((Bin(Add, Bin(Mul, Num(3), Num(4)), Num(2)), [Tok(EofToken)]))
    ensures Eval(Bin(Add, Bin(Mul, Num(3), Num(4)), Num(2))) == Ok(14)
  {
    var e := Bin(Add, Bin(Mul, Num(3), Num(4)), Num(2));
    PrintedFourteen();
    PrefixRoundTrip(e);
  }
}
