/** The two evaluators of 1_ArithLexing/Lexer.py and 1_ArithLexing/Lexer1.py
    that compute a value straight from the token stream: `compute_postfix`,
    a stack machine, and `compute_prefix`, a recursive evaluator. Both files
    define them alike; this module holds what they share, stated on the
    stream their lexers produce. */
module StackCalc {
  import opened Wrappers
  import opened Tokens
  import opened Streams
  import opened Lexer
  import opened Exp
  import opened Prefix

  /** The exceptions the evaluators raise: "Insufficient values",
      ZeroDivisionError, "too many values", "Unexpected token", and whatever
      the lexer raised. */
  datatype CalcError<E> =
    | Insufficient
    | ZeroDivision
    | TooManyValues
    | BadToken(kind: Kind)
    | Lexing(error: E)

  /** All tokens carry the text `int(text)` reads. */
  predicate Lexemes(ts: seq<Token>)
  {
    forall i :: 0 <= i < |ts| ==> Lexeme(ts[i])
  }

  /** One iteration of `compute_postfix`'s loop. A NUM is pushed; an operator
      pops `b`, then `a`, and pushes `a op b`. Another kind raises when
      `strict` (1_ArithLexing/Lexer1.py) and is passed over otherwise
      (1_ArithLexing/Lexer.py, whose `if` has no `else`). */
  function PostfixStep<E>(st: seq<int>, t: Token, strict: bool): Result<seq<int>, CalcError<E>>
    requires Lexeme(t)
  {
    if t.kind == NUM then Ok(st + [DecimalValue(t.text)])
    else if IsOperator(t.kind) then
      if |st| < 2 then Fail(Insufficient)
      else
        match Apply(OpOf(t.kind), st[|st| - 2], st[|st| - 1])
        case Fail(_) => Fail(ZeroDivision)
        case Ok(v) => Ok(st[..|st| - 2] + [v])
    else if strict then Fail(BadToken(t.kind))
    else Ok(st)
  }

  /** The body of `compute_postfix`'s loop for one token: push a number;
      pop `b`, then `a`, and push `a op b` for an operator. */
  method RunToken<E>(stack: seq<int>, t: Token, strict: bool) returns (r: Result<seq<int>, CalcError<E>>)
    requires Lexeme(t)
    ensures r == PostfixStep(stack, t, strict)
  {
    if t.kind == NUM {
      return Ok(stack + [DecimalValue(t.text)]);
    } else if IsOperator(t.kind) {
      if |stack| < 2 {
        return Fail(Insufficient);
      }
      var b := stack[|stack| - 1];
      var a := stack[|stack| - 2];
      var popped := stack[..|stack| - 2];
      match Apply(OpOf(t.kind), a, b)
      case Fail(_) =>
        return Fail(ZeroDivision);
      case Ok(v) =>
        return Ok(popped + [v]);
    } else if strict {
      return Fail(BadToken(t.kind));
    }
    return Ok(stack);
  }

  /** The loop run over `ts` from stack `st`: the final stack, or the first
      error it raised. */
  function PostfixFrom<E>(st: seq<int>, ts: seq<Token>, strict: bool): Result<seq<int>, CalcError<E>>
    requires Lexemes(ts)
    decreases |ts|
  {
    if ts == [] then Ok(st)
    else
      match PostfixStep(st, ts[0], strict)
      case Fail(err) => Fail(err)
      case Ok(st') => PostfixFrom(st', ts[1..], strict)
  }

  /** `compute_postfix` on a lexer whose generator yields `ts` and then
      raises `err`, if any: the loop's error, else the lexer's, else the
      single value left on the stack. */
  function PostfixResult<E>(ts: seq<Token>, err: Option<E>, strict: bool): Result<int, CalcError<E>>
    requires Lexemes(ts)
  {
    match PostfixFrom<E>([], ts, strict)
    case Fail(e) => Fail(e)
    case Ok(st) =>
      if err.Some? then Fail(Lexing(err.value))
      else if |st| != 1 then Fail(TooManyValues)
      else Ok(st[0])
  }

  lemma {:induction false} LexemesConcat(a: seq<Token>, b: seq<Token>)
    requires Lexemes(a) && Lexemes(b)
    ensures Lexemes(a + b)
  {
    forall i | 0 <= i < |a + b|
      ensures Lexeme((a + b)[i])
    {
      if i >= |a| {
        assert (a + b)[i] == b[i - |a|];
      }
    }
  }

  /** The loop over one more token in front of `ts`. */
  lemma {:induction false} PostfixCons<E>(st: seq<int>, t: Token, ts: seq<Token>, strict: bool)
    requires Lexeme(t) && Lexemes(ts)
    ensures Lexemes([t] + ts)
    ensures PostfixFrom<E>(st, [t] + ts, strict) ==
            if PostfixStep<E>(st, t, strict).Fail? then PostfixStep<E>(st, t, strict)
            else PostfixFrom<E>(PostfixStep<E>(st, t, strict).value, ts, strict)
  {
    LexemesConcat([t], ts);
    assert ([t] + ts)[0] == t && ([t] + ts)[1..] == ts;
  }

  /** The tokens of a tree in postfix order: what `print_postfix` writes. */
  function PostfixTokens(e: Exp): (ts: seq<Token>)
    requires NonNegative(e)
    ensures forall i :: 0 <= i < |ts| ==> Lexeme(ts[i]) && ts[i].kind != EOF
  {
    match e
    case Num(n) => [Token(DecimalText(n), NUM)]
    case Bin(op, l, r) => PostfixTokens(l) + PostfixTokens(r) + [Token(Symbol(op), KindOf(op))]
  }

  /** An operator token with both operands' values on top of the stack. */
  lemma {:induction false} PostfixApply<E>(st: seq<int>, a: int, b: int, op: BinOp, more: seq<Token>, strict: bool)
    requires Lexemes(more)
    ensures Lexemes([Token(Symbol(op), KindOf(op))] + more)
    ensures PostfixFrom<E>(st + [a] + [b], [Token(Symbol(op), KindOf(op))] + more, strict) ==
            if Apply(op, a, b).Ok? then PostfixFrom<E>(st + [Apply(op, a, b).value], more, strict)
            else Fail(ZeroDivision)
  {
    var s2 := st + [a] + [b];
    assert s2[|s2| - 2] == a && s2[|s2| - 1] == b && s2[..|s2| - 2] == st;
    PostfixCons<E>(s2, Token(Symbol(op), KindOf(op)), more, strict);
  }

  /** The stack machine run over the postfix tokens of `e` and then `more`,
      from a stack `st`: it pushes `e`'s value on `st` and goes on with
      `more`, or raises ZeroDivisionError where `eval` does. */
  lemma {:induction false} PostfixComputesEval<E>(st: seq<int>, e: Exp, more: seq<Token>, strict: bool)
    requires NonNegative(e) && Lexemes(more)
    ensures Lexemes(PostfixTokens(e) + more)
    ensures PostfixFrom<E>(st, PostfixTokens(e) + more, strict) ==
            if Eval(e).Ok? then PostfixFrom<E>(st + [Eval(e).value], more, strict)
            else Fail(ZeroDivision)
    decreases e
  {
    LexemesConcat(PostfixTokens(e), more);
    match e
    case Num(n) =>
      PostfixCons<E>(st, Token(DecimalText(n), NUM), more, strict);
    case Bin(op, l, r) =>
      var tl, tr, opTok := PostfixTokens(l), PostfixTokens(r), Token(Symbol(op), KindOf(op));
      var afterR := [opTok] + more;
      var afterL := tr + afterR;
      assert PostfixTokens(e) + more == tl + afterL;
      LexemesConcat([opTok], more);
      LexemesConcat(tr, afterR);
      PostfixComputesEval<E>(st, l, afterL, strict);
      if Eval(l).Ok? {
        PostfixComputesEval<E>(st + [Eval(l).value], r, afterR, strict);
        if Eval(r).Ok? {
          PostfixApply<E>(st, Eval(l).value, Eval(r).value, op, more, strict);
        }
      }
  }

  /** The text of a node lexes as its operands' tokens, then its operator. */
  lemma {:induction false} LexPostfixNode(op: BinOp, l: Exp, r: Exp)
    requires NonNegative(l) && NonNegative(r)
    requires Yielded(PrintPostfix(l), 0) == (PostfixTokens(l), None)
    requires Yielded(PrintPostfix(r), 0) == (PostfixTokens(r), None)
    ensures Yielded(PrintPostfix(Bin(op, l, r)), 0) == (PostfixTokens(Bin(op, l, r)), None)
  {
    LexSymbol(op);
    LexJoin(PrintPostfix(l), PrintPostfix(r), Symbol(op), PostfixTokens(l), PostfixTokens(r), [Token(Symbol(op), KindOf(op))]);
  }

  /** The lexer of 3_ParsingArithExp/Lexer.py reads back from
      `print_postfix` exactly the tree's tokens in postfix order. */
  lemma {:induction false} LexPrintPostfix(e: Exp)
    requires NonNegative(e)
    ensures Yielded(PrintPostfix(e), 0) == (PostfixTokens(e), None)
  {
    match e
    case Num(n) =>
      YieldedDigits(DecimalText(n));
    case Bin(op, l, r) =>
      LexPrintPostfix(l);
      LexPrintPostfix(r);
      LexPostfixNode(op, l, r);
  }

  /** The tree behind the first doctest of `compute_postfix`, with the
      text `print_postfix` writes for it and its value. */
  lemma {:induction false} PostfixDoctestOne() returns (e: Exp)
    ensures NonNegative(e) && PrintPostfix(e) == "3 4 + 2 * 7 /" && Eval(e) == Ok(2)
  {
    var sum := Bin(Add, Num(3), Num(4));
    PostfixNode(Add, Num(3), Num(4), "3", "4");
    assert "3" + " " + "4" + " " + "+" == "3 4 +";
    var prod := Bin(Mul, sum, Num(2));
    PostfixNode(Mul, sum, Num(2), "3 4 +", "2");
    assert "3 4 +" + " " + "2" + " " + "*" == "3 4 + 2 *";
    e := Bin(Div, prod, Num(7));
    PostfixNode(Div, prod, Num(7), "3 4 + 2 *", "7");
    assert "3 4 + 2 *" + " " + "7" + " " + "/" == "3 4 + 2 * 7 /";
  }

  /** The tree behind the second doctest. */
  lemma {:induction false} PostfixDoctestTwo() returns (e: Exp)
    ensures NonNegative(e) && PrintPostfix(e) == "4 2 5 * + 1 3 2 * + /" && Eval(e) == Ok(2)
  {
    var l, r := Bin(Add, Num(4), Bin(Mul, Num(2), Num(5))), Bin(Add, Num(1), Bin(Mul, Num(3), Num(2)));
    e := Bin(Div, l, r);
    PostfixTwoPrinted();
    assert Eval(l) == Ok(14) && Eval(r) == Ok(7);
  }

  lemma {:induction false} PostfixTwoPrinted()
    ensures PrintPostfix(Bin(Div, Bin(Add, Num(4), Bin(Mul, Num(2), Num(5))), Bin(Add, Num(1), Bin(Mul, Num(3), Num(2)))))
            == "4 2 5 * + 1 3 2 * + /"
  {
    var l, r := Bin(Add, Num(4), Bin(Mul, Num(2), Num(5))), Bin(Add, Num(1), Bin(Mul, Num(3), Num(2)));
    PostfixSumOfProduct(4, 2, 5, "4", "2", "5");
    PostfixSumOfProduct(1, 3, 2, "1", "3", "2");
    PostfixNode(Div, l, r, "4 2 5 * +", "1 3 2 * +");
    PostfixTwoText();
  }

  lemma {:induction false} PostfixTwoText()
    ensures "4 2 5 * +" + " " + "1 3 2 * +" + " " + "/" == "4 2 5 * + 1 3 2 * + /"
  {
    var q := "1 3 2 * + /";
    assert "1 3 2 * +" + " " + "/" == q;
  }

  /** a + b * c is printed "a b c * +". */
  lemma {:induction false} PostfixSumOfProduct(a: nat, b: nat, c: nat, sa: string, sb: string, sc: string)
    requires PrintPostfix(Num(a)) == sa && PrintPostfix(Num(b)) == sb && PrintPostfix(Num(c)) == sc
    ensures PrintPostfix(Bin(Add, Num(a), Bin(Mul, Num(b), Num(c)))) == sa + " " + sb + " " + sc + " * +"
  {
    PostfixNode(Mul, Num(b), Num(c), sb, sc);
    PostfixNode(Add, Num(a), Bin(Mul, Num(b), Num(c)), sa, sb + " " + sc + " *");
    assert sa + " " + (sb + " " + sc + " " + "*") + " " + "+" == sa + " " + sb + " " + sc + " * +";
  }

  /** `compute_postfix` on the tokens of a tree is `evaluate` of the tree. */
  lemma {:induction false} PostfixResultIsEval<E>(e: Exp, strict: bool)
    requires NonNegative(e)
    ensures PostfixResult<E>(PostfixTokens(e), None, strict) ==
            match Eval(e)
            case Ok(v) => Ok(v)
            case Fail(_) => Fail(ZeroDivision)
  {
    PostfixComputesEval<E>([], e, [], strict);
    assert PostfixTokens(e) + [] == PostfixTokens(e);
    assert [] + [1] == [1];
  }

  /** A stray operator with fewer than two values below it raises
      "Insufficient values", and two values with no operator raise "too many
      values". */
  lemma {:induction false} PostfixStackErrors<E>(strict: bool)
    ensures PostfixResult<E>([Token("3", NUM), Token("+", ADD)], None, strict) == Fail(Insufficient)
    ensures PostfixResult<E>([Token("3", NUM), Token("4", NUM)], None, strict) == Fail(TooManyValues)
    ensures PostfixResult<E>([], None, strict) == Fail(TooManyValues)
  {
    var t3, tp, t4 := Token("3", NUM), Token("+", ADD), Token("4", NUM);
    assert DecimalValue("3") == 3 && DecimalValue("4") == 4;
    var empty: seq<int> := [];
    assert empty + [3] == [3] && [3] + [4] == [3, 4];
    PostfixCons<E>([], t3, [tp], strict);
    PostfixCons<E>([3], tp, [], strict);
    assert [t3] + [tp] == [t3, tp];
    PostfixCons<E>([], t3, [t4], strict);
    PostfixCons<E>([3], t4, [], strict);
    assert [t3] + [t4] == [t3, t4];
  }

  /** `compute_prefix` of 1_ArithLexing: like `Prefix.Parse`, but it returns
      the value and divides as soon as both operands are known. */
  function PrefixValue<E(==)>(items: seq<Item<E>>): (r: Result<(int, seq<Item<E>>), CalcError<E>>)
    requires WellFormed(items)
    ensures r.Ok? ==> ProperSuffix(r.value.1, items) && WellFormed(r.value.1)
    decreases |items|
  {
    match items[0]
    case Bad(err) => Fail(Lexing(err))
    case Tok(t) =>
      if t.kind == NUM then
        Ok((DecimalValue(t.text), items[1..]))
      else if IsOperator(t.kind) then
        match PrefixValue(items[1..])
        case Fail(err) => Fail(err)
        case Ok((a, rest)) =>
          match PrefixValue(rest)
          case Fail(err) => Fail(err)
          case Ok((b, rest')) =>
            ProperSuffixTrans(rest', rest, items[1..]);
            ProperSuffixTrans(rest', items[1..], items);
            match Apply(OpOf(t.kind), a, b)
            case Fail(_) => Fail(ZeroDivision)
            case Ok(v) => Ok((v, rest'))
      else
        Fail(BadToken(t.kind))
  }

  /** The evaluator is the parser followed by `eval`: on a stream the parser
      accepts it returns the tree's value (or raises ZeroDivisionError where
      `eval` does) and stops where the parser stops; on a stream the parser
      rejects it raises too. */
  lemma {:induction false} PrefixValueIsEvalOfParse<E>(items: seq<Item<E>>)
    requires WellFormed(items)
    ensures match Parse(items)
            case Fail(_) => PrefixValue(items).Fail?
            case Ok((e, rest)) =>
              match Eval(e)
              case Ok(v) => PrefixValue(items) == Ok((v, rest))
              case Fail(_) => PrefixValue(items) == Fail(ZeroDivision)
    decreases |items|
  {
    if items[0].Tok? && IsOperator(items[0].token.kind) {
      PrefixValueIsEvalOfParse(items[1..]);
      if Parse(items[1..]).Ok? {
        PrefixValueIsEvalOfParse(Parse(items[1..]).value.1);
      }
    }
  }
}
