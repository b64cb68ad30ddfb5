/** The class-based trees of 2_ArithRepresentation/Exp1.py: `Num` and the
    four `BinaryExpression` subclasses evaluate and print exactly as the
    trees of `Exp` do; only `print_infix` differs. */
module ArithClasses {
  import opened Wrappers
  import opened Exp

  /** `print_infix` as written: it tests `isinstance(s, BinaryExpression)`
      on the string `s = str(exp)`, which never holds, so it returns
      `str(exp)` and never looks at the children. */
  function PrintInfixAsWritten(e: Exp): string
  {
    Str(e)
  }

  /** On every binary node the written `print_infix` drops both operands:
      it prints one character, the operator, where the recursive printer
      prints both children around it. */
  lemma {:induction false} AsWrittenDropsOperands(e: Exp)
    requires e.Bin?
    ensures PrintInfixAsWritten(e) == Symbol(e.op)
    ensures PrintInfixAsWritten(e) != PrintInfix(e)
  {
    assert |PrintInfix(e)| > 1;
  }

  /** The doctest tree `(28 / 4) * 5` prints as '*' (the doctest expects
      28), where the recursive printer writes '((28) / (4)) * (5)'. */
  lemma {:induction false} AsWrittenExample()
    ensures var e := Bin(Mul, Bin(Div, Num(28), Num(4)), Num(5));
            PrintInfixAsWritten(e) == "*" && PrintInfixAsWritten(e) != "28" &&
            PrintInfix(e) == "((28) / (4)) * (5)"
  {
    InfixExampleSmall();
  }

  /** `print_infix` as evidently intended: it asks whether the node, not
      its text, is a `BinaryExpression`, and puts the operator text `s`
      between the two parenthesised operands (the f-string as written has
      the letter `s` where `{s}` is meant). It is the recursive printer of
      `Exp`. */
  function PrintInfixCorrected(e: Exp): (r: string)
    ensures r == PrintInfix(e)
  {
    var s := Str(e);
    if e.Bin? then "(" + PrintInfixCorrected(e.left) + ") " + s + " (" + PrintInfixCorrected(e.right) + ")"
    else s
  }

  /** Where the parts of `(pl) s (pr)` sit. */
  lemma {:induction false} InfixLayout(pl: string, s: string, pr: string)
    requires |s| == 1
    ensures var t := "(" + pl + ") " + s + " (" + pr + ")";
            |t| == |pl| + |pr| + 7 &&
            t[1..|pl| + 1] == pl && t[|pl| + 3] == s[0] && t[|pl| + 6..|t| - 1] == pr
  {
    var a := "(" + pl + ") " + s;
    var t := a + " (" + pr + ")";
    assert a[1..|pl| + 1] == pl;
    assert t[..|a|] == a;
    assert t[|pl| + 6..|t| - 1] == pr;
  }

  /** The corrected printer writes both operands: the left one right after
      the opening parenthesis, the operator in the middle, the right one
      just before the closing parenthesis. */
  lemma {:induction false} CorrectedWritesOperands(op: BinOp, l: Exp, r: Exp)
    ensures var t, pl, pr := PrintInfixCorrected(Bin(op, l, r)), PrintInfixCorrected(l), PrintInfixCorrected(r);
            |t| == |pl| + |pr| + 7 &&
            t[1..|pl| + 1] == pl && t[|pl| + 3] == Symbol(op)[0] && t[|pl| + 6..|t| - 1] == pr
  {
    InfixLayout(PrintInfixCorrected(l), Symbol(op), PrintInfixCorrected(r));
  }

  /** On the doctest tree the corrected printer writes '((28) / (4)) * (5)'. */
  lemma {:induction false} CorrectedExample()
    ensures PrintInfixCorrected(Bin(Mul, Bin(Div, Num(28), Num(4)), Num(5))) == "((28) / (4)) * (5)"
  {
    AsWrittenExample();
  }

  /** The doctests of `eval` and `__str__` of the four operators on 3 and
      4, and of `evaluate`. */
  lemma {:induction false} EvalExamples()
    ensures Eval(Bin(Add, Num(3), Num(4))) == Ok(7) && Str(Bin(Add, Num(3), Num(4))) == "+"
    ensures Eval(Bin(Sub, Num(3), Num(4))) == Ok(-1) && Str(Bin(Sub, Num(3), Num(4))) == "-"
    ensures Eval(Bin(Mul, Num(3), Num(4))) == Ok(12) && Str(Bin(Mul, Num(3), Num(4))) == "*"
    ensures Eval(Bin(Div, Num(28), Num(4))) == Ok(7) && Eval(Bin(Div, Num(22), Num(4))) == Ok(5)
    ensures Eval(Bin(Mul, Num(7), Num(4))) == Ok(28)
  {
  }
}
