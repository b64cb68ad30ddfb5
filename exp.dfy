/** The arithmetic expression trees of 4_bottomUp/Exp.py (repeated, with
    type hints only, in 6_LetBinding/Exp1.py): `Num` leaves and the four
    `BinaryExpression` subclasses `Add`, `Sub`, `Mul` and `Div`, their
    `eval` and `__str__`, and the prefix, infix and postfix printers. */
module Exp {
  import opened Wrappers
  import opened Tokens

  /** The four subclasses of `BinaryExpression`. */
  datatype BinOp = Add | Sub | Mul | Div

  datatype Exp = Num(num: int) | Bin(op: BinOp, left: Exp, right: Exp)

  /** Python's `//`: the quotient rounded towards minus infinity. */
  function FloorDiv(a: int, b: int): int
    requires b != 0
  {
    if b > 0 then a / b else (-a) / (-b)
  }

  /** `FloorDiv` rounds towards minus infinity whatever the signs: the
      quotient times the divisor lies within one divisor of the dividend,
      on the side of zero the divisor's sign gives. */
  lemma {:induction false} FloorDivIsFloor(a: int, b: int)
    requires b != 0
    ensures b > 0 ==> FloorDiv(a, b) * b <= a < FloorDiv(a, b) * b + b
    ensures b < 0 ==> FloorDiv(a, b) * b >= a > FloorDiv(a, b) * b + b
  {
    var q := FloorDiv(a, b);
    if b < 0 {
      assert q * b == (-q) * (-b);
      assert q == (-a) / (-b);
    }
  }

  /** The only failure of `eval`: ZeroDivisionError from `//`. */
  datatype EvalError = DivisionByZero

  /** Applies the operator of a binary node to its children's values. */
  function Apply(op: BinOp, a: int, b: int): (r: Result<int, EvalError>)
    ensures r.Fail? <==> op == Div && b == 0
  {
    match op
    case Add => Ok(a + b)
    case Sub => Ok(a - b)
    case Mul => Ok(a * b)
    case Div => if b == 0 then Fail(DivisionByZero) else Ok(FloorDiv(a, b))
  }

  /** `eval` (and `evaluate(exp)`, which only calls it): the left child is
      evaluated first, then the right one. */
  function Eval(e: Exp): Result<int, EvalError>
  {
    match e
    case Num(n) => Ok(n)
    case Bin(op, l, r) =>
      match Eval(l)
      case Fail(err) => Fail(err)
      case Ok(a) =>
        match Eval(r)
        case Fail(err) => Fail(err)
        case Ok(b) => Apply(op, a, b)
  }

  /** A tree without a `Div` node, or whose divisors never evaluate to 0. */
  predicate DivFree(e: Exp)
  {
    match e
    case Num(_) => true
    case Bin(op, l, r) => op != Div && DivFree(l) && DivFree(r)
  }

  /** Only division can make `eval` fail. */
  lemma {:induction false} DivFreeEvaluates(e: Exp)
    requires DivFree(e)
    ensures Eval(e).Ok?
  {
    match e
    case Num(_) =>
    case Bin(_, l, r) =>
      DivFreeEvaluates(l);
      DivFreeEvaluates(r);
  }

  function Symbol(op: BinOp): (s: string)
    ensures |s| == 1
  {
    match op
    case Add => "+"
    case Sub => "-"
    case Mul => "*"
    case Div => "/"
  }

  /** `__str__`: a number prints its value, a binary node only its operator. */
  function Str(e: Exp): string
  {
    match e
    case Num(n) => IntText(n)
    case Bin(op, _, _) => Symbol(op)
  }

  /** `print_prefix`: "op left right". */
  function PrintPrefix(e: Exp): string
  {
    match e
    case Num(_) => Str(e)
    case Bin(_, l, r) => Str(e) + " " + PrintPrefix(l) + " " + PrintPrefix(r)
  }

  /** `print_infix`: "(left) op (right)". */
  function PrintInfix(e: Exp): string
  {
    match e
    case Num(_) => Str(e)
    case Bin(_, l, r) => "(" + PrintInfix(l) + ") " + Str(e) + " (" + PrintInfix(r) + ")"
  }

  /** `print_postfix`: "left right op". */
  function PrintPostfix(e: Exp): string
  {
    match e
    case Num(_) => Str(e)
    case Bin(_, l, r) => PrintPostfix(l) + " " + PrintPostfix(r) + " " + Str(e)
  }

  /** The doctests of `eval` and `evaluate`: 28 / 4 is 7, 22 / 4 is 5 (the
      quotient is rounded down), 7 * 4 is 28; `__str__` of a number is its
      value and of a binary node its operator. */
  lemma {:induction false} EvalExamples()
    ensures Eval(Num(3)) == Ok(3) && Str(Num(3)) == "3"
    ensures Eval(Bin(Div, Num(28), Num(4))) == Ok(7)
    ensures Eval(Bin(Div, Num(22), Num(4))) == Ok(5)
    ensures Eval(Bin(Mul, Num(7), Num(4))) == Ok(28)
    ensures Str(Bin(Div, Num(3), Num(4))) == "/"
  {
    assert DecimalText(3) == "3";
  }

  /** The three printers on a node, given its children's texts. */
  lemma {:induction false} PrintNode(op: BinOp, l: Exp, r: Exp, pl: string, pr: string)
    requires PrintPrefix(l) == pl && PrintPrefix(r) == pr
    ensures PrintPrefix(Bin(op, l, r)) == Symbol(op) + " " + pl + " " + pr
  {
  }

  lemma {:induction false} InfixNode(op: BinOp, l: Exp, r: Exp, sl: string, sr: string)
    requires PrintInfix(l) == sl && PrintInfix(r) == sr
    ensures PrintInfix(Bin(op, l, r)) == "(" + sl + ") " + Symbol(op) + " (" + sr + ")"
  {
  }

  lemma {:induction false} PostfixNode(op: BinOp, l: Exp, r: Exp, ql: string, qr: string)
    requires PrintPostfix(l) == ql && PrintPostfix(r) == qr
    ensures PrintPostfix(Bin(op, l, r)) == ql + " " + qr + " " + Symbol(op)
  {
  }

  /** A number prints as its decimal text under all three printers. */
  lemma {:induction false} PrintLeaf(n: nat, text: string)
    requires DecimalText(n) == text
    ensures PrintPrefix(Num(n)) == text && PrintInfix(Num(n)) == text && PrintPostfix(Num(n)) == text
  {
  }

  /** The subtree `28 / 4` of both doctests of the printers. */
  lemma {:induction false} SharedSubtree()
    ensures var d := Bin(Div, Num(28), Num(4));
            PrintPrefix(d) == "/ 28 4" && PrintPostfix(d) == "28 4 /" && Eval(d) == Ok(7)
  {
    assert DecimalText(28) == "28";
    PrintLeaf(28, "28");
    PrintLeaf(4, "4");
    PrintNode(Div, Num(28), Num(4), "28", "4");
    PostfixNode(Div, Num(28), Num(4), "28", "4");
    assert "/" + " " + "28" + " " + "4" == "/ 28 4";
    assert "28" + " " + "4" + " " + "/" == "28 4 /";
  }

  lemma {:induction false} InfixSubtree()
    ensures PrintInfix(Bin(Div, Num(28), Num(4))) == "(28) / (4)"
  {
    assert DecimalText(28) == "28";
    PrintLeaf(28, "28");
    PrintLeaf(4, "4");
    InfixNode(Div, Num(28), Num(4), "28", "4");
    assert "(" + "28" + ") " + "/" + " (" + "4" + ")" == "(28) / (4)";
  }

  /** The doctests of the printers on `(28 / 4) * 5`, whose value is 35:
      prefix ... */
  lemma {:induction false} PrefixExampleSmall()
    ensures PrintPrefix(Bin(Mul, Bin(Div, Num(28), Num(4)), Num(5))) == "* / 28 4 5"
    ensures Eval(Bin(Mul, Bin(Div, Num(28), Num(4)), Num(5))) == Ok(35)
  {
    SharedSubtree();
    PrintLeaf(5, "5");
    PrintNode(Mul, Bin(Div, Num(28), Num(4)), Num(5), "/ 28 4", "5");
    assert "*" + " " + "/ 28 4" + " " + "5" == "* / 28 4 5";
  }

  /** ... infix ... */
  lemma {:induction false} InfixExampleSmall()
    ensures PrintInfix(Bin(Mul, Bin(Div, Num(28), Num(4)), Num(5))) == "((28) / (4)) * (5)"
  {
    InfixSubtree();
    PrintLeaf(5, "5");
    InfixNode(Mul, Bin(Div, Num(28), Num(4)), Num(5), "(28) / (4)", "5");
    InfixTextSmall();
  }

  lemma {:induction false} InfixTextSmall()
    ensures "(" + "(28) / (4)" + ") " + "*" + " (" + "5" + ")" == "((28) / (4)) * (5)"
  {
    var p := "((28) / (4))";
    assert "(" + "(28) / (4)" + ")" == p;
  }

  /** ... and postfix. */
  lemma {:induction false} PostfixExampleSmall()
    ensures PrintPostfix(Bin(Mul, Bin(Div, Num(28), Num(4)), Num(5))) == "28 4 / 5 *"
  {
    SharedSubtree();
    PrintLeaf(5, "5");
    PostfixNode(Mul, Bin(Div, Num(28), Num(4)), Num(5), "28 4 /", "5");
    assert "28 4 /" + " " + "5" + " " + "*" == "28 4 / 5 *";
  }

  /** The doctests of the printers on `(50 / (28 / 4)) * (28 / 4)`, whose
      value is 49: prefix ... */
  lemma {:induction false} PrefixExampleShared()
    ensures var d := Bin(Div, Num(28), Num(4));
            PrintPrefix(Bin(Mul, Bin(Div, Num(50), d), d)) == "* / 50 / 28 4 / 28 4" &&
            Eval(Bin(Mul, Bin(Div, Num(50), d), d)) == Ok(49)
  {
    SharedSubtree();
    PrefixLeftShared();
    var d := Bin(Div, Num(28), Num(4));
    PrintNode(Mul, Bin(Div, Num(50), d), d, "/ 50 / 28 4", "/ 28 4");
    assert "*" + " " + "/ 50 / 28 4" + " " + "/ 28 4" == "* / 50 / 28 4 / 28 4";
  }

  lemma {:induction false} PrefixLeftShared()
    ensures var l := Bin(Div, Num(50), Bin(Div, Num(28), Num(4)));
            PrintPrefix(l) == "/ 50 / 28 4" && Eval(l) == Ok(7)
  {
    SharedSubtree();
    var d := Bin(Div, Num(28), Num(4));
    assert DecimalText(50) == "50";
    PrintLeaf(50, "50");
    PrintNode(Div, Num(50), d, "50", "/ 28 4");
    assert "/" + " " + "50" + " " + "/ 28 4" == "/ 50 / 28 4";
  }

  lemma {:induction false} InfixLeftShared()
    ensures PrintInfix(Bin(Div, Num(50), Bin(Div, Num(28), Num(4)))) == "(50) / ((28) / (4))"
  {
    InfixSubtree();
    assert DecimalText(50) == "50";
    PrintLeaf(50, "50");
    InfixNode(Div, Num(50), Bin(Div, Num(28), Num(4)), "50", "(28) / (4)");
    InfixTextLeft();
  }

  lemma {:induction false} InfixTextLeft()
    ensures "(" + "50" + ") " + "/" + " (" + "(28) / (4)" + ")" == "(50) / ((28) / (4))"
  {
    var q := "((28) / (4))";
    assert " (" + "(28) / (4)" + ")" == " " + q;
  }

  /** ... infix ... */
  lemma {:induction false} InfixExampleShared()
    ensures var d := Bin(Div, Num(28), Num(4));
            PrintInfix(Bin(Mul, Bin(Div, Num(50), d), d)) == "((50) / ((28) / (4))) * ((28) / (4))"
  {
    InfixSubtree();
    InfixLeftShared();
    var d := Bin(Div, Num(28), Num(4));
    InfixNode(Mul, Bin(Div, Num(50), d), d, "(50) / ((28) / (4))", "(28) / (4)");
    InfixTextShared();
  }

  lemma {:induction false} InfixTextShared()
    ensures "(" + "(50) / ((28) / (4))" + ") " + "*" + " (" + "(28) / (4)" + ")" == "((50) / ((28) / (4))) * ((28) / (4))"
  {
    var p, q := "((50) / ((28) / (4)))", "((28) / (4))";
    assert "(" + "(50) / ((28) / (4))" + ")" == p;
    assert "(" + "(28) / (4)" + ")" == q;
  }

  /** ... and postfix. */
  lemma {:induction false} PostfixExampleShared()
    ensures var d := Bin(Div, Num(28), Num(4));
            PrintPostfix(Bin(Mul, Bin(Div, Num(50), d), d)) == "50 28 4 / / 28 4 / *"
  {
    SharedSubtree();
    var d := Bin(Div, Num(28), Num(4));
    assert DecimalText(50) == "50";
    PrintLeaf(50, "50");
    PostfixNode(Div, Num(50), d, "50", "28 4 /");
    var left := "50 28 4 / /";
    assert "50" + " " + "28 4 /" + " " + "/" == left;
    PostfixNode(Mul, Bin(Div, Num(50), d), d, left, "28 4 /");
    assert left + " " + "28 4 /" + " " + "*" == "50 28 4 / / 28 4 / *";
  }

  /** The doctests of 6_LetBinding/Exp1.py on nested nodes: 5 + (3 + 4) is
      12, 5 - (3 - 4) is 6, (3 + 4) * (3 * 4) is 84, and (0 - 10) / (0 - 5)
      is 2 (both operands negative). */
  lemma {:induction false} NestedExamples()
    ensures Eval(Bin(Add, Num(5), Bin(Add, Num(3), Num(4)))) == Ok(12)
    ensures Eval(Bin(Sub, Num(5), Bin(Sub, Num(3), Num(4)))) == Ok(6)
    ensures Eval(Bin(Mul, Bin(Add, Num(3), Num(4)), Bin(Mul, Num(3), Num(4)))) == Ok(84)
    ensures Eval(Bin(Div, Bin(Sub, Num(0), Num(10)), Bin(Sub, Num(0), Num(5)))) == Ok(2)
  {
  }
}
