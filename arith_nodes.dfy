/** The untyped expression trees of 2_ArithRepresentation/Exp0.py: a `Node`
    holds a value and two optional children, `evaluate` reads a leaf with
    `int` and applies the operator text of an inner node, and the two
    printers write fully parenthesised infix and postfix text. */
module ArithNodes {
  import opened Wrappers
  import opened Tokens
  import opened Parens
  import Exp

  /** `Node.value`: a number, or a text such as an operator. */
  datatype Label = Number(n: int) | Text(s: string)

  /** A `Node`, or Python's `None` where a child (or the tree) is missing. */
  datatype Tree = Empty | Node(value: Label, left: Tree, right: Tree)

  /** `Node(value)`: both children `None`. */
  function Leaf(v: Label): (t: Tree)
    ensures t.Node? && t.value == v && t.left == Empty && t.right == Empty
  {
    Node(v, Empty, Empty)
  }

  /** What makes `evaluate` stop without a number: `int` of a text that is
      not a number raises ValueError; '/' is Python's true division, whose
      floating-point result is not modelled; any other operator text
      matches no branch and `evaluate` returns `None`. */
  datatype EvalError = NotANumber(text: string) | TrueDivision | NoValue

  /** `int(node.value)` on a leaf. */
  function LabelValue(v: Label): (r: Result<int, EvalError>)
    ensures v.Number? ==> r == Ok(v.n)
    ensures v.Text? ==> (r.Ok? <==> v.s != [] && AllDigits(v.s))
  {
    match v
    case Number(n) => Ok(n)
    case Text(s) => if s != [] && AllDigits(s) then Ok(DecimalValue(s)) else Fail(NotANumber(s))
  }

  /** The if-chain of `evaluate` on the operator of an inner node. */
  function Operate(v: Label, a: int, b: int): (r: Result<int, EvalError>)
    ensures r.Ok? <==> v in {Text("+"), Text("-"), Text("*")}
  {
    if v == Text("+") then Ok(a + b)
    else if v == Text("-") then Ok(a - b)
    else if v == Text("*") then Ok(a * b)
    else if v == Text("/") then Fail(TrueDivision)
    else Fail(NoValue)
  }

  /** `evaluate(node)`: `None` is 0, a leaf is `int(value)`, and any other
      node (even one with a single child) combines both sides, left first. */
  function Evaluate(t: Tree): Result<int, EvalError>
  {
    match t
    case Empty => Ok(0)
    case Node(v, Empty, Empty) => LabelValue(v)
    case Node(v, l, r) =>
      match Evaluate(l)
      case Fail(err) => Fail(err)
      case Ok(a) =>
        match Evaluate(r)
        case Fail(err) => Fail(err)
        case Ok(b) => Operate(v, a, b)
  }

  /** `str(node.value)`. */
  function LabelText(v: Label): string
  {
    match v
    case Number(n) => IntText(n)
    case Text(s) => s
  }

  /** `print_infix`: "(left value right)", without spaces. */
  function PrintInfix(t: Tree): string
  {
    match t
    case Empty => ""
    case Node(v, Empty, Empty) => LabelText(v)
    case Node(v, l, r) => "(" + PrintInfix(l) + LabelText(v) + PrintInfix(r) + ")"
  }

  /** `print_postfix`: both children, then the value and one space. */
  function PrintPostfix(t: Tree): string
  {
    match t
    case Empty => ""
    case Node(v, l, r) => PrintPostfix(l) + PrintPostfix(r) + LabelText(v) + " "
  }

  /** A missing child counts as the number 0: a node with one child is
      evaluated as a binary node whose other operand is 0. */
  lemma {:induction false} MissingChildIsZero(v: Label, t: Tree)
    requires t != Empty
    ensures Evaluate(Node(v, Empty, t)) == Evaluate(Node(v, Leaf(Number(0)), t))
    ensures Evaluate(Node(v, t, Empty)) == Evaluate(Node(v, t, Leaf(Number(0))))
  {
  }

  /** The tree of `Exp.Exp` as a `Node` tree: a number is a leaf, a binary
      node is labelled with its operator's symbol. */
  function FromExp(e: Exp.Exp): (t: Tree)
    ensures t.Node? && (e.Bin? <==> t.left != Empty)
  {
    match e
    case Num(n) => Leaf(Number(n))
    case Bin(op, l, r) => Node(Text(Exp.Symbol(op)), FromExp(l), FromExp(r))
  }

  /** On the trees both representations share, `evaluate` agrees with the
      `eval` of the class-based trees, except that this one divides with
      Python's true division. */
  lemma {:induction false} EvaluateFromExp(e: Exp.Exp)
    ensures Exp.DivFree(e) ==> Exp.Eval(e).Ok? && Evaluate(FromExp(e)) == Ok(Exp.Eval(e).value)
    ensures !Exp.DivFree(e) ==> Evaluate(FromExp(e)) == Fail(TrueDivision)
  {
    match e
    case Num(_) =>
    case Bin(op, l, r) =>
      EvaluateFromExp(l);
      EvaluateFromExp(r);
      if Exp.DivFree(e) {
        Exp.DivFreeEvaluates(e);
      }
  }

  /** `print_postfix` writes what the postfix printer of the class-based
      trees writes, with one trailing space. */
  lemma {:induction false} PostfixFromExp(e: Exp.Exp)
    ensures PrintPostfix(FromExp(e)) == Exp.PrintPostfix(e) + " "
  {
    match e
    case Num(_) =>
    case Bin(op, l, r) =>
      PostfixFromExp(l);
      PostfixFromExp(r);
      var pl, pr, sym := Exp.PrintPostfix(l), Exp.PrintPostfix(r), Exp.Symbol(op);
      assert (pl + " ") + (pr + " ") + sym + " " == pl + " " + pr + " " + sym + " ";
  }

  /** The parentheses of a text, in order. */
  function ParensOf(s: string): (w: seq<Paren>)
    ensures |w| <= |s|
  {
    if s == [] then []
    else (if s[0] == '(' then [Open] else if s[0] == ')' then [Close] else []) + ParensOf(s[1..])
  }

  lemma {:induction false} ParensOfAppend(a: string, b: string)
    ensures ParensOf(a + b) == ParensOf(a) + ParensOf(b)
    decreases |a|
  {
    if a != [] {
      assert (a + b)[1..] == a[1..] + b;
      ParensOfAppend(a[1..], b);
    } else {
      assert a + b == b;
    }
  }

  predicate NoParens(s: string)
  {
    forall i :: 0 <= i < |s| ==> s[i] != '(' && s[i] != ')'
  }

  lemma {:induction false} ParensOfNone(s: string)
    requires NoParens(s)
    ensures ParensOf(s) == []
    decreases |s|
  {
    if s != [] {
      ParensOfNone(s[1..]);
    }
  }

  /** Every label's text is free of parentheses. */
  predicate PlainLabels(t: Tree)
  {
    match t
    case Empty => true
    case Node(v, l, r) => (v.Text? ==> NoParens(v.s)) && PlainLabels(l) && PlainLabels(r)
  }

  lemma {:induction false} LabelTextPlain(v: Label)
    requires v.Text? ==> NoParens(v.s)
    ensures ParensOf(LabelText(v)) == []
  {
    match v
    case Text(_) => ParensOfNone(v.s);
    case Number(n) =>
      var s := IntText(n);
      if n >= 0 {
        assert AllDigits(s);
      } else {
        assert s == "-" + DecimalText(-n) && AllDigits(DecimalText(-n));
      }
      ParensOfNone(s);
  }

  /** `print_infix` wraps every inner node in a matching pair of
      parentheses: the parentheses it writes are balanced. */
  lemma {:induction false} InfixBalanced(t: Tree)
    requires PlainLabels(t)
    ensures Balanced(ParensOf(PrintInfix(t)))
  {
    match t
    case Empty =>
      BalancedLowest([]);
    case Node(v, Empty, Empty) =>
      LabelTextPlain(v);
      BalancedLowest([]);
    case Node(v, l, r) =>
      InfixBalanced(l);
      InfixBalanced(r);
      LabelTextPlain(v);
      InfixNodeBalanced(PrintInfix(l), LabelText(v), PrintInfix(r));
  }

  lemma {:induction false} InfixNodeBalanced(pl: string, pv: string, pr: string)
    requires Balanced(ParensOf(pl)) && ParensOf(pv) == [] && Balanced(ParensOf(pr))
    ensures Balanced(ParensOf("(" + pl + pv + pr + ")"))
  {
    ParensOfNode(pl, pv, pr);
    BalancedWrap(ParensOf(pl), ParensOf(pr));
  }

  lemma {:induction false} ParensOfNode(pl: string, pv: string, pr: string)
    requires ParensOf(pv) == []
    ensures ParensOf("(" + pl + pv + pr + ")") == [Open] + ParensOf(pl) + ParensOf(pr) + [Close]
  {
    var s1 := "(" + pl;
    var s2 := s1 + pv;
    var s3 := s2 + pr;
    ParensOfAppend("(", pl);
    ParensOfAppend(s1, pv);
    ParensOfAppend(s2, pr);
    ParensOfAppend(s3, ")");
    assert ParensOf("(") == [Open] && ParensOf(")") == [Close];
    assert ParensOf(s2) == ParensOf(s1) + [];
    assert ParensOf(s1) + [] == ParensOf(s1);
  }

  /** The doctest trees: `23 + 19` and `20 - (23 - 19)`. */
  const Sum := Node(Text("+"), Leaf(Number(23)), Leaf(Number(19)))
  const Difference := Node(Text("-"), Leaf(Number(20)), Node(Text("-"), Leaf(Number(23)), Leaf(Number(19))))

  lemma {:induction false} SmallNumbers()
    ensures IntText(23) == "23" && IntText(19) == "19" && IntText(20) == "20"
  {
    assert DecimalText(23) == "23" && DecimalText(19) == "19" && DecimalText(20) == "20";
  }

  /** The doctests of `evaluate`: 42 and 16. */
  lemma {:induction false} EvaluateExamples()
    ensures Evaluate(Sum) == Ok(42) && Evaluate(Difference) == Ok(16)
  {
  }

  /** The doctests of `print_infix`: '(23+19)' and '(20-(23-19))'. */
  lemma {:induction false} InfixExamples()
    ensures PrintInfix(Sum) == "(23+19)"
    ensures PrintInfix(Difference) == "(20-(23-19))"
  {
    SmallNumbers();
    var inner := "(23-19)";
    assert PrintInfix(Difference.right) == inner;
    assert "(" + "20" + "-" + inner + ")" == "(20-(23-19))";
  }

  /** The doctests of `print_postfix`: '23 19 + ' and '20 23 19 - - '. */
  lemma {:induction false} PostfixSumExample()
    ensures PrintPostfix(Sum) == "23 19 + "
  {
    SmallNumbers();
  }

  lemma {:induction false} PostfixDifferenceExample()
    ensures PrintPostfix(Difference) == "20 23 19 - - "
  {
    SmallNumbers();
    var inner := "23 19 - ";
    assert PrintPostfix(Difference.right) == inner;
    assert PrintPostfix(Leaf(Number(20))) == "20 ";
    assert "20 " + inner + "-" + " " == "20 23 19 - - ";
  }
}
