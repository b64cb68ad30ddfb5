/** The arithmetic language with names of 6_LetBinding/Exp2.py,
    6_VarBiding/Exp2.py and 7_Visitors (Exp3.py, Exp4.py, Exp5.py): `Var`,
    `Num`, the four binary operators and `let v = def in body end`; `eval`
    under an environment, `size`, `__str__`, `to_str`, and the visitors
    `VisitorStr`, `VisitorEval` and the constant folder `VisitorOptimize`.
    A visitor's `accept`/`visit_*` dispatch is the `match` of a function. */
module LetLang {
  import opened Wrappers
  import opened Tokens
  import Exp

  datatype Expr =
    | Var(name: string)
    | Num(num: int)
    | Bin(op: Exp.BinOp, left: Expr, right: Expr)
    | Let(name: string, def: Expr, body: Expr)

  /** The environment: a Python `dict` from names to values. */
  type Env = map<string, int>

  /** `sys.exit("Variavel inexistente ...")` for a name that is not bound,
      and the ZeroDivisionError of `//`. */
  datatype EvalError = Unbound(name: string) | DivisionByZero

  /** One binary operator on two values, as `Exp.Apply` computes it. */
  function Apply(op: Exp.BinOp, a: int, b: int): (r: Result<int, EvalError>)
    ensures r.Fail? <==> op == Exp.Div && b == 0
    ensures r.Fail? ==> r.error == DivisionByZero
    ensures r.Ok? ==> Exp.Apply(op, a, b) == Ok(r.value)
  {
    match Exp.Apply(op, a, b)
    case Ok(v) => Ok(v)
    case Fail(_) => Fail(DivisionByZero)
  }

  /** `eval(env)` (and `VisitorEval`): left operand first; a `let`
      evaluates its definition in `env` and its body in a copy of `env`
      where the name is bound to that value, so the caller's `env` is
      never changed. */
  function Eval(e: Expr, env: Env): Result<int, EvalError>
  {
    match e
    case Var(x) => if x in env then Ok(env[x]) else Fail(Unbound(x))
    case Num(n) => Ok(n)
    case Bin(op, l, r) =>
      (match Eval(l, env)
       case Fail(err) => Fail(err)
       case Ok(a) =>
         match Eval(r, env)
         case Fail(err) => Fail(err)
         case Ok(b) => Apply(op, a, b))
    case Let(x, d, b) =>
      match Eval(d, env)
      case Fail(err) => Fail(err)
      case Ok(v) => Eval(b, env[x := v])
  }

  /** The names a `let` does not bind. */
  function FreeVars(e: Expr): set<string>
  {
    match e
    case Var(x) => {x}
    case Num(_) => {}
    case Bin(_, l, r) => FreeVars(l) + FreeVars(r)
    case Let(x, d, b) => FreeVars(d) + (FreeVars(b) - {x})
  }

  /** Two environments that agree on the free names of an expression. */
  predicate AgreeOn(names: set<string>, env1: Env, env2: Env)
  {
    forall x :: x in names ==> (x in env1 <==> x in env2) && (x in env1 ==> env1[x] == env2[x])
  }

  /** The value of an expression depends only on the bindings of its free
      names: a `let` hides the outer binding of its name from its body,
      and nothing else it is evaluated under matters. */
  lemma {:induction false} EvalLocal(e: Expr, env1: Env, env2: Env)
    requires AgreeOn(FreeVars(e), env1, env2)
    ensures Eval(e, env1) == Eval(e, env2)
  {
    match e
    case Var(_) =>
    case Num(_) =>
    case Bin(_, l, r) =>
      EvalLocal(l, env1, env2);
      EvalLocal(r, env1, env2);
    case Let(x, d, b) =>
      EvalLocal(d, env1, env2);
      if Eval(d, env1).Ok? {
        var v := Eval(d, env1).value;
        EvalLocal(b, env1[x := v], env2[x := v]);
      }
  }

  /** An expression whose free names are all bound never exits for an
      unbound name: only a division by zero can stop it. */
  lemma {:induction false} BoundNamesEvaluate(e: Expr, env: Env)
    requires FreeVars(e) <= env.Keys
    ensures Eval(e, env).Fail? ==> Eval(e, env).error == DivisionByZero
  {
    match e
    case Var(_) =>
    case Num(_) =>
    case Bin(_, l, r) =>
      BoundNamesEvaluate(l, env);
      BoundNamesEvaluate(r, env);
    case Let(x, d, b) =>
      BoundNamesEvaluate(d, env);
      if Eval(d, env).Ok? {
        BoundNamesEvaluate(b, env[x := Eval(d, env).value]);
      }
  }

  /** `size()`: 1 for a name or a number, 1 plus the operands for a binary
      node, 2 plus the definition and the body for a `let`. */
  function Size(e: Expr): (n: nat)
    ensures n >= 1
    ensures e.Bin? ==> n > Size(e.left) + Size(e.right)
    ensures e.Let? ==> n > Size(e.def) + Size(e.body) + 1
  {
    match e
    case Var(_) => 1
    case Num(_) => 1
    case Bin(_, l, r) => 1 + Size(l) + Size(r)
    case Let(_, d, b) => 2 + Size(d) + Size(b)
  }

  /** The number of nodes and of bound names of an expression. */
  function Nodes(e: Expr): nat
  {
    match e
    case Var(_) => 1
    case Num(_) => 1
    case Bin(_, l, r) => 1 + Nodes(l) + Nodes(r)
    case Let(_, d, b) => 1 + Nodes(d) + Nodes(b)
  }

  function Lets(e: Expr): nat
  {
    match e
    case Var(_) => 0
    case Num(_) => 0
    case Bin(_, l, r) => Lets(l) + Lets(r)
    case Let(_, d, b) => 1 + Lets(d) + Lets(b)
  }

  /** `size()` counts every node once and the name of every `let` once
      more. */
  lemma {:induction false} SizeCounts(e: Expr)
    ensures Size(e) == Nodes(e) + Lets(e)
  {
    match e
    case Var(_) =>
    case Num(_) =>
    case Bin(_, l, r) =>
      SizeCounts(l);
      SizeCounts(r);
    case Let(_, d, b) =>
      SizeCounts(d);
      SizeCounts(b);
  }

  /** `__str__` (and `VisitorStr`): "(l op r)" for a binary node and
      "let v = d in b end" for a `let`. */
  function Str(e: Expr): string
  {
    match e
    case Var(x) => x
    case Num(n) => IntText(n)
    case Bin(op, l, r) => "(" + Str(l) + " " + Exp.Symbol(op) + " " + Str(r) + ")"
    case Let(x, d, b) => "let " + x + " = " + Str(d) + " in " + Str(b) + " end"
  }

  /** `to_str` of 7_Visitors/Exp4.py: the same cases as `__str__`, except
      that the body of a `let` is formatted with `str`. */
  function ToStr(e: Expr): string
  {
    match e
    case Var(x) => x
    case Num(n) => IntText(n)
    case Bin(op, l, r) => "(" + ToStr(l) + " " + Exp.Symbol(op) + " " + ToStr(r) + ")"
    case Let(x, d, b) => "let " + x + " = " + ToStr(d) + " in " + Str(b) + " end"
  }

  /** `to_str` agrees with `__str__` on every expression. */
  lemma {:induction false} ToStrIsStr(e: Expr)
    ensures ToStr(e) == Str(e)
  {
    match e
    case Var(_) =>
    case Num(_) =>
    case Bin(_, l, r) =>
      ToStrIsStr(l);
      ToStrIsStr(r);
    case Let(_, d, _) =>
      ToStrIsStr(d);
  }

  /** `VisitorOptimize`: names and numbers stay; a binary node whose
      optimised operands are both numbers becomes the number they compute
      (a division by a zero literal raises while folding); any other node
      is rebuilt from its optimised parts; a `let` is never substituted. */
  function Optimize(e: Expr): Result<Expr, EvalError>
  {
    match e
    case Var(_) => Ok(e)
    case Num(_) => Ok(e)
    case Bin(op, l, r) =>
      (match Optimize(l)
       case Fail(err) => Fail(err)
       case Ok(l') =>
         match Optimize(r)
         case Fail(err) => Fail(err)
         case Ok(r') =>
           if l'.Num? && r'.Num? then
             match Apply(op, l'.num, r'.num)
             case Fail(err) => Fail(err)
             case Ok(v) => Ok(Num(v))
           else Ok(Bin(op, l', r')))
    case Let(x, d, b) =>
      match Optimize(d)
      case Fail(err) => Fail(err)
      case Ok(d') =>
        match Optimize(b)
        case Fail(err) => Fail(err)
        case Ok(b') => Ok(Let(x, d', b'))
  }

  /** No binary node left with two number operands. */
  predicate Folded(e: Expr)
  {
    match e
    case Var(_) => true
    case Num(_) => true
    case Bin(_, l, r) => !(l.Num? && r.Num?) && Folded(l) && Folded(r)
    case Let(_, d, b) => Folded(d) && Folded(b)
  }

  /** Folding keeps the value under every environment, and leaves nothing
      to fold. */
  lemma {:induction false} OptimizeSound(e: Expr, env: Env)
    requires Optimize(e).Ok?
    ensures Eval(Optimize(e).value, env) == Eval(e, env)
    ensures Folded(Optimize(e).value)
  {
    match e
    case Var(_) =>
    case Num(_) =>
    case Bin(op, l, r) =>
      OptimizeSound(l, env);
      OptimizeSound(r, env);
    case Let(x, d, b) =>
      OptimizeSound(d, env);
      if Eval(d, env).Ok? {
        OptimizeSound(b, env[x := Eval(d, env).value]);
      } else {
        OptimizeSound(b, env);
      }
  }

  /** Folding raises only on expressions whose evaluation fails in every
      environment. */
  lemma {:induction false} OptimizeFailsOnlyIfEvalFails(e: Expr, env: Env)
    requires Optimize(e).Fail?
    ensures Eval(e, env).Fail?
  {
    match e
    case Var(_) =>
    case Num(_) =>
    case Bin(op, l, r) =>
      if Optimize(l).Fail? {
        OptimizeFailsOnlyIfEvalFails(l, env);
      } else if Optimize(r).Fail? {
        OptimizeFailsOnlyIfEvalFails(r, env);
      } else {
        OptimizeSound(l, env);
        OptimizeSound(r, env);
      }
    case Let(x, d, b) =>
      if Optimize(d).Fail? {
        OptimizeFailsOnlyIfEvalFails(d, env);
      } else if Eval(d, env).Ok? {
        OptimizeFailsOnlyIfEvalFails(b, env[x := Eval(d, env).value]);
      }
  }

  /** An expression with nothing to fold is its own optimisation, so
      folding twice is folding once. */
  lemma {:induction false} OptimizeFolded(e: Expr)
    requires Folded(e)
    ensures Optimize(e) == Ok(e)
  {
    match e
    case Var(_) =>
    case Num(_) =>
    case Bin(_, l, r) =>
      OptimizeFolded(l);
      OptimizeFolded(r);
    case Let(_, d, b) =>
      OptimizeFolded(d);
      OptimizeFolded(b);
  }

  lemma {:induction false} OptimizeIdempotent(e: Expr)
    requires Optimize(e).Ok?
    ensures Optimize(Optimize(e).value) == Optimize(e)
  {
    OptimizeSound(e, map[]);
    OptimizeFolded(Optimize(e).value);
  }

  /** The doctest expressions of the `let` classes. */
  const Plain := Let("v", Num(42), Var("v"))
  const Nested := Let("v", Num(40), Let("w", Num(2), Bin(Exp.Add, Var("v"), Var("w"))))
  const Square := Let("v", Bin(Exp.Add, Num(40), Num(2)), Bin(Exp.Mul, Var("v"), Var("v")))

  /** The doctests of `Let.eval` and `VisitorEval`: 42, 42 and 1764. */
  lemma {:induction false} LetExamples()
    ensures Eval(Plain, map[]) == Ok(42)
    ensures Eval(Nested, map[]) == Ok(42)
    ensures Eval(Square, map[]) == Ok(1764)
  {
    var env: Env := map["v" := 40];
    assert Eval(Nested.body.body, env["w" := 2]) == Ok(42);
  }

  /** The doctests of the binary classes with names: 5 + (3 + 4) is 12,
      x - y is 10, y * (2 + x) is 49, and (x - 10) / (x - y) is 2. */
  lemma {:induction false} NameExamples()
    ensures Eval(Var("var"), map["var" := 42]) == Ok(42)
    ensures Eval(Bin(Exp.Add, Var("some_var"), Bin(Exp.Add, Num(3), Num(4))), map["some_var" := 5]) == Ok(12)
    ensures Eval(Bin(Exp.Sub, Var("x"), Var("y")), map["x" := 23, "y" := 13]) == Ok(10)
    ensures Eval(Bin(Exp.Mul, Var("y"), Bin(Exp.Add, Num(2), Var("x"))), map["x" := 5, "y" := 7]) == Ok(49)
    ensures Eval(Bin(Exp.Div, Bin(Exp.Sub, Var("x"), Num(10)), Bin(Exp.Sub, Var("x"), Var("y"))), map["x" := 0, "y" := 5]) == Ok(2)
  {
  }

  /** An inner `let` of the same name hides the outer one, and the outer
      binding is back once the inner `let` is done. */
  lemma {:induction false} ShadowingExample()
    ensures Eval(Let("x", Num(1), Bin(Exp.Add, Let("x", Num(2), Var("x")), Var("x"))), map[]) == Ok(3)
  {
    var env: Env := map["x" := 1];
    assert Eval(Let("x", Num(2), Var("x")), env) == Ok(2) by {
      assert env["x" := 2]["x"] == 2;
    }
    assert Eval(Var("x"), env) == Ok(1);
  }

  /** The doctests of `size()`: 4, 9 and 8, and 3 for `x + 2`. */
  lemma {:induction false} SizeExamples()
    ensures Size(Plain) == 4 && Size(Nested) == 9 && Size(Square) == 8
    ensures Size(Bin(Exp.Add, Var("x"), Num(2))) == 3
  {
  }

  lemma {:induction false} SmallNumbers()
    ensures IntText(42) == "42" && IntText(40) == "40" && IntText(2) == "2" && IntText(1) == "1"
  {
    assert DecimalText(42) == "42" && DecimalText(40) == "40";
  }

  /** `__str__` of a node, given the texts of its parts. */
  lemma {:induction false} StrBin(op: Exp.BinOp, l: Expr, r: Expr, sl: string, sr: string)
    requires Str(l) == sl && Str(r) == sr
    ensures Str(Bin(op, l, r)) == "(" + sl + " " + Exp.Symbol(op) + " " + sr + ")"
  {
  }

  lemma {:induction false} StrLet(x: string, d: Expr, b: Expr, sd: string, sb: string)
    requires Str(d) == sd && Str(b) == sb
    ensures Str(Let(x, d, b)) == "let " + x + " = " + sd + " in " + sb + " end"
  {
  }

  /** The doctests of `__str__`, `to_str` and `VisitorStr` ... */
  lemma {:induction false} StrPlain()
    ensures Str(Plain) == "let v = 42 in v end"
  {
    SmallNumbers();
    StrLet("v", Num(42), Var("v"), "42", "v");
    assert "let " + "v" + " = " + "42" + " in " + "v" + " end" == "let v = 42 in v end";
  }

  lemma {:induction false} StrSum(a: string, b: string)
    requires |a| == 1 && |b| == 1
    ensures Str(Bin(Exp.Add, Var(a), Var(b))) == "(" + a + " + " + b + ")"
  {
    StrBin(Exp.Add, Var(a), Var(b), a, b);
    assert "(" + a + " " + "+" + " " + b + ")" == "(" + a + " + " + b + ")";
  }

  lemma {:induction false} StrNested()
    ensures Str(Nested) == "let v = 40 in let w = 2 in (v + w) end end"
  {
    SmallNumbers();
    StrSum("v", "w");
    assert "(" + "v" + " + " + "w" + ")" == "(v + w)";
    var inner := "let w = 2 in (v + w) end";
    StrLet("w", Num(2), Bin(Exp.Add, Var("v"), Var("w")), "2", "(v + w)");
    assert "let " + "w" + " = " + "2" + " in " + "(v + w)" + " end" == inner;
    StrLet("v", Num(40), Nested.body, "40", inner);
    NestedText();
  }

  lemma {:induction false} NestedText()
    ensures "let " + "v" + " = " + "40" + " in " + "let w = 2 in (v + w) end" + " end" == "let v = 40 in let w = 2 in (v + w) end end"
  {
    NestedHead();
    NestedTail();
    var head, tail := "let v = 40 in ", "let w = 2 in (v + w) end end";
    assert ("let " + "v" + " = " + "40" + " in ") + ("let w = 2 in (v + w) end" + " end") == head + tail;
    NestedJoin(head, tail);
  }

  lemma {:induction false} NestedJoin(head: string, tail: string)
    requires head == "let v = 40 in " && tail == "let w = 2 in (v + w) end end"
    ensures head + tail == "let v = 40 in let w = 2 in (v + w) end end"
  {
  }

  lemma {:induction false} NestedHead()
    ensures "let " + "v" + " = " + "40" + " in " == "let v = 40 in "
  {
    var p := "let " + "v";
    assert p == "let v";
  }

  lemma {:induction false} NestedTail()
    ensures "let w = 2 in (v + w) end" + " end" == "let w = 2 in (v + w) end end"
  {
    var p := "let w = 2 in (v + w) end";
    assert |p + " end"| == 28;
  }

  lemma {:induction false} StrSquare()
    ensures Str(Square) == "let v = (40 + 2) in (v * v) end"
  {
    SmallNumbers();
    StrBin(Exp.Add, Num(40), Num(2), "40", "2");
    assert "(" + "40" + " " + "+" + " " + "2" + ")" == "(40 + 2)";
    StrBin(Exp.Mul, Var("v"), Var("v"), "v", "v");
    assert "(" + "v" + " " + "*" + " " + "v" + ")" == "(v * v)";
    StrLet("v", Square.def, Square.body, "(40 + 2)", "(v * v)");
    SquareText();
  }

  lemma {:induction false} SquareText()
    ensures "let " + "v" + " = " + "(40 + 2)" + " in " + "(v * v)" + " end" == "let v = (40 + 2) in (v * v) end"
  {
    var head := "let v = (40 + 2) in ";
    assert "let " + "v" + " = " + "(40 + 2)" + " in " == head;
  }

  /** ... and of `VisitorOptimize`: 40 + 2 folds to 42, while
      `let v = 1 + 1 in 40 + v end` folds only its definition. */
  lemma {:induction false} OptimizeExamples()
    ensures Optimize(Bin(Exp.Add, Num(40), Num(2))) == Ok(Num(42))
    ensures Optimize(Let("v", Bin(Exp.Add, Num(1), Num(1)), Bin(Exp.Add, Num(40), Var("v")))) ==
            Ok(Let("v", Num(2), Bin(Exp.Add, Num(40), Var("v"))))
  {
  }

  lemma {:induction false} OptimizedText()
    ensures Str(Let("v", Num(2), Bin(Exp.Add, Num(40), Var("v")))) == "let v = 2 in (40 + v) end"
  {
    SmallNumbers();
    StrBin(Exp.Add, Num(40), Var("v"), "40", "v");
    SumText();
    StrLet("v", Num(2), Bin(Exp.Add, Num(40), Var("v")), "2", "(40 + v)");
    LetTwoText();
  }

  lemma {:induction false} SumText()
    ensures "(" + "40" + " " + "+" + " " + "v" + ")" == "(40 + v)"
  {
    var inner := "40 + v";
    assert "40" + " " + "+" + " " + "v" == inner;
  }

  lemma {:induction false} LetTwoText()
    ensures "let " + "v" + " = " + "2" + " in " + "(40 + v)" + " end" == "let v = 2 in (40 + v) end"
  {
    var head := "let v = 2 in ";
    assert "let " + "v" + " = " + "2" + " in " == head;
  }
}
