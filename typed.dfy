/** The typed language of 8_TypeChecking/Exp6.py and 9_TypeChecking/Exp6.py:
    numbers, booleans, the four arithmetic operators, `and`, `<`, a `let`
    that declares the type of its name, and `if`. `TypeChecker` (here the
    function `TypeOf`, its environment passed as an argument as in the
    second file) computes the type of an expression or raises TypeError;
    `VisitorTypeSafeEval` evaluates with a run-time check of every operand;
    `statically_type_safe_eval` checks first. */
module TypedLang {
  import opened Wrappers
  import Exp

  /** A type: Python's `int` and `bool` (the strings 'int' and 'bool' in the
      first file). A `let` may declare any other type name. */
  type Ty = string
  const IntTy: Ty := "int"
  const BoolTy: Ty := "bool"

  /** `Add`/`Sub`/`Mul`/`Div`, `And` and `Lth`. */
  datatype Op = Arith(aop: Exp.BinOp) | And | Lth

  datatype Expr =
    | Var(name: string)
    | Num(num: int)
    | Bln(bln: bool)
    | Bin(op: Op, left: Expr, right: Expr)
    | Let(name: string, ty: Ty, def: Expr, body: Expr)
    | If(cond: Expr, e0: Expr, e1: Expr)

  /** The environment of the checker: names to types. */
  type TyEnv = map<string, Ty>

  /** The TypeErrors the checker raises, with what their messages name. */
  datatype TypeError =
    | Undefined(name: string)
    | BadOperands(symbol: string, left: Ty, right: Ty)
    | LetMismatch(expected: Ty, got: Ty)
    | NotBool(got: Ty)
    | BranchMismatch(thenTy: Ty, elseTy: Ty)

  /** The symbol a message of the checker writes for an operator. */
  function OpSymbol(op: Op): (s: string)
    ensures s != []
  {
    match op
    case Arith(a) => Exp.Symbol(a)
    case And => "and"
    case Lth => "<"
  }

  /** The type both operands of an operator must have. */
  function OperandTy(op: Op): Ty
  {
    if op == And then BoolTy else IntTy
  }

  /** The type of an operator's result. */
  function ResultTy(op: Op): Ty
  {
    if op.Arith? then IntTy else BoolTy
  }

  /** The rule of a binary node: both sides are checked, left first, and
      both must have the operand type. */
  function BinaryType(op: Op, lt: Result<Ty, TypeError>, rt: Result<Ty, TypeError>): (r: Result<Ty, TypeError>)
    ensures r.Ok? <==> lt == Ok(OperandTy(op)) && rt == Ok(OperandTy(op))
    ensures r.Ok? ==> r.value == ResultTy(op)
    ensures lt.Fail? ==> r == lt
  {
    if lt.Fail? then lt
    else if rt.Fail? then rt
    else if lt.value == OperandTy(op) && rt.value == OperandTy(op) then Ok(ResultTy(op))
    else Fail(BadOperands(OpSymbol(op), lt.value, rt.value))
  }

  /** `TypeChecker.visit_*`: a number is `int`, a boolean `bool`, a name
      has the type the environment gives it; a `let` checks the definition
      against the declared type and the body with the name bound to it;
      an `if` checks its condition first, then both branches, which must
      agree. */
  function TypeOf(e: Expr, env: TyEnv): Result<Ty, TypeError>
  {
    match e
    case Var(x) => if x in env then Ok(env[x]) else Fail(Undefined(x))
    case Num(_) => Ok(IntTy)
    case Bln(_) => Ok(BoolTy)
    case Bin(op, l, r) => BinaryType(op, TypeOf(l, env), TypeOf(r, env))
    case Let(x, t, d, b) =>
      (match TypeOf(d, env)
       case Fail(err) => Fail(err)
       case Ok(dt) => if dt == t then TypeOf(b, env[x := t]) else Fail(LetMismatch(t, dt)))
    case If(c, e0, e1) =>
      match TypeOf(c, env)
      case Fail(err) => Fail(err)
      case Ok(ct) =>
        if ct != BoolTy then Fail(NotBool(ct))
        else
          match TypeOf(e0, env)
          case Fail(err) => Fail(err)
          case Ok(t0) =>
            match TypeOf(e1, env)
            case Fail(err) => Fail(err)
            case Ok(t1) => if t0 == t1 then Ok(t0) else Fail(BranchMismatch(t0, t1))
  }

  /** The rules of the checker, read off each node. */
  lemma {:induction false} TypingRules(e: Expr, env: TyEnv)
    ensures e.Num? ==> TypeOf(e, env) == Ok(IntTy)
    ensures e.Bln? ==> TypeOf(e, env) == Ok(BoolTy)
    ensures e.Var? ==> (TypeOf(e, env).Ok? <==> e.name in env)
    ensures e.Bin? ==> (TypeOf(e, env).Ok? <==>
              TypeOf(e.left, env) == Ok(OperandTy(e.op)) && TypeOf(e.right, env) == Ok(OperandTy(e.op)))
    ensures e.Bin? && TypeOf(e, env).Ok? ==> TypeOf(e, env).value == ResultTy(e.op)
    ensures e.Let? ==> (TypeOf(e, env).Ok? <==>
              TypeOf(e.def, env) == Ok(e.ty) && TypeOf(e.body, env[e.name := e.ty]).Ok?)
    ensures e.If? ==> (TypeOf(e, env).Ok? <==>
              TypeOf(e.cond, env) == Ok(BoolTy) && TypeOf(e.e0, env).Ok? && TypeOf(e.e0, env) == TypeOf(e.e1, env))
    ensures e.If? && TypeOf(e, env).Ok? ==> TypeOf(e, env) == TypeOf(e.e0, env)
  {
  }

  /** Under an environment of `int`s and `bool`s the checker derives only
      `int` or `bool`: a declared type of any other name is never met. */
  lemma {:induction false} TypesFromEnv(e: Expr, env: TyEnv)
    requires forall x :: x in env ==> env[x] == IntTy || env[x] == BoolTy
    ensures TypeOf(e, env).Ok? ==> TypeOf(e, env).value == IntTy || TypeOf(e, env).value == BoolTy
  {
    match e
    case Var(_) =>
    case Num(_) =>
    case Bln(_) =>
    case Bin(_, _, _) =>
    case Let(x, t, d, b) =>
      TypesFromEnv(d, env);
      if TypeOf(d, env) == Ok(t) {
        TypesFromEnv(b, env[x := t]);
      }
    case If(c, e0, e1) =>
      TypesFromEnv(e0, env);
  }

  /** A value of `VisitorTypeSafeEval`: a Python `int` or `bool`. */
  datatype Value = IntV(i: int) | BoolV(b: bool)

  /** `type(value)`. */
  function TypeName(v: Value): (t: Ty)
    ensures t == IntTy || t == BoolTy
  {
    if v.IntV? then IntTy else BoolTy
  }

  type ValEnv = map<string, Value>

  /** `sys.exit("Variable not found ...")`, the TypeError of `ensure_type`
      (the operation's name, the expected and the actual type), and the
      ZeroDivisionError of `//`. */
  datatype RunError =
    | NotFound(name: string)
    | WrongType(operation: string, expected: Ty, got: Ty)
    | DivisionByZero

  /** The operation name `ensure_type` reports. */
  function OpName(op: Op): string
  {
    match op
    case Arith(a) =>
      (match a
       case Add => "Addition"
       case Sub => "Subtraction"
       case Mul => "Multiplication"
       case Div => "Division")
    case And => "And"
    case Lth => "Less Than"
  }

  /** `ensure_type`: the exact type, so `bool` is no `int`. */
  function EnsureType(v: Value, expected: Ty, operation: string): (r: Result<Value, RunError>)
    ensures r.Ok? <==> TypeName(v) == expected
    ensures r.Ok? ==> r.value == v
  {
    if TypeName(v) == expected then Ok(v) else Fail(WrongType(operation, expected, TypeName(v)))
  }

  /** An arithmetic operator or `<` on two values, both already evaluated:
      the left one is checked first. */
  function Strict(op: Op, a: Value, b: Value): (r: Result<Value, RunError>)
    requires op != And
    ensures r.Ok? ==> a.IntV? && b.IntV? && TypeName(r.value) == ResultTy(op)
  {
    if !a.IntV? then Fail(WrongType(OpName(op), IntTy, TypeName(a)))
    else if !b.IntV? then Fail(WrongType(OpName(op), IntTy, TypeName(b)))
    else
      match op
      case Lth => Ok(BoolV(a.i < b.i))
      case Arith(aop) =>
        match Exp.Apply(aop, a.i, b.i)
        case Fail(_) => Fail(DivisionByZero)
        case Ok(n) => Ok(IntV(n))
  }

  /** `VisitorTypeSafeEval`: `and` checks its left value before it looks
      at the right one and skips the right one when the left is False;
      the other operators evaluate both sides and then check them; `if`
      checks its condition and evaluates one branch; `let` binds the
      value of its definition whatever type it declares. */
  function SafeEval(e: Expr, env: ValEnv): Result<Value, RunError>
  {
    match e
    case Var(x) => if x in env then Ok(env[x]) else Fail(NotFound(x))
    case Num(n) => Ok(IntV(n))
    case Bln(v) => Ok(BoolV(v))
    case Bin(And, l, r) =>
      (match SafeEval(l, env)
       case Fail(err) => Fail(err)
       case Ok(a) =>
         if !a.BoolV? then Fail(WrongType("And", BoolTy, TypeName(a)))
         else if !a.b then Ok(BoolV(false))
         else
           match SafeEval(r, env)
           case Fail(err) => Fail(err)
           case Ok(b) => EnsureType(b, BoolTy, "And"))
    case Bin(op, l, r) =>
      (match SafeEval(l, env)
       case Fail(err) => Fail(err)
       case Ok(a) =>
         match SafeEval(r, env)
         case Fail(err) => Fail(err)
         case Ok(b) => Strict(op, a, b))
    case Let(x, _, d, b) =>
      (match SafeEval(d, env)
       case Fail(err) => Fail(err)
       case Ok(v) => SafeEval(b, env[x := v]))
    case If(c, e0, e1) =>
      match SafeEval(c, env)
      case Fail(err) => Fail(err)
      case Ok(v) =>
        if !v.BoolV? then Fail(WrongType("If-Then-Else Condition", BoolTy, TypeName(v)))
        else if v.b then SafeEval(e0, env) else SafeEval(e1, env)
  }

  /** The values bound to the names of a type environment have those
      types. */
  predicate Conforms(env: ValEnv, tenv: TyEnv)
  {
    forall x :: x in tenv ==> x in env && TypeName(env[x]) == tenv[x]
  }

  lemma {:induction false} ConformsExtend(env: ValEnv, tenv: TyEnv, x: string, v: Value)
    requires Conforms(env, tenv)
    ensures Conforms(env[x := v], tenv[x := TypeName(v)])
  {
  }

  /** What the checker promises: an expression it accepts evaluates, under
      values of the types it assumed, to a value of the type it derived;
      the only failure left is division by zero. No `ensure_type` fails
      and no name is missing. */
  lemma {:induction false} Soundness(e: Expr, env: ValEnv, tenv: TyEnv)
    requires TypeOf(e, tenv).Ok? && Conforms(env, tenv)
    ensures SafeEval(e, env) == Fail(DivisionByZero) ||
            (SafeEval(e, env).Ok? && TypeName(SafeEval(e, env).value) == TypeOf(e, tenv).value)
  {
    match e
    case Var(_) =>
    case Num(_) =>
    case Bln(_) =>
    case Bin(op, l, r) =>
      Soundness(l, env, tenv);
      Soundness(r, env, tenv);
    case Let(x, t, d, b) =>
      Soundness(d, env, tenv);
      if SafeEval(d, env).Ok? {
        ConformsExtend(env, tenv, x, SafeEval(d, env).value);
        Soundness(b, env[x := SafeEval(d, env).value], tenv[x := t]);
      }
    case If(c, e0, e1) =>
      Soundness(c, env, tenv);
      Soundness(e0, env, tenv);
      Soundness(e1, env, tenv);
  }

  /** `dynamically_type_safe_eval`: evaluation in the empty environment. */
  function DynamicallySafeEval(e: Expr): Result<Value, RunError>
  {
    SafeEval(e, map[])
  }

  /** Why `statically_type_safe_eval` stops: the checker's TypeError, or
      what evaluation raises afterwards. */
  datatype StaticError = Rejected(typeError: TypeError) | Raised(runError: RunError)

  /** `statically_type_safe_eval`: the checker in the empty environment,
      then the evaluator. */
  function StaticallySafeEval(e: Expr): Result<Value, StaticError>
  {
    match TypeOf(e, map[])
    case Fail(err) => Fail(Rejected(err))
    case Ok(_) =>
      match SafeEval(e, map[])
      case Fail(err) => Fail(Raised(err))
      case Ok(v) => Ok(v)
  }

  /** Checking first only ever turns an evaluation into a rejection: what
      `statically_type_safe_eval` evaluates it evaluates as
      `dynamically_type_safe_eval` does, and the only error left after
      the check is division by zero. */
  lemma {:induction false} StaticallySafe(e: Expr)
    ensures StaticallySafeEval(e).Ok? ==> DynamicallySafeEval(e) == Ok(StaticallySafeEval(e).value)
    ensures StaticallySafeEval(e).Fail? ==>
              StaticallySafeEval(e).error.Rejected? || StaticallySafeEval(e).error == Raised(DivisionByZero)
    ensures TypeOf(e, map[]).Ok? && DynamicallySafeEval(e).Ok? ==>
              StaticallySafeEval(e) == Ok(DynamicallySafeEval(e).value)
  {
    if TypeOf(e, map[]).Ok? {
      Soundness(e, map[], map[]);
    }
  }

  /** The doctests of the two safe evaluators: `let v: int = 40 in let w:
      int = 2 in v + w`, the same with `v and w`, and `if True then 0 else
      False`. */
  const Sum := Let("v", IntTy, Num(40), Let("w", IntTy, Num(2), Bin(Arith(Exp.Add), Var("v"), Var("w"))))
  const Conjunction := Let("v", IntTy, Num(40), Let("w", IntTy, Num(2), Bin(And, Var("v"), Var("w"))))
  const Mixed := If(Bln(true), Num(0), Bln(false))

  lemma {:induction false} SumExample()
    ensures DynamicallySafeEval(Sum) == Ok(IntV(42))
    ensures StaticallySafeEval(Sum) == Ok(IntV(42))
  {
    var env1: ValEnv := map["v" := IntV(40)];
    assert SafeEval(Sum.body, env1) == Ok(IntV(42)) by {
      assert SafeEval(Sum.body.body, env1["w" := IntV(2)]) == Ok(IntV(42));
    }
    var tenv1: TyEnv := map["v" := IntTy];
    assert TypeOf(Sum.body, tenv1) == Ok(IntTy) by {
      assert TypeOf(Sum.body.body, tenv1["w" := IntTy]) == Ok(IntTy);
    }
  }

  lemma {:induction false} ConjunctionExample()
    ensures DynamicallySafeEval(Conjunction) == Fail(WrongType("And", BoolTy, IntTy))
    ensures StaticallySafeEval(Conjunction) == Fail(Rejected(BadOperands("and", IntTy, IntTy)))
  {
    var env1: ValEnv := map["v" := IntV(40)];
    assert SafeEval(Conjunction.body, env1) == Fail(WrongType("And", BoolTy, IntTy)) by {
      assert SafeEval(Conjunction.body.body, env1["w" := IntV(2)]) == Fail(WrongType("And", BoolTy, IntTy));
    }
    var tenv1: TyEnv := map["v" := IntTy];
    assert TypeOf(Conjunction.body, tenv1) == Fail(BadOperands("and", IntTy, IntTy)) by {
      assert TypeOf(Conjunction.body.body, tenv1["w" := IntTy]) == Fail(BadOperands("and", IntTy, IntTy));
    }
  }

  /** The branches of `if True then 0 else False` differ in type, which
      evaluation never notices and the checker rejects. */
  lemma {:induction false} MixedExample()
    ensures DynamicallySafeEval(Mixed) == Ok(IntV(0))
    ensures StaticallySafeEval(Mixed) == Fail(Rejected(BranchMismatch(IntTy, BoolTy)))
  {
  }

  /** Doctests of `visit_add` and `visit_and`: an operand of the wrong type
      names both types in the error. */
  lemma {:induction false} OperandExamples()
    ensures TypeOf(Bin(Arith(Exp.Add), Var("some_var"), Num(23)), map["some_var" := IntTy]) == Ok(IntTy)
    ensures TypeOf(Bin(Arith(Exp.Div), Var("some_var"), Bln(true)), map["some_var" := IntTy]) ==
            Fail(BadOperands("/", IntTy, BoolTy))
    ensures TypeOf(Bin(And, Var("some_var"), Bln(true)), map["some_var" := IntTy]) ==
            Fail(BadOperands("and", IntTy, BoolTy))
    ensures TypeOf(Var("some_var"), map["some_other_var" := IntTy]) == Fail(Undefined("some_var"))
  {
  }

  /** Doctests of `visit_let`: `let x: int = 23 in x + y` with `y: int`,
      and a definition whose type differs from the declared one. */
  lemma {:induction false} LetExamples()
    ensures TypeOf(Let("x", IntTy, Num(23), Bin(Arith(Exp.Add), Var("x"), Var("y"))), map["y" := IntTy]) == Ok(IntTy)
    ensures TypeOf(Let("x", BoolTy, Bln(false), Bin(And, Var("x"), Bln(true))), map[]) == Ok(BoolTy)
    ensures TypeOf(Let("x", BoolTy, Num(1), Bin(And, Var("x"), Bln(true))), map[]) == Fail(LetMismatch(BoolTy, IntTy))
  {
    var env: TyEnv := map["y" := IntTy];
    assert TypeOf(Bin(Arith(Exp.Add), Var("x"), Var("y")), env["x" := IntTy]) == Ok(IntTy);
    var env0: TyEnv := map[];
    assert TypeOf(Bin(And, Var("x"), Bln(true)), env0["x" := BoolTy]) == Ok(BoolTy);
  }
}
