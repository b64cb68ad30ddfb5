/** The language of 10_TypeInference/Exp7.py and Exp8.py (the second is the
    first with more documentation): numbers, booleans, `+`, `<`, `and`,
    `if` and a `let` without a declared type. `VisitorEval` evaluates
    without any check, as Python does; `VisitorTypePropagator` (`find_type`)
    infers the type of every name from its definition. */
module Inference {
  import opened Wrappers

  datatype Expr =
    | Var(name: string)
    | Num(num: int)
    | Bln(bln: bool)
    | Add(left: Expr, right: Expr)
    | And(left: Expr, right: Expr)
    | Lth(left: Expr, right: Expr)
    | Let(name: string, def: Expr, body: Expr)
    | If(cond: Expr, e0: Expr, e1: Expr)

  /** A Python value: an `int` or a `bool`. */
  datatype Value = IntV(i: int) | BoolV(b: bool)

  type Env = map<string, Value>

  /** `sys.exit("Variavel inexistente ...")`. */
  datatype EvalError = Unbound(name: string)

  /** A value as a number: Python's `True` and `False` are 1 and 0. */
  function NumberOf(v: Value): int
  {
    match v
    case IntV(n) => n
    case BoolV(b) => if b then 1 else 0
  }

  /** Python's truth value: a number is true unless it is 0. */
  predicate Truthy(v: Value)
  {
    match v
    case IntV(n) => n != 0
    case BoolV(b) => b
  }

  /** `VisitorEval`: `+` and `<` evaluate both sides, left first; `and`
      returns False when its left value is false and the right value
      otherwise; `if` evaluates only the chosen branch; `let` evaluates its
      body in a copy of the environment with the name bound. */
  function Eval(e: Expr, env: Env): Result<Value, EvalError>
  {
    match e
    case Var(x) => if x in env then Ok(env[x]) else Fail(Unbound(x))
    case Num(n) => Ok(IntV(n))
    case Bln(b) => Ok(BoolV(b))
    case Add(l, r) =>
      (match Eval(l, env)
       case Fail(err) => Fail(err)
       case Ok(a) =>
         match Eval(r, env)
         case Fail(err) => Fail(err)
         case Ok(b) => Ok(IntV(NumberOf(a) + NumberOf(b))))
    case Lth(l, r) =>
      (match Eval(l, env)
       case Fail(err) => Fail(err)
       case Ok(a) =>
         match Eval(r, env)
         case Fail(err) => Fail(err)
         case Ok(b) => Ok(BoolV(NumberOf(a) < NumberOf(b))))
    case And(l, r) =>
      (match Eval(l, env)
       case Fail(err) => Fail(err)
       case Ok(a) => if Truthy(a) then Eval(r, env) else Ok(BoolV(false)))
    case Let(x, d, b) =>
      (match Eval(d, env)
       case Fail(err) => Fail(err)
       case Ok(v) => Eval(b, env[x := v]))
    case If(c, e0, e1) =>
      match Eval(c, env)
      case Fail(err) => Fail(err)
      case Ok(v) => if Truthy(v) then Eval(e0, env) else Eval(e1, env)
  }

  /** Python's classes `int` and `bool`. */
  datatype Type = IntType | BoolType

  type TyEnv = map<string, Type>

  /** The TypeErrors of the propagator. */
  datatype TypeError =
    | Undefined(name: string)
    | BadOperands(symbol: string, left: Type, right: Type)
    | BranchMismatch(thenTy: Type, elseTy: Type)

  /** Both sides of an operator are typed, left first, and must both have
      the operand type. */
  function Operands(symbol: string, lt: Result<Type, TypeError>, rt: Result<Type, TypeError>,
                    operand: Type, result: Type): (r: Result<Type, TypeError>)
    ensures r.Ok? <==> lt == Ok(operand) && rt == Ok(operand)
    ensures r.Ok? ==> r.value == result
  {
    if lt.Fail? then lt
    else if rt.Fail? then rt
    else if lt.value == operand && rt.value == operand then Ok(result)
    else Fail(BadOperands(symbol, lt.value, rt.value))
  }

  /** `VisitorTypePropagator`: `+` is int × int → int, `<` int × int →
      bool, `and` bool × bool → bool; `if` types all three parts before it
      demands a bool condition and equal branch types; `let` binds the
      name to the type of its definition. */
  function TypeOf(e: Expr, env: TyEnv): Result<Type, TypeError>
  {
    match e
    case Var(x) => if x in env then Ok(env[x]) else Fail(Undefined(x))
    case Num(_) => Ok(IntType)
    case Bln(_) => Ok(BoolType)
    case Add(l, r) => Operands("+", TypeOf(l, env), TypeOf(r, env), IntType, IntType)
    case Lth(l, r) => Operands("<", TypeOf(l, env), TypeOf(r, env), IntType, BoolType)
    case And(l, r) => Operands("and", TypeOf(l, env), TypeOf(r, env), BoolType, BoolType)
    case Let(x, d, b) =>
      (match TypeOf(d, env)
       case Fail(err) => Fail(err)
       case Ok(t) => TypeOf(b, env[x := t]))
    case If(c, e0, e1) =>
      match TypeOf(c, env)
      case Fail(err) => Fail(err)
      case Ok(ct) =>
        match TypeOf(e0, env)
        case Fail(err) => Fail(err)
        case Ok(t0) =>
          match TypeOf(e1, env)
          case Fail(err) => Fail(err)
          case Ok(t1) => if ct == BoolType && t0 == t1 then Ok(t0) else Fail(BranchMismatch(t0, t1))
  }

  /** `find_type`: the propagator in the empty environment. */
  function FindType(e: Expr): Result<Type, TypeError>
  {
    TypeOf(e, map[])
  }

  /** `type(value)`. */
  function TypeName(v: Value): Type
  {
    if v.IntV? then IntType else BoolType
  }

  /** Each name bound to a type is bound to a value of that type. */
  predicate Conforms(env: Env, tenv: TyEnv)
  {
    forall x :: x in tenv ==> x in env && TypeName(env[x]) == tenv[x]
  }

  lemma {:induction false} ConformsExtend(env: Env, tenv: TyEnv, x: string, v: Value)
    requires Conforms(env, tenv)
    ensures Conforms(env[x := v], tenv[x := TypeName(v)])
  {
  }

  /** The propagated type is the type of the value: an expression that
      `find_type` types evaluates, under values of the types assumed, to a
      value of that type; no name is missing. */
  lemma {:induction false} PropagationSound(e: Expr, env: Env, tenv: TyEnv)
    requires TypeOf(e, tenv).Ok? && Conforms(env, tenv)
    ensures Eval(e, env).Ok? && TypeName(Eval(e, env).value) == TypeOf(e, tenv).value
  {
    match e
    case Var(_) =>
    case Num(_) =>
    case Bln(_) =>
    case Add(l, r) =>
      PropagationSound(l, env, tenv);
      PropagationSound(r, env, tenv);
    case Lth(l, r) =>
      PropagationSound(l, env, tenv);
      PropagationSound(r, env, tenv);
    case And(l, r) =>
      PropagationSound(l, env, tenv);
      PropagationSound(r, env, tenv);
    case Let(x, d, b) =>
      PropagationSound(d, env, tenv);
      ConformsExtend(env, tenv, x, Eval(d, env).value);
      PropagationSound(b, env[x := Eval(d, env).value], tenv[x := TypeOf(d, tenv).value]);
    case If(c, e0, e1) =>
      PropagationSound(c, env, tenv);
      PropagationSound(e0, env, tenv);
      PropagationSound(e1, env, tenv);
  }

  /** `find_type` succeeds only on programs that evaluate in the empty
      environment, to a value of the type it finds. */
  lemma {:induction false} FindTypeSound(e: Expr)
    requires FindType(e).Ok?
    ensures Eval(e, map[]).Ok? && TypeName(Eval(e, map[]).value) == FindType(e).value
  {
    PropagationSound(e, map[], map[]);
  }

  /** Without types, `and` is Python's: `3 and 4` is 4, `0 and x` is
      False without looking at `x`; and `True + True` is 2. */
  lemma {:induction false} UntypedExamples()
    ensures Eval(And(Num(3), Num(4)), map[]) == Ok(IntV(4))
    ensures Eval(And(Num(0), Var("x")), map[]) == Ok(BoolV(false))
    ensures Eval(Add(Bln(true), Bln(true)), map[]) == Ok(IntV(2))
    ensures FindType(And(Num(3), Num(4))) == Fail(BadOperands("and", IntType, IntType))
  {
  }

  /** The doctests of `find_type`: int, bool and int. */
  const SumOfNames := Let("v", Num(40), Let("w", Num(2), Add(Var("v"), Var("w"))))
  const BothNames := Let("v", Bln(false), Let("w", Bln(true), And(Var("v"), Var("w"))))
  const Choice := If(Bln(true), Num(0), Num(42))

  lemma {:induction false} FindTypeExamples()
    ensures FindType(SumOfNames) == Ok(IntType)
    ensures FindType(BothNames) == Ok(BoolType)
    ensures FindType(Choice) == Ok(IntType)
  {
    var t0: TyEnv := map[];
    var t1, t2 := t0["v" := IntType], t0["v" := BoolType];
    assert TypeOf(SumOfNames.body.body, t1["w" := IntType]) == Ok(IntType);
    assert TypeOf(SumOfNames.body, t1) == Ok(IntType);
    assert TypeOf(BothNames.body.body, t2["w" := BoolType]) == Ok(BoolType);
    assert TypeOf(BothNames.body, t2) == Ok(BoolType);
  }

  /** The doctests of `VisitorEval`: `let v = 42 in v` and `let v = 40 in
      let w = 2 in v + w` are 42. */
  lemma {:induction false} LetExamples()
    ensures Eval(Let("v", Num(42), Var("v")), map[]) == Ok(IntV(42))
    ensures Eval(SumOfNames, map[]) == Ok(IntV(42))
  {
    var env0: Env := map[];
    assert Eval(Var("v"), env0["v" := IntV(42)]) == Ok(IntV(42));
    var env1 := env0["v" := IntV(40)];
    assert Eval(SumOfNames.body.body, env1["w" := IntV(2)]) == Ok(IntV(42));
    assert Eval(SumOfNames.body, env1) == Ok(IntV(42));
  }

  /** The doctests of the classes in Exp8.py: `True and False` is False,
      `5 + 3` is 8, `2 < 5` is True, `let x = 10 in x` is 10, `if True
      then 1 else 0` is 1. */
  lemma {:induction false} EvalExamples()
    ensures Eval(And(Bln(true), Bln(false)), map[]) == Ok(BoolV(false))
    ensures Eval(Add(Num(5), Num(3)), map[]) == Ok(IntV(8))
    ensures Eval(Lth(Num(2), Num(5)), map[]) == Ok(BoolV(true))
    ensures Eval(Let("x", Num(10), Var("x")), map[]) == Ok(IntV(10))
    ensures Eval(If(Bln(true), Num(1), Num(0)), map[]) == Ok(IntV(1))
  {
    var env0: Env := map[];
    assert Eval(Var("x"), env0["x" := IntV(10)]) == Ok(IntV(10));
  }
}
