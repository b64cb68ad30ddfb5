/** The functions of 12_RecFun/Exp10.py: `fn x => e` evaluates to a
    `Function` that keeps the environment it was written in, `fun f x => e`
    to a `RecFunction` that also keeps its own name, and an application
    runs the body in a copy of the kept environment with the parameter
    (and, for a `RecFunction`, the name) bound: lexical scoping. The
    evaluator takes a fuel bound on its recursion depth, since recursive
    functions need not stop. */
module Closures {
  import opened Wrappers
  import DynamicScope

  datatype Expr =
    | Var(name: string)
    | Num(num: int)
    | Bln(bln: bool)
    | Add(left: Expr, right: Expr)
    | And(left: Expr, right: Expr)
    | Lth(left: Expr, right: Expr)
    | Let(name: string, def: Expr, body: Expr)
    | If(cond: Expr, e0: Expr, e1: Expr)
    | Fn(formal: string, body: Expr)
    | Fun(fname: string, formal: string, body: Expr)
    | App(callee: Expr, actual: Expr)

  /** A value: a Python `int` or `bool`, a `Function(formal, body, env)` or
      a `RecFunction(name, formal, body, env)`. */
  datatype Value =
    | IntV(i: int)
    | BoolV(b: bool)
    | Closure(formal: string, body: Expr, env: map<string, Value>)
    | RecClosure(fname: string, formal: string, body: Expr, env: map<string, Value>)

  type Env = map<string, Value>

  /** ValueError for a name that is not bound, the TypeError of
      `visit_app` for a non-function, Python's TypeError for `+` or `<` on
      a function, and fuel running out. */
  datatype EvalError = Unbound(name: string) | NotAFunction | BadOperand | OutOfFuel

  predicate IsFunction(v: Value)
  {
    v.Closure? || v.RecClosure?
  }

  function NumberOf(v: Value): int
    requires !IsFunction(v)
  {
    if v.IntV? then v.i else if v.b then 1 else 0
  }

  predicate Truthy(v: Value)
  {
    match v
    case IntV(n) => n != 0
    case BoolV(b) => b
    case _ => true
  }

  function Plus(a: Value, b: Value): (r: Result<Value, EvalError>)
    ensures r.Ok? <==> !IsFunction(a) && !IsFunction(b)
  {
    if IsFunction(a) || IsFunction(b) then Fail(BadOperand) else Ok(IntV(NumberOf(a) + NumberOf(b)))
  }

  function Less(a: Value, b: Value): (r: Result<Value, EvalError>)
    ensures r.Ok? <==> !IsFunction(a) && !IsFunction(b)
  {
    if IsFunction(a) || IsFunction(b) then Fail(BadOperand) else Ok(BoolV(NumberOf(a) < NumberOf(b)))
  }

  /** The environment `visit_app` runs a body in: a copy of the function's
      own environment, the parameter bound to the argument, then, for a
      `RecFunction`, its name bound to itself. */
  function CallEnv(fv: Value, arg: Value): (env: Env)
    requires IsFunction(fv)
    ensures fv.formal in env
    ensures fv.RecClosure? ==> fv.fname in env && env[fv.fname] == fv
    ensures fv.RecClosure? && fv.formal != fv.fname ==> env[fv.formal] == arg
    ensures fv.Closure? ==> env[fv.formal] == arg
  {
    if fv.RecClosure? then fv.env[fv.formal := arg][fv.fname := fv] else fv.env[fv.formal := arg]
  }

  /** `VisitorEval` with at most `fuel` nested calls. */
  function Eval(e: Expr, env: Env, fuel: nat): Result<Value, EvalError>
    decreases fuel
  {
    if fuel == 0 then Fail(OutOfFuel)
    else
      match e
      case Var(x) => if x in env then Ok(env[x]) else Fail(Unbound(x))
      case Num(n) => Ok(IntV(n))
      case Bln(b) => Ok(BoolV(b))
      case Add(l, r) =>
        (match Eval(l, env, fuel - 1)
         case Fail(err) => Fail(err)
         case Ok(a) =>
           match Eval(r, env, fuel - 1)
           case Fail(err) => Fail(err)
           case Ok(b) => Plus(a, b))
      case Lth(l, r) =>
        (match Eval(l, env, fuel - 1)
         case Fail(err) => Fail(err)
         case Ok(a) =>
           match Eval(r, env, fuel - 1)
           case Fail(err) => Fail(err)
           case Ok(b) => Less(a, b))
      case And(l, r) =>
        (match Eval(l, env, fuel - 1)
         case Fail(err) => Fail(err)
         case Ok(a) => if Truthy(a) then Eval(r, env, fuel - 1) else Ok(BoolV(false)))
      case Let(x, d, b) =>
        (match Eval(d, env, fuel - 1)
         case Fail(err) => Fail(err)
         case Ok(v) => Eval(b, env[x := v], fuel - 1))
      case If(c, e0, e1) =>
        (match Eval(c, env, fuel - 1)
         case Fail(err) => Fail(err)
         case Ok(v) => if Truthy(v) then Eval(e0, env, fuel - 1) else Eval(e1, env, fuel - 1))
      case Fn(x, b) => Ok(Closure(x, b, env))
      case Fun(f, x, b) => Ok(RecClosure(f, x, b, env))
      case App(f, a) =>
        match Eval(f, env, fuel - 1)
        case Fail(err) => Fail(err)
        case Ok(fv) =>
          if !IsFunction(fv) then Fail(NotAFunction)
          else
            match Eval(a, env, fuel - 1)
            case Fail(err) => Fail(err)
            case Ok(pv) => Eval(fv.body, CallEnv(fv, pv), fuel - 1)
  }

  /** More fuel never changes a finished evaluation. */
  lemma {:induction false} FuelMonotone(e: Expr, env: Env, fuel: nat, more: nat)
    requires fuel <= more && Eval(e, env, fuel) != Fail(OutOfFuel)
    ensures Eval(e, env, more) == Eval(e, env, fuel)
    decreases fuel, 1
  {
    match e
    case Var(_) =>
    case Num(_) =>
    case Bln(_) =>
    case Fn(_, _) =>
    case Fun(_, _, _) =>
    case Add(l, r) =>
      FuelMonotoneBinary(e, env, fuel, more);
    case Lth(l, r) =>
      FuelMonotoneBinary(e, env, fuel, more);
    case And(l, r) =>
      FuelMonotoneBinary(e, env, fuel, more);
    case Let(x, d, b) =>
      FuelMonotoneLet(x, d, b, env, fuel, more);
    case If(c, e0, e1) =>
      FuelMonotoneIf(c, e0, e1, env, fuel, more);
    case App(f, a) =>
      FuelMonotoneApp(f, a, env, fuel, more);
  }

  lemma {:induction false} FuelMonotoneBinary(e: Expr, env: Env, fuel: nat, more: nat)
    requires e.Add? || e.Lth? || e.And?
    requires fuel <= more && Eval(e, env, fuel) != Fail(OutOfFuel)
    ensures Eval(e, env, more) == Eval(e, env, fuel)
    decreases fuel, 0
  {
    FuelMonotone(e.left, env, fuel - 1, more - 1);
    if Eval(e.left, env, fuel - 1).Ok? && (e.And? ==> Truthy(Eval(e.left, env, fuel - 1).value)) {
      FuelMonotone(e.right, env, fuel - 1, more - 1);
    }
  }

  lemma {:induction false} FuelMonotoneLet(x: string, d: Expr, b: Expr, env: Env, fuel: nat, more: nat)
    requires fuel <= more && Eval(Let(x, d, b), env, fuel) != Fail(OutOfFuel)
    ensures Eval(Let(x, d, b), env, more) == Eval(Let(x, d, b), env, fuel)
    decreases fuel, 0
  {
    assert fuel > 0;
    LetUnfold(x, d, b, env, fuel);
    var dv := Eval(d, env, fuel - 1);
    FuelMonotone(d, env, fuel - 1, more - 1);
    if dv.Ok? {
      FuelMonotone(b, env[x := dv.value], fuel - 1, more - 1);
    }
    LetCompare(x, d, b, env, fuel, more);
  }

  lemma {:induction false} FuelMonotoneIf(c: Expr, e0: Expr, e1: Expr, env: Env, fuel: nat, more: nat)
    requires fuel <= more && Eval(If(c, e0, e1), env, fuel) != Fail(OutOfFuel)
    ensures Eval(If(c, e0, e1), env, more) == Eval(If(c, e0, e1), env, fuel)
    decreases fuel, 0
  {
    assert fuel > 0;
    IfUnfold(c, e0, e1, env, fuel);
    var cv := Eval(c, env, fuel - 1);
    FuelMonotone(c, env, fuel - 1, more - 1);
    if cv.Ok? {
      if Truthy(cv.value) {
        FuelMonotone(e0, env, fuel - 1, more - 1);
      } else {
        FuelMonotone(e1, env, fuel - 1, more - 1);
      }
    }
    IfCompare(c, e0, e1, env, fuel, more);
  }

  /** One step of `visit_let`: the definition's failure, or the body with
      the name bound. */
  lemma {:induction false} LetUnfold(x: string, d: Expr, b: Expr, env: Env, n: nat)
    requires n > 0
    ensures Eval(d, env, n - 1).Fail? ==> Eval(Let(x, d, b), env, n) == Eval(d, env, n - 1)
    ensures Eval(d, env, n - 1).Ok? ==> Eval(Let(x, d, b), env, n) == Eval(b, env[x := Eval(d, env, n - 1).value], n - 1)
  {
  }

  /** A `let` gives the same outcome with more fuel when its parts that run do. */
  lemma {:induction false} LetCompare(x: string, d: Expr, b: Expr, env: Env, fuel: nat, more: nat)
    requires 0 < fuel <= more && Eval(d, env, more - 1) == Eval(d, env, fuel - 1)
    requires Eval(d, env, fuel - 1).Ok? ==>
               var inner := env[x := Eval(d, env, fuel - 1).value];
               Eval(b, inner, more - 1) == Eval(b, inner, fuel - 1)
    ensures Eval(Let(x, d, b), env, more) == Eval(Let(x, d, b), env, fuel)
  {
    LetUnfold(x, d, b, env, fuel);
    LetUnfold(x, d, b, env, more);
  }

  /** One step of `visit_ifThenElse`: the condition's failure, or the branch
      its value selects. */
  lemma {:induction false} IfUnfold(c: Expr, e0: Expr, e1: Expr, env: Env, n: nat)
    requires n > 0
    ensures Eval(c, env, n - 1).Fail? ==> Eval(If(c, e0, e1), env, n) == Eval(c, env, n - 1)
    ensures Eval(c, env, n - 1).Ok? ==>
              Eval(If(c, e0, e1), env, n) ==
              if Truthy(Eval(c, env, n - 1).value) then Eval(e0, env, n - 1) else Eval(e1, env, n - 1)
  {
  }

  /** An `if` gives the same outcome with more fuel when its parts that run do. */
  lemma {:induction false} IfCompare(c: Expr, e0: Expr, e1: Expr, env: Env, fuel: nat, more: nat)
    requires 0 < fuel <= more && Eval(c, env, more - 1) == Eval(c, env, fuel - 1)
    requires Eval(c, env, fuel - 1).Ok? && Truthy(Eval(c, env, fuel - 1).value) ==>
               Eval(e0, env, more - 1) == Eval(e0, env, fuel - 1)
    requires Eval(c, env, fuel - 1).Ok? && !Truthy(Eval(c, env, fuel - 1).value) ==>
               Eval(e1, env, more - 1) == Eval(e1, env, fuel - 1)
    ensures Eval(If(c, e0, e1), env, more) == Eval(If(c, e0, e1), env, fuel)
  {
    IfUnfold(c, e0, e1, env, fuel);
    IfUnfold(c, e0, e1, env, more);
  }

  lemma {:induction false} FuelMonotoneApp(f: Expr, a: Expr, env: Env, fuel: nat, more: nat)
    requires fuel <= more && Eval(App(f, a), env, fuel) != Fail(OutOfFuel)
    ensures Eval(App(f, a), env, more) == Eval(App(f, a), env, fuel)
    decreases fuel, 0
  {
    AppUnfold(f, a, env, fuel);
    var fv := Eval(f, env, fuel - 1);
    FuelMonotone(f, env, fuel - 1, more - 1);
    if fv.Ok? && IsFunction(fv.value) {
      var pv := Eval(a, env, fuel - 1);
      FuelMonotone(a, env, fuel - 1, more - 1);
      if pv.Ok? {
        FuelMonotone(fv.value.body, CallEnv(fv.value, pv.value), fuel - 1, more - 1);
      }
    }
    AppSameSteps(f, a, env, fuel, more);
  }

  /** Two evaluations of an application whose function position, argument
      and body agree at one fuel level less agree. */
  lemma {:induction false} AppSameSteps(f: Expr, a: Expr, env: Env, fuel: nat, more: nat)
    requires 0 < fuel <= more
    requires Eval(f, env, more - 1) == Eval(f, env, fuel - 1)
    requires Eval(f, env, fuel - 1).Ok? && IsFunction(Eval(f, env, fuel - 1).value) ==>
               Eval(a, env, more - 1) == Eval(a, env, fuel - 1)
    requires Eval(f, env, fuel - 1).Ok? && IsFunction(Eval(f, env, fuel - 1).value) && Eval(a, env, fuel - 1).Ok? ==>
               var fv, pv := Eval(f, env, fuel - 1).value, Eval(a, env, fuel - 1).value;
               Eval(fv.body, CallEnv(fv, pv), more - 1) == Eval(fv.body, CallEnv(fv, pv), fuel - 1)
    ensures Eval(App(f, a), env, more) == Eval(App(f, a), env, fuel)
  {
    AppUnfold(f, a, env, fuel);
    AppUnfold(f, a, env, more);
  }

  /** One step of `visit_app`: the function position's failure, a value
      that is not a function, the argument's failure, or the body. */
  lemma {:induction false} AppUnfold(f: Expr, a: Expr, env: Env, n: nat)
    requires n > 0
    ensures Eval(f, env, n - 1).Fail? ==> Eval(App(f, a), env, n) == Eval(f, env, n - 1)
    ensures Eval(f, env, n - 1).Ok? && !IsFunction(Eval(f, env, n - 1).value) ==> Eval(App(f, a), env, n) == Fail(NotAFunction)
    ensures Eval(f, env, n - 1).Ok? && IsFunction(Eval(f, env, n - 1).value) && Eval(a, env, n - 1).Fail? ==>
              Eval(App(f, a), env, n) == Eval(a, env, n - 1)
    ensures Eval(f, env, n - 1).Ok? && IsFunction(Eval(f, env, n - 1).value) && Eval(a, env, n - 1).Ok? ==>
              Eval(App(f, a), env, n) == Eval(Eval(f, env, n - 1).value.body, CallEnv(Eval(f, env, n - 1).value, Eval(a, env, n - 1).value), n - 1)
  {
  }

  /** `visit_app`: the body runs in the environment the function kept, not
      in the caller's; the caller's bindings are invisible to it. */
  lemma {:induction false} DefinitionScope(f: Expr, a: Expr, env: Env, fuel: nat, fv: Value, v: Value)
    requires fuel > 0 && IsFunction(fv) && Eval(f, env, fuel - 1) == Ok(fv) && Eval(a, env, fuel - 1) == Ok(v)
    ensures Eval(App(f, a), env, fuel) == Eval(fv.body, CallEnv(fv, v), fuel - 1)
    ensures fv.Closure? ==> CallEnv(fv, v).Keys == fv.env.Keys + {fv.formal}
  {
  }

  /** `visit_let`: the body runs with the name bound to the definition's
      value. */
  lemma {:induction false} LetStep(x: string, d: Expr, b: Expr, env: Env, fuel: nat, v: Value)
    requires fuel > 0 && Eval(d, env, fuel - 1) == Ok(v)
    ensures Eval(Let(x, d, b), env, fuel) == Eval(b, env[x := v], fuel - 1)
  {
  }

  /** `visit_add` on two numbers. */
  lemma {:induction false} AddStep(l: Expr, r: Expr, env: Env, fuel: nat, a: int, b: int)
    requires fuel > 0 && Eval(l, env, fuel - 1) == Ok(IntV(a)) && Eval(r, env, fuel - 1) == Ok(IntV(b))
    ensures Eval(Add(l, r), env, fuel) == Ok(IntV(a + b))
  {
  }

  /** `visit_lth` on two numbers. */
  lemma {:induction false} LthStep(l: Expr, r: Expr, env: Env, fuel: nat, a: int, b: int)
    requires fuel > 0 && Eval(l, env, fuel - 1) == Ok(IntV(a)) && Eval(r, env, fuel - 1) == Ok(IntV(b))
    ensures Eval(Lth(l, r), env, fuel) == Ok(BoolV(a < b))
  {
  }

  /** `visit_ifThenElse` evaluates only the branch the condition picks. */
  lemma {:induction false} IfStep(c: Expr, e0: Expr, e1: Expr, env: Env, fuel: nat, b: bool)
    requires fuel > 0 && Eval(c, env, fuel - 1) == Ok(BoolV(b))
    ensures Eval(If(c, e0, e1), env, fuel) == if b then Eval(e0, env, fuel - 1) else Eval(e1, env, fuel - 1)
  {
  }

  /** `visit_fn` keeps the current environment. */
  lemma {:induction false} FnStep(x: string, b: Expr, env: Env, fuel: nat)
    requires fuel > 0
    ensures Eval(Fn(x, b), env, fuel) == Ok(Closure(x, b, env))
  {
  }

  /** `visit_fun` keeps the current environment. */
  lemma {:induction false} FunStep(f: string, x: string, b: Expr, env: Env, fuel: nat)
    requires fuel > 0
    ensures Eval(Fun(f, x, b), env, fuel) == Ok(RecClosure(f, x, b, env))
  {
  }

  /** `visit_var` on a bound name. */
  lemma {:induction false} VarStep(x: string, env: Env, fuel: nat)
    requires fuel > 0 && x in env
    ensures Eval(Var(x), env, fuel) == Ok(env[x])
  {
  }

  /** The programs of 11_AnonymousFunctions/Exp9.py as programs of this
      language. */
  function Lift(e: DynamicScope.Expr): (r: Expr)
    ensures !r.Fun?
  {
    match e
    case Var(x) => Var(x)
    case Num(n) => Num(n)
    case Bln(b) => Bln(b)
    case Add(l, r) => Add(Lift(l), Lift(r))
    case And(l, r) => And(Lift(l), Lift(r))
    case Lth(l, r) => Lth(Lift(l), Lift(r))
    case Let(x, d, b) => Let(x, Lift(d), Lift(b))
    case If(c, e0, e1) => If(Lift(c), Lift(e0), Lift(e1))
    case Fn(x, b) => Fn(x, Lift(b))
    case App(f, a) => App(Lift(f), Lift(a))
  }

  lemma {:induction false} LiftShadowed()
    ensures Lift(DynamicScope.Shadowed) ==
            Let("w", Num(2), Let("f", Fn("v", Add(Var("v"), Var("w"))), Let("w", Num(3), App(Var("f"), Num(1)))))
  {
  }

  /** `let w = 2 in let f = fn v => v + w in let w = 3 in f 1` is 3 here:
      `f` reads the `w` it was written under. This is the result the
      doctest of Exp9.py expects, and the doctest of `App` in this file
      asserts. */
  lemma {:induction false} ShadowedIsThree(fuel: nat)
    requires fuel >= 6
    ensures Eval(Lift(DynamicScope.Shadowed), map[], fuel) == Ok(IntV(3))
  {
    LiftShadowed();
    var env0: Env := map[];
    var body := Add(Var("v"), Var("w"));
    var env1 := env0["w" := IntV(2)];
    var fv := Closure("v", body, env1);
    var env2 := env1["f" := fv];
    var env3 := env2["w" := IntV(3)];
    var call := CallEnv(fv, IntV(1));
    VarStep("v", call, fuel - 5);
    VarStep("w", call, fuel - 5);
    AddStep(Var("v"), Var("w"), call, fuel - 4, 1, 2);
    VarStep("f", env3, fuel - 4);
    DefinitionScope(Var("f"), Num(1), env3, fuel - 3, fv, IntV(1));
    LetStep("w", Num(3), App(Var("f"), Num(1)), env2, fuel - 2, IntV(3));
    LetStep("f", Fn("v", body), Let("w", Num(3), App(Var("f"), Num(1))), env1, fuel - 1, fv);
    LetStep("w", Num(2), Let("f", Fn("v", body), Let("w", Num(3), App(Var("f"), Num(1)))), env0, fuel, IntV(2));
  }

  /** `fun f v => v + 1` bound to `f` and applied to 2 gives 3. */
  lemma {:induction false} RecFunctionExample(fuel: nat)
    requires fuel >= 5
    ensures Eval(Let("f", Fun("f", "v", Add(Var("v"), Num(1))), App(Var("f"), Num(2))), map[], fuel) == Ok(IntV(3))
  {
    var env0: Env := map[];
    var body := Add(Var("v"), Num(1));
    var fv := RecClosure("f", "v", body, env0);
    var call := CallEnv(fv, IntV(2));
    VarStep("v", call, fuel - 4);
    AddStep(Var("v"), Num(1), call, fuel - 3, 2, 1);
    VarStep("f", env0["f" := fv], fuel - 2);
    DefinitionScope(Var("f"), Num(2), env0["f" := fv], fuel - 1, fv, IntV(2));
    LetStep("f", Fun("f", "v", body), App(Var("f"), Num(2)), env0, fuel, fv);
  }
}
