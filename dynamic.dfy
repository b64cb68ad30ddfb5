/** The anonymous functions of 11_AnonymousFunctions/Exp9.py: `fn x => e`
    evaluates to a `Function` holding only its parameter and body, and an
    application evaluates that body in the caller's environment extended
    with the parameter. Free names of a body are therefore looked up where
    the function is called, not where it was written: dynamic scoping.
    Evaluation may run forever (`let f = fn x => f x in f 1` does), so the
    evaluator takes a fuel bound on its recursion depth. */
module DynamicScope {
  import opened Wrappers

  datatype Expr =
    | Var(name: string)
    | Num(num: int)
    | Bln(bln: bool)
    | Add(left: Expr, right: Expr)
    | And(left: Expr, right: Expr)
    | Lth(left: Expr, right: Expr)
    | Let(name: string, def: Expr, body: Expr)
    | If(cond: Expr, e0: Expr, e1: Expr)
    | Fn(formal: string, body: Expr)
    | App(callee: Expr, actual: Expr)

  /** A value: a Python `int` or `bool`, or a `Function(formal, body)`. */
  datatype Value = IntV(i: int) | BoolV(b: bool) | FunctionV(formal: string, body: Expr)

  type Env = map<string, Value>

  /** `sys.exit("Variavel inexistente ...")`, `sys.exit("Type error")`
      for an application of a non-function, Python's TypeError for `+` or
      `<` on a `Function`, and fuel running out. */
  datatype EvalError = Unbound(name: string) | NotAFunction | BadOperand | OutOfFuel

  /** Python's `+` and `<` treat `True` and `False` as 1 and 0. */
  function NumberOf(v: Value): int
    requires !v.FunctionV?
  {
    if v.IntV? then v.i else if v.b then 1 else 0
  }

  /** Python's truth value: 0 and False are false, and so is nothing else;
      a `Function` object is true. */
  predicate Truthy(v: Value)
  {
    match v
    case IntV(n) => n != 0
    case BoolV(b) => b
    case FunctionV(_, _) => true
  }

  function Plus(a: Value, b: Value): (r: Result<Value, EvalError>)
    ensures r.Ok? <==> !a.FunctionV? && !b.FunctionV?
  {
    if a.FunctionV? || b.FunctionV? then Fail(BadOperand) else Ok(IntV(NumberOf(a) + NumberOf(b)))
  }

  function Less(a: Value, b: Value): (r: Result<Value, EvalError>)
    ensures r.Ok? <==> !a.FunctionV? && !b.FunctionV?
  {
    if a.FunctionV? || b.FunctionV? then Fail(BadOperand) else Ok(BoolV(NumberOf(a) < NumberOf(b)))
  }

  /** `VisitorEval` with at most `fuel` nested calls. `visit_app`
      evaluates the function position, stops unless it is a `Function`,
      evaluates the argument, and runs the body in a copy of the CALLER's
      environment with the parameter bound. */
  function Eval(e: Expr, env: Env, fuel: nat): Result<Value, EvalError>
    decreases fuel
  {
    if fuel == 0 then Fail(OutOfFuel)
    else
      match e
      case Var(x) => if x in env then Ok(env[x]) else Fail(Unbound(x))
      case Num(n) => Ok(IntV(n))
      case Bln(b) => Ok(BoolV(b))
      case Add(l, r) =>
        (match Eval(l, env, fuel - 1)
         case Fail(err) => Fail(err)
         case Ok(a) =>
           match Eval(r, env, fuel - 1)
           case Fail(err) => Fail(err)
           case Ok(b) => Plus(a, b))
      case Lth(l, r) =>
        (match Eval(l, env, fuel - 1)
         case Fail(err) => Fail(err)
         case Ok(a) =>
           match Eval(r, env, fuel - 1)
           case Fail(err) => Fail(err)
           case Ok(b) => Less(a, b))
      case And(l, r) =>
        (match Eval(l, env, fuel - 1)
         case Fail(err) => Fail(err)
         case Ok(a) => if Truthy(a) then Eval(r, env, fuel - 1) else Ok(BoolV(false)))
      case Let(x, d, b) =>
        (match Eval(d, env, fuel - 1)
         case Fail(err) => Fail(err)
         case Ok(v) => Eval(b, env[x := v], fuel - 1))
      case If(c, e0, e1) =>
        (match Eval(c, env, fuel - 1)
         case Fail(err) => Fail(err)
         case Ok(v) => if Truthy(v) then Eval(e0, env, fuel - 1) else Eval(e1, env, fuel - 1))
      case Fn(x, b) => Ok(FunctionV(x, b))
      case App(f, a) =>
        match Eval(f, env, fuel - 1)
        case Fail(err) => Fail(err)
        case Ok(fv) =>
          if !fv.FunctionV? then Fail(NotAFunction)
          else
            match Eval(a, env, fuel - 1)
            case Fail(err) => Fail(err)
            case Ok(pv) => Eval(fv.body, env[fv.formal := pv], fuel - 1)
  }

  /** More fuel changes nothing once an evaluation has finished: the fuel
      bound only cuts evaluations short, it never alters a result. */
  lemma {:induction false} FuelMonotone(e: Expr, env: Env, fuel: nat, more: nat)
    requires fuel <= more && Eval(e, env, fuel) != Fail(OutOfFuel)
    ensures Eval(e, env, more) == Eval(e, env, fuel)
    decreases fuel, 1
  {
    match e
    case Var(_) =>
    case Num(_) =>
    case Bln(_) =>
    case Fn(_, _) =>
    case Add(l, r) =>
      FuelMonotone(l, env, fuel - 1, more - 1);
      if Eval(l, env, fuel - 1).Ok? {
        FuelMonotone(r, env, fuel - 1, more - 1);
      }
    case Lth(l, r) =>
      FuelMonotone(l, env, fuel - 1, more - 1);
      if Eval(l, env, fuel - 1).Ok? {
        FuelMonotone(r, env, fuel - 1, more - 1);
      }
    case And(l, r) =>
      FuelMonotone(l, env, fuel - 1, more - 1);
      if Eval(l, env, fuel - 1).Ok? && Truthy(Eval(l, env, fuel - 1).value) {
        FuelMonotone(r, env, fuel - 1, more - 1);
      }
    case Let(x, d, b) =>
      FuelMonotoneLet(x, d, b, env, fuel, more);
    case If(c, e0, e1) =>
      FuelMonotoneIf(c, e0, e1, env, fuel, more);
    case App(f, a) =>
      FuelMonotoneApp(f, a, env, fuel, more);
  }

  lemma {:induction false} FuelMonotoneLet(x: string, d: Expr, b: Expr, env: Env, fuel: nat, more: nat)
    requires fuel <= more && Eval(Let(x, d, b), env, fuel) != Fail(OutOfFuel)
    ensures Eval(Let(x, d, b), env, more) == Eval(Let(x, d, b), env, fuel)
    decreases fuel, 0
  {
    assert fuel > 0;
    LetUnfold(x, d, b, env, fuel);
    var dv := Eval(d, env, fuel - 1);
    FuelMonotone(d, env, fuel - 1, more - 1);
    if dv.Ok? {
      FuelMonotone(b, env[x := dv.value], fuel - 1, more - 1);
    }
    LetCompare(x, d, b, env, fuel, more);
  }

  lemma {:induction false} FuelMonotoneIf(c: Expr, e0: Expr, e1: Expr, env: Env, fuel: nat, more: nat)
    requires fuel <= more && Eval(If(c, e0, e1), env, fuel) != Fail(OutOfFuel)
    ensures Eval(If(c, e0, e1), env, more) == Eval(If(c, e0, e1), env, fuel)
    decreases fuel, 0
  {
    assert fuel > 0;
    IfUnfold(c, e0, e1, env, fuel);
    var cv := Eval(c, env, fuel - 1);
    FuelMonotone(c, env, fuel - 1, more - 1);
    if cv.Ok? {
      if Truthy(cv.value) {
        FuelMonotone(e0, env, fuel - 1, more - 1);
      } else {
        FuelMonotone(e1, env, fuel - 1, more - 1);
      }
    }
    IfCompare(c, e0, e1, env, fuel, more);
  }

  /** One step of `visit_let`: the definition's failure, or the body with
      the name bound. */
  lemma {:induction false} LetUnfold(x: string, d: Expr, b: Expr, env: Env, n: nat)
    requires n > 0
    ensures Eval(d, env, n - 1).Fail? ==> Eval(Let(x, d, b), env, n) == Eval(d, env, n - 1)
    ensures Eval(d, env, n - 1).Ok? ==> Eval(Let(x, d, b), env, n) == Eval(b, env[x := Eval(d, env, n - 1).value], n - 1)
  {
  }

  /** A `let` gives the same outcome with more fuel when its parts that run do. */
  lemma {:induction false} LetCompare(x: string, d: Expr, b: Expr, env: Env, fuel: nat, more: nat)
    requires 0 < fuel <= more && Eval(d, env, more - 1) == Eval(d, env, fuel - 1)
    requires Eval(d, env, fuel - 1).Ok? ==>
               var inner := env[x := Eval(d, env, fuel - 1).value];
               Eval(b, inner, more - 1) == Eval(b, inner, fuel - 1)
    ensures Eval(Let(x, d, b), env, more) == Eval(Let(x, d, b), env, fuel)
  {
    LetUnfold(x, d, b, env, fuel);
    LetUnfold(x, d, b, env, more);
  }

  /** One step of `visit_ifThenElse`: the condition's failure, or the branch
      its value selects. */
  lemma {:induction false} IfUnfold(c: Expr, e0: Expr, e1: Expr, env: Env, n: nat)
    requires n > 0
    ensures Eval(c, env, n - 1).Fail? ==> Eval(If(c, e0, e1), env, n) == Eval(c, env, n - 1)
    ensures Eval(c, env, n - 1).Ok? ==>
              Eval(If(c, e0, e1), env, n) ==
              if Truthy(Eval(c, env, n - 1).value) then Eval(e0, env, n - 1) else Eval(e1, env, n - 1)
  {
  }

  /** An `if` gives the same outcome with more fuel when its parts that run do. */
  lemma {:induction false} IfCompare(c: Expr, e0: Expr, e1: Expr, env: Env, fuel: nat, more: nat)
    requires 0 < fuel <= more && Eval(c, env, more - 1) == Eval(c, env, fuel - 1)
    requires Eval(c, env, fuel - 1).Ok? && Truthy(Eval(c, env, fuel - 1).value) ==>
               Eval(e0, env, more - 1) == Eval(e0, env, fuel - 1)
    requires Eval(c, env, fuel - 1).Ok? && !Truthy(Eval(c, env, fuel - 1).value) ==>
               Eval(e1, env, more - 1) == Eval(e1, env, fuel - 1)
    ensures Eval(If(c, e0, e1), env, more) == Eval(If(c, e0, e1), env, fuel)
  {
    IfUnfold(c, e0, e1, env, fuel);
    IfUnfold(c, e0, e1, env, more);
  }

  lemma {:induction false} FuelMonotoneApp(f: Expr, a: Expr, env: Env, fuel: nat, more: nat)
    requires fuel <= more && Eval(App(f, a), env, fuel) != Fail(OutOfFuel)
    ensures Eval(App(f, a), env, more) == Eval(App(f, a), env, fuel)
    decreases fuel, 0
  {
    AppUnfold(f, a, env, fuel);
    var fv := Eval(f, env, fuel - 1);
    FuelMonotone(f, env, fuel - 1, more - 1);
    if fv.Ok? && fv.value.FunctionV? {
      var pv := Eval(a, env, fuel - 1);
      FuelMonotone(a, env, fuel - 1, more - 1);
      if pv.Ok? {
        var body, callEnv := fv.value.body, env[fv.value.formal := pv.value];
        FuelMonotone(body, callEnv, fuel - 1, more - 1);
      }
    }
    AppCompare(f, a, env, fuel, more);
  }

  /** An application gives the same outcome with more fuel when its parts
      that run do. */
  lemma {:induction false} AppCompare(f: Expr, a: Expr, env: Env, fuel: nat, more: nat)
    requires 0 < fuel <= more
    requires Eval(f, env, more - 1) == Eval(f, env, fuel - 1)
    requires Eval(f, env, fuel - 1).Ok? && Eval(f, env, fuel - 1).value.FunctionV? ==>
               Eval(a, env, more - 1) == Eval(a, env, fuel - 1)
    requires var fv, pv := Eval(f, env, fuel - 1), Eval(a, env, fuel - 1);
             fv.Ok? && fv.value.FunctionV? && pv.Ok? ==>
               Eval(fv.value.body, env[fv.value.formal := pv.value], more - 1) ==
               Eval(fv.value.body, env[fv.value.formal := pv.value], fuel - 1)
    ensures Eval(App(f, a), env, more) == Eval(App(f, a), env, fuel)
  {
    AppUnfold(f, a, env, fuel);
    AppUnfold(f, a, env, more);
  }

  /** One step of `visit_app`: the function position's failure, a value
      that is not a function, the argument's failure, or the body. */
  lemma {:induction false} AppUnfold(f: Expr, a: Expr, env: Env, n: nat)
    requires n > 0
    ensures Eval(f, env, n - 1).Fail? ==> Eval(App(f, a), env, n) == Eval(f, env, n - 1)
    ensures Eval(f, env, n - 1).Ok? && !Eval(f, env, n - 1).value.FunctionV? ==> Eval(App(f, a), env, n) == Fail(NotAFunction)
    ensures Eval(f, env, n - 1).Ok? && Eval(f, env, n - 1).value.FunctionV? && Eval(a, env, n - 1).Fail? ==>
              Eval(App(f, a), env, n) == Eval(a, env, n - 1)
    ensures Eval(f, env, n - 1).Ok? && Eval(f, env, n - 1).value.FunctionV? && Eval(a, env, n - 1).Ok? ==>
              Eval(App(f, a), env, n) == Eval(Eval(f, env, n - 1).value.body, env[Eval(f, env, n - 1).value.formal := Eval(a, env, n - 1).value], n - 1)
  {
  }

  /** `visit_fn`: a function value keeps no environment, so evaluating the
      same `fn` anywhere gives the same value. */
  lemma {:induction false} FnCapturesNothing(x: string, body: Expr, env1: Env, env2: Env, fuel: nat)
    requires fuel > 0
    ensures Eval(Fn(x, body), env1, fuel) == Eval(Fn(x, body), env2, fuel) == Ok(FunctionV(x, body))
  {
  }

  /** `visit_app`: the body runs in the caller's environment with the
      parameter bound, whatever environment the function came from. */
  lemma {:induction false} CallerScope(f: Expr, a: Expr, env: Env, fuel: nat, x: string, body: Expr, v: Value)
    requires fuel > 0 && Eval(f, env, fuel - 1) == Ok(FunctionV(x, body)) && Eval(a, env, fuel - 1) == Ok(v)
    ensures Eval(App(f, a), env, fuel) == Eval(body, env[x := v], fuel - 1)
  {
  }

  /** The doctests of `App`. */
  const Double := App(Fn("v", Add(Var("v"), Var("v"))), Add(Num(40), Num(2)))
  const FreeName := Let("w", Num(3), App(Fn("v", Add(Var("v"), Var("w"))), Num(2)))
  const Named := Let("f", Fn("x", Add(Var("x"), Num(1))), App(Var("f"), Num(1)))
  /** `let w = 2 in let f = fn v => v + w in let w = 3 in f 1`. */
  const Shadowed := Let("w", Num(2), Let("f", Fn("v", Add(Var("v"), Var("w"))), Let("w", Num(3), App(Var("f"), Num(1)))))

  lemma {:induction false} DoubleExample()
    ensures Eval(Double, map[], 4) == Ok(IntV(84))
  {
    var env0: Env := map[];
    assert Eval(Add(Var("v"), Var("v")), env0["v" := IntV(42)], 2) == Ok(IntV(84));
  }

  lemma {:induction false} FreeNameExample()
    ensures Eval(FreeName, map[], 5) == Ok(IntV(5))
  {
    var env0: Env := map[];
    var env1 := env0["w" := IntV(3)];
    assert Eval(Add(Var("v"), Var("w")), env1["v" := IntV(2)], 2) == Ok(IntV(5));
    assert Eval(FreeName.body, env1, 4) == Ok(IntV(5));
  }

  lemma {:induction false} NamedExample()
    ensures Eval(Named, map[], 5) == Ok(IntV(2))
  {
    var env0: Env := map[];
    var fv := FunctionV("x", Add(Var("x"), Num(1)));
    var env1 := env0["f" := fv];
    assert Eval(Add(Var("x"), Num(1)), env1["x" := IntV(1)], 2) == Ok(IntV(2));
    assert Eval(Named.body, env1, 4) == Ok(IntV(2));
  }

  /** The last doctest of `App` expects 3, but the body of `f` reads the `w`
      of its caller, which is 3 when `f 1` runs: the result is 4. */
  lemma {:induction false} ShadowedIsFour()
    ensures Eval(Shadowed, map[], 6) == Ok(IntV(4))
    ensures Eval(Shadowed, map[], 6) != Ok(IntV(3))
  {
    var env0: Env := map[];
    var fv := FunctionV("v", Add(Var("v"), Var("w")));
    var env1 := env0["w" := IntV(2)]["f" := fv]["w" := IntV(3)];
    assert Eval(Add(Var("v"), Var("w")), env1["v" := IntV(1)], 2) == Ok(IntV(4));
    assert Eval(App(Var("f"), Num(1)), env1, 3) == Ok(IntV(4));
    var env2 := env0["w" := IntV(2)]["f" := fv];
    assert Eval(Shadowed.body.body, env2, 4) == Ok(IntV(4));
    assert Eval(Shadowed.body, env0["w" := IntV(2)], 5) == Ok(IntV(4));
  }

  /** With dynamic scoping a function can call itself by the name a `let`
      gives it, and `let f = fn x => f x in f 1` never stops: no fuel is
      enough. */
  lemma {:induction false} SelfCallDiverges(fuel: nat)
    ensures Eval(Let("f", Fn("x", App(Var("f"), Var("x"))), App(Var("f"), Num(1))), map[], fuel) == Fail(OutOfFuel)
  {
    var fv := FunctionV("x", App(Var("f"), Var("x")));
    var env0: Env := map[];
    var env1 := env0["f" := fv];
    if fuel > 2 {
      SelfCallLoops(env1["x" := IntV(1)], fuel - 2);
      assert Eval(App(Var("f"), Num(1)), env1, fuel - 1) == Fail(OutOfFuel);
    }
  }

  lemma {:induction false} SelfCallLoops(env: Env, fuel: nat)
    requires "f" in env && env["f"] == FunctionV("x", App(Var("f"), Var("x"))) && "x" in env
    ensures Eval(App(Var("f"), Var("x")), env, fuel) == Fail(OutOfFuel)
    decreases fuel
  {
    if fuel > 1 {
      var env' := env["x" := env["x"]];
      SelfCallLoops(env', fuel - 1);
    }
  }
}
