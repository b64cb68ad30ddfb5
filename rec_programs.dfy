/** The program builders of 12_RecFun/Exp10.py and what the evaluator
    computes for them, for every argument: `create_arithmetic_sum(a, b)`
    sums the integers of [a, b) with a recursive function `range`, and
    `create_for_loop(begin, end, f)` applies `f` to `begin` once for each
    of end, end - 1, ..., 2 (`create_loop(n)` is the loop with the
    successor function starting at 2). */
module RecPrograms {
  import opened Wrappers
  import opened Closures

  /** `if n0 < n1 then n0 + range (n0 + 1) n1 else 0`. */
  const RangeBody: Expr :=
    If(Lth(Var("n0"), Var("n1")),
       Add(Var("n0"), App(App(Var("range"), Add(Var("n0"), Num(1))), Var("n1"))),
       Num(0))

  /** `fun range n0 = fn n1 => ...`. */
  const RangeFun: Expr := Fun("range", "n0", Fn("n1", RangeBody))

  /** `create_arithmetic_sum(a, b)`: `let range = ... in range a b`. */
  function ArithmeticSum(a: int, b: int): Expr
  {
    Let("range", RangeFun, App(App(Var("range"), Num(a)), Num(b)))
  }

  /** The sum of the integers of [a, b). */
  function SumRange(a: int, b: int): int
    decreases b - a
  {
    if a < b then a + SumRange(a + 1, b) else 0
  }

  /** The sum of [a, b) in closed form: (b - a) terms of average
      (a + b - 1) / 2. */
  lemma {:induction false} SumRangeClosed(a: int, b: int)
    requires a <= b
    ensures 2 * SumRange(a, b) == (b - a) * (a + b - 1)
    decreases b - a
  {
    if a < b {
      SumRangeClosed(a + 1, b);
    }
  }

  /** The value `range` is bound to: the `RecFunction` made in the empty
      environment. */
  const Range: Value := RecClosure("range", "n0", Fn("n1", RangeBody), map[])

  /** The environment of the body of `range a` applied to `b`. */
  function RangeEnv(a: int, b: int): Env
  {
    CallEnv(Closure("n1", RangeBody, CallEnv(Range, IntV(a))), IntV(b))
  }

  lemma {:induction false} RangeEnvLookup(a: int, b: int)
    ensures "n0" in RangeEnv(a, b) && RangeEnv(a, b)["n0"] == IntV(a)
    ensures "n1" in RangeEnv(a, b) && RangeEnv(a, b)["n1"] == IntV(b)
    ensures "range" in RangeEnv(a, b) && RangeEnv(a, b)["range"] == Range
  {
  }

  /** The fuel the body needs: three levels per recursive call. */
  function RangeFuel(a: int, b: int): nat
  {
    if a < b then 3 * (b - a) + 6 else 3
  }

  /** `range (a + 1) n1` inside the body, applied to `b`, calls the body
      again with a + 1. */
  lemma {:induction false} RangeCall(a: int, b: int, fuel: nat)
    requires fuel >= 6
    ensures Eval(App(App(Var("range"), Add(Var("n0"), Num(1))), Var("n1")), RangeEnv(a, b), fuel) ==
            Eval(RangeBody, RangeEnv(a + 1, b), fuel - 1)
  {
    var env := RangeEnv(a, b);
    RangeEnvLookup(a, b);
    VarStep("n0", env, fuel - 3);
    AddStep(Var("n0"), Num(1), env, fuel - 2, a, 1);
    VarStep("range", env, fuel - 2);
    FnStep("n1", RangeBody, CallEnv(Range, IntV(a + 1)), fuel - 2);
    DefinitionScope(Var("range"), Add(Var("n0"), Num(1)), env, fuel - 1, Range, IntV(a + 1));
    VarStep("n1", env, fuel - 1);
    DefinitionScope(App(Var("range"), Add(Var("n0"), Num(1))), Var("n1"), env, fuel,
                    Closure("n1", RangeBody, CallEnv(Range, IntV(a + 1))), IntV(b));
  }

  /** The body of `range` under n0 = a, n1 = b computes the sum of
      [a, b). */
  lemma {:induction false} RangeBodySum(a: int, b: int, fuel: nat)
    requires fuel >= RangeFuel(a, b)
    ensures Eval(RangeBody, RangeEnv(a, b), fuel) == Ok(IntV(SumRange(a, b)))
    decreases b - a
  {
    if a < b {
      RangeBodySum(a + 1, b, fuel - 3);
      RangeBodyStep(a, b, fuel);
    } else {
      RangeBodyStop(a, b, fuel);
    }
  }

  /** The steps of the body before its branch: the test `n0 < n1`. */
  lemma {:induction false} RangeBodyTest(a: int, b: int, fuel: nat)
    requires fuel >= RangeFuel(a, b)
    ensures Eval(Lth(Var("n0"), Var("n1")), RangeEnv(a, b), fuel - 1) == Ok(BoolV(a < b))
  {
    var env := RangeEnv(a, b);
    RangeEnvLookup(a, b);
    VarStep("n0", env, fuel - 2);
    VarStep("n1", env, fuel - 2);
    LthStep(Var("n0"), Var("n1"), env, fuel - 1, a, b);
  }

  /** The step of `RangeBodySum` when a < b: a plus the sum from a + 1. */
  lemma {:induction false} RangeBodyStep(a: int, b: int, fuel: nat)
    requires a < b && fuel >= RangeFuel(a, b)
    requires Eval(RangeBody, RangeEnv(a + 1, b), fuel - 3) == Ok(IntV(SumRange(a + 1, b)))
    ensures Eval(RangeBody, RangeEnv(a, b), fuel) == Ok(IntV(SumRange(a, b)))
  {
    var env := RangeEnv(a, b);
    RangeEnvLookup(a, b);
    VarStep("n0", env, fuel - 2);
    RangeBodyTest(a, b, fuel);
    var call := App(App(Var("range"), Add(Var("n0"), Num(1))), Var("n1"));
    RangeCall(a, b, fuel - 2);
    AddStep(Var("n0"), call, env, fuel - 1, a, SumRange(a + 1, b));
    IfStep(Lth(Var("n0"), Var("n1")), Add(Var("n0"), call), Num(0), env, fuel, true);
  }

  /** When a >= b the body gives 0, the empty sum. */
  lemma {:induction false} RangeBodyStop(a: int, b: int, fuel: nat)
    requires b <= a && fuel >= RangeFuel(a, b)
    ensures Eval(RangeBody, RangeEnv(a, b), fuel) == Ok(IntV(SumRange(a, b)))
  {
    var env := RangeEnv(a, b);
    var call := App(App(Var("range"), Add(Var("n0"), Num(1))), Var("n1"));
    RangeBodyTest(a, b, fuel);
    IfStep(Lth(Var("n0"), Var("n1")), Add(Var("n0"), call), Num(0), env, fuel, false);
  }

  /** `range a`, applied once, is the closure waiting for `n1`. */
  lemma {:induction false} RangePartial(a: int, fuel: nat)
    requires fuel >= 3
    ensures Eval(App(Var("range"), Num(a)), map["range" := Range], fuel) ==
            Ok(Closure("n1", RangeBody, CallEnv(Range, IntV(a))))
  {
    var env1: Env := map["range" := Range];
    VarStep("range", env1, fuel - 1);
    FnStep("n1", RangeBody, CallEnv(Range, IntV(a)), fuel - 1);
    DefinitionScope(Var("range"), Num(a), env1, fuel, Range, IntV(a));
  }

  /** `range a b` in the program's scope is the sum of [a, b). */
  lemma {:induction false} RangeApplied(a: int, b: int, fuel: nat)
    requires fuel >= RangeFuel(a, b) + 1
    ensures Eval(App(App(Var("range"), Num(a)), Num(b)), map["range" := Range], fuel) == Ok(IntV(SumRange(a, b)))
  {
    RangePartial(a, fuel - 1);
    RangeBodySum(a, b, fuel - 1);
    DefinitionScope(App(Var("range"), Num(a)), Num(b), map["range" := Range], fuel,
                    Closure("n1", RangeBody, CallEnv(Range, IntV(a))), IntV(b));
  }

  /** What `create_arithmetic_sum(a, b)` evaluates to: the sum of the
      integers of [a, b), given fuel for b - a recursive calls. */
  lemma {:induction false} ArithmeticSumValue(a: int, b: int, fuel: nat)
    requires fuel >= RangeFuel(a, b) + 2
    ensures Eval(ArithmeticSum(a, b), map[], fuel) == Ok(IntV(SumRange(a, b)))
  {
    var env0: Env := map[];
    assert env0["range" := Range] == map["range" := Range];
    RangeApplied(a, b, fuel - 1);
    FunStep("range", "n0", Fn("n1", RangeBody), env0, fuel - 1);
    LetStep("range", RangeFun, App(App(Var("range"), Num(a)), Num(b)), env0, fuel, Range);
  }

  /** The doctests of `create_arithmetic_sum`: 20 for (2, 7) and 28 for
      (1, 8). */
  lemma {:induction false} ArithmeticSumExamples(fuel: nat)
    requires fuel >= 29
    ensures Eval(ArithmeticSum(2, 7), map[], fuel) == Ok(IntV(20))
    ensures Eval(ArithmeticSum(1, 8), map[], fuel) == Ok(IntV(28))
  {
    ArithmeticSumValue(2, 7, fuel);
    ArithmeticSumValue(1, 8, fuel);
    SumRangeClosed(2, 7);
    SumRangeClosed(1, 8);
  }

  /** `if n < 2 then a else loop (n - 1) f (f a)`. */
  const LoopBody: Expr :=
    If(Lth(Var("n"), Num(2)),
       Var("a"),
       App(App(App(Var("loop"), Add(Var("n"), Num(-1))), Var("f")), App(Var("f"), Var("a"))))

  /** `fun loop n = fn f => fn a => ...`. */
  const LoopFun: Expr := Fun("loop", "n", Fn("f", Fn("a", LoopBody)))

  /** `create_for_loop(begin, end, function)`. */
  function ForLoop(begin: int, end: int, f: Expr): Expr
  {
    Let("loop", LoopFun, App(App(App(Var("loop"), Num(end)), f), Num(begin)))
  }

  /** `create_loop(n)`: `loop n (fn x => x + 1) 2`. */
  function CreateLoop(n: int): (e: Expr)
    ensures e == ForLoop(2, n, Fn("x", Add(Var("x"), Num(1))))
  {
    Let("loop", LoopFun, App(App(App(Var("loop"), Num(n)), Fn("x", Add(Var("x"), Num(1)))), Num(2)))
  }

  /** `g` applied `k` times to `a`. */
  function Iterate(g: int -> int, k: int, a: int): int
    decreases k
  {
    if k <= 0 then a else Iterate(g, k - 1, g(a))
  }

  const Loop: Value := RecClosure("loop", "n", Fn("f", Fn("a", LoopBody)), map[])

  /** `loop n`: the closure waiting for `f`. */
  function LoopN(n: int): Value
  {
    Closure("f", Fn("a", LoopBody), CallEnv(Loop, IntV(n)))
  }

  /** `loop n f`: the closure waiting for `a`. */
  function LoopNF(n: int, fv: Value): Value
  {
    Closure("a", LoopBody, CallEnv(LoopN(n), fv))
  }

  /** The environment of the body of `loop n f` applied to `a`. */
  function LoopEnv(n: int, fv: Value, a: Value): Env
  {
    CallEnv(LoopNF(n, fv), a)
  }

  lemma {:induction false} LoopEnvLookup(n: int, fv: Value, a: Value)
    ensures "n" in LoopEnv(n, fv, a) && LoopEnv(n, fv, a)["n"] == IntV(n)
    ensures "f" in LoopEnv(n, fv, a) && LoopEnv(n, fv, a)["f"] == fv
    ensures "a" in LoopEnv(n, fv, a) && LoopEnv(n, fv, a)["a"] == a
    ensures "loop" in LoopEnv(n, fv, a) && LoopEnv(n, fv, a)["loop"] == Loop
  {
  }

  /** A function value that maps every number k to g(k), given `cost`
      fuel. */
  ghost predicate Computes(fv: Value, g: int -> int, cost: nat)
  {
    IsFunction(fv) && forall k: int, fuel: nat :: fuel >= cost ==> Gives(fv, g, k, fuel)
  }

  /** Called on k with `fuel`, the function value returns g(k). */
  ghost predicate Gives(fv: Value, g: int -> int, k: int, fuel: nat)
    requires IsFunction(fv)
  {
    Eval(fv.body, CallEnv(fv, IntV(k)), fuel) == Ok(IntV(g(k)))
  }

  function LoopFuel(n: int, cost: nat): nat
  {
    cost + 6 + 2 * (if n > 0 then n else 0)
  }

  /** `loop (n - 1) f` inside the body is `LoopNF(n - 1, f)`. */
  lemma {:induction false} LoopCallee(n: int, fv: Value, a: Value, fuel: nat)
    requires fuel >= 4
    ensures Eval(App(App(Var("loop"), Add(Var("n"), Num(-1))), Var("f")), LoopEnv(n, fv, a), fuel) ==
            Ok(LoopNF(n - 1, fv))
  {
    var env := LoopEnv(n, fv, a);
    LoopEnvLookup(n, fv, a);
    VarStep("n", env, fuel - 3);
    AddStep(Var("n"), Num(-1), env, fuel - 2, n, -1);
    VarStep("loop", env, fuel - 2);
    FnStep("f", Fn("a", LoopBody), CallEnv(Loop, IntV(n - 1)), fuel - 2);
    DefinitionScope(Var("loop"), Add(Var("n"), Num(-1)), env, fuel - 1, Loop, IntV(n - 1));
    VarStep("f", env, fuel - 1);
    FnStep("a", LoopBody, CallEnv(LoopN(n - 1), fv), fuel - 1);
    DefinitionScope(App(Var("loop"), Add(Var("n"), Num(-1))), Var("f"), env, fuel, LoopN(n - 1), fv);
  }

  /** `f a` inside the body is g(a). */
  lemma {:induction false} LoopArgument(n: int, fv: Value, g: int -> int, a: int, fuel: nat)
    requires fuel >= 1 && IsFunction(fv) && Gives(fv, g, a, fuel - 1)
    ensures Eval(App(Var("f"), Var("a")), LoopEnv(n, fv, IntV(a)), fuel) == Ok(IntV(g(a)))
  {
    var env := LoopEnv(n, fv, IntV(a));
    LoopEnvLookup(n, fv, IntV(a));
    VarStep("f", env, fuel - 1);
    VarStep("a", env, fuel - 1);
    DefinitionScope(Var("f"), Var("a"), env, fuel, fv, IntV(a));
  }

  /** `loop (n - 1) f (f a)`, the recursive call, runs the body again with
      n - 1 and g(a). */
  lemma {:induction false} LoopCall(n: int, fv: Value, g: int -> int, a: int, fuel: nat)
    requires fuel >= 5 && IsFunction(fv) && Gives(fv, g, a, fuel - 2)
    ensures Eval(App(App(App(Var("loop"), Add(Var("n"), Num(-1))), Var("f")), App(Var("f"), Var("a"))),
                 LoopEnv(n, fv, IntV(a)), fuel) ==
            Eval(LoopBody, LoopEnv(n - 1, fv, IntV(g(a))), fuel - 1)
  {
    LoopCallee(n, fv, IntV(a), fuel - 1);
    LoopArgument(n, fv, g, a, fuel - 1);
    DefinitionScope(App(App(Var("loop"), Add(Var("n"), Num(-1))), Var("f")), App(Var("f"), Var("a")),
                    LoopEnv(n, fv, IntV(a)), fuel, LoopNF(n - 1, fv), IntV(g(a)));
  }

  /** The condition `n < 2` of the body picks the branch. */
  lemma {:induction false} LoopChoice(n: int, fv: Value, a: Value, fuel: nat)
    requires fuel >= 3
    ensures Eval(LoopBody, LoopEnv(n, fv, a), fuel) ==
            if n < 2 then Eval(Var("a"), LoopEnv(n, fv, a), fuel - 1)
            else Eval(App(App(App(Var("loop"), Add(Var("n"), Num(-1))), Var("f")), App(Var("f"), Var("a"))),
                      LoopEnv(n, fv, a), fuel - 1)
  {
    var env := LoopEnv(n, fv, a);
    LoopEnvLookup(n, fv, a);
    VarStep("n", env, fuel - 2);
    LthStep(Var("n"), Num(2), env, fuel - 1, n, 2);
    IfStep(Lth(Var("n"), Num(2)), Var("a"),
           App(App(App(Var("loop"), Add(Var("n"), Num(-1))), Var("f")), App(Var("f"), Var("a"))),
           env, fuel, n < 2);
  }

  /** One round of the body: with n < 2 it gives a, otherwise it runs
      again with n - 1 and g(a). */
  lemma {:induction false} LoopRound(n: int, fv: Value, g: int -> int, a: int, fuel: nat)
    requires fuel >= 6 && IsFunction(fv) && Gives(fv, g, a, fuel - 3)
    ensures Eval(LoopBody, LoopEnv(n, fv, IntV(a)), fuel) ==
            if n < 2 then Ok(IntV(a)) else Eval(LoopBody, LoopEnv(n - 1, fv, IntV(g(a))), fuel - 2)
  {
    if n < 2 {
      LoopStop(n, fv, a, fuel);
    } else {
      LoopCall(n, fv, g, a, fuel - 1);
      LoopAgain(n, fv, a, g(a), fuel);
    }
  }

  lemma {:induction false} LoopStop(n: int, fv: Value, a: int, fuel: nat)
    requires n < 2 && fuel >= 3
    ensures Eval(LoopBody, LoopEnv(n, fv, IntV(a)), fuel) == Ok(IntV(a))
  {
    LoopChoice(n, fv, IntV(a), fuel);
    LoopEnvLookup(n, fv, IntV(a));
    VarStep("a", LoopEnv(n, fv, IntV(a)), fuel - 1);
  }

  lemma {:induction false} LoopAgain(n: int, fv: Value, a: int, ga: int, fuel: nat)
    requires n >= 2 && fuel >= 3
    requires Eval(App(App(App(Var("loop"), Add(Var("n"), Num(-1))), Var("f")), App(Var("f"), Var("a"))),
                  LoopEnv(n, fv, IntV(a)), fuel - 1) ==
             Eval(LoopBody, LoopEnv(n - 1, fv, IntV(ga)), fuel - 2)
    ensures Eval(LoopBody, LoopEnv(n, fv, IntV(a)), fuel) ==
            Eval(LoopBody, LoopEnv(n - 1, fv, IntV(ga)), fuel - 2)
  {
    LoopChoice(n, fv, IntV(a), fuel);
  }

  /** The body of `loop` under n, f and a applies f to a n - 1 times. */
  lemma {:induction false} LoopBodyIterates(n: int, fv: Value, g: int -> int, cost: nat, a: int, fuel: nat)
    requires Computes(fv, g, cost) && fuel >= LoopFuel(n, cost)
    ensures Eval(LoopBody, LoopEnv(n, fv, IntV(a)), fuel) == Ok(IntV(Iterate(g, n - 1, a)))
    decreases n
  {
    if n < 2 {
      LoopStop(n, fv, a, fuel);
    } else {
      LoopBodyIterates(n - 1, fv, g, cost, g(a), fuel - 2);
      assert Gives(fv, g, a, fuel - 3);
      LoopIterStep(n, fv, g, a, fuel);
    }
  }

  /** One more round in front of n - 2 applications is n - 1 of them. */
  lemma {:induction false} LoopIterStep(n: int, fv: Value, g: int -> int, a: int, fuel: nat)
    requires n >= 2 && fuel >= 6 && IsFunction(fv) && Gives(fv, g, a, fuel - 3)
    requires Eval(LoopBody, LoopEnv(n - 1, fv, IntV(g(a))), fuel - 2) == Ok(IntV(Iterate(g, n - 2, g(a))))
    ensures Eval(LoopBody, LoopEnv(n, fv, IntV(a)), fuel) == Ok(IntV(Iterate(g, n - 1, a)))
  {
    LoopRound(n, fv, g, a, fuel);
  }

  /** The environment `create_for_loop`'s program evaluates its loop
      function in. */
  function LoopScope(): Env
  {
    map["loop" := Loop]
  }

  /** `loop end (fn x => body)` in the program's scope is `LoopNF(end, f)`. */
  lemma {:induction false} LoopApplied(end: int, x: string, body: Expr, fuel: nat)
    requires fuel >= 3
    ensures Eval(App(App(Var("loop"), Num(end)), Fn(x, body)), LoopScope(), fuel) ==
            Ok(LoopNF(end, Closure(x, body, LoopScope())))
  {
    var env1 := LoopScope();
    var fv := Closure(x, body, env1);
    VarStep("loop", env1, fuel - 2);
    FnStep("f", Fn("a", LoopBody), CallEnv(Loop, IntV(end)), fuel - 2);
    DefinitionScope(Var("loop"), Num(end), env1, fuel - 1, Loop, IntV(end));
    FnStep(x, body, env1, fuel - 1);
    FnStep("a", LoopBody, CallEnv(LoopN(end), fv), fuel - 1);
    DefinitionScope(App(Var("loop"), Num(end)), Fn(x, body), env1, fuel, LoopN(end), fv);
  }

  /** `loop end (fn x => body) begin` in the program's scope applies the
      function end - 1 times to begin. */
  lemma {:induction false} LoopRuns(begin: int, end: int, x: string, body: Expr, g: int -> int, cost: nat, fuel: nat)
    requires Computes(Closure(x, body, LoopScope()), g, cost)
    requires fuel >= LoopFuel(end, cost) + 1
    ensures Eval(App(App(App(Var("loop"), Num(end)), Fn(x, body)), Num(begin)), LoopScope(), fuel) ==
            Ok(IntV(Iterate(g, end - 1, begin)))
  {
    var fv := Closure(x, body, LoopScope());
    LoopApplied(end, x, body, fuel - 1);
    LoopBodyIterates(end, fv, g, cost, begin, fuel - 1);
    DefinitionScope(App(App(Var("loop"), Num(end)), Fn(x, body)), Num(begin), LoopScope(), fuel,
                    LoopNF(end, fv), IntV(begin));
  }

  /** What `create_for_loop(begin, end, fn x => body)` evaluates to: the
      function applied `end - 1` times to `begin` (no time when end < 2). */
  lemma {:induction false} ForLoopValue(begin: int, end: int, x: string, body: Expr, g: int -> int, cost: nat, fuel: nat)
    requires Computes(Closure(x, body, LoopScope()), g, cost)
    requires fuel >= LoopFuel(end, cost) + 2
    ensures Eval(ForLoop(begin, end, Fn(x, body)), map[], fuel) == Ok(IntV(Iterate(g, end - 1, begin)))
  {
    var env0: Env := map[];
    assert env0["loop" := Loop] == LoopScope();
    LoopRuns(begin, end, x, body, g, cost, fuel - 1);
    FunStep("loop", "n", Fn("f", Fn("a", LoopBody)), env0, fuel - 1);
    LetStep("loop", LoopFun, App(App(App(Var("loop"), Num(end)), Fn(x, body)), Num(begin)), env0, fuel, Loop);
  }

  function Successor(k: int): int { k + 1 }

  function Double(k: int): int { k + k }

  /** `fn x => x + 1` computes the successor. */
  lemma {:induction false} SuccessorComputes()
    ensures Computes(Closure("x", Add(Var("x"), Num(1)), LoopScope()), Successor, 2)
  {
    var fv := Closure("x", Add(Var("x"), Num(1)), LoopScope());
    forall k: int, fuel: nat | fuel >= 2
      ensures Gives(fv, Successor, k, fuel)
    {
      VarStep("x", CallEnv(fv, IntV(k)), fuel - 1);
      AddStep(Var("x"), Num(1), CallEnv(fv, IntV(k)), fuel, k, 1);
    }
  }

  /** `fn x => x + x` doubles. */
  lemma {:induction false} DoubleComputes()
    ensures Computes(Closure("x", Add(Var("x"), Var("x")), LoopScope()), Double, 2)
  {
    var fv := Closure("x", Add(Var("x"), Var("x")), LoopScope());
    forall k: int, fuel: nat | fuel >= 2
      ensures Gives(fv, Double, k, fuel)
    {
      VarStep("x", CallEnv(fv, IntV(k)), fuel - 1);
      AddStep(Var("x"), Var("x"), CallEnv(fv, IntV(k)), fuel, k, k);
    }
  }

  lemma {:induction false} IterateSuccessor(k: nat, a: int)
    ensures Iterate(Successor, k, a) == a + k
  {
    if k > 0 {
      IterateSuccessor(k - 1, a + 1);
    }
  }

  function Pow2(k: nat): nat
  {
    if k == 0 then 1 else 2 * Pow2(k - 1)
  }

  lemma {:induction false} IterateDouble(k: nat, a: int)
    ensures Iterate(Double, k, a) == a * Pow2(k)
  {
    if k > 0 {
      IterateDouble(k - 1, a + a);
    }
  }

  /** `create_loop(n)` counts from 2 up by one for each n - 1 >= 0: it
      gives n + 1 (and 2 when n < 2). */
  lemma {:induction false} CreateLoopValue(n: int, fuel: nat)
    requires fuel >= LoopFuel(n, 2) + 2
    ensures Eval(CreateLoop(n), map[], fuel) == Ok(IntV(if n >= 1 then n + 1 else 2))
  {
    SuccessorComputes();
    ForLoopValue(2, n, "x", Add(Var("x"), Num(1)), Successor, 2, fuel);
    if n >= 1 {
      IterateSuccessor(n - 1, 2);
    }
  }

  /** The doctests: `create_loop(10)` gives 11, `create_for_loop(2, 10, fn
      x => x + 1)` gives 11 and `create_for_loop(2, 10, fn x => x + x)`
      gives 1024. */
  lemma {:induction false} LoopExamples(fuel: nat)
    requires fuel >= 30
    ensures Eval(CreateLoop(10), map[], fuel) == Ok(IntV(11))
    ensures Eval(ForLoop(2, 10, Fn("x", Add(Var("x"), Num(1)))), map[], fuel) == Ok(IntV(11))
    ensures Eval(ForLoop(2, 10, Fn("x", Add(Var("x"), Var("x")))), map[], fuel) == Ok(IntV(1024))
  {
    CreateLoopValue(10, fuel);
    DoubleComputes();
    ForLoopValue(2, 10, "x", Add(Var("x"), Var("x")), Double, 2, fuel);
    IterateDouble(9, 2);
    assert Pow2(9) == 512;
  }
}
