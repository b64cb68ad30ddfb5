/** The `TypeChecker` of 8_TypeChecking/Exp6.py: the same typing rules as
    `TypedLang.TypeOf`, but the environment is a field of the checker that
    `visit_let` copies, extends, and assigns back once the body has been
    checked. A TypeError raised inside the body skips that assignment, so
    the extended environment stays in the field. */
module FieldChecker {
  import opened Wrappers
  import opened TypedLang

  /** The contents of the `env` field once a check of `e` is over, starting
      from `env`: unchanged after a success, and after a failure whatever
      the `let` bodies being checked when the error was raised had put
      there. */
  function LeftEnv(e: Expr, env: TyEnv): TyEnv
  {
    match e
    case Var(_) => env
    case Num(_) => env
    case Bln(_) => env
    case Bin(_, l, r) => if TypeOf(l, env).Fail? then LeftEnv(l, env) else LeftEnv(r, env)
    case Let(x, t, d, b) =>
      if TypeOf(d, env).Fail? then LeftEnv(d, env)
      else if TypeOf(d, env).value != t || TypeOf(b, env[x := t]).Ok? then env
      else LeftEnv(b, env[x := t])
    case If(c, e0, e1) =>
      if TypeOf(c, env).Fail? then LeftEnv(c, env)
      else if TypeOf(c, env).value != BoolTy then env
      else if TypeOf(e0, env).Fail? then LeftEnv(e0, env)
      else LeftEnv(e1, env)
  }

  /** A successful check leaves the environment as it found it. */
  lemma {:induction false} SuccessRestores(e: Expr, env: TyEnv)
    requires TypeOf(e, env).Ok?
    ensures LeftEnv(e, env) == env
  {
    match e
    case Var(_) =>
    case Num(_) =>
    case Bln(_) =>
    case Bin(_, l, r) =>
      SuccessRestores(l, env);
      SuccessRestores(r, env);
    case Let(x, t, d, b) =>
      SuccessRestores(d, env);
    case If(c, e0, e1) =>
      SuccessRestores(c, env);
      SuccessRestores(e0, env);
      SuccessRestores(e1, env);
  }

  /** A check never takes a name out of the environment: a failed one can
      only leave more. */
  lemma {:induction false} FailureExtends(e: Expr, env: TyEnv)
    ensures env.Keys <= LeftEnv(e, env).Keys
  {
    match e
    case Var(_) =>
    case Num(_) =>
    case Bln(_) =>
    case Bin(_, l, r) =>
      FailureExtends(l, env);
      FailureExtends(r, env);
    case Let(x, t, d, b) =>
      FailureExtends(d, env);
      FailureExtends(b, env[x := t]);
    case If(c, e0, e1) =>
      FailureExtends(c, env);
      FailureExtends(e0, env);
      FailureExtends(e1, env);
  }

  /** `let x: int = 1 in y` fails on `y` and leaves `x: int` behind. */
  lemma {:induction false} LeftoverExample()
    ensures var e := Let("x", IntTy, Num(1), Var("y"));
            TypeOf(e, map[]) == Fail(Undefined("y")) && LeftEnv(e, map[]) == map["x" := IntTy]
  {
    var env0: TyEnv := map[];
    assert TypeOf(Var("y"), env0["x" := IntTy]).Fail?;
  }

  class TypeChecker {
    /** `self.env`: names to the type names 'int' and 'bool'. */
    var env: TyEnv

    /** `TypeChecker()` starts with an empty environment. */
    constructor ()
      ensures env == map[]
    {
      env := map[];
    }

    /** `e.accept(checker, arg)`: the type `TypedLang.TypeOf` gives under the
        current environment (the `arg` of the visitor is never read), and
        the environment `LeftEnv` describes afterwards. */
    method Check(e: Expr) returns (r: Result<Ty, TypeError>)
      modifies this
      ensures r == TypeOf(e, old(env))
      ensures env == LeftEnv(e, old(env))
    {
      match e
      case Var(x) =>
        if x in env {
          r := Ok(env[x]);
        } else {
          r := Fail(Undefined(x));
        }
      case Num(_) =>
        r := Ok(IntTy);
      case Bln(_) =>
        r := Ok(BoolTy);
      case Bin(op, l, rt) =>
        var lt := Check(l);
        if lt.Fail? {
          return lt;
        }
        SuccessRestores(l, old(env));
        var t := Check(rt);
        r := BinaryType(op, lt, t);
      case Let(x, t, d, b) =>
        var dt := Check(d);
        if dt.Fail? {
          return dt;
        }
        SuccessRestores(d, old(env));
        if dt.value == t {
          var saved := env;
          env := env[x := t];
          r := Check(b);
          if r.Fail? {
            return;
          }
          env := saved;
        } else {
          r := Fail(LetMismatch(t, dt.value));
        }
      case If(c, e0, e1) =>
        var ct := Check(c);
        if ct.Fail? {
          return ct;
        }
        SuccessRestores(c, old(env));
        if ct.value != BoolTy {
          return Fail(NotBool(ct.value));
        }
        var t0 := Check(e0);
        if t0.Fail? {
          return t0;
        }
        SuccessRestores(e0, old(env));
        var t1 := Check(e1);
        if t1.Fail? {
          return t1;
        }
        if t0.value == t1.value {
          r := t0;
        } else {
          r := Fail(BranchMismatch(t0.value, t1.value));
        }
    }
  }
}
