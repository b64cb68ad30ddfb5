/** `VisitorLocClassifier` of 19_MemoryAllocation/MemoryClassifier.py: the
    names a program binds with `let` outside every function body. Those
    can live in static memory; the names bound inside a function body
    cannot, because a call may be active more than once. */
module MemoryClassifier {
  datatype Expr =
    | Var(identifier: string)
    | Num(num: int)
    | Let(identifier: string, def: Expr, body: Expr)
    | Fn(formal: string, body: Expr)
    | App(callee: Expr, actual: Expr)

  /** `e.accept(VisitorLocClassifier(), None)`. */
  function Classify(e: Expr): set<string>
  {
    match e
    case Var(_) => {}
    case Num(_) => {}
    case Let(x, d, b) => {x} + Classify(d) + Classify(b)
    case Fn(_, _) => {}
    case App(f, a) => Classify(f) + Classify(a)
  }

  /** The sub-expressions of `e` (itself included) that are not inside the
      body of a function, in the visitor's order. */
  function Outside(e: Expr): (r: seq<Expr>)
    ensures |r| > 0 && r[0] == e
  {
    match e
    case Var(_) => [e]
    case Num(_) => [e]
    case Let(_, d, b) => [e] + Outside(d) + Outside(b)
    case Fn(_, _) => [e]
    case App(f, a) => [e] + Outside(f) + Outside(a)
  }

  /** Every name of the classifier is a `let` outside function bodies,
      and every such `let` is in it. */
  lemma {:induction false} ClassifyIsOutsideLets(e: Expr, x: string)
    ensures x in Classify(e) <==> exists s :: s in Outside(e) && s.Let? && s.identifier == x
  {
    match e
    case Var(_) =>
    case Num(_) =>
    case Fn(_, _) =>
    case Let(y, d, b) =>
      ClassifyIsOutsideLets(d, x);
      ClassifyIsOutsideLets(b, x);
      InConcat(Outside(d), Outside(b), e, x);
    case App(f, a) =>
      ClassifyIsOutsideLets(f, x);
      ClassifyIsOutsideLets(a, x);
      InConcat(Outside(f), Outside(a), e, x);
  }

  /** A `let` of x in [e] + s + t is e itself or one in s or in t. */
  lemma {:induction false} InConcat(s: seq<Expr>, t: seq<Expr>, e: Expr, x: string)
    ensures (exists u :: u in [e] + s + t && u.Let? && u.identifier == x) <==>
            (e.Let? && e.identifier == x) ||
            (exists u :: u in s && u.Let? && u.identifier == x) ||
            (exists u :: u in t && u.Let? && u.identifier == x)
  {
    if e.Let? && e.identifier == x {
      assert e in [e] + s + t;
    }
    if u :| u in s && u.Let? && u.identifier == x {
      assert u in [e] + s + t;
    }
    if u :| u in t && u.Let? && u.identifier == x {
      assert u in [e] + s + t;
    }
  }

  /** Every name `let` binds anywhere, function bodies included. */
  function LetNames(e: Expr): set<string>
  {
    match e
    case Var(_) => {}
    case Num(_) => {}
    case Let(x, d, b) => {x} + LetNames(d) + LetNames(b)
    case Fn(_, b) => LetNames(b)
    case App(f, a) => LetNames(f) + LetNames(a)
  }

  /** The classifier only picks names that are bound by a `let`; a name
      that is only a function's formal parameter is never picked. */
  lemma {:induction false} ClassifyWithinLets(e: Expr)
    ensures Classify(e) <= LetNames(e)
  {
    match e
    case Var(_) =>
    case Num(_) =>
    case Fn(_, _) =>
    case Let(_, d, b) =>
      ClassifyWithinLets(d);
      ClassifyWithinLets(b);
    case App(f, a) =>
      ClassifyWithinLets(f);
      ClassifyWithinLets(a);
  }

  /** The doctests: `let v = 0 in v` and `let v = fn w => w in fn w => w`
      give {v}; `(fn w => w) x` gives nothing; `(let v = fn w => w in v)
      (let x = 0 in x)` gives {v, x}. */
  lemma {:induction false} Examples()
    ensures Classify(Let("v", Num(0), Var("v"))) == {"v"}
    ensures Classify(Let("v", Fn("w", Var("w")), Fn("w", Var("w")))) == {"v"}
    ensures Classify(Fn("v0", Let("v1", Num(0), Var("v1")))) == {}
    ensures Classify(App(Fn("w", Var("w")), Var("x"))) == {}
    ensures Classify(App(Let("v", Fn("w", Var("w")), Var("v")), Num(0))) == {"v"}
    ensures Classify(App(Let("v", Fn("w", Var("w")), Var("v")), Let("x", Num(0), Var("x")))) == {"v", "x"}
  {
  }
}
