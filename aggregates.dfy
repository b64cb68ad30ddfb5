/** The store-based evaluator of 18_Aggregates/Exp.py. Names are bound to
    memory locations (`context`), locations hold numbers (`store`), and
    every `let` takes a fresh location from a counter. `&x` gives the
    location of `x`, `!e` reads the location `e` evaluates to, and `e0 :=
    e1` writes the value of `e1` at the location `e0` evaluates to. The
    visitor's fields are changed in place and a raised error leaves them
    as they were at the raise. */
module Aggregates {
  import opened Wrappers

  datatype Expr =
    | Var(name: string)
    | Num(num: int)
    | Let(name: string, def: Expr, body: Expr)
    | Assign(target: Expr, value: Expr)
    | AddressOf(name: string)
    | Dereference(exp: Expr)
    | Add(left: Expr, right: Expr)

  /** The ValueErrors of `visit_var` and `visit_dereference` and the
      KeyError of `visit_address_of`. */
  datatype EvalError =
    | VariableNotFound(name: string)
    | NoAddress(name: string)
    | NotInitialized(loc: int)

  /** The three fields of `EvalVisitor`. */
  datatype Machine = Machine(context: map<string, nat>, store: map<int, int>, next: nat)

  const Initial: Machine := Machine(map[], map[], 0)

  /** Every bound name has a location that was handed out before and has
      been written. */
  predicate Consistent(m: Machine)
  {
    forall x :: x in m.context ==> m.context[x] < m.next && m.context[x] in m.store
  }

  /** Bindings, written cells and the counter never go away. */
  predicate Grows(m: Machine, m': Machine)
  {
    m.context.Keys <= m'.context.Keys && m.store.Keys <= m'.store.Keys && m.next <= m'.next
  }

  datatype Outcome = Outcome(result: Result<int, EvalError>, after: Machine)

  /** `fresh_location` followed by the two writes of `visit_let`. */
  function Bind(m: Machine, x: string, v: int): (m': Machine)
    requires Consistent(m)
    ensures Consistent(m') && Grows(m, m')
    ensures m'.next == m.next + 1 && x in m'.context && m'.context[x] == m.next
    ensures m.next in m'.store && m'.store[m.next] == v
    ensures forall y :: y in m.context && y != x ==> y in m'.context && m'.context[y] == m.context[y]
  {
    Machine(m.context[x := m.next], m.store[m.next := v], m.next + 1)
  }

  /** What `e.accept(EvalVisitor, None)` returns or raises, and the fields
      afterwards. Operands are evaluated left to right. */
  function Run(e: Expr, m: Machine): (o: Outcome)
    requires Consistent(m)
    ensures Consistent(o.after) && Grows(m, o.after)
    decreases e
  {
    match e
    case Var(x) =>
      if x in m.context then Outcome(Ok(m.store[m.context[x]]), m) else Outcome(Fail(VariableNotFound(x)), m)
    case Num(n) => Outcome(Ok(n), m)
    case Let(x, d, b) =>
      var od := Run(d, m);
      if od.result.Fail? then od else Run(b, Bind(od.after, x, od.result.value))
    case Assign(t, v) =>
      var ot := Run(t, m);
      if ot.result.Fail? then ot
      else
        var ov := Run(v, ot.after);
        if ov.result.Fail? then ov
        else Outcome(ov.result, ov.after.(store := ov.after.store[ot.result.value := ov.result.value]))
    case AddressOf(x) =>
      if x in m.context then Outcome(Ok(m.context[x]), m) else Outcome(Fail(NoAddress(x)), m)
    case Dereference(p) =>
      var op := Run(p, m);
      if op.result.Fail? then op
      else if op.result.value in op.after.store then Outcome(Ok(op.after.store[op.result.value]), op.after)
      else Outcome(Fail(NotInitialized(op.result.value)), op.after)
    case Add(l, r) =>
      var ol := Run(l, m);
      if ol.result.Fail? then ol
      else
        var or := Run(r, ol.after);
        if or.result.Fail? then or
        else Outcome(Ok(ol.result.value + or.result.value), or.after)
  }

  /** The number of `let`s in an expression. */
  function Lets(e: Expr): nat
  {
    match e
    case Var(_) => 0
    case Num(_) => 0
    case Let(_, d, b) => 1 + Lets(d) + Lets(b)
    case Assign(t, v) => Lets(t) + Lets(v)
    case AddressOf(_) => 0
    case Dereference(p) => Lets(p)
    case Add(l, r) => Lets(l) + Lets(r)
  }

  /** A successful evaluation takes one fresh location per `let`: the
      locations are 0, 1, 2, ... in evaluation order. */
  lemma {:induction false} LocationsPerLet(e: Expr, m: Machine)
    requires Consistent(m) && Run(e, m).result.Ok?
    ensures Run(e, m).after.next == m.next + Lets(e)
  {
    match e
    case Var(_) =>
    case Num(_) =>
    case Let(x, d, b) =>
      LocationsPerLet(d, m);
      var od := Run(d, m);
      LocationsPerLet(b, Bind(od.after, x, od.result.value));
    case Assign(t, v) =>
      LocationsPerLet(t, m);
      LocationsPerLet(v, Run(t, m).after);
    case AddressOf(_) =>
    case Dereference(p) =>
      LocationsPerLet(p, m);
    case Add(l, r) =>
      LocationsPerLet(l, m);
      LocationsPerLet(r, Run(l, m).after);
  }

  /** Reading the address of a name is reading the name: `!&x` and `x`
      give the same value, or raise for the same missing name (with
      different errors). */
  lemma {:induction false} DereferenceAddressOf(x: string, m: Machine)
    requires Consistent(m)
    ensures Run(Dereference(AddressOf(x)), m).result.Ok? <==> Run(Var(x), m).result.Ok?
    ensures Run(Dereference(AddressOf(x)), m).result.Ok? ==>
              Run(Dereference(AddressOf(x)), m) == Run(Var(x), m)
  {
  }

  /** A write is seen by the next read of the same location, and by
      nothing else: `loc := v` leaves every other cell as it was. */
  lemma {:induction false} AssignThenRead(t: Expr, v: Expr, m: Machine)
    requires Consistent(m) && Run(Assign(t, v), m).result.Ok?
    ensures var loc := Run(t, m).result.value;
            var o := Run(Assign(t, v), m);
            var mid := Run(v, Run(t, m).after).after;
            loc in o.after.store && o.after.store[loc] == o.result.value &&
            Run(Dereference(Num(loc)), o.after) == Outcome(o.result, o.after) &&
            (forall l :: l in mid.store && l != loc ==> l in o.after.store && o.after.store[l] == mid.store[l])
  {
    var ot := Run(t, m);
    var ov := Run(v, ot.after);
    assert Run(Assign(t, v), m) == Outcome(ov.result, ov.after.(store := ov.after.store[ot.result.value := ov.result.value]));
    WriteThenRead(ov.after, ot.result.value, ov.result.value);
  }

  /** One write into a consistent machine, then a read of the same cell. */
  lemma {:induction false} WriteThenRead(mid: Machine, loc: int, val: int)
    requires Consistent(mid)
    ensures var after := mid.(store := mid.store[loc := val]);
            Consistent(after) && loc in after.store && after.store[loc] == val &&
            Run(Dereference(Num(loc)), after) == Outcome(Ok(val), after) &&
            (forall l :: l in mid.store && l != loc ==> l in after.store && after.store[l] == mid.store[l])
  {
    var after := mid.(store := mid.store[loc := val]);
    assert Run(Num(loc), after) == Outcome(Ok(loc), after);
  }

  /** A `let` binding outlives the `let`: after `let x = d in b` the
      name `x` is still bound. */
  lemma {:induction false} BindingPersists(x: string, d: Expr, b: Expr, m: Machine)
    requires Consistent(m) && Run(Let(x, d, b), m).result.Ok?
    ensures x in Run(Let(x, d, b), m).after.context
  {
    var od := Run(d, m);
    assert x in Bind(od.after, x, od.result.value).context;
  }

  class EvalVisitor {
    /** `self.context`: each name's location. */
    var context: map<string, nat>
    /** `self.store`: each written location's number. */
    var store: map<int, int>
    /** `self.next_location`. */
    var nextLocation: nat

    function State(): Machine
      reads this
    {
      Machine(context, store, nextLocation)
    }

    predicate Valid()
      reads this
    {
      Consistent(State())
    }

    /** `EvalVisitor()`: nothing bound, nothing stored, counter at 0. */
    constructor ()
      ensures State() == Initial && Valid()
    {
      context := map[];
      store := map[];
      nextLocation := 0;
    }

    /** `fresh_location`: the counter's value, which no name is bound to,
        and the counter moves on by one. */
    method FreshLocation() returns (loc: nat)
      requires Valid()
      modifies this
      ensures loc == old(nextLocation) && nextLocation == loc + 1
      ensures context == old(context) && store == old(store)
      ensures forall x :: x in context ==> context[x] != loc
    {
      loc := nextLocation;
      nextLocation := nextLocation + 1;
    }

    /** `e.accept(self, arg)`: the value `Run` gives and the fields it
        leaves. */
    method Visit(e: Expr) returns (r: Result<int, EvalError>)
      requires Valid()
      modifies this
      ensures Valid()
      ensures Outcome(r, State()) == Run(e, old(State()))
      decreases e
    {
      match e
      case Var(x) =>
        if x !in context {
          return Fail(VariableNotFound(x));
        }
        r := Ok(store[context[x]]);
      case Num(n) =>
        r := Ok(n);
      case Let(x, d, b) =>
        var value := Visit(d);
        if value.Fail? {
          return value;
        }
        ghost var before := State();
        var loc := FreshLocation();
        context := context[x := loc];
        store := store[loc := value.value];
        assert State() == Bind(before, x, value.value);
        r := Visit(b);
      case Assign(t, v) =>
        var loc := Visit(t);
        if loc.Fail? {
          return loc;
        }
        var value := Visit(v);
        if value.Fail? {
          return value;
        }
        store := store[loc.value := value.value];
        r := value;
      case AddressOf(x) =>
        if x !in context {
          return Fail(NoAddress(x));
        }
        r := Ok(context[x]);
      case Dereference(p) =>
        var loc := Visit(p);
        if loc.Fail? {
          return loc;
        }
        if loc.value !in store {
          return Fail(NotInitialized(loc.value));
        }
        r := Ok(store[loc.value]);
      case Add(l, rt) =>
        var left := Visit(l);
        if left.Fail? {
          return left;
        }
        var right := Visit(rt);
        if right.Fail? {
          return right;
        }
        r := Ok(left.value + right.value);
    }
  }

  /** The doctests of `EvalVisitor`: `let x = 10 in x` is 10. */
  lemma {:induction false} ReadExample()
    ensures Run(Let("x", Num(10), Var("x")), Initial).result == Ok(10)
  {
    assert Run(Var("x"), Bind(Initial, "x", 10)).result == Ok(10);
  }

  /** `let x = 42 in &x` is location 0, and `!` of it is 42. */
  lemma {:induction false} AddressExample()
    ensures Run(Let("x", Num(42), AddressOf("x")), Initial).result == Ok(0)
    ensures Run(Dereference(Let("x", Num(42), AddressOf("x"))), Initial).result == Ok(42)
  {
    var m1 := Bind(Initial, "x", 42);
    assert Run(AddressOf("x"), m1) == Outcome(Ok(0), m1);
    assert Run(Let("x", Num(42), AddressOf("x")), Initial) == Outcome(Ok(0), m1);
  }

  /** `let x = 1 in x := 2` is 2: `x` is location 0. */
  lemma {:induction false} AssignExample()
    ensures Run(Let("x", Num(1), Assign(Var("x"), Num(2))), Initial).result == Ok(2)
  {
    var m1 := Bind(Initial, "x", 1);
    assert Run(Var("x"), m1) == Outcome(Ok(1), m1);
  }

  /** `let x = 1 in (let y = 2 in &x := y) + x` is 4: the assignment on
      the left is seen by the read of `x` on the right. */
  lemma {:induction false} AssignThroughAddress()
    ensures Run(Let("x", Num(1), Add(Let("y", Num(2), Assign(AddressOf("x"), Var("y"))), Var("x"))), Initial).result == Ok(4)
  {
    var m2 := Bind(Bind(Initial, "x", 1), "y", 2);
    assert Run(AddressOf("x"), m2) == Outcome(Ok(0), m2);
    AssignThroughZero(AddressOf("x"));
  }

  /** `let x = 1 in (let y = 2 in 0 := y) + x` is 4 as well: location 0
      is the location of `x`. */
  lemma {:induction false} AssignThroughNumber()
    ensures Run(Let("x", Num(1), Add(Let("y", Num(2), Assign(Num(0), Var("y"))), Var("x"))), Initial).result == Ok(4)
  {
    AssignThroughZero(Num(0));
  }

  /** Both examples: a target that evaluates to location 0 with `x` and
      `y` bound writes 2 over the 1 of `x`. */
  lemma {:induction false} AssignThroughZero(t: Expr)
    requires Run(t, Bind(Bind(Initial, "x", 1), "y", 2)) == Outcome(Ok(0), Bind(Bind(Initial, "x", 1), "y", 2))
    ensures Run(Let("x", Num(1), Add(Let("y", Num(2), Assign(t, Var("y"))), Var("x"))), Initial).result == Ok(4)
  {
    var m1 := Bind(Initial, "x", 1);
    var m2 := Bind(m1, "y", 2);
    var m3 := m2.(store := m2.store[0 := 2]);
    var left := Let("y", Num(2), Assign(t, Var("y")));
    AssignZeroInner(t);
    assert Run(Var("x"), m3) == Outcome(Ok(2), m3);
    assert Run(Add(left, Var("x")), m1) == Outcome(Ok(4), m3);
    assert Run(Num(1), Initial) == Outcome(Ok(1), Initial);
  }

  /** The inner `let y = 2 in t := y` writes 2 at location 0. */
  lemma {:induction false} AssignZeroInner(t: Expr)
    requires Run(t, Bind(Bind(Initial, "x", 1), "y", 2)) == Outcome(Ok(0), Bind(Bind(Initial, "x", 1), "y", 2))
    ensures var m2 := Bind(Bind(Initial, "x", 1), "y", 2);
            Run(Let("y", Num(2), Assign(t, Var("y"))), Bind(Initial, "x", 1)) == Outcome(Ok(2), m2.(store := m2.store[0 := 2]))
  {
    var m1 := Bind(Initial, "x", 1);
    var m2 := Bind(m1, "y", 2);
    assert Run(Var("y"), m2) == Outcome(Ok(2), m2);
    assert Run(Num(2), m1) == Outcome(Ok(2), m1);
  }
}
