/** 4_bottomUp/LR_Fer.py: a hand-written shift-reduce recogniser for the
    left-skewed parentheses, written as a machine of three states, each an
    action on a stack of token kinds and the nonterminals "P" and "S":
    state 0 shifts, state 1 reduces, state 2 shifts after a reduction of
    `( P )`. The machine stops, accepting, when state 1 finds the stack
    `["S"]`. */
module LrFer {
  import opened Wrappers
  import opened Tokens
  import opened Streams
  import opened Lexer
  import opened Parens

  /** An element of the stack: a token kind, or the name of a nonterminal. */
  datatype Entry = Terminal(kind: Kind) | Symbol(name: string)

  const L := Terminal(LPR)
  const R := Terminal(RPR)
  const P := Symbol("P")
  const S := Symbol("S")

  /** The ValueErrors of the module, and the lexer's. */
  datatype FerError =
    | UnknownToken(text: string)   // "Unknown token: {text}"
    | ReduceError                  // "Reduce error"
    | BadChar(c: char)             // the lexer's "Unexpected character"

  /** The list the actions share, which they update in place. */
  class Stack<T> {
    var elems: seq<T>

    constructor ()
      ensures elems == []
    {
      elems := [];
    }
  }

  /** The test of `match_and_pop`: the length check, then
      `stack[-len(pattern):] == pattern`. For an empty pattern Python reads
      `stack[-0:]` as the whole stack, so only the empty stack matches it. */
  predicate EndsWith<T(==)>(stack: seq<T>, pattern: seq<T>)
  {
    |pattern| <= |stack| &&
    if pattern == [] then stack == [] else stack[|stack| - |pattern|..] == pattern
  }

  /** A non-empty pattern ends the stack exactly when the stack is something
      followed by the pattern. */
  lemma {:induction false} EndsWithSplit<T>(stack: seq<T>, pattern: seq<T>)
    requires pattern != []
    ensures EndsWith(stack, pattern) <==> exists front :: stack == front + pattern
  {
    if EndsWith(stack, pattern) {
      assert stack == stack[..|stack| - |pattern|] + pattern;
    }
    if exists front :: stack == front + pattern {
      var front :| stack == front + pattern;
      assert stack[|stack| - |pattern|..] == pattern;
    }
  }

  /** A stack whose `i`-th entry from the top differs from the pattern's
      does not end with it. */
  lemma {:induction false} Differs<T>(stack: seq<T>, pattern: seq<T>, i: nat)
    requires 0 < i <= |pattern| && i <= |stack| && stack[|stack| - i] != pattern[|pattern| - i]
    ensures !EndsWith(stack, pattern)
  {
  }

  /** A stack that is something followed by a non-empty pattern ends with it. */
  lemma {:induction false} EndsWithAppend<T>(front: seq<T>, pattern: seq<T>)
    requires pattern != []
    ensures EndsWith(front + pattern, pattern)
  {
    assert (front + pattern)[|front|..] == pattern;
  }

  /** `match_and_pop(stack, pattern)`: removes the pattern from the top of
      the stack when the stack ends with it. */
  method MatchAndPop<T(==)>(stack: Stack<T>, pattern: seq<T>) returns (matched: bool)
    modifies stack
    ensures matched <==> EndsWith(old(stack.elems), pattern)
    ensures matched ==> old(stack.elems) == stack.elems + pattern
    ensures !matched ==> stack.elems == old(stack.elems)
  {
    if |stack.elems| < |pattern| {
      return false;
    }
    var start := if pattern == [] then 0 else |stack.elems| - |pattern|;
    if stack.elems[start..] == pattern {
      stack.elems := stack.elems[..start];
      return true;
    }
    return false;
  }

  /** The next state and the new stack an action leaves; a negative state
      stops the machine. */
  datatype Move = Move(state: int, stack: seq<Entry>)

  /** `shift_0`, given the item `next_valid_token` returns. */
  function Shift0Move(stack: seq<Entry>, it: Item<char>): (r: Result<Move, FerError>)
    ensures r.Ok? <==> it.Tok? && it.token.kind in {LPR, RPR, EOF}
    ensures r.Ok? ==> |stack| < |r.value.stack| && r.value.stack[..|stack|] == stack
    ensures r.Ok? ==> (r.value.state == 0 <==> it.token.kind == LPR)
  {
    match it
    case Bad(c) => Fail(BadChar(c))
    case Tok(t) =>
      if t.kind == LPR then Ok(Move(0, stack + [L]))
      else if t.kind == RPR then Ok(Move(1, stack + [P, R]))
      else if t.kind == EOF then Ok(Move(1, stack + [S]))
      else Fail(UnknownToken(t.text))
  }

  /** 1 when a "P" is on top of the stack: the reduction of "P" to "S"
      removes it. */
  function TopP(stack: seq<Entry>): nat
  {
    if stack != [] && stack[|stack| - 1] == P then 1 else 0
  }

  /** `reduce_1`: the first pattern that ends the stack is replaced by its
      nonterminal; the stack `["S"]` alone accepts. */
  function Reduce1Move(stack: seq<Entry>): (r: Result<Move, FerError>)
    ensures r.Ok? <==> EndsWith(stack, [L, P, R]) || EndsWith(stack, [P]) || EndsWith(stack, [L, S]) || stack == [S]
    ensures r.Ok? ==> r.value.state in {-1, 1, 2}
    ensures r.Ok? && r.value.state == -1 ==> r.value.stack == stack == [S]
    ensures r.Ok? && r.value.state >= 0 ==>
      |r.value.stack| < |stack| || (|r.value.stack| == |stack| && TopP(r.value.stack) < TopP(stack))
  {
    var n := |stack|;
    if EndsWith(stack, [L, P, R]) then Ok(Move(2, stack[..n - 3] + [P]))
    else if EndsWith(stack, [P]) then Ok(Move(1, stack[..n - 1] + [S]))
    else if EndsWith(stack, [L, S]) then Ok(Move(1, stack[..n - 2] + [S]))
    else if stack == [S] then Ok(Move(-1, stack))
    else Fail(ReduceError)
  }

  /** `shift_2`, given the item `next_valid_token` returns. */
  function Shift2Move(stack: seq<Entry>, it: Item<char>): (r: Result<Move, FerError>)
    ensures r.Ok? <==> it.Tok? && it.token.kind in {RPR, EOF}
    ensures r.Ok? ==> r.value.state == 1
    ensures r.Ok? && it.token.kind == EOF ==> r.value.stack == stack
  {
    match it
    case Bad(c) => Fail(BadChar(c))
    case Tok(t) =>
      if t.kind == RPR then Ok(Move(1, stack + [P, R]))
      else if t.kind == EOF then Ok(Move(1, stack))
      else Fail(ReduceError)
  }

  /** `state_machine[state]`: the move of the action of a state, given the
      stream the lexer has yet to read. */
  function Action(state: int, stack: seq<Entry>, items: seq<Item<char>>): Result<Move, FerError>
    requires WellFormed(items) && 0 <= state <= 2
  {
    if state == 0 then Shift0Move(stack, items[0])
    else if state == 1 then Reduce1Move(stack)
    else Shift2Move(stack, items[0])
  }

  /** What the `while next_state >= 0` loop of `test_parser` ends with, from
      a state, a stack and the stream the lexer has yet to read: `Ok` when
      it prints "is valid". */
  function Run(state: int, stack: seq<Entry>, items: seq<Item<char>>): (r: Result<(), FerError>)
    requires WellFormed(items) && 0 <= state <= 2
    decreases |items|, if state == 0 then 1 else 0, |stack|, TopP(stack), state
  {
    var m := Action(state, stack, items);
    match m
    case Fail(e) => Fail(e)
    case Ok(Move(next, st)) =>
      if next < 0 then Ok(())
      else Run(next, st, if state == 1 then items else Advance(items))
  }

  /** What an action method returns and leaves on the stack, given the move
      its specification makes. */
  predicate Moved(m: Result<Move, FerError>, r: Result<int, FerError>, stack: seq<Entry>)
  {
    match m
    case Fail(e) => r == Fail(e)
    case Ok(mv) => r == Ok(mv.state) && stack == mv.stack
  }

  /** `shift_0(stack, lexer)`. */
  method Shift0(stack: Stack<Entry>, lexer: Lexer) returns (r: Result<int, FerError>)
    requires lexer.Valid()
    modifies stack, lexer
    ensures lexer.Valid()
    ensures Moved(Shift0Move(old(stack.elems), Items(lexer.input, old(lexer.position))[0]), r, stack.elems)
    ensures r.Ok? ==> Items(lexer.input, lexer.position) == Advance(Items(lexer.input, old(lexer.position)))
  {
    var next := lexer.NextValidToken();
    if next.Fail? {
      NextItem(lexer.input, old(lexer.position));
      return Fail(BadChar(next.error));
    }
    ReadAdvances(lexer.input, old(lexer.position));
    var token := next.value;
    if token.kind == LPR {
      stack.elems := stack.elems + [Terminal(LPR)];
      return Ok(0);
    } else if token.kind == RPR {
      stack.elems := stack.elems + [Symbol("P")];
      stack.elems := stack.elems + [Terminal(RPR)];
      return Ok(1);
    } else if token.kind == EOF {
      stack.elems := stack.elems + [Symbol("S")];
      return Ok(1);
    } else {
      return Fail(UnknownToken(token.text));
    }
  }

  /** `reduce_1(stack, _)`. */
  method Reduce1(stack: Stack<Entry>) returns (r: Result<int, FerError>)
    modifies stack
    ensures Moved(Reduce1Move(old(stack.elems)), r, stack.elems)
  {
    var m := MatchAndPop(stack, [Terminal(LPR), Symbol("P"), Terminal(RPR)]);
    if m {
      stack.elems := stack.elems + [Symbol("P")];
      return Ok(2);
    }
    m := MatchAndPop(stack, [Symbol("P")]);
    if m {
      stack.elems := stack.elems + [Symbol("S")];
      return Ok(1);
    }
    m := MatchAndPop(stack, [Terminal(LPR), Symbol("S")]);
    if m {
      stack.elems := stack.elems + [Symbol("S")];
      return Ok(1);
    }
    if stack.elems == [Symbol("S")] {
      return Ok(-1);
    }
    return Fail(ReduceError);
  }

  /** `shift_2(stack, lexer)`. */
  method Shift2(stack: Stack<Entry>, lexer: Lexer) returns (r: Result<int, FerError>)
    requires lexer.Valid()
    modifies stack, lexer
    ensures lexer.Valid()
    ensures Moved(Shift2Move(old(stack.elems), Items(lexer.input, old(lexer.position))[0]), r, stack.elems)
    ensures r.Ok? ==> Items(lexer.input, lexer.position) == Advance(Items(lexer.input, old(lexer.position)))
  {
    var next := lexer.NextValidToken();
    if next.Fail? {
      NextItem(lexer.input, old(lexer.position));
      return Fail(BadChar(next.error));
    }
    ReadAdvances(lexer.input, old(lexer.position));
    var token := next.value;
    if token.kind == RPR {
      stack.elems := stack.elems + [Symbol("P")];
      stack.elems := stack.elems + [Terminal(RPR)];
      return Ok(1);
    } else if token.kind == EOF {
      return Ok(1);
    } else {
      return Fail(ReduceError);
    }
  }

  /** `action = state_machine[next_state]; action(stack, lexer)`. */
  method Dispatch(state: int, stack: Stack<Entry>, lexer: Lexer) returns (r: Result<int, FerError>)
    requires lexer.Valid() && 0 <= state <= 2
    modifies stack, lexer
    ensures lexer.Valid()
    ensures Moved(Action(state, old(stack.elems), Items(lexer.input, old(lexer.position))), r, stack.elems)
    ensures r.Ok? ==>
      Items(lexer.input, lexer.position) ==
      (if state == 1 then Items(lexer.input, old(lexer.position)) else Advance(Items(lexer.input, old(lexer.position))))
  {
    if state == 0 {
      r := Shift0(stack, lexer);
    } else if state == 1 {
      r := Reduce1(stack);
    } else {
      r := Shift2(stack, lexer);
    }
  }

  /** `test_parser(input_str)`: `Ok` when it prints "is valid", the
      ValueError otherwise. */
  method TestParser(input: string) returns (r: Result<(), FerError>)
    ensures r == Run(0, [], Items(input, 0))
  {
    var lexer := new Lexer(input);
    var stack := new Stack<Entry>();
    var state := 0;
    while state >= 0
      invariant lexer.Valid() && lexer.input == input && -1 <= state <= 2
      invariant state >= 0 ==> Run(state, stack.elems, Items(input, lexer.position)) == Run(0, [], Items(input, 0))
      invariant state < 0 ==> Run(0, [], Items(input, 0)) == Ok(())
      decreases |Items(input, lexer.position)|, if state == 0 then 1 else 0, |stack.elems|, TopP(stack.elems), state + 1
    {
      var next := Dispatch(state, stack, lexer);
      if next.Fail? {
        return Fail(next.error);
      }
      state := next.value;
    }
    return Ok(());
  }

  /** The `match_and_pop` doctests: `[4, 5]` ends `[1, 2, 3, 4, 5]` and is
      popped, `[3, 4]` does not and leaves the stack as it was. */
  method DoctestMatchAndPop() returns (popped: seq<int>, matched: bool, kept: seq<int>, unmatched: bool)
    ensures popped == [1, 2, 3] && matched
    ensures kept == [1, 2, 3, 4, 5] && !unmatched
  {
    var stack := new Stack<int>();
    stack.elems := [1, 2, 3, 4, 5];
    matched := MatchAndPop(stack, [4, 5]);
    popped := stack.elems;
    stack.elems := [1, 2, 3, 4, 5];
    assert [1, 2, 3, 4, 5][3..] != [3, 4];
    unmatched := MatchAndPop(stack, [3, 4]);
    kept := stack.elems;
  }

  /** The `shift_0` doctest: on '(' it pushes `LPR` and stays in state 0. */
  lemma DoctestShift0()
    ensures Shift0Move([], Items("(", 0)[0]) == Ok(Move(0, [L]))
  {
    FirstItem(Open);
  }

  /** The text of one parenthesis lexes to its token first. */
  lemma {:induction false} FirstItem(p: Paren)
    ensures WellFormed(Items(ParenText([p]), 0)) && Items(ParenText([p]), 0)[0] == Tok(ParenToken(p))
    ensures ParenText([p]) == if p == Open then "(" else ")"
  {
    var w := [p];
    LexWord(w);
    WordItemsCons(w);
  }

  /** The `reduce_1` doctest: `( P )` becomes "P", and state 2 follows. */
  lemma DoctestReduce1()
    ensures Reduce1Move([L, P, R]) == Ok(Move(2, [P]))
  {
    EndsWithAppend([], [L, P, R]);
    assert [L, P, R][..0] + [P] == [P];
  }

  /** The `shift_2` doctest: on ')' it pushes "P" and `RPR`, then state 1. */
  lemma DoctestShift2()
    ensures Shift2Move([P], Items(")", 0)[0]) == Ok(Move(1, [P, P, R]))
  {
    FirstItem(Close);
    assert [P] + [P, R] == [P, P, R];
  }

  /** The stack after `k` '(' have been shifted. */
  function Opens(k: nat): (st: seq<Entry>)
    ensures |st| == k && forall i :: 0 <= i < k ==> st[i] == L
  {
    if k == 0 then [] else Opens(k - 1) + [L]
  }

  /** What the machine decides, told by counting instead of by a stack: after
      `k` '(', EOF accepts; a ')' is refused when no '(' came before it, and
      must otherwise be the last token before EOF. */
  function Verdict(items: seq<Item<char>>, k: nat): (r: Result<(), FerError>)
    requires WellFormed(items)
    decreases |items|
  {
    match items[0]
    case Bad(c) => Fail(BadChar(c))
    case Tok(t) =>
      if t.kind == LPR then Verdict(items[1..], k + 1)
      else if t.kind == EOF then Ok(())
      else if t.kind == RPR then (if k == 0 then Fail(ReduceError) else AfterClose(items[1..]))
      else Fail(UnknownToken(t.text))
  }

  /** After the one ')' the machine takes, only EOF is accepted. */
  function AfterClose(items: seq<Item<char>>): (r: Result<(), FerError>)
    requires WellFormed(items)
    ensures r.Ok? <==> items[0].Tok? && items[0].token.kind == EOF
  {
    match items[0]
    case Bad(c) => Fail(BadChar(c))
    case Tok(t) => if t.kind == EOF then Ok(()) else Fail(ReduceError)
  }

  /** In state 1, "S" on top of `k` '(' reduces to `["S"]`, which accepts. */
  lemma {:induction false} ReducesToS(k: nat, items: seq<Item<char>>)
    requires WellFormed(items)
    ensures Run(1, Opens(k) + [S], items) == Ok(())
    decreases k
  {
    if k == 0 {
      ReducesToSBase(items);
    } else {
      ReducesToS(k - 1, items);
      ReducesToSStep(k, items);
    }
  }

  /** "S" alone is the end of the run. */
  lemma {:induction false} ReducesToSBase(items: seq<Item<char>>)
    requires WellFormed(items)
    ensures Run(1, Opens(0) + [S], items) == Ok(())
  {
    var st := Opens(0) + [S];
    assert st == [S];
    assert Reduce1Move(st) == Ok(Move(-1, st));
  }

  /** `( S` on top reduces to "S" one '(' lower. */
  lemma {:induction false} ReducesToSStep(k: nat, items: seq<Item<char>>)
    requires k > 0 && WellFormed(items)
    requires Run(1, Opens(k - 1) + [S], items) == Ok(())
    ensures Run(1, Opens(k) + [S], items) == Ok(())
  {
    OpensThenS(k);
    ReduceOpenS(Opens(k - 1), items);
  }

  /** `k` '(' then "S" is `k - 1` '(' then `( S`. */
  lemma {:induction false} OpensThenS(k: nat)
    requires k > 0
    ensures Opens(k) + [S] == Opens(k - 1) + [L, S]
  {
    var front := Opens(k - 1);
    assert Opens(k) == front + [L];
  }

  /** `( S` on top of any stack is replaced by "S" in state 1. */
  lemma {:induction false} ReduceOpenS(front: seq<Entry>, items: seq<Item<char>>)
    requires WellFormed(items)
    ensures Run(1, front + [L, S], items) == Run(1, front + [S], items)
  {
    var st := front + [L, S];
    Differs(st, [L, P, R], 1);
    Differs(st, [P], 1);
    EndsWithAppend(front, [L, S]);
    assert st[..|st| - 2] == front;
    assert Reduce1Move(st) == Ok(Move(1, front + [S]));
  }

  /** In state 2, after `( P )` became "P", EOF accepts and anything else is
      an error. */
  lemma {:induction false} AfterCloseRun(k: nat, items: seq<Item<char>>)
    requires WellFormed(items)
    ensures Run(2, Opens(k) + [P], items) == AfterClose(items)
  {
    var st := Opens(k) + [P];
    match items[0]
    case Bad(c) =>
    case Tok(t) =>
      if t.kind == RPR {
        var st2 := st + [P, R];
        Differs(st2, [L, P, R], 3);
        Differs(st2, [P], 1);
        Differs(st2, [L, S], 1);
      } else if t.kind == EOF {
        Differs(st, [L, P, R], 1);
        EndsWithAppend(Opens(k), [P]);
        assert st[..|st| - 1] == Opens(k);
        ReducesToS(k, items);
      }
  }

  lemma {:induction false} RunIsVerdictFrom(k: nat, items: seq<Item<char>>)
    requires WellFormed(items)
    ensures Run(0, Opens(k), items) == Verdict(items, k)
    decreases |items|
  {
    if items[0].Tok? && items[0].token.kind == LPR {
      RunIsVerdictFrom(k + 1, items[1..]);
      OpenStep(k, items);
    } else {
      NoOpenStep(k, items);
    }
  }

  /** The step of `RunIsVerdictFrom` for a '(': it is shifted. */
  lemma {:induction false} OpenStep(k: nat, items: seq<Item<char>>)
    requires WellFormed(items) && items[0].Tok? && items[0].token.kind == LPR
    requires WellFormed(items[1..]) && Run(0, Opens(k + 1), items[1..]) == Verdict(items[1..], k + 1)
    ensures Run(0, Opens(k), items) == Verdict(items, k)
  {
    assert Opens(k + 1) == Opens(k) + [L];
  }

  /** `RunIsVerdictFrom` for an item other than '(': the run ends here. */
  lemma {:induction false} NoOpenStep(k: nat, items: seq<Item<char>>)
    requires WellFormed(items) && !(items[0].Tok? && items[0].token.kind == LPR)
    ensures Run(0, Opens(k), items) == Verdict(items, k)
  {
    match items[0]
    case Bad(c) =>
    case Tok(t) =>
      if t.kind == EOF {
        EofRun(k, items);
      } else if t.kind == RPR {
        if k == 0 {
          CloseAtBottom(items);
        } else {
          CloseAbove(k, items);
        }
      }
  }

  /** EOF after `k` '(' starts the reductions down to "S". */
  lemma {:induction false} EofRun(k: nat, items: seq<Item<char>>)
    requires WellFormed(items) && items[0].Tok? && items[0].token.kind == EOF
    ensures Run(0, Opens(k), items) == Ok(())
  {
    EofShift(Opens(k), items);
    ReducesToS(k, items);
  }

  /** In state 0, EOF pushes "S" and leaves the stream as it is. */
  lemma {:induction false} EofShift(stack: seq<Entry>, items: seq<Item<char>>)
    requires WellFormed(items) && items[0].Tok? && items[0].token.kind == EOF
    ensures Run(0, stack, items) == Run(1, stack + [S], items)
  {
    assert Action(0, stack, items) == Ok(Move(1, stack + [S]));
    assert Advance(items) == items;
  }

  /** A ')' with no '(' below it leaves a stack nothing reduces. */
  lemma {:induction false} CloseAtBottom(items: seq<Item<char>>)
    requires WellFormed(items) && items[0].Tok? && items[0].token.kind == RPR
    ensures Run(0, Opens(0), items) == Fail(ReduceError)
  {
    CloseShift(Opens(0), items);
    NothingReducesPR();
    ReduceFails([P, R], Advance(items));
  }

  /** In state 0, a ')' pushes "P" and ")" and is consumed. */
  lemma {:induction false} CloseShift(stack: seq<Entry>, items: seq<Item<char>>)
    requires WellFormed(items) && items[0].Tok? && items[0].token.kind == RPR
    ensures Run(0, stack, items) == Run(1, stack + [P, R], Advance(items))
  {
    assert Action(0, stack, items) == Ok(Move(1, stack + [P, R]));
  }

  /** No pattern ends the stack `P )`, and it is not `S` alone. */
  lemma {:induction false} NothingReducesPR()
    ensures Reduce1Move([P, R]) == Fail(ReduceError)
  {
    Differs([P, R], [P], 1);
    Differs([P, R], [L, S], 1);
  }

  /** In state 1, a stack nothing reduces ends the run. */
  lemma {:induction false} ReduceFails(stack: seq<Entry>, items: seq<Item<char>>)
    requires WellFormed(items) && Reduce1Move(stack).Fail?
    ensures Run(1, stack, items) == Fail(Reduce1Move(stack).error)
  {
  }

  /** A ')' above a '(' reduces `( P )` and goes on in state 2. */
  lemma {:induction false} CloseAbove(k: nat, items: seq<Item<char>>)
    requires k > 0 && WellFormed(items) && items[0].Tok? && items[0].token.kind == RPR
    ensures Run(0, Opens(k), items) == AfterClose(items[1..])
  {
    var st := Opens(k) + [P, R];
    OpensThenPR(k);
    EndsWithAppend(Opens(k - 1), [L, P, R]);
    assert st[..|st| - 3] == Opens(k - 1);
    AfterCloseRun(k - 1, items[1..]);
  }

  /** `k` '(' then `P )` is `k - 1` '(' then `( P )`. */
  lemma {:induction false} OpensThenPR(k: nat)
    requires k > 0
    ensures Opens(k) + [P, R] == Opens(k - 1) + [L, P, R]
  {
    var front := Opens(k - 1);
    assert Opens(k) == front + [L];
  }

  /** The stack machine decides as the count does. */
  lemma {:induction false} RunIsVerdict(items: seq<Item<char>>)
    requires WellFormed(items)
    ensures Run(0, [], items) == Verdict(items, 0)
  {
    RunIsVerdictFrom(0, items);
  }

  /** The words the machine accepts: '(' only, or '(' followed by a single
      ')'. */
  predicate OpensThenClose(w: seq<Paren>)
  {
    var n := LeadingOpens(w);
    n == |w| || (n >= 1 && n == |w| - 1)
  }

  lemma {:induction false} VerdictOpen(w: seq<Paren>, k: nat)
    requires w != [] && w[0] == Open
    ensures Verdict(WordItems(w), k) == Verdict(WordItems(w[1..]), k + 1)
  {
    WordItemsCons(w);
  }

  lemma {:induction false} VerdictClose(w: seq<Paren>, k: nat)
    requires w != [] && w[0] == Close
    ensures Verdict(WordItems(w), k) == if k >= 1 && |w| == 1 then Ok(()) else Fail(ReduceError)
  {
    if |w| == 1 {
      VerdictCloseLast(w, k);
    } else {
      VerdictCloseMore(w, k);
    }
  }

  lemma {:induction false} VerdictCloseLast(w: seq<Paren>, k: nat)
    requires w == [Close]
    ensures Verdict(WordItems(w), k) == if k >= 1 then Ok(()) else Fail(ReduceError)
  {
    WordItemsCons(w);
    EmptyWordItems();
    assert w[1..] == [];
  }

  lemma {:induction false} VerdictCloseMore(w: seq<Paren>, k: nat)
    requires |w| > 1 && w[0] == Close
    ensures Verdict(WordItems(w), k) == Fail(ReduceError)
  {
    WordItemsCons(w);
    WordItemsCons(w[1..]);
  }

  lemma {:induction false} VerdictWord(w: seq<Paren>, k: nat)
    ensures Verdict(WordItems(w), k) ==
      var n := LeadingOpens(w);
      if n == |w| || (k + n >= 1 && n == |w| - 1) then Ok(()) else Fail(ReduceError)
  {
    VerdictIsWordVerdict(w, k);
    WordVerdictOpens(w, k);
  }

  /** The machine's verdict on a word, one parenthesis at a time: it pushes
      every '(' and accepts one ')' only as the last parenthesis and only
      above at least one '('. */
  function WordVerdict(w: seq<Paren>, k: nat): Result<(), FerError>
    decreases |w|
  {
    if w == [] then Ok(())
    else if w[0] == Open then WordVerdict(w[1..], k + 1)
    else if k >= 1 && |w| == 1 then Ok(())
    else Fail(ReduceError)
  }

  lemma {:induction false} VerdictIsWordVerdict(w: seq<Paren>, k: nat)
    ensures Verdict(WordItems(w), k) == WordVerdict(w, k)
    decreases |w|
  {
    if w == [] {
      EmptyWordItems();
    } else if w[0] == Open {
      assert Verdict(WordItems(w), k) == Verdict(WordItems(w[1..]), k + 1) by {
        VerdictOpen(w, k);
      }
      VerdictIsWordVerdict(w[1..], k + 1);
    } else {
      VerdictClose(w, k);
    }
  }

  /** The verdict by the run of '(' the word starts with. */
  lemma {:induction false} WordVerdictOpens(w: seq<Paren>, k: nat)
    ensures WordVerdict(w, k) ==
      var n := LeadingOpens(w);
      if n == |w| || (k + n >= 1 && n == |w| - 1) then Ok(()) else Fail(ReduceError)
    decreases |w|
  {
    if w != [] && w[0] == Open {
      WordVerdictOpens(w[1..], k + 1);
      assert LeadingOpens(w) == 1 + LeadingOpens(w[1..]);
    }
  }

  /** `test_parser` says "is valid" for the text of a word exactly when the
      word is '(' only, or '(' followed by a single ')'; every other word of
      parentheses is a "Reduce error". */
  lemma {:induction false} AcceptedWords(w: seq<Paren>)
    ensures Run(0, [], Items(ParenText(w), 0)) == if OpensThenClose(w) then Ok(()) else Fail(ReduceError)
  {
    LexWord(w);
    RunIsVerdict(WordItems(w));
    VerdictWord(w, 0);
  }

  /** The verdict of `test_parser` on a text of parentheses. */
  lemma {:induction false} VerdictOfText(s: string, w: seq<Paren>)
    requires s == ParenText(w)
    ensures Run(0, [], Items(s, 0)) == if OpensThenClose(w) then Ok(()) else Fail(ReduceError)
  {
    AcceptedWords(w);
  }

  /** The `test_parser` doctests: '()', '(()' and '(' are valid; '())',
      '(()))', '()()' and ')(' are not. */
  lemma DoctestValid()
    ensures Run(0, [], Items("()", 0)) == Ok(())
  {
    var w := [Open, Close];
    assert ParenText(w) == "()" && LeadingOpens(w) == 1;
    VerdictOfText("()", w);
  }

  lemma DoctestValidUnclosed()
    ensures Run(0, [], Items("(()", 0)) == Ok(())
  {
    var w := [Open, Open, Close];
    assert ParenText(w) == "(()" && LeadingOpens(w) == 2;
    VerdictOfText("(()", w);
  }

  lemma DoctestValidOpen()
    ensures Run(0, [], Items("(", 0)) == Ok(())
  {
    var w := [Open];
    assert ParenText(w) == "(" && LeadingOpens(w) == 1;
    VerdictOfText("(", w);
  }

  lemma DoctestExtraClose()
    ensures Run(0, [], Items("())", 0)) == Fail(ReduceError)
  {
    var w := [Open, Close, Close];
    assert ParenText(w) == "())" && LeadingOpens(w) == 1;
    VerdictOfText("())", w);
  }

  lemma DoctestNestedExtraClose()
    ensures Run(0, [], Items("(()))", 0)) == Fail(ReduceError)
  {
    var w := [Open, Open, Close, Close, Close];
    assert ParenText(w) == "(()))" && LeadingOpens(w) == 2;
    VerdictOfText("(()))", w);
  }

  lemma DoctestSequence()
    ensures Run(0, [], Items("()()", 0)) == Fail(ReduceError)
  {
    var w := [Open, Close, Open, Close];
    assert ParenText(w) == "()()" && LeadingOpens(w) == 1;
    VerdictOfText("()()", w);
  }

  lemma DoctestReversed()
    ensures Run(0, [], Items(")(", 0)) == Fail(ReduceError)
  {
    var w := [Close, Open];
    assert ParenText(w) == ")(" && LeadingOpens(w) == 0;
    VerdictOfText(")(", w);
  }
}
