/** 4_bottomUp/LR_LHPL.py: a table-driven LR parser for the left-skewed
    parentheses. Its stack alternates states and grammar symbols; the action
    table says, for the state on top and the kind of the current token,
    whether to shift, to reduce `P ::= ( P )` or to accept, and the goto
    table gives the state after the reduction. A missing entry ends the
    parse: quietly at EOF, with "Unexpected token" elsewhere. */
module LrLhpl {
  import opened Wrappers
  import opened Tokens
  import opened Streams
  import opened Lexer
  import opened Parens

  /** An element of `self.stack`: a state, a token, or a nonterminal. */
  datatype Cell = StateCell(n: int) | TokenCell(token: Token) | SymbolCell(name: string)

  /** An entry of the action table. Its only reduction is `P ::= ( P )`. */
  datatype Action = Shift(next: int) | Reduce(production: string) | Accept

  const ProductionP := "P ::= ( P )"

  /** `self.action_table.get((state, kind))`. */
  function ActionTable(state: int, k: Kind): (a: Option<Action>)
    ensures a.Some? && a.value.Shift? ==> state in {0, 1} && k in {LPR, RPR} && a.value.next in {1, 2}
    ensures a.Some? && a.value.Shift? && a.value.next == 2 ==> state == 1
    ensures a.Some? && !a.value.Shift? ==> state == 2
    ensures a.Some? <==> (state in {0, 1} && k == LPR) || (state in {1, 2} && k == RPR) || (state == 2 && k == EOF)
  {
    if state == 0 && k == LPR then Some(Shift(1))
    else if state == 1 && k == LPR then Some(Shift(1))
    else if state == 1 && k == RPR then Some(Shift(2))
    else if state == 2 && k == RPR then Some(Reduce(ProductionP))
    else if state == 2 && k == EOF then Some(Accept)
    else None
  }

  /** `self.goto_table.get((state, name))`. */
  function GotoTable(state: int, name: string): (g: Option<int>)
    ensures name == "P" ==> (g.Some? <==> state == 1) && (g.Some? ==> g.value == 2)
  {
    if state == 0 && name == "S" then Some(3)
    else if state == 1 && name == "P" then Some(2)
    else None
  }

  /** The ValueErrors `parse` raises, and the lexer's. */
  datatype LrError =
    | UnexpectedToken(kind: Kind)   // "Unexpected token: {kind}"
    | UnexpectedReduction           // "Unexpected reduction"
    | BadChar(c: char)              // the lexer's "Unexpected character"

  /** The stacks `parse` builds: state 0 at the bottom, then a symbol and a
      state in turn, and a state 2 only above a first shift. */
  predicate Shape(stack: seq<Cell>)
    decreases |stack|
  {
    if |stack| <= 1 then stack == [StateCell(0)]
    else
      |stack| >= 3 && stack[|stack| - 1].StateCell? && !stack[|stack| - 2].StateCell? &&
      (stack[|stack| - 1].n == 2 ==> |stack| >= 5) && Shape(stack[..|stack| - 2])
  }

  /** The state on top of the stack. */
  function Top(stack: seq<Cell>): int
    requires Shape(stack)
  {
    stack[|stack| - 1].n
  }

  /** A symbol and a state pushed on a stack keep its shape when a state 2
      is pushed only above a state 1. */
  lemma {:induction false} PushShape(stack: seq<Cell>, x: Cell, next: int)
    requires Shape(stack) && !x.StateCell?
    requires next == 2 ==> Top(stack) == 1
    ensures Shape(stack + [x, StateCell(next)])
  {
    assert (stack + [x, StateCell(next)])[..|stack|] == stack;
  }

  /** Four cells popped from a stack with a state 2 on top leave a stack of
      the same shape. */
  lemma {:induction false} PopShape(stack: seq<Cell>)
    requires Shape(stack) && Top(stack) == 2
    ensures Shape(stack[..|stack| - 4])
  {
    var below := stack[..|stack| - 2];
    assert Shape(below);
    assert below[..|below| - 2] == stack[..|stack| - 4];
  }

  /** What `parse` does from a stack and the stream left to read, up to the
      return or the ValueError that ends it. */
  function Run(stack: seq<Cell>, items: seq<Item<char>>): (r: Result<(), LrError>)
    requires Shape(stack) && WellFormed(items)
    decreases |items|, |stack|
  {
    var state := Top(stack);
    match items[0]
    case Bad(c) => Fail(BadChar(c))
    case Tok(t) =>
      match ActionTable(state, t.kind)
      case None => if t.kind != EOF then Fail(UnexpectedToken(t.kind)) else Ok(())
      case Some(Shift(next)) =>
        PushShape(stack, TokenCell(t), next);
        Run(stack + [TokenCell(t), StateCell(next)], items[1..])
      case Some(Reduce(_)) =>
        PopShape(stack);
        var popped := stack[..|stack| - 4];
        (match GotoTable(popped[|popped| - 1].n, "P")
         case None => Fail(UnexpectedReduction)
         case Some(g) =>
           PushShape(popped, SymbolCell("P"), g);
           Run(popped + [SymbolCell("P"), StateCell(g)], items))
      case Some(Accept) => Ok(())
  }

  /** `test_parser`'s verdict on a stream: `Ok` for "is valid". */
  function Recognize(items: seq<Item<char>>): (r: Result<(), LrError>)
    requires WellFormed(items)
  {
    Run([StateCell(0)], items)
  }

  /** A shift pushes the current token and the next state, and reads on. */
  lemma {:induction false} RunShift(stack: seq<Cell>, items: seq<Item<char>>, next: int)
    requires Shape(stack) && WellFormed(items) && items[0].Tok?
    requires ActionTable(Top(stack), items[0].token.kind) == Some(Shift(next))
    ensures !Final(items[0]) && Shape(stack + [TokenCell(items[0].token), StateCell(next)])
    ensures Run(stack, items) == Run(stack + [TokenCell(items[0].token), StateCell(next)], items[1..])
  {
    PushShape(stack, TokenCell(items[0].token), next);
  }

  /** A reduction pops four cells and follows the goto table from the state
      it uncovers, without reading. */
  lemma {:induction false} RunReduce(stack: seq<Cell>, items: seq<Item<char>>, production: string)
    requires Shape(stack) && WellFormed(items) && items[0].Tok?
    requires ActionTable(Top(stack), items[0].token.kind) == Some(Reduce(production))
    ensures Shape(stack[..|stack| - 4])
    ensures var popped := stack[..|stack| - 4];
      var g := GotoTable(Top(popped), "P");
      (g.Some? ==> Shape(popped + [SymbolCell("P"), StateCell(g.value)])) &&
      Run(stack, items) == if g.None? then Fail(UnexpectedReduction) else Run(popped + [SymbolCell("P"), StateCell(g.value)], items)
  {
    PopShape(stack);
    var popped := stack[..|stack| - 4];
    var g := GotoTable(Top(popped), "P");
    if g.Some? {
      PushShape(popped, SymbolCell("P"), g.value);
    }
  }

  class LRParser {
    const lexer: Lexer
    var current: Item<char>
    var stack: seq<Cell>

    ghost predicate Valid()
      reads this, lexer
    {
      Reading() && Shape(stack)
    }

    /** The current item is one the lexer returned, and an EOF is read
        only at the end of the input. */
    ghost predicate Reading()
      reads this`current, lexer
    {
      lexer.Valid() &&
      (current.Tok? ==> Lexeme(current.token)) &&
      (current.Tok? && current.token.kind == EOF ==> current.token == EofToken && lexer.position == |lexer.input|)
    }

    /** The items the parser has yet to read: the current one and then what
        the lexer's `next_valid_token` returns from its position on. */
    ghost function Rest(): (r: seq<Item<char>>)
      reads this`current, lexer
      requires Reading()
      ensures WellFormed(r) && r[0] == current
    {
      if Final(current) then [current]
      else
        StreamCons(current.token, Items(lexer.input, lexer.position));
        [current] + Items(lexer.input, lexer.position)
    }

    /** `__init__`: keeps the lexer, reads the first token and starts from
        the stack `[0]`; the two tables are the functions `ActionTable` and
        `GotoTable`. */
    constructor (lexer: Lexer)
      requires lexer.Valid()
      modifies lexer
      ensures Valid() && this.lexer == lexer && stack == [StateCell(0)]
      ensures Rest() == Items(lexer.input, old(lexer.position))
    {
      this.lexer := lexer;
      var r := lexer.NextValidToken();
      current := ToItem(r);
      stack := [StateCell(0)];
    }

    /** The shift branch of `parse`: pushes the current token and the next
        state, then reads the next token. */
    method ShiftTo(next: int)
      requires Valid() && current.Tok? && ActionTable(stack[|stack| - 1].n, current.token.kind) == Some(Shift(next))
      modifies this, lexer
      ensures Valid() && |Rest()| < |old(Rest())|
      ensures Run(stack, Rest()) == Run(old(stack), old(Rest()))
    {
      ghost var items := Rest();
      RunShift(stack, items, next);
      stack := stack + [TokenCell(current.token), StateCell(next)];
      var n := lexer.NextValidToken();
      current := ToItem(n);
      assert Rest() == items[1..];
    }

    /** The reduce branch of `parse`: pops `( P )` with its states, then
        pushes "P" and the goto state, or raises "Unexpected reduction". */
    method ReduceP(production: string) returns (err: Option<LrError>)
      requires Valid() && current.Tok? && ActionTable(stack[|stack| - 1].n, current.token.kind) == Some(Reduce(production))
      modifies this
      ensures Valid() && Rest() == old(Rest())
      ensures err.None? ==> |stack| < |old(stack)| && Run(stack, Rest()) == Run(old(stack), old(Rest()))
      ensures err.Some? ==> Run(old(stack), old(Rest())) == Fail(err.value)
    {
      ghost var items := Rest();
      RunReduce(stack, items, production);
      // the four pops: state 2, the ')' or "P", state 1 and the '('
      var next := stack[..|stack| - 4];
      var goto := GotoTable(next[|next| - 1].n, "P");
      if goto.Some? {
        next := next + [SymbolCell("P"), StateCell(goto.value)];
        err := None;
      } else {
        err := Some(UnexpectedReduction);
      }
      stack := next;
    }

    /** `parse()`. */
    method Parse() returns (r: Result<(), LrError>)
      requires Valid()
      modifies this, lexer
      ensures Valid() && r == Run(old(stack), old(Rest()))
    {
      ghost var verdict := Run(stack, Rest());
      while true
        invariant Valid() && Run(stack, Rest()) == verdict
        decreases |Rest()|, |stack|
      {
        var state := stack[|stack| - 1].n;
        if current.Bad? {
          return Fail(BadChar(current.error));
        }
        var action := ActionTable(state, current.token.kind);
        if action.None? {
          if current.token.kind != EOF {
            return Fail(UnexpectedToken(current.token.kind));
          } else {
            return Ok(());
          }
        }
        match action.value
        case Shift(next) =>
          ShiftTo(next);
        case Reduce(production) =>
          var err := ReduceP(production);
          if err.Some? {
            return Fail(err.value);
          }
        case Accept =>
          return Ok(());
      }
    }
  }

  /** `test_parser(input_str)`: the verdict it prints, "valid" or the
      message of the ValueError `parse` raises; a bad first character
      instead raises out of the parser's constructor, outside the `try`. */
  method TestParser(input: string) returns (r: Outcome<LrError>)
    ensures r.Raised? <==> Items(input, 0)[0].Bad?
    ensures r.Raised? ==> r.c == Items(input, 0)[0].error
    ensures r.Reported? ==> r.verdict == Recognize(Items(input, 0))
  {
    var lexer := new Lexer(input);
    var parser := new LRParser(lexer);
    if parser.current.Bad? {
      return Raised(parser.current.error);
    }
    var verdict := parser.Parse();
    r := Reported(verdict);
  }

  /** A character the lexer rejects escapes `test_parser` when it comes
      first ('x()'), and is the printed verdict when it comes later ('(x'). */
  lemma {:induction false} StrayCharacter()
    ensures Items("x()", 0)[0] == Bad('x')
    ensures Items("(x", 0)[0].Tok? && Recognize(Items("(x", 0)) == Fail(BadChar('x'))
  {
  }

  /** The stack after `n` '(' have been shifted: state 0, then `n` times a
      token and state 1. */
  predicate Opened(stack: seq<Cell>, n: nat)
    decreases n
  {
    if n == 0 then stack == [StateCell(0)]
    else
      |stack| == 2 * n + 1 && stack[|stack| - 1] == StateCell(1) && stack[|stack| - 2].TokenCell? &&
      Opened(stack[..|stack| - 2], n - 1)
  }

  lemma {:induction false} OpenedShape(stack: seq<Cell>, n: nat)
    requires Opened(stack, n)
    ensures Shape(stack) && Top(stack) == if n == 0 then 0 else 1
    decreases n
  {
    if n > 0 {
      OpenedShape(stack[..|stack| - 2], n - 1);
    }
  }

  /** What `parse` decides, told by counting instead of by a stack: after
      `n` '(', EOF is valid; a ')' is unexpected when no '(' came before it,
      and must otherwise be followed by EOF. */
  function Verdict(items: seq<Item<char>>, n: nat): (r: Result<(), LrError>)
    requires WellFormed(items)
    decreases |items|
  {
    match items[0]
    case Bad(c) => Fail(BadChar(c))
    case Tok(t) =>
      if t.kind == LPR then Verdict(items[1..], n + 1)
      else if t.kind == EOF then Ok(())
      else if t.kind == RPR && n >= 1 then AfterClose(items[1..])
      else Fail(UnexpectedToken(t.kind))
  }

  /** After the one ')' that is shifted, EOF accepts; another ')' sets off
      reductions that end at the bottom of the stack. */
  function AfterClose(items: seq<Item<char>>): (r: Result<(), LrError>)
    requires WellFormed(items)
    ensures r.Ok? <==> items[0].Tok? && items[0].token.kind == EOF
  {
    match items[0]
    case Bad(c) => Fail(BadChar(c))
    case Tok(t) =>
      if t.kind == EOF then Ok(())
      else if t.kind == RPR then Fail(UnexpectedReduction)
      else Fail(UnexpectedToken(t.kind))
  }

  /** With a ')' still current, every reduction of `( P )` uncovers one more
      '(', until state 0 has no goto on "P". */
  lemma {:induction false} ReductionChain(st: seq<Cell>, n: nat, x: Cell, items: seq<Item<char>>)
    requires Opened(st, n) && n >= 1 && !x.StateCell?
    requires WellFormed(items) && items[0].Tok? && items[0].token.kind == RPR
    ensures Shape(st + [x, StateCell(2)])
    ensures Run(st + [x, StateCell(2)], items) == Fail(UnexpectedReduction)
    decreases n
  {
    ReductionStep(st, n, x, items);
    if n > 1 {
      ReductionChain(st[..|st| - 2], n - 1, SymbolCell("P"), items);
    }
  }

  /** One reduction of `( P )` with a ')' current: the run goes on one '('
      lower, or stops at state 0. */
  lemma {:induction false} ReductionStep(st: seq<Cell>, n: nat, x: Cell, items: seq<Item<char>>)
    requires Opened(st, n) && n >= 1 && !x.StateCell?
    requires WellFormed(items) && items[0].Tok? && items[0].token.kind == RPR
    ensures Shape(st + [x, StateCell(2)])
    ensures var popped := st[..|st| - 2];
            Opened(popped, n - 1) &&
            (n == 1 ==> Run(st + [x, StateCell(2)], items) == Fail(UnexpectedReduction)) &&
            (n > 1 ==> Shape(popped + [SymbolCell("P"), StateCell(2)]) &&
                       Run(st + [x, StateCell(2)], items) == Run(popped + [SymbolCell("P"), StateCell(2)], items))
  {
    OpenedShape(st, n);
    PushShape(st, x, 2);
    var stack := st + [x, StateCell(2)];
    RunReduce(stack, items, ProductionP);
    var popped := st[..|st| - 2];
    assert stack[..|stack| - 4] == popped;
    OpenedShape(popped, n - 1);
  }

  /** After the shift of the first ')', state 2 accepts at EOF. */
  lemma {:induction false} AfterCloseRun(st: seq<Cell>, n: nat, x: Cell, items: seq<Item<char>>)
    requires Opened(st, n) && n >= 1 && !x.StateCell? && WellFormed(items)
    ensures Shape(st + [x, StateCell(2)])
    ensures Run(st + [x, StateCell(2)], items) == AfterClose(items)
  {
    OpenedShape(st, n);
    PushShape(st, x, 2);
    if items[0].Tok? && items[0].token.kind == RPR {
      ReductionChain(st, n, x, items);
    }
  }

  lemma {:induction false} RunIsVerdictFrom(stack: seq<Cell>, n: nat, items: seq<Item<char>>)
    requires Opened(stack, n) && WellFormed(items)
    ensures Shape(stack) && Run(stack, items) == Verdict(items, n)
    decreases |items|
  {
    if items[0].Tok? && items[0].token.kind == LPR {
      OpenPush(stack, n, items);
      RunIsVerdictFrom(stack + [TokenCell(items[0].token), StateCell(1)], n + 1, items[1..]);
      OpenStep(stack, n, items);
    } else {
      NoOpenStep(stack, n, items);
    }
  }

  /** Shifting a '(' opens one more. */
  lemma {:induction false} OpenPush(stack: seq<Cell>, n: nat, items: seq<Item<char>>)
    requires Opened(stack, n) && WellFormed(items) && items[0].Tok? && items[0].token.kind == LPR
    ensures WellFormed(items[1..]) && Opened(stack + [TokenCell(items[0].token), StateCell(1)], n + 1)
  {
    OpenedShape(stack, n);
    RunShift(stack, items, 1);
    var next := stack + [TokenCell(items[0].token), StateCell(1)];
    assert next[..|next| - 2] == stack;
  }

  /** A '(' is shifted: the run goes on with one more '(' open. */
  lemma {:induction false} OpenStep(stack: seq<Cell>, n: nat, items: seq<Item<char>>)
    requires Opened(stack, n) && WellFormed(items) && items[0].Tok? && items[0].token.kind == LPR
    requires WellFormed(items[1..])
    requires var next := stack + [TokenCell(items[0].token), StateCell(1)];
             Shape(next) && Run(next, items[1..]) == Verdict(items[1..], n + 1)
    ensures Shape(stack) && Run(stack, items) == Verdict(items, n)
  {
    OpenedShape(stack, n);
    RunShift(stack, items, 1);
  }

  /** Anything but a '(' ends the run without another shift of '('. */
  lemma {:induction false} NoOpenStep(stack: seq<Cell>, n: nat, items: seq<Item<char>>)
    requires Opened(stack, n) && WellFormed(items) && !(items[0].Tok? && items[0].token.kind == LPR)
    ensures Shape(stack) && Run(stack, items) == Verdict(items, n)
  {
    OpenedShape(stack, n);
    match items[0]
    case Bad(c) =>
    case Tok(t) =>
      if t.kind == RPR && n >= 1 {
        RunShift(stack, items, 2);
        AfterCloseRun(stack, n, TokenCell(t), items[1..]);
      }
  }

  /** The table-driven parser decides as the count does. */
  lemma {:induction false} RunIsVerdict(items: seq<Item<char>>)
    requires WellFormed(items)
    ensures Recognize(items) == Verdict(items, 0)
  {
    RunIsVerdictFrom([StateCell(0)], 0, items);
  }

  lemma {:induction false} VerdictOpen(w: seq<Paren>, n: nat)
    requires w != [] && w[0] == Open
    ensures Verdict(WordItems(w), n) == Verdict(WordItems(w[1..]), n + 1)
  {
    WordItemsCons(w);
  }

  lemma {:induction false} VerdictClose(w: seq<Paren>, n: nat)
    requires w != [] && w[0] == Close
    ensures Verdict(WordItems(w), n) ==
      if n == 0 then Fail(UnexpectedToken(RPR))
      else if |w| == 1 then Ok(())
      else if w[1] == Close then Fail(UnexpectedReduction)
      else Fail(UnexpectedToken(LPR))
  {
    if |w| == 1 {
      VerdictCloseLast(w, n);
    } else {
      VerdictCloseMore(w, n);
    }
  }

  lemma {:induction false} VerdictCloseLast(w: seq<Paren>, n: nat)
    requires w == [Close]
    ensures Verdict(WordItems(w), n) == if n == 0 then Fail(UnexpectedToken(RPR)) else Ok(())
  {
    WordItemsCons(w);
    EmptyWordItems();
    assert w[1..] == [];
  }

  lemma {:induction false} VerdictCloseMore(w: seq<Paren>, n: nat)
    requires |w| > 1 && w[0] == Close
    ensures Verdict(WordItems(w), n) ==
      if n == 0 then Fail(UnexpectedToken(RPR))
      else if w[1] == Close then Fail(UnexpectedReduction)
      else Fail(UnexpectedToken(LPR))
  {
    WordItemsCons(w);
    WordItemsCons(w[1..]);
  }

  /** The verdict on a word after `n` '(' read before it. */
  function WordVerdict(w: seq<Paren>, n: nat): Result<(), LrError>
  {
    var m := LeadingOpens(w);
    if m == |w| then Ok(())
    else if n + m == 0 then Fail(UnexpectedToken(RPR))
    else if m == |w| - 1 then Ok(())
    else if w[m + 1] == Close then Fail(UnexpectedReduction)
    else Fail(UnexpectedToken(LPR))
  }

  lemma {:induction false} WordVerdictOpen(w: seq<Paren>, n: nat)
    requires w != [] && w[0] == Open
    ensures WordVerdict(w, n) == WordVerdict(w[1..], n + 1)
  {
    var m := LeadingOpens(w[1..]);
    assert LeadingOpens(w) == 1 + m;
    if m + 1 < |w[1..]| {
      assert w[1..][m + 1] == w[m + 2];
    }
  }

  /** A leading '(' passes the agreement on to the rest of the word. */
  lemma {:induction false} VerdictWordOpen(w: seq<Paren>, n: nat)
    requires w != [] && w[0] == Open
    requires Verdict(WordItems(w[1..]), n + 1) == WordVerdict(w[1..], n + 1)
    ensures Verdict(WordItems(w), n) == WordVerdict(w, n)
  {
    VerdictOpen(w, n);
    WordVerdictOpen(w, n);
  }

  /** On a word that starts with ')' the two verdicts agree outright. */
  lemma {:induction false} VerdictWordClose(w: seq<Paren>, n: nat)
    requires w != [] && w[0] == Close
    ensures Verdict(WordItems(w), n) == WordVerdict(w, n)
  {
    VerdictClose(w, n);
    assert LeadingOpens(w) == 0;
  }

  lemma {:induction false} VerdictWord(w: seq<Paren>, n: nat)
    ensures Verdict(WordItems(w), n) == WordVerdict(w, n)
    decreases |w|
  {
    if w == [] {
      EmptyWordItems();
    } else if w[0] == Open {
      VerdictWord(w[1..], n + 1);
      VerdictWordOpen(w, n);
    } else {
      VerdictWordClose(w, n);
    }
  }

  /** `test_parser` on the text of a word of parentheses: valid exactly for
      '(' only, or '(' followed by a single ')'. A first ')' with no '('
      before it is an unexpected token; after the one ')' the parser takes,
      a second ')' is an unexpected reduction and a '(' an unexpected
      token. */
  lemma {:induction false} AcceptedWords(w: seq<Paren>)
    ensures Recognize(Items(ParenText(w), 0)) ==
      var m := LeadingOpens(w);
      if m == |w| then Ok(())
      else if m == 0 then Fail(UnexpectedToken(RPR))
      else if m == |w| - 1 then Ok(())
      else if w[m + 1] == Close then Fail(UnexpectedReduction)
      else Fail(UnexpectedToken(LPR))
  {
    LexWord(w);
    RunIsVerdict(WordItems(w));
    VerdictWord(w, 0);
  }

  /** The `test_parser` doctests: '()', '(()' and '(' are valid; '())' and
      '(()))' are unexpected reductions; '()()' is an unexpected '('. */
  lemma DoctestValid()
    ensures Recognize(Items("()", 0)) == Ok(())
  {
    var w := [Open, Close];
    assert ParenText(w) == "()" && LeadingOpens(w) == 1;
    AcceptedWords(w);
  }

  lemma DoctestValidUnclosed()
    ensures Recognize(Items("(()", 0)) == Ok(())
  {
    var w := [Open, Open, Close];
    assert ParenText(w) == "(()" && LeadingOpens(w) == 2;
    AcceptedWords(w);
  }

  lemma DoctestValidOpen()
    ensures Recognize(Items("(", 0)) == Ok(())
  {
    var w := [Open];
    assert ParenText(w) == "(" && LeadingOpens(w) == 1;
    AcceptedWords(w);
  }

  lemma DoctestExtraClose()
    ensures Recognize(Items("())", 0)) == Fail(UnexpectedReduction)
  {
    var w := [Open, Close, Close];
    assert ParenText(w) == "())" && LeadingOpens(w) == 1;
    AcceptedWords(w);
  }

  lemma DoctestNestedExtraClose()
    ensures Recognize(Items("(()))", 0)) == Fail(UnexpectedReduction)
  {
    var w := [Open, Open, Close, Close, Close];
    assert ParenText(w) == "(()))" && LeadingOpens(w) == 2;
    AcceptedWords(w);
  }

  lemma DoctestSequence()
    ensures Recognize(Items("()()", 0)) == Fail(UnexpectedToken(LPR))
  {
    var w := [Open, Close, Open, Close];
    assert ParenText(w) == "()()" && LeadingOpens(w) == 1;
    AcceptedWords(w);
  }
}
