/** The first lexer of the course, 1_ArithLexing/Lexer.py, with its two
    evaluators. It knows no parentheses, raises no error (a character it
    does not know is skipped), and returns EOF for a blank that is the last
    character of the input. */
module ArithLexer {
  import opened Wrappers
  import opened Tokens
  import opened Streams
  import ParsingLexer = Lexer
  import opened Exp
  import opened Prefix
  import opened StackCalc

  /** The characters `getToken` has a branch for. */
  predicate Known(c: char)
  {
    IsDigit(c) || c == ' ' || c == '\n' || c == '+' || c == '-' || c == '*' || c == '/'
  }

  /** The operator table of `getToken`. */
  function OperatorKind(c: char): Option<Kind>
  {
    match c
    case '+' => Some(ADD)
    case '-' => Some(SUB)
    case '*' => Some(MUL)
    case '/' => Some(DIV)
    case _ => None
  }

  /** The token `getToken` returns and the position it leaves. */
  datatype Scanned = Scanned(token: Token, next: nat)

  /** The kinds this lexer can return. */
  predicate Produced(k: Kind)
  {
    k == EOF || IsBlank(k) || k == NUM || IsOperator(k)
  }

  /** One call of `getToken` from position `pos` of `s`. */
  function Scan(s: string, pos: nat): (r: Scanned)
    requires pos <= |s|
    ensures pos <= r.next <= |s|
    ensures Produced(r.token.kind) && Lexeme(r.token)
    ensures r.token.kind == EOF <==> r.token == EofToken
    ensures r.token.kind == EOF ==> r.next == |s|
    ensures r.token.kind != EOF ==> pos < r.next
    // A known character at `pos` decides the token.
    ensures pos < |s| && IsDigit(s[pos]) ==>
              r.token == Token(s[pos..r.next], NUM) && (r.next == |s| || !IsDigit(s[r.next]))
    ensures pos < |s| && OperatorKind(s[pos]).Some? ==>
              r == Scanned(Token([s[pos]], OperatorKind(s[pos]).value), pos + 1)
    // A blank is a one-character token, unless it is the last character.
    ensures pos < |s| && (s[pos] == ' ' || s[pos] == '\n') ==>
              r.next == pos + 1 &&
              r.token == if pos + 1 == |s| then EofToken
                         else Token([s[pos]], if s[pos] == ' ' then WSP else NLN)
    decreases |s| - pos
  {
    if pos >= |s| then Scanned(EofToken, pos)
    else if s[pos] == ' ' || s[pos] == '\n' then
      if pos + 1 >= |s| then Scanned(EofToken, pos + 1)
      else Scanned(Token([s[pos]], if s[pos] == ' ' then WSP else NLN), pos + 1)
    else if IsDigit(s[pos]) then
      var j := ParsingLexer.DigitRunEnd(s, pos + 1);
      assert s[pos..j] == [s[pos]] + s[pos + 1..j];
      Scanned(Token(s[pos..j], NUM), j)
    else
      match OperatorKind(s[pos])
      case Some(k) => Scanned(Token([s[pos]], k), pos + 1)
      case None => Scan(s, pos + 1)
  }

  /** The first position at or after `pos` holding a known character. */
  function NextKnown(s: string, pos: nat): (q: nat)
    requires pos <= |s|
    ensures pos <= q <= |s| && (q == |s| || Known(s[q]))
    ensures forall k :: pos <= k < q ==> !Known(s[k])
    decreases |s| - pos
  {
    if pos == |s| || Known(s[pos]) then pos else NextKnown(s, pos + 1)
  }

  /** Unknown characters are skipped silently: `getToken` returns what it
      would return at the next known character, and raises nothing. */
  lemma {:induction false} ScanSkipsUnknown(s: string, pos: nat)
    requires pos <= |s|
    ensures Scan(s, pos) == Scan(s, NextKnown(s, pos))
    decreases |s| - pos
  {
    if pos < |s| && !Known(s[pos]) {
      ScanSkipsUnknown(s, pos + 1);
    }
  }

  /** One call of `next_valid_token`: `getToken` repeated while it returns a
      blank. */
  function NextValid(s: string, pos: nat): (r: Scanned)
    requires pos <= |s|
    ensures pos <= r.next <= |s|
    ensures Produced(r.token.kind) && Lexeme(r.token) && !IsBlank(r.token.kind)
    ensures r.token.kind == EOF ==> r.token == EofToken && r.next == |s|
    ensures r.token.kind != EOF ==> pos < r.next
    decreases |s| - pos
  {
    var st := Scan(s, pos);
    if IsBlank(st.token.kind) then NextValid(s, st.next) else st
  }

  /** The tokens the generator `tokens()` yields from `pos`. */
  function Yielded(s: string, pos: nat): (ts: seq<Token>)
    requires pos <= |s|
    ensures forall i :: 0 <= i < |ts| ==> Lexeme(ts[i]) && (ts[i].kind == NUM || IsOperator(ts[i].kind))
    decreases |s| - pos
  {
    var st := NextValid(s, pos);
    if st.token.kind == EOF then [] else [st.token] + Yielded(s, st.next)
  }

  /** The stream of `next_valid_token` results, through the EOF token. */
  function Items(s: string, pos: nat): (r: seq<Item<()>>)
    requires pos <= |s|
    ensures WellFormed(r)
    decreases |s| - pos
  {
    var st := NextValid(s, pos);
    if st.token.kind == EOF then [Tok(st.token)]
    else
      var tail := Items(s, st.next);
      StreamCons(st.token, tail);
      [Tok(st.token)] + tail
  }

  /** The stream is the generator's tokens followed by EOF. */
  lemma {:induction false} ItemsAreYielded(s: string, pos: nat)
    requires pos <= |s|
    ensures Items(s, pos) == ToItems(Yielded(s, pos)) + [Tok(EofToken)]
    decreases |s| - pos
  {
    var st := NextValid(s, pos);
    if st.token.kind != EOF {
      ItemsAreYielded(s, st.next);
      ToItemsCons<()>(st.token, Yielded(s, st.next), [Tok(EofToken)]);
    }
  }

  /** Text this lexer and the lexer of 3_ParsingArithExp/Lexer.py read alike:
      digits, the four operators and blanks. */
  predicate Plain(s: string)
  {
    forall i :: 0 <= i < |s| ==> Known(s[i])
  }

  /** On a digit or an operator both lexers return the same token. */
  lemma {:induction false} ScanAgrees(s: string, pos: nat)
    requires pos < |s| && Known(s[pos]) && s[pos] != ' ' && s[pos] != '\n'
    ensures var st := Scan(s, pos);
            ParsingLexer.Scan(s, pos) == ParsingLexer.Step(Ok(st.token), st.next) && NextValid(s, pos) == st
  {
    if IsDigit(s[pos]) {
      var j := ParsingLexer.DigitRunEnd(s, pos + 1);
      assert Scan(s, pos).next == j;
    }
  }

  /** One more token, the same for both lexers. */
  lemma {:induction false} YieldedAgreeStep(s: string, pos: nat)
    requires pos < |s| && Known(s[pos]) && s[pos] != ' ' && s[pos] != '\n'
    requires ParsingLexer.Yielded(s, Scan(s, pos).next) == (Yielded(s, Scan(s, pos).next), None)
    ensures ParsingLexer.Yielded(s, pos) == (Yielded(s, pos), None)
  {
    ScanAgrees(s, pos);
    var st := Scan(s, pos);
    assert ParsingLexer.Kept(st.token) == [st.token];
  }

  /** A blank: dropped by both lexers. */
  lemma {:induction false} YieldedAgreeBlank(s: string, pos: nat)
    requires pos < |s| && (s[pos] == ' ' || s[pos] == '\n')
    requires ParsingLexer.Yielded(s, pos + 1) == (Yielded(s, pos + 1), None)
    ensures ParsingLexer.Yielded(s, pos) == (Yielded(s, pos), None)
  {
    var lst := ParsingLexer.Scan(s, pos);
    assert lst.next == pos + 1 && lst.result.Ok? && IsBlank(lst.result.value.kind);
    var rest := ParsingLexer.Yielded(s, pos + 1).0;
    assert [] + rest == rest;
    if pos + 1 < |s| {
      assert NextValid(s, pos) == NextValid(s, pos + 1);
    } else {
      assert Yielded(s, pos) == [];
    }
  }

  /** On plain text this lexer yields the tokens the later lexer yields; the
      only difference, EOF in place of a final blank, is invisible once
      blanks are dropped. */
  lemma {:induction false} YieldedAgrees(s: string, pos: nat)
    requires pos <= |s| && Plain(s)
    ensures ParsingLexer.Yielded(s, pos) == (Yielded(s, pos), None)
    decreases |s| - pos
  {
    if pos < |s| {
      if s[pos] == ' ' || s[pos] == '\n' {
        YieldedAgrees(s, pos + 1);
        YieldedAgreeBlank(s, pos);
      } else {
        YieldedAgrees(s, Scan(s, pos).next);
        YieldedAgreeStep(s, pos);
      }
    }
  }

  /** `compute_postfix` on what `print_postfix` writes is `evaluate`. */
  lemma {:induction false} PostfixOfPrinted(e: Exp)
    requires NonNegative(e)
    ensures PostfixResult<()>(Yielded(PrintPostfix(e), 0), None, false) ==
            match Eval(e)
            case Ok(v) => Ok(v)
            case Fail(_) => Fail(ZeroDivision)
  {
    PrintedIsPlain(e);
    YieldedAgrees(PrintPostfix(e), 0);
    LexPrintPostfix(e);
    PostfixResultIsEval<()>(e, false);
  }

  /** This lexer's stream for what `print_prefix` writes: the tree's tokens
      in prefix order, then EOF. */
  lemma {:induction false} ItemsOfPrinted(e: Exp)
    requires NonNegative(e)
    ensures Items(PrintPrefix(e), 0) == ToItems(PrefixTokens(e)) + [Tok(EofToken)]
  {
    var s := PrintPrefix(e);
    PrintedIsPlain(e);
    YieldedAgrees(s, 0);
    LexPrintPrefix(e);
    ItemsAreYielded(s, 0);
  }

  /** `compute_prefix` on what `print_prefix` writes is `evaluate`, and it
      reads the whole input. */
  lemma {:induction false} PrefixOfPrinted(e: Exp)
    requires NonNegative(e)
    ensures PrefixValue(Items(PrintPrefix(e), 0)) ==
            match Eval(e)
            case Ok(v) => Ok((v, [Tok(EofToken)]))
            case Fail(_) => Fail(ZeroDivision)
  {
    ItemsOfPrinted(e);
    ParsePrefixTokens<()>(e, [Tok(EofToken)]);
    PrefixValueIsEvalOfParse(Items(PrintPrefix(e), 0));
  }

  lemma {:induction false} PlainConcat(a: string, b: string)
    requires Plain(a) && Plain(b)
    ensures Plain(a + b)
  {
    forall i | 0 <= i < |a + b|
      ensures Known((a + b)[i])
    {
      if i >= |a| {
        assert (a + b)[i] == b[i - |a|];
      }
    }
  }

  /** The printers write plain text for trees without negative literals. */
  lemma {:induction false} PrintedIsPlain(e: Exp)
    requires NonNegative(e)
    ensures Plain(PrintPrefix(e)) && Plain(PrintPostfix(e))
  {
    match e
    case Num(n) =>
    case Bin(op, l, r) =>
      PrintedIsPlain(l);
      PrintedIsPlain(r);
      var sym, pl, pr := Symbol(op), PrintPrefix(l), PrintPrefix(r);
      PlainConcat(sym, " ");
      PlainConcat(sym + " ", pl);
      PlainConcat(sym + " " + pl, " ");
      PlainConcat(sym + " " + pl + " ", pr);
      var ql, qr := PrintPostfix(l), PrintPostfix(r);
      PlainConcat(ql, " ");
      PlainConcat(ql + " ", qr);
      PlainConcat(ql + " " + qr, " ");
      PlainConcat(ql + " " + qr + " ", sym);
  }

  /** The first doctest of `compute_postfix`: "3 4 + 2 * 7 /" gives 2. */
  lemma {:induction false} PostfixExampleOne()
    ensures PostfixResult<()>(Yielded("3 4 + 2 * 7 /", 0), None, false) == Ok(2)
  {
    var one := PostfixDoctestOne();
    PostfixOfPrinted(one);
  }

  /** The second doctest: "4 2 5 * + 1 3 2 * + /" gives 2. */
  lemma {:induction false} PostfixExampleTwo()
    ensures PostfixResult<()>(Yielded("4 2 5 * + 1 3 2 * + /", 0), None, false) == Ok(2)
  {
    var two := PostfixDoctestTwo();
    PostfixOfPrinted(two);
  }

  /** The doctests of `compute_prefix`: "+ 3 * 4 2" gives 11 ... */
  lemma {:induction false} PrefixExampleEleven()
    ensures PrefixValue(Items("+ 3 * 4 2", 0)) == Ok((11, [Tok(EofToken)]))
  {
    var e := Bin(Add, Num(3), Bin(Mul, Num(4), Num(2)));
    assert PrintPrefix(e) == "+ 3 * 4 2";
    PrefixOfPrinted(e);
  }

  /** ... and "+ * 3 4 2" gives 14. */
  lemma {:induction false} PrefixExampleFourteen()
    ensures PrefixValue(Items("+ * 3 4 2", 0)) == Ok((14, [Tok(EofToken)]))
  {
    var e := Bin(Add, Bin(Mul, Num(3), Num(4)), Num(2));
    PrintedFourteen();
    PrefixOfPrinted(e);
  }

  class Lexer {
    const input: string
    var position: nat

    ghost predicate Valid()
      reads this
    {
      position <= |input|
    }

    constructor (s: string)
      ensures Valid() && input == s && position == 0
    {
      input := s;
      position := 0;
    }

    /** `getToken`. The source's `while` over blanks returns in its first
        iteration, so it is an `if` here; an unknown character is skipped by
        the recursive call. */
    method GetToken() returns (t: Token)
      requires Valid()
      modifies this
      ensures Valid()
      ensures Scanned(t, position) == Scan(input, old(position))
      decreases |input| - position
    {
      if position >= |input| {
        return EofToken;
      }
      var c := input[position];
      if c == ' ' || c == '\n' {
        var blank := Token([c], if c == ' ' then WSP else NLN);
        position := position + 1;
        if position >= |input| {
          return EofToken;
        }
        return blank;
      }
      if IsDigit(c) {
        var text := "";
        while position < |input| && IsDigit(input[position])
          invariant old(position) <= position <= |input|
          invariant text == input[old(position)..position]
          invariant ParsingLexer.DigitRunEnd(input, position) == ParsingLexer.DigitRunEnd(input, old(position))
          decreases |input| - position
        {
          text := text + [input[position]];
          position := position + 1;
        }
        return Token(text, NUM);
      }
      match OperatorKind(c)
      case Some(k) =>
        position := position + 1;
        return Token([c], k);
      case None =>
        position := position + 1;
        t := GetToken();
    }

    /** `next_valid_token`, recursive like the source. */
    method NextValidToken() returns (t: Token)
      requires Valid()
      modifies this
      ensures Valid()
      ensures Scanned(t, position) == NextValid(input, old(position))
      decreases |input| - position
    {
      t := GetToken();
      if t.kind == WSP || t.kind == NLN {
        t := NextValidToken();
      }
    }

    /** The generator `tokens()`, run to completion. */
    method Tokens() returns (toks: seq<Token>)
      requires Valid()
      modifies this
      ensures Valid()
      ensures toks == Yielded(input, old(position))
    {
      toks := [];
      var t := NextValidToken();
      while t.kind != EOF
        invariant Valid()
        invariant Yielded(input, old(position)) == toks + [t] + Yielded(input, position) || t.kind == EOF
        invariant t.kind == EOF ==> Yielded(input, old(position)) == toks
        decreases |input| - position + (if t.kind != EOF then 1 else 0)
      {
        toks := toks + [t];
        ghost var before := position;
        t := NextValidToken();
        assert Yielded(input, before) == if t.kind == EOF then [] else [t] + Yielded(input, position);
      }
    }
  }

  /** What the generator still has to yield once `next_valid_token` has
      returned `st`: nothing after EOF, else that token and the rest. */
  ghost function Pending(s: string, st: Scanned): (ts: seq<Token>)
    requires st.next <= |s| && Lexeme(st.token)
    ensures Lexemes(ts)
  {
    if st.token.kind == EOF then [] else [st.token] + Yielded(s, st.next)
  }

  lemma {:induction false} PendingStep(s: string, pos: nat)
    requires pos <= |s|
    ensures Yielded(s, pos) == Pending(s, NextValid(s, pos))
  {
  }

  /** `compute_postfix(lexer)`: the stack machine over the tokens of the
      generator. It stops at the first error it raises. */
  method ComputePostfix(lexer: Lexer) returns (r: Result<int, CalcError<()>>)
    requires lexer.Valid()
    modifies lexer
    ensures lexer.Valid()
    ensures r == PostfixResult<()>(Yielded(lexer.input, old(lexer.position)), None, false)
  {
    var stack: seq<int> := [];
    ghost var input, all := lexer.input, Yielded(lexer.input, lexer.position);
    var t := lexer.NextValidToken();
    PendingStep(input, old(lexer.position));
    while t.kind != EOF
      invariant lexer.Valid() && lexer.input == input && Lexeme(t)
      invariant PostfixFrom<()>([], all, false) == PostfixFrom<()>(stack, Pending(input, Scanned(t, lexer.position)), false)
      decreases |input| - lexer.position + (if t.kind != EOF then 1 else 0)
    {
      PostfixCons<()>(stack, t, Yielded(input, lexer.position), false);
      var next := RunToken<()>(stack, t, false);
      if next.Fail? {
        return Fail(next.error);
      }
      stack := next.value;
      ghost var before := lexer.position;
      t := lexer.NextValidToken();
      PendingStep(input, before);
    }
    if |stack| != 1 {
      return Fail(TooManyValues);
    }
    return Ok(stack[0]);
  }

  /** `compute_prefix(lexer)`: reads one token; a NUM is its value, an
      operator evaluates its two operands by two recursive calls. */
  method ComputePrefix(lexer: Lexer) returns (r: Result<int, CalcError<()>>)
    requires lexer.Valid()
    modifies lexer
    ensures lexer.Valid() && old(lexer.position) <= lexer.position
    ensures match PrefixValue(Items(lexer.input, old(lexer.position)))
            case Fail(err) => r == Fail(err)
            case Ok((v, rest)) => r == Ok(v) && Items(lexer.input, lexer.position) == rest
    decreases |lexer.input| - lexer.position
  {
    ghost var items := Items(lexer.input, lexer.position);
    var t := lexer.NextValidToken();
    assert items[0] == Tok(t);
    if t.kind == NUM {
      return Ok(DecimalValue(t.text));
    }
    if IsOperator(t.kind) {
      assert items[1..] == Items(lexer.input, lexer.position);
      var a := ComputePrefix(lexer);
      if a.Fail? {
        return a;
      }
      var b := ComputePrefix(lexer);
      if b.Fail? {
        return b;
      }
      match Apply(OpOf(t.kind), a.value, b.value)
      case Fail(_) => return Fail(ZeroDivision);
      case Ok(v) => return Ok(v);
    }
    return Fail(BadToken(t.kind));
  }
}
