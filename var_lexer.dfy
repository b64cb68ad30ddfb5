/** The lexer of 1_ArithLexing/Lexer1.py, which adds identifiers and the
    keywords `add` and `sub` to the arithmetic tokens, with its two
    evaluators. It knows no parentheses: `(`, `)` and every other character
    without a branch raise "Unexpected character". */
module VarLexer {
  import opened Wrappers
  import opened Tokens
  import opened Streams
  import ParsingLexer = Lexer
  import ArithLexer
  import opened Exp
  import opened Prefix
  import opened StackCalc

  /** ASCII letters. Python's `isalpha` also accepts other Unicode letters;
      those are not modelled. */
  predicate IsAlpha(c: char) { 'a' <= c <= 'z' || 'A' <= c <= 'Z' }

  predicate IsAlnum(c: char) { IsAlpha(c) || IsDigit(c) }

  /** `Token.key_word_token`: the keywords `add` and `sub` stand for the
      operators `+` and `-`; any other word is a variable. */
  function KeyWordToken(text: string): (t: Token)
    ensures t.kind == ADD || t.kind == SUB || t.kind == VAR
    ensures t.kind == VAR <==> text != "add" && text != "sub"
    ensures t.kind == VAR ==> t.text == text
    ensures t.kind != VAR ==> t.text == Symbol(OpOf(t.kind)) && |t.text| == 1
  {
    if text == "add" then Token("+", ADD)
    else if text == "sub" then Token("-", SUB)
    else Token(text, VAR)
  }

  /** The doctests of `key_word_token`. */
  lemma {:induction false} KeyWordExamples()
    ensures KeyWordToken("add").text == "+"
    ensures KeyWordToken("sub").text == "-"
    ensures KeyWordToken("x").text == "x"
  {
  }

  /** What `getToken` raises: ValueError "Unexpected character", or the
      NameError of the identifier branch as the source writes it. */
  datatype LexError = UnexpectedCharacter(c: char) | NameError

  /** The outcome of one call: the token or the error, and the position
      afterwards (the source moves it before it raises). */
  datatype Step = Step(result: Result<Token, LexError>, next: nat)

  /** End of the maximal run of letters and digits that starts at `i`. */
  function AlnumRunEnd(s: string, i: nat): (j: nat)
    requires i <= |s|
    ensures i <= j <= |s|
    ensures forall k :: i <= k < j ==> IsAlnum(s[k])
    ensures j == |s| || !IsAlnum(s[j])
    decreases |s| - i
  {
    if i < |s| && IsAlnum(s[i]) then AlnumRunEnd(s, i + 1) else i
  }

  /** One call of `getToken` from position `pos` of `s`, with the
      identifier branch returning `key_word_token` of the word it read. */
  function Scan(s: string, pos: nat): (r: Step)
    requires pos <= |s|
    // At the end: EOF with empty text, position unchanged.
    ensures pos == |s| <==> r.result == Ok(EofToken)
    ensures pos == |s| ==> r.next == pos
    // Otherwise the position moves forward, and never past the end.
    ensures pos < |s| ==> pos < r.next <= |s|
    ensures r.result.Ok? ==> Lexeme(r.result.value)
    // A digit starts a NUM token: the maximal run of digits.
    ensures pos < |s| && IsDigit(s[pos]) ==>
              r.result == Ok(Token(s[pos..r.next], NUM)) && (r.next == |s| || !IsDigit(s[r.next]))
    // A letter starts a word: the maximal run of letters and digits.
    ensures pos < |s| && IsAlpha(s[pos]) ==>
              r.result == Ok(KeyWordToken(s[pos..r.next])) && (r.next == |s| || !IsAlnum(s[r.next]))
    // Any other character is a one-character token or an error.
    ensures pos < |s| && !IsAlnum(s[pos]) ==>
              r.next == pos + 1 &&
              r.result == if ArithLexer.OperatorKind(s[pos]).Some? then Ok(Token([s[pos]], ArithLexer.OperatorKind(s[pos]).value))
                          else if s[pos] == ' ' then Ok(Token(" ", WSP))
                          else if s[pos] == '\n' then Ok(Token("\n", NLN))
                          else Fail(UnexpectedCharacter(s[pos]))
    ensures r.result.Fail? ==> r.result.error.UnexpectedCharacter?
  {
    if pos >= |s| then Step(Ok(EofToken), pos)
    else if IsDigit(s[pos]) then
      var j := ParsingLexer.DigitRunEnd(s, pos + 1);
      assert s[pos..j] == [s[pos]] + s[pos + 1..j];
      Step(Ok(Token(s[pos..j], NUM)), j)
    else if IsAlpha(s[pos]) then
      var j := AlnumRunEnd(s, pos + 1);
      Step(Ok(KeyWordToken(s[pos..j])), j)
    else
      match ArithLexer.OperatorKind(s[pos])
      case Some(k) => Step(Ok(Token([s[pos]], k)), pos + 1)
      case None =>
        if s[pos] == ' ' then Step(Ok(Token(" ", WSP)), pos + 1)
        else if s[pos] == '\n' then Step(Ok(Token("\n", NLN)), pos + 1)
        else Step(Fail(UnexpectedCharacter(s[pos])), pos + 1)
  }

  /** `getToken` as the source writes it: the identifier branch reads the
      word and then refers to `tokText`, a name defined nowhere, so it
      raises NameError; every other branch is `Scan`'s. */
  function ScanAsWritten(s: string, pos: nat): Step
    requires pos <= |s|
  {
    var st := Scan(s, pos);
    if pos < |s| && IsAlpha(s[pos]) then Step(Fail(NameError), st.next) else st
  }

  /** The two readings differ exactly on a letter: there the source raises
      NameError where a token was evidently intended. */
  lemma {:induction false} AsWrittenFailsOnLetters(s: string, pos: nat)
    requires pos <= |s|
    ensures var w, c := ScanAsWritten(s, pos), Scan(s, pos);
            w.next == c.next &&
            (pos < |s| && IsAlpha(s[pos]) <==> w.result == Fail(NameError)) &&
            (w.result != Fail(NameError) ==> w == c) &&
            (pos < |s| && IsAlpha(s[pos]) ==> c.result.Ok? && c.result.value.kind in {ADD, SUB, VAR})
  {
  }

  /** The input "add" shows it: the source raises NameError, while the
      evident intent is the keyword token `+`. */
  lemma {:induction false} AddKeywordExample()
    ensures ScanAsWritten("add", 0) == Step(Fail(NameError), 3)
    ensures Scan("add", 0) == Step(Ok(Token("+", ADD)), 3)
  {
    var s := "add";
    assert AlnumRunEnd(s, 3) == 3;
    assert AlnumRunEnd(s, 1) == 3;
    assert s[0..3] == "add";
  }

  /** One call of `next_valid_token`: `getToken` repeated while it returns a
      blank. */
  function NextValid(s: string, pos: nat): (r: Step)
    requires pos <= |s|
    ensures pos <= r.next <= |s|
    ensures r.result.Ok? ==> !IsBlank(r.result.value.kind) && Lexeme(r.result.value)
    ensures r.result.Ok? && r.result.value.kind == EOF ==> r.result.value == EofToken && r.next == |s|
    ensures !(r.result.Ok? && r.result.value.kind == EOF) ==> pos < r.next
    decreases |s| - pos
  {
    var st := Scan(s, pos);
    if st.result.Ok? && IsBlank(st.result.value.kind) then NextValid(s, st.next) else st
  }

  /** What successive calls of `next_valid_token` return from `pos` on,
      through the first EOF token or the first error. */
  function Items(s: string, pos: nat): (r: seq<Item<LexError>>)
    requires pos <= |s|
    ensures WellFormed(r)
    decreases |s| - pos
  {
    var st := NextValid(s, pos);
    match st.result
    case Fail(e) => [Bad(e)]
    case Ok(t) =>
      if t.kind == EOF then [Tok(t)]
      else
        var tail := Items(s, st.next);
        StreamCons(t, tail);
        [Tok(t)] + tail
  }

  /** What the generator `tokens()` yields from `pos` (it calls `getToken`
      and drops blanks), and the error it raises after them, if any. */
  function Yielded(s: string, pos: nat): (r: (seq<Token>, Option<LexError>))
    requires pos <= |s|
    ensures forall i :: 0 <= i < |r.0| ==> Lexeme(r.0[i]) && r.0[i].kind != EOF && !IsBlank(r.0[i].kind)
    decreases |s| - pos
  {
    var st := Scan(s, pos);
    match st.result
    case Fail(e) => ([], Some(e))
    case Ok(t) =>
      if t.kind == EOF then ([], None)
      else
        var rest := Yielded(s, st.next);
        (ParsingLexer.Kept(t) + rest.0, rest.1)
  }

  /** `Yielded` once `getToken` has returned `st`. */
  function After(s: string, st: Step): (r: (seq<Token>, Option<LexError>))
    requires st.next <= |s| && (st.result.Ok? ==> Lexeme(st.result.value))
    ensures Lexemes(r.0)
  {
    match st.result
    case Fail(e) => ([], Some(e))
    case Ok(t) =>
      if t.kind == EOF then ([], None)
      else
        var rest := Yielded(s, st.next);
        (ParsingLexer.Kept(t) + rest.0, rest.1)
  }

  lemma {:induction false} YieldedUnfold(s: string, pos: nat)
    requires pos <= |s|
    ensures After(s, Scan(s, pos)) == Yielded(s, pos)
  {
  }

  /** One yielded token moves from what is still to come to `toks`,
      unless it is blank. */
  lemma {:induction false} AfterToken(s: string, st: Step, toks: seq<Token>)
    requires st.next <= |s| && st.result.Ok? && Lexeme(st.result.value) && st.result.value.kind != EOF
    ensures var a, y, t := After(s, st), Yielded(s, st.next), st.result.value;
            var kept := if IsBlank(t.kind) then toks else toks + [t];
            (toks + a.0, a.1) == (kept + y.0, y.1)
  {
    var y, t := Yielded(s, st.next), st.result.value;
    assert toks + (ParsingLexer.Kept(t) + y.0) == (toks + ParsingLexer.Kept(t)) + y.0;
    assert toks + ParsingLexer.Kept(t) == if IsBlank(t.kind) then toks else toks + [t];
  }

  /** The item that ends a stream, given how the generator stopped. */
  function Ending(err: Option<LexError>): Item<LexError>
  {
    match err
    case None => Tok(EofToken)
    case Some(e) => Bad(e)
  }

  /** A blank `getToken` returns is skipped by `next_valid_token`. */
  lemma {:induction false} ItemsSkipBlank(s: string, pos: nat)
    requires pos <= |s| && Scan(s, pos).result.Ok? && IsBlank(Scan(s, pos).result.value.kind)
    ensures Items(s, pos) == Items(s, Scan(s, pos).next)
  {
    assert NextValid(s, pos) == NextValid(s, Scan(s, pos).next);
  }

  /** Any other token but EOF is the next item. */
  lemma {:induction false} ItemsTakeToken(s: string, pos: nat)
    requires pos <= |s| && Scan(s, pos).result.Ok?
    requires !IsBlank(Scan(s, pos).result.value.kind) && Scan(s, pos).result.value.kind != EOF
    ensures Items(s, pos) == [Tok(Scan(s, pos).result.value)] + Items(s, Scan(s, pos).next)
  {
    assert NextValid(s, pos) == Scan(s, pos);
  }

  /** What the generator yields from `pos`, once `getToken` has returned
      a token other than EOF. */
  lemma {:induction false} YieldedKept(s: string, pos: nat)
    requires pos <= |s| && Scan(s, pos).result.Ok? && Scan(s, pos).result.value.kind != EOF
    ensures var st := Scan(s, pos);
            Yielded(s, pos) == (ParsingLexer.Kept(st.result.value) + Yielded(s, st.next).0, Yielded(s, st.next).1)
  {
  }

  /** The step of `ItemsAgreeWithTokens` for a token other than EOF. */
  lemma {:induction false} ItemsAgreeStep(s: string, pos: nat)
    requires pos <= |s| && Scan(s, pos).result.Ok? && Scan(s, pos).result.value.kind != EOF
    requires var next := Scan(s, pos).next;
             Items(s, next) == ToItems(Yielded(s, next).0) + [Ending(Yielded(s, next).1)]
    ensures Items(s, pos) == ToItems(Yielded(s, pos).0) + [Ending(Yielded(s, pos).1)]
  {
    var st := Scan(s, pos);
    var t, y := st.result.value, Yielded(s, st.next);
    var tail := [Ending(y.1)];
    YieldedKept(s, pos);
    if IsBlank(t.kind) {
      ItemsSkipBlank(s, pos);
      assert ParsingLexer.Kept(t) + y.0 == y.0;
    } else {
      ItemsTakeToken(s, pos);
      ToItemsCons<LexError>(t, y.0, tail);
    }
  }

  /** `next_valid_token` called until EOF sees exactly the tokens the
      generator yields, in order, then the same end: EOF or the same error. */
  lemma {:induction false} ItemsAgreeWithTokens(s: string, pos: nat)
    requires pos <= |s|
    ensures Items(s, pos) == ToItems(Yielded(s, pos).0) + [Ending(Yielded(s, pos).1)]
    decreases |s| - pos
  {
    var st := Scan(s, pos);
    if st.result.Ok? && st.result.value.kind != EOF {
      ItemsAgreeWithTokens(s, st.next);
      ItemsAgreeStep(s, pos);
    }
  }

  /** On a digit, an operator or a blank this lexer and the lexer of
      3_ParsingArithExp/Lexer.py return the same token. */
  lemma {:induction false} ScanAgrees(s: string, pos: nat)
    requires pos < |s| && ArithLexer.Known(s[pos])
    ensures var p := ParsingLexer.Scan(s, pos);
            p.result.Ok? && Scan(s, pos) == Step(Ok(p.result.value), p.next)
  {
  }

  /** On text made of digits, the four operators and blanks, this lexer
      yields what the lexer of 3_ParsingArithExp/Lexer.py yields, and
      neither raises. */
  lemma {:induction false} YieldedAgrees(s: string, pos: nat)
    requires pos <= |s| && ArithLexer.Plain(s)
    ensures ParsingLexer.Yielded(s, pos).1 == None
    ensures Yielded(s, pos) == (ParsingLexer.Yielded(s, pos).0, None)
    decreases |s| - pos
  {
    if pos < |s| {
      ScanAgrees(s, pos);
      var st := Scan(s, pos);
      YieldedAgrees(s, st.next);
      ParsingLexer.YieldedKept(s, pos);
    }
  }

  /** `compute_postfix` on what `print_postfix` writes is `evaluate`. */
  lemma {:induction false} PostfixOfPrinted(e: Exp)
    requires NonNegative(e)
    ensures var y := Yielded(PrintPostfix(e), 0);
            PostfixResult<LexError>(y.0, y.1, true) ==
              if Eval(e).Ok? then Ok(Eval(e).value) else Fail(ZeroDivision)
  {
    ArithLexer.PrintedIsPlain(e);
    YieldedAgrees(PrintPostfix(e), 0);
    LexPrintPostfix(e);
    PostfixResultIsEval<LexError>(e, true);
  }

  /** This lexer's stream for what `print_prefix` writes: the tree's tokens
      in prefix order, then EOF. */
  lemma {:induction false} ItemsOfPrinted(e: Exp)
    requires NonNegative(e)
    ensures Items(PrintPrefix(e), 0) == ToItems(PrefixTokens(e)) + [Tok(EofToken)]
  {
    var s := PrintPrefix(e);
    ArithLexer.PrintedIsPlain(e);
    YieldedAgrees(s, 0);
    LexPrintPrefix(e);
    ItemsAgreeWithTokens(s, 0);
  }

  /** `compute_prefix` on what `print_prefix` writes is `evaluate`, and it
      reads the whole input. */
  lemma {:induction false} PrefixOfPrinted(e: Exp)
    requires NonNegative(e)
    ensures PrefixValue(Items(PrintPrefix(e), 0)) ==
              if Eval(e).Ok? then Ok((Eval(e).value, [Tok(EofToken)])) else Fail(ZeroDivision)
  {
    ItemsOfPrinted(e);
    ParsePrefixTokens<LexError>(e, [Tok(EofToken)]);
    PrefixValueIsEvalOfParse(Items(PrintPrefix(e), 0));
  }

  /** The first doctest of `compute_postfix`: "3 4 + 2 * 7 /" gives 2. */
  lemma {:induction false} PostfixExampleOne()
    ensures var y := Yielded("3 4 + 2 * 7 /", 0); PostfixResult<LexError>(y.0, y.1, true) == Ok(2)
  {
    var one := PostfixDoctestOne();
    PostfixOfPrinted(one);
  }

  /** The second doctest: "4 2 5 * + 1 3 2 * + /" gives 2. */
  lemma {:induction false} PostfixExampleTwo()
    ensures var y := Yielded("4 2 5 * + 1 3 2 * + /", 0); PostfixResult<LexError>(y.0, y.1, true) == Ok(2)
  {
    var two := PostfixDoctestTwo();
    PostfixOfPrinted(two);
  }

  /** The doctest of `compute_prefix`: "+ 3 * 4 2" gives 11 ... */
  lemma {:induction false} PrefixExampleEleven()
    ensures PrefixValue(Items("+ 3 * 4 2", 0)) == Ok((11, [Tok(EofToken)]))
  {
    var e := Bin(Add, Num(3), Bin(Mul, Num(4), Num(2)));
    assert PrintPrefix(e) == "+ 3 * 4 2";
    PrefixOfPrinted(e);
  }

  /** ... and "+ * 3 4 2" gives 14. */
  lemma {:induction false} PrefixExampleFourteen()
    ensures PrefixValue(Items("+ * 3 4 2", 0)) == Ok((14, [Tok(EofToken)]))
  {
    var e := Bin(Add, Bin(Mul, Num(3), Num(4)), Num(2));
    PrintedFourteen();
    PrefixOfPrinted(e);
  }

  /** A variable reaches the stack machine as a VAR token, which it
      rejects: "x 1 +" raises "Unexpected token type". */
  lemma {:induction false} PostfixRejectsVariable()
    ensures var y := Yielded("x 1 +", 0); PostfixResult<LexError>(y.0, y.1, true) == Fail(BadToken(VAR))
  {
    var s := "x 1 +";
    assert AlnumRunEnd(s, 1) == 1 && s[0..1] == "x";
    assert Scan(s, 0) == Step(Ok(Token("x", VAR)), 1);
    assert Yielded(s, 0).0[0] == Token("x", VAR);
    var y := Yielded(s, 0).0;
    PostfixCons<LexError>([], y[0], y[1..], true);
    assert y == [y[0]] + y[1..];
  }

  class Lexer {
    const input: string
    var position: nat

    ghost predicate Valid()
      reads this
    {
      position <= |input|
    }

    constructor (s: string)
      ensures Valid() && input == s && position == 0
    {
      input := s;
      position := 0;
    }

    /** `getToken`, with the identifier branch returning the keyword token
        of the word it read. The position moves past the offending
        character before "Unexpected character" is raised. */
    method GetToken() returns (r: Result<Token, LexError>)
      requires Valid()
      modifies this
      ensures Valid()
      ensures Step(r, position) == Scan(input, old(position))
    {
      if position >= |input| {
        return Ok(EofToken);
      }
      var start := position;
      var c := input[position];
      position := position + 1;
      if IsDigit(c) {
        r := ReadNumber(start);
        return;
      }
      if IsAlpha(c) {
        r := ReadWord(start);
        return;
      }
      match ArithLexer.OperatorKind(c)
      case Some(k) =>
        return Ok(Token([c], k));
      case None =>
        if c == ' ' {
          return Ok(Token(" ", WSP));
        } else if c == '\n' {
          return Ok(Token("\n", NLN));
        }
        return Fail(UnexpectedCharacter(c));
    }

    /** The digit branch of `getToken`: the digit at `start` has been read;
        the loop reads the rest of the run. */
    method ReadNumber(start: nat) returns (r: Result<Token, LexError>)
      requires start < |input| && IsDigit(input[start]) && position == start + 1
      modifies this
      ensures Valid()
      ensures Step(r, position) == Scan(input, start)
    {
      var text := [input[start]];
      while position < |input| && IsDigit(input[position])
        invariant start < position <= |input|
        invariant text == input[start..position]
        invariant ParsingLexer.DigitRunEnd(input, position) == ParsingLexer.DigitRunEnd(input, start + 1)
        decreases |input| - position
      {
        text := text + [input[position]];
        position := position + 1;
      }
      return Ok(Token(text, NUM));
    }

    /** The letter branch of `getToken`: the letter at `start` has been
        read; the loop reads the rest of the word. */
    method ReadWord(start: nat) returns (r: Result<Token, LexError>)
      requires start < |input| && IsAlpha(input[start]) && position == start + 1
      modifies this
      ensures Valid()
      ensures Step(r, position) == Scan(input, start)
    {
      var text := [input[start]];
      while position < |input| && IsAlnum(input[position])
        invariant start < position <= |input|
        invariant text == input[start..position]
        invariant AlnumRunEnd(input, position) == AlnumRunEnd(input, start + 1)
        decreases |input| - position
      {
        text := text + [input[position]];
        position := position + 1;
      }
      return Ok(KeyWordToken(text));
    }

    /** `next_valid_token`, recursive like the source. */
    method NextValidToken() returns (r: Result<Token, LexError>)
      requires Valid()
      modifies this
      ensures Valid()
      ensures Step(r, position) == NextValid(input, old(position))
      decreases |input| - position
    {
      r := GetToken();
      if r.Ok? && IsBlank(r.value.kind) {
        r := NextValidToken();
      }
    }

    /** The generator `tokens()`, run to completion: the tokens it yields
        and the error it raises, if any. */
    method Tokens() returns (toks: seq<Token>, err: Option<LexError>)
      requires Valid()
      modifies this
      ensures Valid()
      ensures (toks, err) == Yielded(input, old(position))
    {
      toks := [];
      ghost var start := position;
      var r := GetToken();
      assert toks + After(input, Step(r, position)).0 == Yielded(input, start).0;
      while r.Ok? && r.value.kind != EOF
        invariant Valid()
        invariant r.Ok? ==> Lexeme(r.value)
        invariant Yielded(input, start) ==
                    var rest := After(input, Step(r, position)); (toks + rest.0, rest.1)
        decreases |input| - position + (if r.Ok? && r.value.kind != EOF then 1 else 0)
      {
        AfterToken(input, Step(r, position), toks);
        YieldedUnfold(input, position);
        if !IsBlank(r.value.kind) {
          toks := toks + [r.value];
        }
        r := GetToken();
      }
      assert toks + [] == toks;
      err := if r.Fail? then Some(r.error) else None;
    }
  }

  /** The loop of `compute_postfix` from `stack`, once `getToken` has
      returned `st`, ends as the whole run over `all` does. */
  ghost predicate Resumes(s: string, all: (seq<Token>, Option<LexError>), stack: seq<int>, st: Step)
    requires st.next <= |s| && (st.result.Ok? ==> Lexeme(st.result.value)) && Lexemes(all.0)
  {
    var rest := After(s, st);
    rest.1 == all.1 && PostfixFrom<LexError>([], all.0, true) == PostfixFrom<LexError>(stack, rest.0, true)
  }

  /** Before the first token, the whole stream is still to come. */
  lemma {:induction false} ResumesStart(s: string, pos: nat)
    requires pos <= |s|
    ensures Lexemes(Yielded(s, pos).0) && Resumes(s, Yielded(s, pos), [], Scan(s, pos))
  {
    YieldedUnfold(s, pos);
  }

  /** A token the loop refuses is the outcome of the whole run. */
  lemma {:induction false} ResumesFail(s: string, all: (seq<Token>, Option<LexError>), stack: seq<int>, t: Token, pos: nat)
    requires pos <= |s| && Lexeme(t) && t.kind != EOF && !IsBlank(t.kind) && Lexemes(all.0)
    requires Resumes(s, all, stack, Step(Ok(t), pos))
    requires PostfixStep<LexError>(stack, t, true).Fail?
    ensures PostfixResult<LexError>(all.0, all.1, true) == Fail(PostfixStep<LexError>(stack, t, true).error)
  {
    PostfixCons<LexError>(stack, t, Yielded(s, pos).0, true);
  }

  /** A blank token leaves the stack alone and any other token the loop
      accepts runs on it; either way the rest of the stream is still to
      come after the next read. */
  lemma {:induction false} ResumesNext(s: string, all: (seq<Token>, Option<LexError>), stack: seq<int>, t: Token, pos: nat)
    requires pos <= |s| && Lexeme(t) && t.kind != EOF && Lexemes(all.0)
    requires Resumes(s, all, stack, Step(Ok(t), pos))
    requires !IsBlank(t.kind) ==> PostfixStep<LexError>(stack, t, true).Ok?
    ensures var next := if IsBlank(t.kind) then stack else PostfixStep<LexError>(stack, t, true).value;
            Resumes(s, all, next, Scan(s, pos))
  {
    var rest := Yielded(s, pos).0;
    YieldedUnfold(s, pos);
    if IsBlank(t.kind) {
      assert [] + rest == rest;
    } else {
      PostfixCons<LexError>(stack, t, rest, true);
    }
  }

  /** At EOF or at the lexer's error, the stack is all the run left. */
  lemma {:induction false} ResumesEnd(s: string, all: (seq<Token>, Option<LexError>), stack: seq<int>, st: Step)
    requires st.next <= |s| && (st.result.Ok? ==> Lexeme(st.result.value) && st.result.value.kind == EOF) && Lexemes(all.0)
    requires Resumes(s, all, stack, st)
    ensures PostfixResult<LexError>(all.0, all.1, true) ==
            if st.result.Fail? then Fail(Lexing(st.result.error))
            else if |stack| != 1 then Fail(TooManyValues)
            else Ok(stack[0])
  {
  }

  /** `compute_postfix(lexer)`: the stack machine over the generator's
      tokens; a token other than NUM or an operator raises, and so does the
      lexer, after the tokens before its error have been run. */
  method ComputePostfix(lexer: Lexer) returns (r: Result<int, CalcError<LexError>>)
    requires lexer.Valid()
    modifies lexer
    ensures lexer.Valid()
    ensures var y := Yielded(lexer.input, old(lexer.position));
            r == PostfixResult<LexError>(y.0, y.1, true)
  {
    var stack: seq<int> := [];
    ghost var input, start := lexer.input, lexer.position;
    ghost var all := Yielded(input, start);
    var t := lexer.GetToken();
    ResumesStart(input, start);
    while t.Ok? && t.value.kind != EOF
      invariant lexer.Valid() && lexer.input == input
      invariant t.Ok? ==> Lexeme(t.value)
      invariant Resumes(input, all, stack, Step(t, lexer.position))
      decreases |input| - lexer.position + (if t.Ok? && t.value.kind != EOF then 1 else 0)
    {
      var tok := t.value;
      ghost var before := lexer.position;
      if !IsBlank(tok.kind) {
        var next := RunToken<LexError>(stack, tok, true);
        if next.Fail? {
          ResumesFail(input, all, stack, tok, before);
          return Fail(next.error);
        }
        ResumesNext(input, all, stack, tok, before);
        stack := next.value;
      } else {
        ResumesNext(input, all, stack, tok, before);
      }
      t := lexer.GetToken();
    }
    ResumesEnd(input, all, stack, Step(t, lexer.position));
    if t.Fail? {
      return Fail(Lexing(t.error));
    }
    if |stack| != 1 {
      return Fail(TooManyValues);
    }
    return Ok(stack[0]);
  }

  /** `compute_prefix(lexer)`: reads one token; a NUM is its value, an
      operator evaluates its two operands by two recursive calls, anything
      else (a variable, EOF) raises. */
  method ComputePrefix(lexer: Lexer) returns (r: Result<int, CalcError<LexError>>)
    requires lexer.Valid()
    modifies lexer
    ensures lexer.Valid() && old(lexer.position) <= lexer.position
    ensures var p := PrefixValue(Items(lexer.input, old(lexer.position)));
            if p.Ok? then r == Ok(p.value.0) && Items(lexer.input, lexer.position) == p.value.1
            else r == Fail(p.error)
    decreases |lexer.input| - lexer.position
  {
    ghost var items := Items(lexer.input, lexer.position);
    var t := lexer.NextValidToken();
    if t.Fail? {
      return Fail(Lexing(t.error));
    }
    var tok := t.value;
    assert items[0] == Tok(tok);
    if tok.kind == NUM {
      return Ok(DecimalValue(tok.text));
    }
    if IsOperator(tok.kind) {
      assert items[1..] == Items(lexer.input, lexer.position);
      var a := ComputePrefix(lexer);
      if a.Fail? {
        return a;
      }
      var b := ComputePrefix(lexer);
      if b.Fail? {
        return b;
      }
      match Apply(OpOf(tok.kind), a.value, b.value)
      case Fail(_) => return Fail(ZeroDivision);
      case Ok(v) => return Ok(v);
    }
    return Fail(BadToken(tok.kind));
  }
}
