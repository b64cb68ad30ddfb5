/** 4_bottomUp/LL_LHPL.py: a recursive-descent attempt at the left-skewed
    parentheses of

      S ::= ( S | P        P ::= ( P ) | empty

    Because `S` takes every '(' for its own first alternative before it
    calls `P`, the `P` it reaches never sees a '(' and consumes nothing:
    `parse` accepts exactly the inputs made of '(' alone, and rejects words
    of the grammar such as '(()'. */
module LlLhpl {
  import opened Wrappers
  import opened Tokens
  import opened Streams
  import opened Lexer
  import opened Parens

  /** What `S()` leaves unread, from a stream of items. */
  function ParseS(items: seq<Item<char>>): (r: Result<seq<Item<char>>, SyntaxError>)
    requires WellFormed(items)
    ensures r.Ok? ==> WellFormed(r.value) && |r.value| <= |items|
    decreases |items|, 1
  {
    match items[0]
    case Bad(c) => Fail(LexError(c))
    case Tok(t) =>
      if t.kind == LPR then
        match ParseS(items[1..])
        case Fail(err) => Fail(err)
        case Ok(rest) => ParseP(rest)
      else
        ParseP(items)
  }

  /** What `P()` leaves unread. */
  function ParseP(items: seq<Item<char>>): (r: Result<seq<Item<char>>, SyntaxError>)
    requires WellFormed(items)
    ensures r.Ok? ==> WellFormed(r.value) && |r.value| <= |items|
    decreases |items|, 0
  {
    match items[0]
    case Bad(c) => Fail(LexError(c))
    case Tok(t) =>
      if t.kind == LPR then
        match ParseP(items[1..])
        case Fail(err) => Fail(err)
        case Ok(rest) => Consume(rest, RPR)
      else
        Ok(items)
  }

  /** What `parse` checks once `S` is done: the input must be over. */
  function AtEnd(items: seq<Item<char>>): (r: Result<(), SyntaxError>)
    requires WellFormed(items)
  {
    match items[0]
    case Bad(c) => Fail(LexError(c))
    case Tok(t) => if t.kind != EOF then Fail(Unexpected(t.kind)) else Ok(())
  }

  /** `parse()`: `S`, then the end of the input. */
  function Recognize(items: seq<Item<char>>): (r: Result<(), SyntaxError>)
    requires WellFormed(items)
  {
    match ParseS(items)
    case Fail(err) => Fail(err)
    case Ok(rest) => AtEnd(rest)
  }

  /** The stream once its leading '(' tokens are skipped. */
  function Opened(items: seq<Item<char>>): (r: seq<Item<char>>)
    requires WellFormed(items)
    ensures WellFormed(r) && |r| <= |items|
    ensures r[0].Tok? ==> r[0].token.kind != LPR
    decreases |items|
  {
    if items[0].Tok? && items[0].token.kind == LPR then Opened(items[1..]) else items
  }

  /** How many '(' tokens the stream starts with. */
  function OpenCount(items: seq<Item<char>>): nat
    requires WellFormed(items)
    decreases |items|
  {
    if items[0].Tok? && items[0].token.kind == LPR then 1 + OpenCount(items[1..]) else 0
  }

  /** The reference for `P`: `n` tokens ')' in a row must follow. */
  function Closing(items: seq<Item<char>>, n: nat): (r: Result<seq<Item<char>>, SyntaxError>)
    requires WellFormed(items)
    ensures r.Ok? ==> WellFormed(r.value) && |r.value| <= |items|
    decreases n
  {
    if n == 0 then Ok(items)
    else
      match items[0]
      case Bad(c) => Fail(LexError(c))
      case Tok(t) =>
        if t.kind == RPR then Closing(items[1..], n - 1) else Fail(Expected(RPR, t.kind))
  }

  /** `S` reads every leading '(' and then stops: the `P` it calls sees no
      '(' and consumes nothing. */
  lemma {:induction false} SSkipsOpens(items: seq<Item<char>>)
    requires WellFormed(items)
    ensures ParseS(items) ==
              if Opened(items)[0].Bad? then Fail(LexError(Opened(items)[0].error)) else Ok(Opened(items))
    decreases |items|
  {
    if items[0].Tok? && items[0].token.kind == LPR {
      SSkipsOpens(items[1..]);
    }
  }

  /** `parse` accepts a stream exactly when every token before EOF is '(';
      otherwise the first other token is unexpected. */
  lemma {:induction false} RecognizeOpens(items: seq<Item<char>>)
    requires WellFormed(items)
    ensures Recognize(items) == AtEnd(Opened(items))
  {
    SSkipsOpens(items);
  }

  /** `P` matches its leading '(' tokens with as many ')' tokens. */
  lemma {:induction false} PCloses(items: seq<Item<char>>)
    requires WellFormed(items)
    ensures ParseP(items) ==
              if Opened(items)[0].Bad? then Fail(LexError(Opened(items)[0].error))
              else Closing(Opened(items), OpenCount(items))
    decreases |items|
  {
    if items[0].Tok? && items[0].token.kind == LPR {
      PCloses(items[1..]);
      if !Opened(items)[0].Bad? {
        ClosingOneMore(Opened(items), OpenCount(items[1..]));
      }
    }
  }

  /** One more ')' after `n` of them. */
  lemma {:induction false} ClosingOneMore(items: seq<Item<char>>, n: nat)
    requires WellFormed(items)
    ensures Closing(items, n + 1) ==
              match Closing(items, n)
              case Fail(err) => Fail(err)
              case Ok(rest) => Consume(rest, RPR)
    decreases n
  {
    if n > 0 && items[0].Tok? && items[0].token.kind == RPR {
      ClosingOneMore(items[1..], n - 1);
    }
  }

  /** On the stream of a word, the skipped '(' are the word's leading run. */
  lemma {:induction false} OpenedWord(w: seq<Paren>)
    ensures Opened(WordItems(w)) == WordItems(w[LeadingOpens(w)..])
    ensures OpenCount(WordItems(w)) == LeadingOpens(w)
    decreases |w|
  {
    if w != [] && w[0] == Open {
      OpenedWord(w[1..]);
      OpenedWordStep(w);
    } else if w != [] {
      WordItemsCons(w);
    }
  }

  /** The step of `OpenedWord`: one more leading '('. */
  lemma {:induction false} OpenedWordStep(w: seq<Paren>)
    requires w != [] && w[0] == Open
    requires Opened(WordItems(w[1..])) == WordItems(w[1..][LeadingOpens(w[1..])..])
    requires OpenCount(WordItems(w[1..])) == LeadingOpens(w[1..])
    ensures Opened(WordItems(w)) == WordItems(w[LeadingOpens(w)..])
    ensures OpenCount(WordItems(w)) == LeadingOpens(w)
  {
    WordItemsCons(w);
    LeadingOpensCons(w);
    OpenedCons(WordItems(w), WordItems(w[1..]), Opened(WordItems(w[1..])), OpenCount(WordItems(w[1..])));
  }

  /** A leading '(' is skipped and counted. */
  lemma {:induction false} OpenedCons(items: seq<Item<char>>, tail: seq<Item<char>>, rest: seq<Item<char>>, m: nat)
    requires WellFormed(items) && WellFormed(tail) && items[1..] == tail
    requires items[0].Tok? && items[0].token.kind == LPR
    requires Opened(tail) == rest && OpenCount(tail) == m
    ensures Opened(items) == rest && OpenCount(items) == m + 1
  {
  }

  /** A leading '(' adds one to the leading run and leaves the rest after it. */
  lemma {:induction false} LeadingOpensCons(w: seq<Paren>)
    requires w != [] && w[0] == Open
    ensures LeadingOpens(w) == 1 + LeadingOpens(w[1..])
    ensures w[LeadingOpens(w)..] == w[1..][LeadingOpens(w[1..])..]
  {
    var m := LeadingOpens(w[1..]);
    assert w[1..][m..] == w[1 + m..];
  }

  /** The text of a word is accepted exactly when it holds no ')'; the
      first ')' is otherwise reported as an unexpected token. */
  lemma {:induction false} OnlyOpensAccepted(w: seq<Paren>)
    ensures Recognize(Items(ParenText(w), 0)) ==
              if Close in w then Fail(Unexpected(RPR)) else Ok(())
  {
    LexWord(w);
    RecognizeOpens(WordItems(w));
    OpenedWord(w);
    var n := LeadingOpens(w);
    if n < |w| {
      WordItemsCons(w[n..]);
    } else {
      assert w[n..] == [];
    }
  }

  /** Every accepted word is a word of the grammar, but not the converse:
      '(()' is left-skewed and rejected, as the source's own example says. */
  lemma {:induction false} AcceptedAreLeftSkewed(w: seq<Paren>)
    requires Recognize(Items(ParenText(w), 0)).Ok?
    ensures LeftSkewed(w)
  {
    OnlyOpensAccepted(w);
  }

  lemma {:induction false} LeftRecursionGap()
    ensures LeftSkewed([Open, Open, Close])
    ensures Recognize(Items("(()", 0)) == Fail(Unexpected(RPR))
  {
    var w := [Open, Open, Close];
    assert ParenText(w) == "(()" && Close in w by {
      assert ParenText(w) == "(()";
    }
    OnlyOpensAccepted(w);
    assert LeadingOpens(w) == 2;
  }

  /** The examples of LL_LHPL.py: '(' and '((' are valid; '()', '(()',
      '(())' and '(()))' fail with "Unexpected token TokenType.RPR". */
  lemma {:induction false} DoctestOpens()
    ensures Recognize(Items("(", 0)) == Ok(())
    ensures Recognize(Items("((", 0)) == Ok(())
  {
    var w1, w2 := [Open], [Open, Open];
    assert ParenText(w1) == "(" && ParenText(w2) == "((";
    OnlyOpensAccepted(w1);
    OnlyOpensAccepted(w2);
  }

  lemma {:induction false} DoctestPair()
    ensures Recognize(Items("()", 0)) == Fail(Unexpected(RPR))
  {
    var w := [Open, Close];
    assert ParenText(w) == "()" && Close in w by {
      assert ParenText(w) == "()";
    }
    OnlyOpensAccepted(w);
  }

  lemma {:induction false} DoctestNested()
    ensures Recognize(Items("(())", 0)) == Fail(Unexpected(RPR))
  {
    var w := [Open, Open, Close, Close];
    assert ParenText(w) == "(())" && Close in w by {
      assert ParenText(w) == "(())";
    }
    OnlyOpensAccepted(w);
  }

  lemma {:induction false} DoctestExtraClose()
    ensures Recognize(Items("(()))", 0)) == Fail(Unexpected(RPR))
  {
    var w := [Open, Open, Close, Close, Close];
    assert ParenText(w) == "(()))" && Close in w by {
      assert ParenText(w) == "(()))";
    }
    OnlyOpensAccepted(w);
  }

  /** `S()` alone on '(()())' raises nothing: it stops at the first ')'. */
  lemma {:induction false} DoctestS()
    ensures ParseS(Items("(()())", 0)).Ok?
  {
    var w := [Open, Open, Close, Open, Close, Close];
    assert ParenText(w) == "(()())";
    assert Items("(()())", 0) == WordItems(w) by {
      LexWord(w);
    }
    assert Opened(WordItems(w))[0].Tok? by {
      OpenedWord(w);
      WordItemsCons(w[LeadingOpens(w)..]);
    }
    SSkipsOpens(WordItems(w));
  }

  /** `n` tokens ')' close on a stream of ')' alone when there are enough
      of them, and otherwise meet EOF. */
  lemma {:induction false} ClosingCloses(u: seq<Paren>, n: nat)
    requires forall i :: 0 <= i < |u| ==> u[i] == Close
    ensures Closing(WordItems(u), n) ==
              if n <= |u| then Ok(WordItems(u[n..])) else Fail(Expected(RPR, EOF))
    decreases n
  {
    if n > 0 && u != [] {
      WordItemsCons(u);
      ClosingCloses(u[1..], n - 1);
      if n <= |u| {
        assert u[1..][n - 1..] == u[n..];
      }
    }
  }

  /** `P` on the stream of a word: its leading '(' must be followed by as
      many ')'. */
  lemma {:induction false} PWord(w: seq<Paren>)
    ensures ParseP(WordItems(w)) == Closing(WordItems(w[LeadingOpens(w)..]), LeadingOpens(w))
  {
    PCloses(WordItems(w));
    OpenedWord(w);
    var n := LeadingOpens(w);
    if n < |w| {
      WordItemsCons(w[n..]);
    } else {
      assert w[n..] == [];
    }
  }

  lemma {:induction false} PText(w: seq<Paren>)
    ensures ParseP(Items(ParenText(w), 0)) == Closing(WordItems(w[LeadingOpens(w)..]), LeadingOpens(w))
  {
    LexWord(w);
    PWord(w);
  }

  /** `P()` alone accepts '(())', and on '(()' raises "Expected
      TokenType.RPR, got TokenType.EOF". */
  lemma {:induction false} DoctestP(s: string)
    requires s == "(())"
    ensures ParseP(Items(s, 0)) == Ok([Tok(EofToken)])
  {
    var w: seq<Paren> := [Open, Open, Close, Close];
    PText(w);
    DoubleNestedWord();
    ClosingTwo();
  }

  lemma {:induction false} DoctestPUnclosed(s: string)
    requires s == "(()"
    ensures ParseP(Items(s, 0)) == Fail(Expected(RPR, EOF))
  {
    var w: seq<Paren> := [Open, Open, Close];
    PText(w);
    UnclosedWord();
    ClosingCloses([Close], 2);
  }

  lemma {:induction false} DoubleNestedWord()
    ensures var w := [Open, Open, Close, Close];
      ParenText(w) == "(())" && LeadingOpens(w) == 2 && w[2..] == [Close, Close]
  {
    var w := [Open, Open, Close, Close];
    assert ParenText(w) == "(())";
    assert LeadingOpens(w) == 2;
  }

  lemma {:induction false} UnclosedWord()
    ensures var w := [Open, Open, Close];
      ParenText(w) == "(()" && LeadingOpens(w) == 2 && w[2..] == [Close]
  {
    var w := [Open, Open, Close];
    assert ParenText(w) == "(()";
    assert LeadingOpens(w) == 2;
  }

  lemma {:induction false} ClosingTwo()
    ensures Closing(WordItems([Close, Close]), 2) == Ok([Tok(EofToken)])
  {
    var u: seq<Paren> := [Close, Close];
    ClosingCloses(u, 2);
    assert u[2..] == [];
    EmptyWordItems();
  }

  /** The parser object: the lexer and the current token. */
  class Parser {
    const lexer: Lexer
    var current: Item<char>

    ghost predicate Valid()
      reads this, lexer
    {
      lexer.Valid() &&
      (current.Tok? ==> Lexeme(current.token)) &&
      (current.Tok? && current.token.kind == EOF ==> current.token == EofToken && lexer.position == |lexer.input|)
    }

    /** The items the parser has yet to read: the current one and then what
        the lexer's `next_valid_token` returns from its position on. */
    ghost function Rest(): (r: seq<Item<char>>)
      reads this, lexer
      requires Valid()
      ensures WellFormed(r) && r[0] == current
    {
      if Final(current) then [current]
      else
        StreamCons(current.token, Items(lexer.input, lexer.position));
        [current] + Items(lexer.input, lexer.position)
    }

    /** `__init__`: keeps the lexer and reads the first token. */
    constructor (lexer: Lexer)
      requires lexer.Valid()
      modifies lexer
      ensures Valid() && this.lexer == lexer
      ensures Rest() == Items(lexer.input, old(lexer.position))
    {
      this.lexer := lexer;
      var r := lexer.NextValidToken();
      current := ToItem(r);
    }

    /** `consume(expected_type)`. */
    method Consume(k: Kind) returns (r: Result<(), SyntaxError>)
      requires Valid()
      modifies this, lexer
      ensures Valid()
      ensures Reached(Parens.Consume(old(Rest()), k), r, Rest())
    {
      if current.Bad? {
        return Fail(LexError(current.error));
      }
      if current.token.kind != k {
        return Fail(Expected(k, current.token.kind));
      }
      var n := lexer.NextValidToken();
      current := ToItem(n);
      return Ok(());
    }

    /** `S()`. */
    method S() returns (r: Result<(), SyntaxError>)
      requires Valid()
      modifies this, lexer
      ensures Valid() && Reached(ParseS(old(Rest())), r, Rest())
      decreases |Rest()|, 1
    {
      if current.Bad? {
        return Fail(LexError(current.error));
      }
      if current.token.kind == LPR {
        var _ := Consume(LPR);
        var inner := S();
        if inner.Fail? {
          return inner;
        }
      }
      r := P();
    }

    /** `P()`. */
    method P() returns (r: Result<(), SyntaxError>)
      requires Valid()
      modifies this, lexer
      ensures Valid() && Reached(ParseP(old(Rest())), r, Rest())
      decreases |Rest()|, 0
    {
      if current.Bad? {
        return Fail(LexError(current.error));
      }
      if current.token.kind == LPR {
        var _ := Consume(LPR);
        var inner := P();
        if inner.Fail? {
          return inner;
        }
        r := Consume(RPR);
      } else {
        r := Ok(());
      }
    }

    /** `parse()`. */
    method Parse() returns (r: Result<(), SyntaxError>)
      requires Valid()
      modifies this, lexer
      ensures Valid() && r == Recognize(old(Rest()))
    {
      r := S();
      if r.Fail? {
        return;
      }
      if current.Bad? {
        return Fail(LexError(current.error));
      }
      if current.token.kind != EOF {
        return Fail(Unexpected(current.token.kind));
      }
    }
  }

  /** `test_parser(input_str)`: the verdict it prints, "valid" or the
      message of the ValueError `parse` raises; a bad first character
      instead raises out of the parser's constructor, outside the `try`. */
  method TestParser(input: string) returns (r: Outcome<SyntaxError>)
    ensures r.Raised? <==> Items(input, 0)[0].Bad?
    ensures r.Raised? ==> r.c == Items(input, 0)[0].error
    ensures r.Reported? ==> r.verdict == Recognize(Items(input, 0))
  {
    var lexer := new Lexer(input);
    var parser := new Parser(lexer);
    if parser.current.Bad? {
      return Raised(parser.current.error);
    }
    var verdict := parser.Parse();
    r := Reported(verdict);
  }

  /** A character the lexer rejects escapes `test_parser` when it comes
      first ('x()'), and is the printed verdict when it comes later ('(x'). */
  lemma {:induction false} StrayCharacter()
    ensures Items("x()", 0)[0] == Bad('x')
    ensures Items("(x", 0)[0].Tok? && Recognize(Items("(x", 0)) == Fail(LexError('x'))
  {
  }
}
