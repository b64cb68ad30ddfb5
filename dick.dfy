/** 4_bottomUp/dickLang.py and 4_bottomUp/Dick.py, which hold the same
    parser: recursive descent for the Dyck language of balanced
    parentheses,

      S ::= ( S ) S | empty

    `parse` runs `S` and then requires EOF. The parser is specified by
    functions over the stream it reads, and these are proved to agree with
    a depth counter: the input is accepted exactly when its parentheses
    are balanced, an unmatched ')' is reported as "Unexpected token RPR"
    and an unclosed '(' as "Expected RPR, got EOF". */
module Dick {
  import opened Wrappers
  import opened Tokens
  import opened Streams
  import opened Lexer
  import opened Parens

  /** What `S()` leaves unread, from a stream of items. */
  function ParseS(items: seq<Item<char>>): (r: Result<seq<Item<char>>, SyntaxError>)
    requires WellFormed(items)
    ensures r.Ok? ==> WellFormed(r.value) && |r.value| <= |items|
    decreases |items|
  {
    match items[0]
    case Bad(c) => Fail(LexError(c))
    case Tok(t) =>
      if t.kind == LPR then
        match ParseS(items[1..])
        case Fail(err) => Fail(err)
        case Ok(inner) =>
          match Consume(inner, RPR)
          case Fail(err) => Fail(err)
          case Ok(after) => ParseS(after)
      else
        Ok(items)
  }

  /** What `parse` checks once `S` is done: the input must be over. */
  function AtEnd(items: seq<Item<char>>): (r: Result<(), SyntaxError>)
    requires WellFormed(items)
  {
    match items[0]
    case Bad(c) => Fail(LexError(c))
    case Tok(t) => if t.kind != EOF then Fail(Unexpected(t.kind)) else Ok(())
  }

  /** `parse()`: `S`, then the end of the input. */
  function Recognize(items: seq<Item<char>>): (r: Result<(), SyntaxError>)
    requires WellFormed(items)
  {
    match ParseS(items)
    case Fail(err) => Fail(err)
    case Ok(rest) => AtEnd(rest)
  }

  /** The reference: the stream read left to right with a depth counter
      `d`, the number of '(' still open. */
  function Matching(items: seq<Item<char>>, d: nat): (r: Result<(), SyntaxError>)
    requires WellFormed(items)
    decreases |items|
  {
    match items[0]
    case Bad(c) => Fail(LexError(c))
    case Tok(t) =>
      if t.kind == EOF then
        if d == 0 then Ok(()) else Fail(Expected(RPR, EOF))
      else if t.kind == LPR then Matching(items[1..], d + 1)
      else if t.kind == RPR && d > 0 then Matching(items[1..], d - 1)
      else if d == 0 then Fail(Unexpected(t.kind))
      else Fail(Expected(RPR, t.kind))
  }

  /** `S` run with `d` calls of `S` waiting above it, each of which will
      consume ')' and run `S` again, and `parse` waiting at the top. */
  function Pending(items: seq<Item<char>>, d: nat): Result<(), SyntaxError>
    requires WellFormed(items)
    decreases |items|, 1
  {
    match ParseS(items)
    case Fail(err) => Fail(err)
    case Ok(rest) => Unwind(rest, d)
  }

  /** What the `d` waiting calls and `parse` do once `S` has returned. */
  function Unwind(items: seq<Item<char>>, d: nat): Result<(), SyntaxError>
    requires WellFormed(items)
    decreases |items|, 0
  {
    if d == 0 then AtEnd(items)
    else
      match Consume(items, RPR)
      case Fail(err) => Fail(err)
      case Ok(rest) => Pending(rest, d - 1)
  }

  /** `S` consumes nothing unless the current token is '('. */
  lemma {:induction false} SStops(items: seq<Item<char>>)
    requires WellFormed(items) && items[0].Tok? && items[0].token.kind != LPR
    ensures ParseS(items) == Ok(items)
  {
  }

  /** A '(' in front of `S` adds one waiting call: its `S`, the ')' and the
      second `S` run in the same order either way. */
  lemma {:induction false} PendingOpen(items: seq<Item<char>>, d: nat)
    requires WellFormed(items) && items[0].Tok? && items[0].token.kind == LPR
    ensures Pending(items, d) == Pending(items[1..], d + 1)
  {
    match ParseS(items[1..])
    case Fail(_) =>
    case Ok(inner) =>
      match Consume(inner, RPR)
      case Fail(_) =>
      case Ok(after) =>
        assert ParseS(items) == ParseS(after);
        assert Unwind(inner, d + 1) == Pending(after, d);
  }

  lemma {:induction false} PendingIsMatching(items: seq<Item<char>>, d: nat)
    requires WellFormed(items)
    ensures Pending(items, d) == Matching(items, d)
    decreases |items|
  {
    match items[0]
    case Bad(_) =>
    case Tok(t) =>
      if t.kind == LPR {
        PendingOpen(items, d);
        PendingIsMatching(items[1..], d + 1);
      } else {
        SStops(items);
        if t.kind == RPR && d > 0 {
          PendingIsMatching(items[1..], d - 1);
        }
      }
  }

  /** `parse` agrees with the depth counter on every stream, errors
      included. */
  lemma {:induction false} RecognizeIsMatching(items: seq<Item<char>>)
    requires WellFormed(items)
    ensures Recognize(items) == Matching(items, 0)
  {
    PendingIsMatching(items, 0);
  }

  /** The depth counter on the stream of a word. */
  lemma {:induction false} MatchingWord(w: seq<Paren>, d: nat)
    ensures Matching(WordItems(w), d) ==
              if !NeverBelow(w, d) then Fail(Unexpected(RPR))
              else if d + Depth(w) == 0 then Ok(())
              else Fail(Expected(RPR, EOF))
  {
    StaysIsNeverBelow(w, d);
    MatchingRun(w, d);
  }

  /** `MatchingWord`, with the depth checked one parenthesis at a time. */
  lemma {:induction false} MatchingRun(w: seq<Paren>, d: nat)
    ensures Matching(WordItems(w), d) ==
              if !Stays(w, d) then Fail(Unexpected(RPR))
              else if d + Depth(w) == 0 then Ok(())
              else Fail(Expected(RPR, EOF))
    decreases |w|
  {
    if w == [] {
      MatchingEmpty(d);
    } else if w[0] == Open || d > 0 {
      var d' := d + Delta(w[0]);
      var m := Matching(WordItems(w[1..]), d');
      assert Matching(WordItems(w), d) == m by {
        MatchingCons(w, d);
      }
      assert m == if !Stays(w[1..], d') then Fail(Unexpected(RPR))
                  else if d' + Depth(w[1..]) == 0 then Ok(())
                  else Fail(Expected(RPR, EOF)) by {
        MatchingRun(w[1..], d');
      }
    } else {
      MatchingStuck(w);
    }
  }

  /** At the end of the word the counter must be back at 0. */
  lemma {:induction false} MatchingEmpty(d: nat)
    ensures Matching(WordItems([]), d) == if d == 0 then Ok(()) else Fail(Expected(RPR, EOF))
  {
  }

  /** A ')' at depth 0 is unexpected. */
  lemma {:induction false} MatchingStuck(w: seq<Paren>)
    requires w != [] && w[0] == Close
    ensures Matching(WordItems(w), 0) == Fail(Unexpected(RPR))
  {
    WordItemsCons(w);
    assert WordItems(w)[0] == Tok(ParenToken(Close));
  }

  /** The counter's first move on a word. */
  lemma {:induction false} MatchingCons(w: seq<Paren>, d: nat)
    requires w != [] && (w[0] == Open || d > 0)
    ensures Matching(WordItems(w), d) == Matching(WordItems(w[1..]), d + Delta(w[0]))
  {
    WordItemsCons(w);
    var t := ParenToken(w[0]);
    assert WordItems(w)[0] == Tok(t);
    assert t.kind == (if w[0] == Open then LPR else RPR);
  }

  /** The text of a word of parentheses is accepted exactly when the word
      is balanced; otherwise a ')' without its '(' is an unexpected token,
      and a '(' without its ')' makes `consume` expect RPR at EOF. */
  lemma {:induction false} BalancedAccepted(w: seq<Paren>)
    ensures Recognize(Items(ParenText(w), 0)) ==
              if Balanced(w) then Ok(())
              else if !NeverBelow(w, 0) then Fail(Unexpected(RPR))
              else Fail(Expected(RPR, EOF))
  {
    LexWord(w);
    RecognizeIsMatching(WordItems(w));
    MatchingWord(w, 0);
  }

  /** The verdict on a literal text, from the depth and lowest depth of
      its word. */
  lemma {:induction false} VerdictOfText(s: string, w: seq<Paren>)
    requires s == ParenText(w)
    ensures Recognize(Items(s, 0)) ==
              if Lowest(w) < 0 then Fail(Unexpected(RPR))
              else if Depth(w) == 0 then Ok(())
              else Fail(Expected(RPR, EOF))
  {
    BalancedAccepted(w);
    NeverBelowLowest(w, 0);
  }

  /** The examples of dickLang.py and Dick.py: '()', '((()))', '()()()',
      '(()())' and the empty input are valid; '(()' and '((())' fail with
      "Expected TokenType.RPR, got TokenType.EOF", and '(()))' with
      "Unexpected token TokenType.RPR". */
  lemma {:induction false} DoctestPair()
    ensures Recognize(Items("()", 0)) == Ok(())
  {
    var w := [Open, Close];
    assert ParenText(w) == "()" && Lowest(w) == 0 && Depth(w) == 0 by {
      assert ParenText(w) == "()";
      assert Lowest(w) == 0 && Depth(w) == 0;
    }
    VerdictOfText("()", w);
  }

  lemma {:induction false} DoctestNested()
    ensures Recognize(Items("((()))", 0)) == Ok(())
  {
    var w := [Open, Open, Open, Close, Close, Close];
    assert ParenText(w) == "((()))" && Lowest(w) == 0 && Depth(w) == 0 by {
      assert ParenText(w) == "((()))";
      assert Lowest(w) == 0 && Depth(w) == 0;
    }
    VerdictOfText("((()))", w);
  }

  lemma {:induction false} DoctestSequence()
    ensures Recognize(Items("()()()", 0)) == Ok(())
  {
    var w := [Open, Close, Open, Close, Open, Close];
    assert ParenText(w) == "()()()" && Lowest(w) == 0 && Depth(w) == 0 by {
      assert ParenText(w) == "()()()";
      assert Lowest(w) == 0 && Depth(w) == 0;
    }
    VerdictOfText("()()()", w);
  }

  lemma {:induction false} DoctestInnerSequence()
    ensures Recognize(Items("(()())", 0)) == Ok(())
  {
    var w := [Open, Open, Close, Open, Close, Close];
    assert ParenText(w) == "(()())" && Lowest(w) == 0 && Depth(w) == 0 by {
      assert ParenText(w) == "(()())";
      assert Lowest(w) == 0 && Depth(w) == 0;
    }
    VerdictOfText("(()())", w);
  }

  lemma {:induction false} DoctestEmpty()
    ensures Recognize(Items("", 0)) == Ok(())
  {
    var w := [];
    assert ParenText(w) == "" && Lowest(w) == 0 && Depth(w) == 0 by {
      assert ParenText(w) == "";
      assert Lowest(w) == 0 && Depth(w) == 0;
    }
    VerdictOfText("", w);
  }

  lemma {:induction false} DoctestUnclosed()
    ensures Recognize(Items("(()", 0)) == Fail(Expected(RPR, EOF))
  {
    var w := [Open, Open, Close];
    assert ParenText(w) == "(()" && Lowest(w) == 0 && Depth(w) == 1 by {
      assert ParenText(w) == "(()";
      assert Lowest(w) == 0 && Depth(w) == 1;
    }
    VerdictOfText("(()", w);
  }

  lemma {:induction false} DoctestUnclosedNested()
    ensures Recognize(Items("((())", 0)) == Fail(Expected(RPR, EOF))
  {
    var w := [Open, Open, Open, Close, Close];
    assert ParenText(w) == "((())" && Lowest(w) == 0 && Depth(w) == 1 by {
      assert ParenText(w) == "((())";
      assert Lowest(w) == 0 && Depth(w) == 1;
    }
    VerdictOfText("((())", w);
  }

  lemma {:induction false} DoctestExtraClose()
    ensures Recognize(Items("(()))", 0)) == Fail(Unexpected(RPR))
  {
    var w := [Open, Open, Close, Close, Close];
    assert ParenText(w) == "(()))" && Lowest(w) == -1 && Depth(w) == -1 by {
      assert ParenText(w) == "(()))";
      assert Lowest(w) == -1 && Depth(w) == -1;
    }
    VerdictOfText("(()))", w);
  }

  /** The parser object: the lexer and the current token. */
  class Parser {
    const lexer: Lexer
    var current: Item<char>

    ghost predicate Valid()
      reads this, lexer
    {
      lexer.Valid() &&
      (current.Tok? ==> Lexeme(current.token)) &&
      (current.Tok? && current.token.kind == EOF ==> current.token == EofToken && lexer.position == |lexer.input|)
    }

    /** The items the parser has yet to read: the current one and then what
        the lexer's `next_valid_token` returns from its position on. */
    ghost function Rest(): (r: seq<Item<char>>)
      reads this, lexer
      requires Valid()
      ensures WellFormed(r) && r[0] == current
    {
      if Final(current) then [current]
      else
        StreamCons(current.token, Items(lexer.input, lexer.position));
        [current] + Items(lexer.input, lexer.position)
    }

    /** `__init__`: keeps the lexer and reads the first token. */
    constructor (lexer: Lexer)
      requires lexer.Valid()
      modifies lexer
      ensures Valid() && this.lexer == lexer
      ensures Rest() == Items(lexer.input, old(lexer.position))
    {
      this.lexer := lexer;
      var r := lexer.NextValidToken();
      current := ToItem(r);
    }

    /** `consume(expected_type)`. */
    method Consume(k: Kind) returns (r: Result<(), SyntaxError>)
      requires Valid()
      modifies this, lexer
      ensures Valid()
      ensures Reached(Parens.Consume(old(Rest()), k), r, Rest())
    {
      if current.Bad? {
        return Fail(LexError(current.error));
      }
      if current.token.kind != k {
        return Fail(Expected(k, current.token.kind));
      }
      var n := lexer.NextValidToken();
      current := ToItem(n);
      return Ok(());
    }

    /** `S()`. */
    method S() returns (r: Result<(), SyntaxError>)
      requires Valid()
      modifies this, lexer
      ensures Valid() && Reached(ParseS(old(Rest())), r, Rest())
      decreases |Rest()|
    {
      if current.Bad? {
        return Fail(LexError(current.error));
      }
      if current.token.kind == LPR {
        var _ := Consume(LPR);
        var inner := S();
        if inner.Fail? {
          return inner;
        }
        var close := Consume(RPR);
        if close.Fail? {
          return close;
        }
        r := S();
      } else {
        r := Ok(());
      }
    }

    /** `parse()`. */
    method Parse() returns (r: Result<(), SyntaxError>)
      requires Valid()
      modifies this, lexer
      ensures Valid() && r == Recognize(old(Rest()))
    {
      r := S();
      if r.Fail? {
        return;
      }
      if current.Bad? {
        return Fail(LexError(current.error));
      }
      if current.token.kind != EOF {
        return Fail(Unexpected(current.token.kind));
      }
    }
  }

  /** `test_parser(input_str)`: the verdict it prints, "valid" or the
      message of the ValueError `parse` raises; a bad first character
      instead raises out of the parser's constructor, outside the `try`. */
  method TestParser(input: string) returns (r: Outcome<SyntaxError>)
    ensures r.Raised? <==> Items(input, 0)[0].Bad?
    ensures r.Raised? ==> r.c == Items(input, 0)[0].error
    ensures r.Reported? ==> r.verdict == Recognize(Items(input, 0))
  {
    var lexer := new Lexer(input);
    var parser := new Parser(lexer);
    if parser.current.Bad? {
      return Raised(parser.current.error);
    }
    var verdict := parser.Parse();
    r := Reported(verdict);
  }

  /** A character the lexer rejects escapes `test_parser` when it comes
      first ('x()'), and is the printed verdict when it comes later ('(x'). */
  lemma {:induction false} StrayCharacter()
    ensures Items("x()", 0)[0] == Bad('x')
    ensures Items("(x", 0)[0].Tok? && Recognize(Items("(x", 0)) == Fail(LexError('x'))
  {
  }
}
