/** The lexer of 3_ParsingArithExp/Lexer.py, repeated without change of
    behaviour in 4_bottomUp/Lexer.py: a `Lexer` object holding the input and
    a mutable `position`; `getToken` reads one token, `next_valid_token`
    skips blanks, and `tokens` is the generator of non-blank tokens. */
module Lexer {
  import opened Wrappers
  import opened Tokens
  import opened Streams

  /** The table of one-character tokens that `getToken` consults after the
      digit test; every other character is an "Unexpected character". */
  function SingleKind(c: char): Option<Kind>
  {
    match c
    case '+' => Some(ADD)
    case '-' => Some(SUB)
    case '*' => Some(MUL)
    case '/' => Some(DIV)
    case '(' => Some(LPR)
    case ')' => Some(RPR)
    case ' ' => Some(WSP)
    case '\n' => Some(NLN)
    case _ => None
  }

  /** The outcome of one call: the token, or the offending character
      (ValueError "Unexpected character"), and the position afterwards. */
  datatype Step = Step(result: Result<Token, char>, next: nat)

  /** End of the maximal run of digits that starts at `i`. */
  function DigitRunEnd(s: string, i: nat): (j: nat)
    requires i <= |s|
    ensures i <= j <= |s|
    ensures AllDigits(s[i..j])
    ensures j == |s| || !IsDigit(s[j])
    decreases |s| - i
  {
    if i < |s| && IsDigit(s[i]) then
      var j := DigitRunEnd(s, i + 1);
      assert s[i..j] == [s[i]] + s[i + 1..j];
      j
    else i
  }

  /** One call of `getToken` from position `pos` of `s`. */
  function Scan(s: string, pos: nat): (r: Step)
    requires pos <= |s|
    // At or past the end: EOF with empty text, position unchanged.
    ensures pos == |s| <==> r.result == Ok(EofToken)
    ensures pos == |s| ==> r.next == pos
    // Otherwise the position moves forward, and never past the end.
    ensures pos < |s| ==> pos < r.next <= |s|
    // A token's text is exactly the input it consumed.
    ensures r.result.Ok? && pos < |s| ==> r.result.value.text == s[pos..r.next]
    // A NUM token is a maximal run of digits.
    ensures r.result.Ok? && r.result.value.kind == NUM ==>
              AllDigits(r.result.value.text) && (r.next == |s| || !IsDigit(s[r.next]))
    // A digit always starts a NUM token.
    ensures pos < |s| && IsDigit(s[pos]) ==> r.result.Ok? && r.result.value.kind == NUM
    // Any other character is a one-character token of the table, or an error.
    ensures pos < |s| && !IsDigit(s[pos]) ==>
              r.next == pos + 1 &&
              match SingleKind(s[pos])
              case Some(k) => r.result == Ok(Token([s[pos]], k))
              case None => r.result == Fail(s[pos])
    ensures r.result.Ok? ==> r.result.value.kind != VAR
  {
    if pos >= |s| then Step(Ok(EofToken), pos)
    else if IsDigit(s[pos]) then
      var j := DigitRunEnd(s, pos + 1);
      assert s[pos..j] == [s[pos]] + s[pos + 1..j];
      Step(Ok(Token(s[pos..j], NUM)), j)
    else
      match SingleKind(s[pos])
      case Some(k) => Step(Ok(Token([s[pos]], k)), pos + 1)
      case None => Step(Fail(s[pos]), pos + 1)
  }

  /** One call of `next_valid_token`: `getToken` repeated while it yields a
      blank. */
  function NextValid(s: string, pos: nat): (r: Step)
    requires pos <= |s|
    ensures pos <= r.next <= |s|
    ensures r.result.Ok? ==> !IsBlank(r.result.value.kind)
    ensures r.result.Ok? && r.result.value.kind == NUM ==> r.result.value.text != [] && AllDigits(r.result.value.text)
    ensures r.result.Ok? ==> r.result.value.kind != VAR
    ensures r.result.Ok? && r.result.value.kind == EOF ==> r.result.value == EofToken && r.next == |s|
    ensures !(r.result.Ok? && r.result.value.kind == EOF) ==> pos < r.next
    decreases |s| - pos
  {
    var st := Scan(s, pos);
    if st.result.Ok? && IsBlank(st.result.value.kind) then NextValid(s, st.next) else st
  }

  /** What successive calls of `next_valid_token` return from `pos` on: the
      non-blank tokens, ending with the first EOF token or the offending
      character of the first lexical error. */
  function Items(s: string, pos: nat): (r: seq<Item<char>>)
    requires pos <= |s|
    ensures WellFormed(r)
    decreases |s| - pos
  {
    var st := NextValid(s, pos);
    match st.result
    case Fail(c) => [Bad(c)]
    case Ok(t) =>
      if t.kind == EOF then [Tok(t)]
      else
        var tail := Items(s, st.next);
        StreamCons(t, tail);
        [Tok(t)] + tail
  }

  /** The outcome of one `next_valid_token` call as an item of the stream:
      a lexical error raised while reading it is kept as `Bad`. */
  function ToItem(r: Result<Token, char>): (it: Item<char>)
    ensures it.Tok? <==> r.Ok?
  {
    match r
    case Ok(t) => Tok(t)
    case Fail(c) => Bad(c)
  }

  /** One `next_valid_token` call reads the first item of the stream and
      leaves the rest; once at EOF, the stream stays at EOF. */
  lemma {:induction false} NextItem(s: string, pos: nat)
    requires pos <= |s|
    ensures var st := NextValid(s, pos);
            Items(s, pos)[0] == ToItem(st.result) &&
            (st.result.Ok? && st.result.value.kind == EOF ==> Items(s, st.next) == Items(s, pos) == [Tok(EofToken)]) &&
            (!Final(Items(s, pos)[0]) ==> Items(s, st.next) == Items(s, pos)[1..])
  {
    var st := NextValid(s, pos);
    if st.result.Ok? && st.result.value.kind == EOF {
      assert NextValid(s, |s|) == Step(Ok(EofToken), |s|);
    }
  }

  /** A `next_valid_token` call that returns a token leaves the lexer at the
      stream that follows the one it started from. */
  lemma {:induction false} ReadAdvances(s: string, pos: nat)
    requires pos <= |s| && NextValid(s, pos).result.Ok?
    ensures Items(s, pos)[0] == Tok(NextValid(s, pos).result.value)
    ensures Items(s, NextValid(s, pos).next) == Advance(Items(s, pos))
  {
    NextItem(s, pos);
  }

  /** What the generator `tokens()` yields from `pos`, and the error it
      raises, if any, after the last token it yielded. */
  function Yielded(s: string, pos: nat): (seq<Token>, Option<char>)
    requires pos <= |s|
    decreases |s| - pos
  {
    var st := Scan(s, pos);
    match st.result
    case Fail(c) => ([], Some(c))
    case Ok(t) =>
      if t.kind == EOF then ([], None)
      else
        var rest := Yielded(s, st.next);
        (Kept(t) + rest.0, rest.1)
  }

  /** What the generator yields for a token `getToken` returned. */
  function Kept(t: Token): seq<Token>
  {
    if IsBlank(t.kind) then [] else [t]
  }

  /** `Yielded` once `getToken` has returned `st`. */
  function After(s: string, st: Step): (seq<Token>, Option<char>)
    requires st.next <= |s|
  {
    match st.result
    case Fail(c) => ([], Some(c))
    case Ok(t) =>
      if t.kind == EOF then ([], None)
      else
        var rest := Yielded(s, st.next);
        (if IsBlank(t.kind) then rest.0 else [t] + rest.0, rest.1)
  }

  /** One step of the generator's loop: `t` is yielded unless blank, and the
      rest is what the next `getToken` calls yield. */
  lemma {:induction false} AfterToken(s: string, st: Step, toks: seq<Token>)
    requires st.next <= |s| && st.result.Ok? && st.result.value.kind != EOF
    ensures var a, y, t := After(s, st), Yielded(s, st.next), st.result.value;
            var kept := if IsBlank(t.kind) then toks else toks + [t];
            (toks + a.0, a.1) == (kept + y.0, y.1)
  {
    var y, t := Yielded(s, st.next), st.result.value;
    assert toks + (Kept(t) + y.0) == (toks + Kept(t)) + y.0;
    assert toks + Kept(t) == if IsBlank(t.kind) then toks else toks + [t];
  }

  lemma {:induction false} YieldedUnfold(s: string, pos: nat)
    requires pos <= |s|
    ensures After(s, Scan(s, pos)) == Yielded(s, pos)
  {
    var st := Scan(s, pos);
    match st.result
    case Fail(c) =>
    case Ok(t) =>
      if t.kind != EOF {
        assert After(s, st).0 == Kept(t) + Yielded(s, st.next).0;
      }
  }

  /** The item that ends a stream, given how the generator stopped. */
  function Ending(err: Option<char>): Item<char>
  {
    match err
    case None => Tok(EofToken)
    case Some(c) => Bad(c)
  }

  /** Calling `next_valid_token` until it returns EOF sees exactly the tokens
      the generator `tokens()` yields, in the same order, and then the same
      end: EOF, or the same "Unexpected character". */
  lemma {:induction false} ItemsAgreeWithTokens(s: string, pos: nat)
    requires pos <= |s|
    ensures Items(s, pos) == ToItems(Yielded(s, pos).0) + [Ending(Yielded(s, pos).1)]
    decreases |s| - pos
  {
    var st := Scan(s, pos);
    if st.result.Ok? && st.result.value.kind != EOF {
      ItemsAgreeWithTokens(s, st.next);
      ItemsAgreeStep(s, pos);
    }
  }

  /** A blank `getToken` returns is skipped by `next_valid_token`. */
  lemma {:induction false} ItemsSkipBlank(s: string, pos: nat)
    requires pos <= |s| && Scan(s, pos).result.Ok? && IsBlank(Scan(s, pos).result.value.kind)
    ensures Items(s, pos) == Items(s, Scan(s, pos).next)
  {
    assert NextValid(s, pos) == NextValid(s, Scan(s, pos).next);
  }

  /** Any other token but EOF is the next item. */
  lemma {:induction false} ItemsTakeToken(s: string, pos: nat)
    requires pos <= |s| && Scan(s, pos).result.Ok?
    requires !IsBlank(Scan(s, pos).result.value.kind) && Scan(s, pos).result.value.kind != EOF
    ensures Items(s, pos) == [Tok(Scan(s, pos).result.value)] + Items(s, Scan(s, pos).next)
  {
    assert NextValid(s, pos) == Scan(s, pos);
  }

  /** The step of `ItemsAgreeWithTokens` for a token other than EOF. */
  lemma {:induction false} ItemsAgreeStep(s: string, pos: nat)
    requires pos <= |s| && Scan(s, pos).result.Ok? && Scan(s, pos).result.value.kind != EOF
    requires var next := Scan(s, pos).next;
             Items(s, next) == ToItems(Yielded(s, next).0) + [Ending(Yielded(s, next).1)]
    ensures Items(s, pos) == ToItems(Yielded(s, pos).0) + [Ending(Yielded(s, pos).1)]
  {
    var st := Scan(s, pos);
    var t, y := st.result.value, Yielded(s, st.next);
    var tail := [Ending(y.1)];
    YieldedKept(s, pos);
    if IsBlank(t.kind) {
      ItemsSkipBlank(s, pos);
      assert Kept(t) + y.0 == y.0;
    } else {
      ItemsTakeToken(s, pos);
      ToItemsCons<char>(t, y.0, tail);
    }
  }

  /** No run of digits straddles the junction of `a` and `b`. */
  predicate Separated(a: string, b: string)
  {
    a == [] || b == [] || !IsDigit(a[|a| - 1]) || !IsDigit(b[0])
  }

  lemma {:induction false} DigitRunInPrefix(a: string, b: string, i: nat)
    requires 0 < i <= |a| && IsDigit(a[i - 1]) && Separated(a, b)
    ensures DigitRunEnd(a + b, i) == DigitRunEnd(a, i)
    decreases |a| - i
  {
    if i < |a| && IsDigit(a[i]) {
      DigitRunInPrefix(a, b, i + 1);
    }
  }

  lemma {:induction false} DigitRunShifted(a: string, b: string, i: nat)
    requires i <= |b|
    ensures DigitRunEnd(a + b, |a| + i) == |a| + DigitRunEnd(b, i)
    decreases |b| - i
  {
    if i < |b| && IsDigit(b[i]) {
      DigitRunShifted(a, b, i + 1);
    }
  }

  lemma {:induction false} DigitRunAll(d: string, i: nat)
    requires i <= |d| && AllDigits(d)
    ensures DigitRunEnd(d, i) == |d|
    decreases |d| - i
  {
    if i < |d| {
      DigitRunAll(d, i + 1);
    }
  }

  /** Scanning inside `a` does not look past it into `b`. */
  lemma {:induction false} ScanInPrefix(a: string, b: string, p: nat)
    requires p < |a| && Separated(a, b)
    ensures Scan(a + b, p) == Scan(a, p)
  {
    if IsDigit(a[p]) {
      DigitRunInPrefix(a, b, p + 1);
      var j := DigitRunEnd(a, p + 1);
      SliceInPrefix(a, b, p, j);
    }
  }

  lemma {:induction false} SliceInPrefix(a: string, b: string, p: nat, j: nat)
    requires p <= j <= |a|
    ensures (a + b)[p..j] == a[p..j]
  {
    forall i | 0 <= i < j - p
      ensures (a + b)[p..j][i] == a[p..j][i]
    {
    }
  }

  /** Scanning `b` after `a` is scanning `b` alone, shifted by `|a|`. */
  lemma {:induction false} ScanShifted(a: string, b: string, q: nat)
    requires q <= |b|
    ensures var st := Scan(b, q); Scan(a + b, |a| + q) == Step(st.result, |a| + st.next)
  {
    if q < |b| && IsDigit(b[q]) {
      DigitRunShifted(a, b, q + 1);
      var j := DigitRunEnd(b, q + 1);
      assert (a + b)[|a| + q..|a| + j] == b[q..j];
    }
  }

  lemma {:induction false} YieldedShifted(a: string, b: string, q: nat)
    requires q <= |b|
    ensures Yielded(a + b, |a| + q) == Yielded(b, q)
    decreases |b| - q
  {
    var st := Scan(b, q);
    if st.result.Ok? && st.result.value.kind != EOF {
      YieldedShifted(a, b, st.next);
    }
    YieldedShiftedStep(a, b, q);
  }

  /** The step of `YieldedShifted`: the shifted scan takes the same token,
      so the rest agrees once it agrees after that token. */
  lemma {:induction false} YieldedShiftedStep(a: string, b: string, q: nat)
    requires q <= |b|
    requires var st := Scan(b, q);
             st.result.Ok? && st.result.value.kind != EOF ==> Yielded(a + b, |a| + st.next) == Yielded(b, st.next)
    ensures Yielded(a + b, |a| + q) == Yielded(b, q)
  {
    ScanShifted(a, b, q);
  }

  /** One step of the generator: the token `getToken` returns at `pos`
      unless it is blank, then what follows. */
  lemma {:induction false} YieldedKept(s: string, pos: nat)
    requires pos <= |s| && Scan(s, pos).result.Ok? && Scan(s, pos).result.value.kind != EOF
    ensures var st := Scan(s, pos);
            Yielded(s, pos) == (Kept(st.result.value) + Yielded(s, st.next).0, Yielded(s, st.next).1)
  {
  }

  /** The step of `YieldedConcat` for the token at `p`, inside `a`. */
  lemma {:induction false} YieldedConcatStep(a: string, b: string, p: nat)
    requires p < |a| && Separated(a, b)
    requires Scan(a, p).result.Ok? && Scan(a, p).result.value.kind != EOF
    requires var next := Scan(a, p).next;
             Yielded(a + b, next) == (Yielded(a, next).0 + Yielded(b, 0).0, Yielded(b, 0).1)
    ensures Yielded(a + b, p) == (Yielded(a, p).0 + Yielded(b, 0).0, Yielded(b, 0).1)
  {
    ScanInPrefix(a, b, p);
    var st := Scan(a, p);
    YieldedKept(a + b, p);
    YieldedKept(a, p);
    Regrouped(Yielded(a + b, p), Yielded(a, p), Kept(st.result.value), Yielded(a + b, st.next), Yielded(a, st.next), Yielded(b, 0));
  }

  /** The bookkeeping of `YieldedConcatStep`, on plain values. */
  lemma {:induction false} Regrouped<T, E>(whole: (seq<T>, E), first: (seq<T>, E), k: seq<T>,
                                          wholeRest: (seq<T>, E), firstRest: (seq<T>, E), second: (seq<T>, E))
    requires whole == (k + wholeRest.0, wholeRest.1) && first == (k + firstRest.0, firstRest.1)
    requires wholeRest == (firstRest.0 + second.0, second.1)
    ensures whole == (first.0 + second.0, second.1)
  {
    assert k + (firstRest.0 + second.0) == (k + firstRest.0) + second.0;
  }

  /** The tokens of `a + b` are those of `a` followed by those of `b`, when
      `a` lexes without error and no number straddles the junction. */
  lemma {:induction false} YieldedConcat(a: string, b: string, p: nat)
    requires p <= |a| && Separated(a, b) && Yielded(a, p).1 == None
    ensures Yielded(a + b, p) == (Yielded(a, p).0 + Yielded(b, 0).0, Yielded(b, 0).1)
    decreases |a| - p
  {
    if p == |a| {
      YieldedConcatEnd(a, b);
    } else {
      YieldedClean(a, p);
      YieldedConcat(a, b, Scan(a, p).next);
      YieldedConcatStep(a, b, p);
    }
  }

  /** The base of `YieldedConcat`: at the end of `a`, `b` alone is left. */
  lemma {:induction false} YieldedConcatEnd(a: string, b: string)
    ensures Yielded(a + b, |a|) == (Yielded(a, |a|).0 + Yielded(b, 0).0, Yielded(b, 0).1)
  {
    YieldedShifted(a, b, 0);
    assert Yielded(a, |a|).0 == [];
    assert [] + Yielded(b, 0).0 == Yielded(b, 0).0;
  }

  /** Before the end, a run that raises nothing took a token and raises
      nothing after it either. */
  lemma {:induction false} YieldedClean(a: string, p: nat)
    requires p < |a| && Yielded(a, p).1 == None
    ensures Scan(a, p).result.Ok? && Scan(a, p).result.value.kind != EOF
    ensures Yielded(a, Scan(a, p).next).1 == None
  {
  }

  /** A non-empty run of digits lexes as one NUM token. */
  lemma {:induction false} YieldedDigits(d: string)
    requires d != [] && AllDigits(d)
    ensures Yielded(d, 0) == ([Token(d, NUM)], None)
  {
    DigitRunAll(d, 1);
    assert d[0..|d|] == d;
    assert Scan(d, 0) == Step(Ok(Token(d, NUM)), |d|);
    assert Yielded(d, |d|) == ([], None);
    assert [Token(d, NUM)] + [] == [Token(d, NUM)];
  }

  /** A character of the table lexes as its one-character token, dropped
      when blank. */
  lemma {:induction false} YieldedSingle(c: char, k: Kind)
    requires SingleKind(c) == Some(k) && !IsDigit(c)
    ensures Yielded([c], 0) == (if IsBlank(k) then [] else [Token([c], k)], None)
  {
    assert Scan([c], 0) == Step(Ok(Token([c], k)), 1);
    assert Yielded([c], 1) == ([], None);
    assert Kept(Token([c], k)) + [] == Kept(Token([c], k));
  }

  /** `tokens()` never yields a blank or the EOF token. */
  lemma {:induction false} YieldedNonBlank(s: string, pos: nat)
    requires pos <= |s|
    ensures forall t :: t in Yielded(s, pos).0 ==> !IsBlank(t.kind) && t.kind != EOF
    decreases |s| - pos
  {
    var st := Scan(s, pos);
    if st.result.Ok? && st.result.value.kind != EOF {
      YieldedNonBlank(s, st.next);
    }
  }

  /** Doctest of `tokens()` in 4_bottomUp/Lexer.py: "(3 + 2)" yields
      '(', '3', '+', '2', ')'. */
  lemma {:induction false} TokensOfParenthesised()
    ensures Yielded("(3 + 2)", 0) ==
              ([Token("(", LPR), Token("3", NUM), Token("+", ADD), Token("2", NUM), Token(")", RPR)], None)
  {
    TokensOfParenthesisedFromThree();
    ScansOfParenthesisedHead();
    YieldsThrough("(3 + 2)", 0, Token("(", LPR), 1, [Token("3", NUM), Token("+", ADD), Token("2", NUM), Token(")", RPR)], None);
    assert [Token("(", LPR)] + [Token("3", NUM), Token("+", ADD), Token("2", NUM), Token(")", RPR)] ==
           [Token("(", LPR), Token("3", NUM), Token("+", ADD), Token("2", NUM), Token(")", RPR)];
  }

  /** The tokens of "(3 + 2)" from its '3' on. */
  lemma {:induction false} TokensOfParenthesisedFromThree()
    ensures Yielded("(3 + 2)", 1) == ([Token("3", NUM), Token("+", ADD), Token("2", NUM), Token(")", RPR)], None)
  {
    TokensOfParenthesisedTail();
    ScansOfParenthesisedHead();
    YieldsThrough("(3 + 2)", 2, Token(" ", WSP), 3, [Token("+", ADD), Token("2", NUM), Token(")", RPR)], None);
    YieldsThrough("(3 + 2)", 1, Token("3", NUM), 2, [Token("+", ADD), Token("2", NUM), Token(")", RPR)], None);
    assert [Token("3", NUM)] + [Token("+", ADD), Token("2", NUM), Token(")", RPR)] ==
           [Token("3", NUM), Token("+", ADD), Token("2", NUM), Token(")", RPR)];
  }

  /** The first three scans of "(3 + 2)". */
  lemma {:induction false} ScansOfParenthesisedHead()
    ensures Scan("(3 + 2)", 0) == Step(Ok(Token("(", LPR)), 1)
    ensures Scan("(3 + 2)", 1) == Step(Ok(Token("3", NUM)), 2)
    ensures Scan("(3 + 2)", 2) == Step(Ok(Token(" ", WSP)), 3)
  {
    var s := "(3 + 2)";
    assert DigitRunEnd(s, 2) == 2 && s[1..2] == "3";
  }

  /** The tokens of "(3 + 2)" from its '+' on. */
  lemma {:induction false} TokensOfParenthesisedTail()
    ensures Yielded("(3 + 2)", 3) == ([Token("+", ADD), Token("2", NUM), Token(")", RPR)], None)
  {
    var s := "(3 + 2)";
    ScansOfParenthesisedTail();
    assert Yielded(s, 7) == ([], None);
    YieldsThrough(s, 6, Token(")", RPR), 7, [], None);
    assert [Token(")", RPR)] + [] == [Token(")", RPR)];
    YieldsThrough(s, 5, Token("2", NUM), 6, [Token(")", RPR)], None);
    assert [Token("2", NUM)] + [Token(")", RPR)] == [Token("2", NUM), Token(")", RPR)];
    YieldsThrough(s, 4, Token(" ", WSP), 5, [Token("2", NUM), Token(")", RPR)], None);
    YieldsThrough(s, 3, Token("+", ADD), 4, [Token("2", NUM), Token(")", RPR)], None);
    assert [Token("+", ADD)] + [Token("2", NUM), Token(")", RPR)] == [Token("+", ADD), Token("2", NUM), Token(")", RPR)];
  }

  /** The scans of "(3 + 2)" from its '+' on. */
  lemma {:induction false} ScansOfParenthesisedTail()
    ensures Scan("(3 + 2)", 3) == Step(Ok(Token("+", ADD)), 4)
    ensures Scan("(3 + 2)", 4) == Step(Ok(Token(" ", WSP)), 5)
    ensures Scan("(3 + 2)", 5) == Step(Ok(Token("2", NUM)), 6)
    ensures Scan("(3 + 2)", 6) == Step(Ok(Token(")", RPR)), 7)
  {
    var s := "(3 + 2)";
    assert DigitRunEnd(s, 6) == 6 && s[5..6] == "2";
  }

  /** A token the scan takes at `pos` goes in front of what the generator
      yields after it, unless it is blank. */
  lemma {:induction false} YieldsThrough(s: string, pos: nat, t: Token, next: nat, ts: seq<Token>, err: Option<char>)
    requires pos <= |s| && Scan(s, pos) == Step(Ok(t), next) && t.kind != EOF
    requires next <= |s| && Yielded(s, next) == (ts, err)
    ensures Yielded(s, pos) == (if IsBlank(t.kind) then ts else [t] + ts, err)
  {
    YieldedKept(s, pos);
    if IsBlank(t.kind) {
      assert Kept(t) + ts == [] + ts == ts;
    }
  }

  /** Doctest of `next_valid_token` in 4_bottomUp/Lexer.py: on "  2 + 3 "
      it skips the leading blanks and returns '2', then '+'. */
  lemma {:induction false} NextValidSkipsBlanks()
    ensures NextValid("  2 + 3 ", 0) == Step(Ok(Token("2", NUM)), 3)
    ensures NextValid("  2 + 3 ", 3) == Step(Ok(Token("+", ADD)), 5)
  {
    var s := "  2 + 3 ";
    assert DigitRunEnd(s, 3) == 3 && s[2..3] == "2";
    assert Scan(s, 2) == Step(Ok(Token("2", NUM)), 3);
    assert NextValid(s, 2) == Step(Ok(Token("2", NUM)), 3);
    assert NextValid(s, 1) == Step(Ok(Token("2", NUM)), 3);
    assert Scan(s, 4) == Step(Ok(Token("+", ADD)), 5);
    assert NextValid(s, 4) == Step(Ok(Token("+", ADD)), 5);
  }

  /** Doctests of 3_ParsingArithExp/Lexer.py: on "1 2 +" successive calls of
      `next_valid_token` give '1', '2', '+', then EOF. */
  lemma {:induction false} ItemsOfOneTwoPlus()
    ensures Items("1 2 +", 0) ==
              [Tok(Token("1", NUM)), Tok(Token("2", NUM)), Tok(Token("+", ADD)), Tok(EofToken)]
  {
    var s := "1 2 +";
    assert DigitRunEnd(s, 1) == 1 && s[0..1] == "1";
    assert NextValid(s, 0) == Step(Ok(Token("1", NUM)), 1);
    assert DigitRunEnd(s, 3) == 3 && s[2..3] == "2";
    assert Scan(s, 2) == Step(Ok(Token("2", NUM)), 3);
    assert NextValid(s, 1) == Step(Ok(Token("2", NUM)), 3);
    assert Scan(s, 4) == Step(Ok(Token("+", ADD)), 5);
    assert NextValid(s, 3) == Step(Ok(Token("+", ADD)), 5);
    assert NextValid(s, 5) == Step(Ok(EofToken), 5);
    assert Items(s, 5) == [Tok(EofToken)];
  }

  class Lexer {
    const input: string
    var position: nat

    ghost predicate Valid()
      reads this
    {
      position <= |input|
    }

    constructor (s: string)
      ensures Valid() && input == s && position == 0
    {
      input := s;
      position := 0;
    }

    /** `getToken`: the digit loop accumulates the text of a NUM token. */
    method GetToken() returns (r: Result<Token, char>)
      requires Valid()
      modifies this
      ensures Valid()
      ensures Step(r, position) == Scan(input, old(position))
    {
      if position >= |input| {
        return Ok(EofToken);
      }
      var c := input[position];
      position := position + 1;
      if IsDigit(c) {
        var text := [c];
        while position < |input| && IsDigit(input[position])
          invariant old(position) < position <= |input|
          invariant text == input[old(position)..position]
          invariant DigitRunEnd(input, position) == DigitRunEnd(input, old(position) + 1)
          decreases |input| - position
        {
          text := text + [input[position]];
          position := position + 1;
        }
        return Ok(Token(text, NUM));
      }
      match SingleKind(c)
      case None =>
        return Fail(c);
      case Some(k) =>
        return Ok(Token([c], k));
    }

    /** `next_valid_token`, recursive like the source. */
    method NextValidToken() returns (r: Result<Token, char>)
      requires Valid()
      modifies this
      ensures Valid()
      ensures Step(r, position) == NextValid(input, old(position))
      decreases |input| - position
    {
      r := GetToken();
      if r.Ok? && IsBlank(r.value.kind) {
        r := NextValidToken();
      }
    }

    /** The generator `tokens()`, run to completion: the tokens it yields and
        the character of the ValueError it raises, if any. */
    method Tokens() returns (toks: seq<Token>, err: Option<char>)
      requires Valid()
      modifies this
      ensures Valid()
      ensures (toks, err) == Yielded(input, old(position))
    {
      toks := [];
      ghost var start := position;
      var r := GetToken();
      assert toks + After(input, Step(r, position)).0 == Yielded(input, start).0;
      while r.Ok? && r.value.kind != EOF
        invariant Valid()
        invariant Yielded(input, start) ==
                    var rest := After(input, Step(r, position)); (toks + rest.0, rest.1)
        decreases |input| - position + (if r.Ok? && r.value.kind != EOF then 1 else 0)
      {
        AfterToken(input, Step(r, position), toks);
        YieldedUnfold(input, position);
        if !IsBlank(r.value.kind) {
          toks := toks + [r.value];
        }
        r := GetToken();
      }
      assert toks + [] == toks;
      err := if r.Fail? then Some(r.error) else None;
    }
  }
}
