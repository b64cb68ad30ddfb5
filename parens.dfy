/** What the parenthesis recognisers of 4_bottomUp (dickLang.py, Dick.py,
    LL_LHPL.py, LR_Fer.py and LR_LHPL.py) share: words over '(' and ')',
    the streams the lexer makes of their texts, the errors `consume` and
    `parse` raise, and the depth of a word, which says what "balanced"
    and "left-skewed" mean. */
module Parens {
  import opened Wrappers
  import opened Tokens
  import opened Streams
  import opened Lexer

  datatype Paren = Open | Close

  function ParenChar(p: Paren): char
  {
    match p
    case Open => '('
    case Close => ')'
  }

  function ParenToken(p: Paren): (t: Token)
    ensures Lexeme(t) && t.kind != EOF
  {
    match p
    case Open => LeftParen
    case Close => RightParen
  }

  /** The text of a word. */
  function ParenText(w: seq<Paren>): (s: string)
    ensures |s| == |w| && forall i :: 0 <= i < |w| ==> s[i] == ParenChar(w[i])
  {
    if w == [] then [] else [ParenChar(w[0])] + ParenText(w[1..])
  }

  function ParenTokens(w: seq<Paren>): (ts: seq<Token>)
    ensures |ts| == |w| && forall i :: 0 <= i < |w| ==> ts[i] == ParenToken(w[i])
  {
    if w == [] then [] else [ParenToken(w[0])] + ParenTokens(w[1..])
  }

  /** The stream of a word: one token per parenthesis, then EOF. */
  function WordItems(w: seq<Paren>): (items: seq<Item<char>>)
    ensures WellFormed(items) && |items| == |w| + 1
  {
    StreamAfter<char>(ParenTokens(w), [Tok(EofToken)]);
    ToItems(ParenTokens(w)) + [Tok(EofToken)]
  }

  /** The empty word leaves EOF alone in the stream. */
  lemma {:induction false} EmptyWordItems()
    ensures WordItems([]) == [Tok(EofToken)]
  {
    assert ParenTokens([]) == [];
  }

  /** The stream of a word starts with its first parenthesis and goes on
      with the stream of the rest of the word. */
  lemma {:induction false} WordItemsCons(w: seq<Paren>)
    requires w != []
    ensures WordItems(w)[0] == Tok(ParenToken(w[0]))
    ensures WordItems(w)[1..] == WordItems(w[1..])
    ensures WordItems(w) == [Tok(ParenToken(w[0]))] + WordItems(w[1..])
  {
    var ts := ParenTokens(w);
    assert ts[1..] == ParenTokens(w[1..]);
    assert ToItems<char>(ts)[1..] == ToItems<char>(ts[1..]);
    var ws := WordItems(w);
    assert ws == [ws[0]] + ws[1..];
  }

  /** The lexer reads the text of a word as the stream of that word. */
  lemma {:induction false} LexWord(w: seq<Paren>)
    ensures Items(ParenText(w), 0) == WordItems(w)
  {
    LexWordFrom(w, 0);
  }

  lemma {:induction false} LexWordFrom(w: seq<Paren>, k: nat)
    requires k <= |w|
    ensures Items(ParenText(w), k) == WordItems(w[k..])
    decreases |w| - k
  {
    var s := ParenText(w);
    if k == |w| {
      assert NextValid(s, k) == Step(Ok(EofToken), k);
      assert w[k..] == [];
    } else {
      LexWordFrom(w, k + 1);
      ReadParen(s, k, w[k], Items(s, k + 1));
      WordItemsCons(w[k..]);
      assert w[k..][1..] == w[k + 1..];
    }
  }

  /** A parenthesis in the text is read as its token. */
  lemma {:induction false} ReadParen(s: string, k: nat, p: Paren, tail: seq<Item<char>>)
    requires k < |s| && s[k] == ParenChar(p) && Items(s, k + 1) == tail
    ensures NextValid(s, k) == Step(Ok(ParenToken(p)), k + 1)
    ensures Items(s, k) == [Tok(ParenToken(p))] + tail
  {
    assert Scan(s, k) == Step(Ok(ParenToken(p)), k + 1) by {
      assert [s[k]] == ParenToken(p).text;
    }
  }

  /** What `consume` raises, and what `parse` raises once `S` is done. */
  datatype SyntaxError =
    | Expected(want: Kind, got: Kind)   // "Expected {want}, got {got}"
    | Unexpected(got: Kind)             // "Unexpected token {got}"
    | LexError(c: char)                 // the lexer's "Unexpected character"

  /** How `test_parser` ends: it prints the verdict of `parse`, or the
      lexer's ValueError escapes it. The parser's constructor reads the first
      token before the `try` that would catch the error. */
  datatype Outcome<E> = Reported(verdict: Result<(), E>) | Raised(c: char)

  /** `consume(kind)`: the current token must have that kind, and the parser
      then reads the next one; otherwise "Expected kind, got ...". */
  function Consume(items: seq<Item<char>>, k: Kind): (r: Result<seq<Item<char>>, SyntaxError>)
    requires WellFormed(items)
    ensures r.Ok? <==> items[0].Tok? && items[0].token.kind == k
    ensures r.Ok? ==> WellFormed(r.value) && r.value == (if k == EOF then items else items[1..])
    ensures items[0].Bad? ==> r == Fail(LexError(items[0].error))
    ensures items[0].Tok? && items[0].token.kind != k ==> r == Fail(Expected(k, items[0].token.kind))
  {
    match items[0]
    case Bad(c) => Fail(LexError(c))
    case Tok(t) =>
      if t.kind != k then Fail(Expected(k, t.kind))
      else if k == EOF then Ok(items)
      else Ok(items[1..])
  }

  /** What a recognising method returns and leaves unread, given what its
      specification says about the stream it started from. */
  predicate Reached(p: Result<seq<Item<char>>, SyntaxError>, r: Result<(), SyntaxError>, rest: seq<Item<char>>)
  {
    match p
    case Fail(err) => r == Fail(err)
    case Ok(left) => r == Ok(()) && rest == left
  }

  /** The change of depth one parenthesis makes. */
  function Delta(p: Paren): int
  {
    match p
    case Open => 1
    case Close => -1
  }

  /** Opening minus closing parentheses. */
  function Depth(w: seq<Paren>): int
  {
    if w == [] then 0 else Delta(w[0]) + Depth(w[1..])
  }

  /** Read from depth `d`, the word never goes below depth 0. */
  predicate NeverBelow(w: seq<Paren>, d: int)
  {
    forall i :: 0 <= i <= |w| ==> d + Depth(w[..i]) >= 0
  }

  /** `NeverBelow`, one parenthesis at a time. */
  predicate Stays(w: seq<Paren>, d: int)
    decreases |w|
  {
    d >= 0 && (w != [] ==> Stays(w[1..], d + Delta(w[0])))
  }

  lemma {:induction false} StaysIsNeverBelow(w: seq<Paren>, d: int)
    ensures Stays(w, d) == NeverBelow(w, d)
    decreases |w|
  {
    if w == [] {
      assert w[..0] == [];
    } else {
      NeverBelowCons(w, d);
      StaysIsNeverBelow(w[1..], d + Delta(w[0]));
    }
  }

  /** Every ')' closes an earlier '(' and every '(' is closed. */
  predicate Balanced(w: seq<Paren>)
  {
    NeverBelow(w, 0) && Depth(w) == 0
  }

  lemma {:induction false} NeverBelowCons(w: seq<Paren>, d: int)
    requires w != []
    ensures NeverBelow(w, d) <==> d >= 0 && NeverBelow(w[1..], d + Delta(w[0]))
  {
    assert w[..0] == [];
    forall i | 0 <= i < |w|
      ensures Depth(w[..i + 1]) == Delta(w[0]) + Depth(w[1..][..i])
    {
      assert w[..i + 1][1..] == w[1..][..i];
    }
    if NeverBelow(w, d) {
      forall i | 0 <= i <= |w[1..]|
        ensures d + Delta(w[0]) + Depth(w[1..][..i]) >= 0
      {
        assert d + Depth(w[..i + 1]) >= 0;
      }
    }
    if d >= 0 && NeverBelow(w[1..], d + Delta(w[0])) {
      forall i | 0 <= i <= |w|
        ensures d + Depth(w[..i]) >= 0
      {
        if i > 0 {
          assert d + Delta(w[0]) + Depth(w[1..][..i - 1]) >= 0;
        }
      }
    }
  }

  /** The lowest depth a word reaches, read from depth 0. */
  function Lowest(w: seq<Paren>): (m: int)
    ensures m <= 0
  {
    if w == [] then 0
    else
      var m := Delta(w[0]) + Lowest(w[1..]);
      if m < 0 then m else 0
  }

  lemma {:induction false} NeverBelowLowest(w: seq<Paren>, d: int)
    ensures NeverBelow(w, d) <==> d + Lowest(w) >= 0
    decreases |w|
  {
    if w == [] {
      assert w[..0] == [];
    } else {
      NeverBelowCons(w, d);
      NeverBelowLowest(w[1..], d + Delta(w[0]));
    }
  }

  /** Depth adds up over a concatenation. */
  lemma {:induction false} DepthAppend(a: seq<Paren>, b: seq<Paren>)
    ensures Depth(a + b) == Depth(a) + Depth(b)
    decreases |a|
  {
    if a == [] {
      assert a + b == b;
    } else {
      assert (a + b)[1..] == a[1..] + b;
      DepthAppend(a[1..], b);
    }
  }

  /** The lowest depth of a concatenation: the lower of the first word's
      and the second word's read from where the first one ends. */
  lemma {:induction false} LowestAppend(a: seq<Paren>, b: seq<Paren>)
    ensures Lowest(a + b) == if Lowest(a) <= Depth(a) + Lowest(b) then Lowest(a) else Depth(a) + Lowest(b)
    decreases |a|
  {
    if a == [] {
      assert a + b == b;
    } else {
      assert (a + b)[1..] == a[1..] + b;
      LowestAppend(a[1..], b);
    }
  }

  lemma {:induction false} BalancedLowest(w: seq<Paren>)
    ensures Balanced(w) <==> Depth(w) == 0 && Lowest(w) == 0
  {
    NeverBelowLowest(w, 0);
  }

  /** Two balanced words side by side, wrapped in a matching pair, are
      balanced. */
  lemma {:induction false} BalancedWrap(a: seq<Paren>, b: seq<Paren>)
    requires Balanced(a) && Balanced(b)
    ensures Balanced([Open] + a + b + [Close])
  {
    BalancedLowest(a);
    BalancedLowest(b);
    var c: seq<Paren> := [Close];
    assert Depth(c[1..]) == 0 && Lowest(c[1..]) == 0;
    assert Depth(c) == -1 && Lowest(c) == -1;
    DepthAppend(b, c);
    LowestAppend(b, c);
    DepthAppend(a, b + c);
    LowestAppend(a, b + c);
    var w := [Open] + (a + (b + c));
    assert w[1..] == a + (b + c);
    assert w == [Open] + a + b + [Close];
    BalancedLowest(w);
  }

  /** The production S ::= ( S ) S: a balanced word in a matching pair,
      followed by a balanced word, is balanced. */
  lemma {:induction false} BalancedProduction(a: seq<Paren>, b: seq<Paren>)
    requires Balanced(a) && Balanced(b)
    ensures Balanced([Open] + a + [Close] + b)
  {
    BalancedLowest(a);
    BalancedLowest(b);
    var c: seq<Paren> := [Close];
    assert Depth(c[1..]) == 0 && Lowest(c[1..]) == 0;
    assert Depth(c) == -1 && Lowest(c) == -1;
    DepthAppend(c, b);
    LowestAppend(c, b);
    DepthAppend(a, c + b);
    LowestAppend(a, c + b);
    var w := [Open] + (a + (c + b));
    assert w[1..] == a + (c + b);
    assert w == [Open] + a + [Close] + b;
    BalancedLowest(w);
  }

  /** The words of `S ::= ( S | P`, `P ::= ( P ) | empty`: a run of '('
      followed by at most as many ')'. */
  predicate LeftSkewed(w: seq<Paren>)
  {
    var n := LeadingOpens(w);
    (forall i :: n <= i < |w| ==> w[i] == Close) && |w| - n <= n
  }

  /** The length of the run of '(' a word starts with. */
  function LeadingOpens(w: seq<Paren>): (n: nat)
    ensures n <= |w|
    ensures forall i :: 0 <= i < n ==> w[i] == Open
    ensures n < |w| ==> w[n] == Close
  {
    if w == [] || w[0] == Close then 0
    else
      var m := LeadingOpens(w[1..]);
      assert forall i :: 0 <= i < 1 + m ==> w[i] == Open by {
        forall i | 0 <= i < 1 + m
          ensures w[i] == Open
        {
          if i > 0 {
            assert w[i] == w[1..][i - 1];
          }
        }
      }
      assert m + 1 < |w| ==> w[m + 1] == w[1..][m];
      1 + m
  }
}
