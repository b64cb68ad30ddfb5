/** The parenthesis recognisers of 4_bottomUp side by side: what
    dickLang.py/Dick.py, LL_LHPL.py, LR_Fer.py and LR_LHPL.py accept, and
    how their languages relate to the balanced words and to the words of
    the left-skewed grammar `S ::= ( S | P`, `P ::= ( P ) | empty`. */
module Recognisers {
  import opened Wrappers
  import opened Tokens
  import opened Streams
  import opened Lexer
  import opened Parens
  import Dick
  import LlLhpl
  import LrFer
  import LrLhpl

  lemma {:induction false} VerdictsAgree(items: seq<Item<char>>, k: nat)
    requires WellFormed(items)
    ensures LrFer.Verdict(items, k).Ok? <==> LrLhpl.Verdict(items, k).Ok?
    decreases |items|
  {
    if items[0].Tok? && items[0].token.kind == LPR {
      VerdictsAgree(items[1..], k + 1);
    }
  }

  /** The state machine of LR_Fer.py and the tables of LR_LHPL.py accept the
      same token streams; only their error messages differ. */
  lemma {:induction false} LrParsersAgree(items: seq<Item<char>>)
    requires WellFormed(items)
    ensures LrFer.Run(0, [], items).Ok? <==> LrLhpl.Recognize(items).Ok?
  {
    LrFer.RunIsVerdict(items);
    LrLhpl.RunIsVerdict(items);
    VerdictsAgree(items, 0);
  }

  /** LR_Fer.py accepts the text of a word exactly when LR_LHPL.py does:
      when the word is '(' only, or '(' followed by a single ')'. */
  lemma {:induction false} LrAcceptedWords(w: seq<Paren>)
    ensures LrFer.Run(0, [], Items(ParenText(w), 0)).Ok? <==> LrFer.OpensThenClose(w)
    ensures LrLhpl.Recognize(Items(ParenText(w), 0)).Ok? <==> LrFer.OpensThenClose(w)
  {
    LrFer.AcceptedWords(w);
    LrLhpl.AcceptedWords(w);
  }

  lemma {:induction false} OpensThenCloseSkewed(w: seq<Paren>)
    requires LrFer.OpensThenClose(w)
    ensures LeftSkewed(w)
  {
  }

  /** What the LR parsers accept is left-skewed. */
  lemma {:induction false} LrAcceptedAreLeftSkewed(w: seq<Paren>)
    requires LrLhpl.Recognize(Items(ParenText(w), 0)).Ok?
    ensures LeftSkewed(w)
  {
    LrAcceptedWords(w);
    OpensThenCloseSkewed(w);
  }

  /** Whatever LL_LHPL.py accepts, the LR parsers accept too. */
  lemma {:induction false} LlWithinLr(w: seq<Paren>)
    requires LlLhpl.Recognize(Items(ParenText(w), 0)).Ok?
    ensures LrFer.Run(0, [], Items(ParenText(w), 0)).Ok?
    ensures LrLhpl.Recognize(Items(ParenText(w), 0)).Ok?
  {
    LlLhpl.OnlyOpensAccepted(w);
    LrFer.AcceptedWords(w);
    LrLhpl.AcceptedWords(w);
  }

  /** '(())' is a word of the left-skewed grammar (`S => P => ( P ) =>
      ( ( P ) )`), and none of the three left-skewed recognisers accepts
      it. */
  lemma {:induction false} NestedPairRejected()
    ensures var w := [Open, Open, Close, Close];
      LeftSkewed(w) &&
      LlLhpl.Recognize(Items(ParenText(w), 0)).Fail? &&
      LrFer.Run(0, [], Items(ParenText(w), 0)).Fail? &&
      LrLhpl.Recognize(Items(ParenText(w), 0)).Fail?
  {
    NestedPairSkewed();
    NestedPairLl();
    NestedPairFer();
    NestedPairLhpl();
  }

  lemma {:induction false} NestedPairSkewed()
    ensures LeftSkewed([Open, Open, Close, Close])
  {
    assert LeadingOpens([Open, Open, Close, Close]) == 2;
  }

  lemma {:induction false} NestedPairLl()
    ensures LlLhpl.Recognize(Items(ParenText([Open, Open, Close, Close]), 0)).Fail?
  {
    var w := [Open, Open, Close, Close];
    assert LeadingOpens(w) == 2;
    LlLhpl.OnlyOpensAccepted(w);
  }

  lemma {:induction false} NestedPairFer()
    ensures LrFer.Run(0, [], Items(ParenText([Open, Open, Close, Close]), 0)).Fail?
  {
    var w := [Open, Open, Close, Close];
    assert LeadingOpens(w) == 2;
    LrFer.AcceptedWords(w);
  }

  lemma {:induction false} NestedPairLhpl()
    ensures LrLhpl.Recognize(Items(ParenText([Open, Open, Close, Close]), 0)).Fail?
  {
    var w := [Open, Open, Close, Close];
    assert LeadingOpens(w) == 2;
    LrLhpl.AcceptedWords(w);
  }

  /** The depth of '(' repeated and then only ')'. */
  lemma {:induction false} DepthSkewed(w: seq<Paren>)
    requires forall i :: LeadingOpens(w) <= i < |w| ==> w[i] == Close
    ensures Depth(w) == 2 * LeadingOpens(w) - |w|
    decreases |w|
  {
    if w != [] {
      assert forall i :: LeadingOpens(w[1..]) <= i < |w[1..]| ==> w[1..][i] == w[i + 1];
      DepthSkewed(w[1..]);
    }
  }

  /** The only balanced words that are '(' only or '(' followed by a single
      ')' are the empty word and '()'. */
  lemma {:induction false} BalancedOpensThenClose(w: seq<Paren>)
    ensures LrFer.OpensThenClose(w) && Balanced(w) <==> w == [] || w == [Open, Close]
  {
    if LrFer.OpensThenClose(w) && Balanced(w) && w != [] {
      DepthSkewed(w);
      assert LeadingOpens(w) == 1 && |w| == 2;
      assert w == [Open, Close];
    }
    if w == [Open, Close] {
      var u := w[1..];
      assert u == [Close] && u[1..] == [];
      assert Depth(u[1..]) == 0 && Lowest(u[1..]) == 0;
      assert Depth(u) == -1 && Lowest(u) == -1;
      assert LeadingOpens(w) == 1 && Depth(w) == 0 && Lowest(w) == 0;
      NeverBelowLowest(w, 0);
    }
    if w == [] {
      assert w[..0] == [];
    }
  }

  /** The words both Dick.py and the LR parsers accept: the empty word and
      '()'. */
  lemma {:induction false} BalancedAndSkewed(w: seq<Paren>)
    ensures Dick.Recognize(Items(ParenText(w), 0)).Ok? && LrFer.Run(0, [], Items(ParenText(w), 0)).Ok? <==>
            w == [] || w == [Open, Close]
  {
    Dick.BalancedAccepted(w);
    LrAcceptedWords(w);
    BalancedOpensThenClose(w);
  }
}
