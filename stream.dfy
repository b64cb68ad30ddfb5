/** The stream a parser reads from a lexer: the tokens that successive calls
    of `next_valid_token` return, up to and including the first EOF token or
    the first lexical error. */
module Streams {
  import opened Tokens

  /** One call's outcome: a token, or the error the lexer raised. */
  datatype Item<E> = Tok(token: Token) | Bad(error: E)

  /** An item that ends a stream: the EOF token or an error. */
  predicate Final<E>(it: Item<E>) { it.Bad? || it.token.kind == EOF }

  /** A NUM token's text is a non-empty run of digits, so `int(text)` is
      defined. */
  predicate Lexeme(t: Token)
  {
    t.kind == NUM ==> t.text != [] && AllDigits(t.text)
  }

  /** A stream: one final item, at the end, and only well-formed tokens. */
  predicate WellFormed<E>(items: seq<Item<E>>)
  {
    |items| >= 1 && Final(items[|items| - 1]) &&
    (forall i :: 0 <= i < |items| ==> items[i].Tok? ==> Lexeme(items[i].token)) &&
    (forall i :: 0 <= i < |items| - 1 ==> !Final(items[i]))
  }

  /** The stream after one more read: a final item stays where it is, since
      the lexer returns EOF again at the end of its input and a lexical
      error ends the reading. */
  function Advance<E>(items: seq<Item<E>>): (r: seq<Item<E>>)
    requires WellFormed(items)
    ensures WellFormed(r) && r[|r| - 1] == items[|items| - 1]
    ensures Final(items[0]) ==> r == items
    ensures !Final(items[0]) ==> |r| == |items| - 1 && forall i :: 0 <= i < |r| ==> r[i] == items[i + 1]
  {
    if Final(items[0]) then items else items[1..]
  }

  /** `true` when `rest` is what is left of `items` after a proper prefix. */
  predicate ProperSuffix<E(==)>(rest: seq<Item<E>>, items: seq<Item<E>>)
  {
    |rest| < |items| && rest == items[|items| - |rest|..]
  }

  lemma {:induction false} ProperSuffixTrans<E>(a: seq<Item<E>>, b: seq<Item<E>>, c: seq<Item<E>>)
    requires ProperSuffix(a, b) && ProperSuffix(b, c)
    ensures ProperSuffix(a, c)
  {
    assert c[|c| - |b|..][|b| - |a|..] == c[|c| - |a|..];
  }

  function ToItems<E>(ts: seq<Token>): (r: seq<Item<E>>)
    ensures |r| == |ts| && forall i :: 0 <= i < |ts| ==> r[i] == Tok(ts[i])
  {
    if ts == [] then [] else [Tok(ts[0])] + ToItems(ts[1..])
  }

  lemma {:induction false} ToItemsConcat<E>(a: seq<Token>, b: seq<Token>)
    ensures ToItems<E>(a + b) == ToItems<E>(a) + ToItems<E>(b)
  {
    assert ToItems<E>(a + b) == ToItems<E>(a) + ToItems<E>(b) by {
      assert |ToItems<E>(a + b)| == |ToItems<E>(a) + ToItems<E>(b)|;
      forall i | 0 <= i < |a| + |b|
        ensures ToItems<E>(a + b)[i] == (ToItems<E>(a) + ToItems<E>(b))[i]
      {
      }
    }
  }

  /** One more token in front of a stream of tokens and its end. */
  lemma {:induction false} ToItemsCons<E>(t: Token, ts: seq<Token>, tail: seq<Item<E>>)
    ensures [Tok(t)] + (ToItems<E>(ts) + tail) == ToItems<E>([t] + ts) + tail
  {
    ToItemsConcat<E>([t], ts);
    assert ToItems<E>([t]) == [Tok(t)];
  }

  /** The items of two token sequences in turn, in front of a stream. */
  lemma {:induction false} ToItemsAppend<E>(a: seq<Token>, b: seq<Token>, tail: seq<Item<E>>)
    ensures ToItems<E>(a + b) + tail == ToItems<E>(a) + (ToItems<E>(b) + tail)
  {
    ToItemsConcat<E>(a, b);
  }

  lemma {:induction false} ItemsOfThree<E>(t: Token, a: seq<Token>, b: seq<Token>, rest: seq<Item<E>>)
    ensures ToItems<E>([t] + a + b) + rest == [Tok(t)] + (ToItems<E>(a) + (ToItems<E>(b) + rest))
  {
    ToItemsConcat<E>([t] + a, b);
    ToItemsConcat<E>([t], a);
  }

  /** A non-final token put in front of a stream leaves it a stream. */
  lemma {:induction false} StreamCons<E>(t: Token, items: seq<Item<E>>)
    requires Lexeme(t) && t.kind != EOF && WellFormed(items)
    ensures WellFormed([Tok(t)] + items)
  {
    var r := [Tok(t)] + items;
    forall i | 0 < i < |r|
      ensures r[i] == items[i - 1]
    {
    }
  }

  /** Non-final tokens put in front of a stream leave it a stream. */
  lemma {:induction false} StreamAfter<E>(ts: seq<Token>, rest: seq<Item<E>>)
    requires forall i :: 0 <= i < |ts| ==> Lexeme(ts[i]) && ts[i].kind != EOF
    requires WellFormed(rest)
    ensures WellFormed(ToItems<E>(ts) + rest)
  {
    if ts == [] {
      assert ToItems<E>(ts) + rest == rest;
    } else {
      StreamAfter(ts[1..], rest);
      StreamCons(ts[0], ToItems<E>(ts[1..]) + rest);
      assert ToItems<E>(ts) + rest == [Tok(ts[0])] + (ToItems<E>(ts[1..]) + rest);
    }
  }
}
