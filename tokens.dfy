/** The `TokenType` enumeration and the `Token` record shared by the lexers
    of the course (3_ParsingArithExp/Lexer.py, 4_bottomUp/Lexer.py and the
    1_ArithLexing lexers), plus Python's `int(text)` and `str(n)` on
    decimal text. */
module Tokens {
  /** Every kind any of the lexers produces; `VAR` only comes from
      1_ArithLexing/Lexer1.py, `LPR`/`RPR` only from the later lexers. */
  datatype Kind = EOF | NLN | WSP | NUM | LPR | RPR | ADD | SUB | MUL | DIV | VAR

  datatype Token = Token(text: string, kind: Kind)

  /** The end-of-input token: empty text, kind `EOF`. */
  const EofToken := Token("", EOF)

  /** The tokens `getToken` makes of '(' and ')'. */
  const LeftParen := Token("(", LPR)
  const RightParen := Token(")", RPR)

  /** ASCII digits. Python's `isdigit` also accepts other Unicode digits;
      those are not modelled. */
  predicate IsDigit(c: char) { '0' <= c <= '9' }

  predicate AllDigits(s: string) { forall i :: 0 <= i < |s| ==> IsDigit(s[i]) }

  /** White space and new line: the kinds `next_valid_token` skips. */
  predicate IsBlank(k: Kind) { k == WSP || k == NLN }

  /** `Token.operators`: the four arithmetic operator kinds. */
  predicate IsOperator(k: Kind) { k == ADD || k == SUB || k == MUL || k == DIV }

  function DigitValue(c: char): (d: nat)
    requires IsDigit(c)
    ensures d < 10
  {
    (c as int) - ('0' as int)
  }

  function DigitChar(d: nat): (c: char)
    requires d < 10
    ensures IsDigit(c) && DigitValue(c) == d
  {
    (d + '0' as int) as char
  }

  /** Python's `int(text)` on a string of ASCII digits. */
  function DecimalValue(s: string): nat
    requires AllDigits(s)
  {
    if s == [] then 0 else DecimalValue(s[..|s| - 1]) * 10 + DigitValue(s[|s| - 1])
  }

  /** Python's `str(n)` for a natural number: digits without leading zeros. */
  function DecimalText(n: nat): (s: string)
    ensures s != [] && AllDigits(s)
    ensures DecimalValue(s) == n
    ensures |s| > 1 ==> s[0] != '0'
  {
    if n < 10 then [DigitChar(n)]
    else
      var s := DecimalText(n / 10) + [DigitChar(n % 10)];
      assert s[..|s| - 1] == DecimalText(n / 10);
      s
  }

  /** Python's `str(i)` for any integer: a leading '-' for negatives. */
  function IntText(i: int): (s: string)
    ensures s != []
    ensures i >= 0 <==> s[0] != '-'
  {
    if i >= 0 then DecimalText(i) else "-" + DecimalText(-i)
  }
}
