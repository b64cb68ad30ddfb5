# DCC053 compilers course, modelled in Dafny

This project models the executable core of a compilers course in Dafny and proves properties of it. The course code is a series of small Python interpreters and parsers plus a handful of C programs. Each Dafny module follows one source file, or one group of files that hold the same code.

The front ends:

- `Tokens`, `Streams`, `Lexer`, `ArithLexer`, `VarLexer` and `StackCalc` model the lexers of `3_ParsingArithExp`, `4_bottomUp` and `1_ArithLexing`.
  - `getToken`, `next_valid_token` and `tokens` are methods on a `Lexer` class with a mutable `position`.
  - Each is proved against a pure scanning function.
  - `StackCalc` holds the postfix stack machine and the prefix evaluator.
- `Exp`, `Prefix`, `InfixTrees`, `Parser1`, `Parser2` and `Parser3` model the expression trees, `compute_prefix` / `parse_infix`, and the three recursive-descent infix parsers.
  - The parsers are classes that consume a shared lexer.
  - Their methods are proved against grammar functions over the token stream.
  - What is proved about them: round trips through the printers, associativity and precedence.
- `Parens`, `Dick`, `LlLhpl`, `LrFer`, `LrLhpl` and `Recognisers` model the parenthesis recognisers of `4_bottomUp`.
  - Their languages are characterised exactly by depth counting.
  - They are compared with one another.

The interpreters:

- `ArithNodes`, `ArithClasses`, `LetLang`, `TypedLang`, `FieldChecker`, `Inference`, `DynamicScope`, `Closures`, `RecPrograms`, `Aggregates` and `MemoryClassifier` model the interpreters, printers, visitors, type checkers, type propagators and function calculi of `2_ArithRepresentation` to `19_MemoryAllocation`.
  - Evaluators are functions that return `Result` values. A raised exception or `sys.exit` becomes a failure.
  - The two function calculi take a fuel bound on recursion depth.

The C programs:

- `HeapLayout`, `HeapV1`, `HeapV2` and `HeapV3` model the three first-fit allocators of `21_HeapAllocation`.
  - A class holds the heap as an array of headers indexed by byte offset, plus a ghost list of blocks.
  - Every operation is proved to turn that list into a specification function of the old list.
  - The specification functions keep the tiling invariant: headers plus payloads add up to `HEAP_SIZE`.
- `Restrict`, `FactorialLoop`, `FunctionFact`, `Gcd`, `Collatz`, `SizeList` and `Creatures` model the remaining routines: the loops of `restrict.c`, `fact`, `dy_fact`, `gcd`, `collatz`, the bounded `List` of `size_oo.cpp`, and the function-pointer objects of the two `Inherit*` files.

Some source files repeat others, and one member models every copy; the table cites one copy:

- `getToken` of 4_bottomUp/Lexer.py:168-210 is the `getToken` of 3_ParsingArithExp/Lexer.py:200-233, written as an if-chain over the same characters (`Lexer.Scan`).
- `parse_infix` of 3_ParsingArithExp/Parser0.py:5-54 repeats `compute_prefix` of 3_ParsingArithExp/Lexer.py:271-293 line for line (`Prefix.ComputePrefix`).
- 6_VarBiding/Exp2.py and 6_LetBinding/Exp2.py hold the same `let` language (`LetLang`).

Sources are cited below by path and line, relative to the repository root.

## Model

| member | source | states |
|---|---|---|
| Lexer.DigitRunEnd | 3_ParsingArithExp/Lexer.py:206-216 | the digit loop stops at the end of the input or at the first non-digit, and every character it passed is a digit |
| Lexer.Scan | 3_ParsingArithExp/Lexer.py:200-233 | `getToken`: at the end, EOF with empty text and the position unchanged; a digit starts a NUM token that is the maximal digit run; a character of the table gives its one-character token and moves one step; any other character is an error after the position has moved past it; the token's text is exactly the input consumed |
| Lexer.NextValid | 3_ParsingArithExp/Lexer.py:116-121 | `next_valid_token` never returns a blank token; EOF comes only at the end of the input; otherwise the position moves forward and stays within the input |
| Lexer.Items | 3_ParsingArithExp/Lexer.py:88-121 | the results of successive `next_valid_token` calls form a stream: non-blank tokens ended by one EOF or one lexical error |
| Lexer.NextItem | 3_ParsingArithExp/Lexer.py:200-201 | one `next_valid_token` call reads the first item of that stream and leaves the lexer at the rest; once at EOF, further calls keep returning EOF |
| Lexer.ReadAdvances | 3_ParsingArithExp/Lexer.py:116-121 | a call that returns a token leaves the lexer at the stream that follows it |
| Lexer.AfterToken | 3_ParsingArithExp/Lexer.py:150-156 | one turn of the generator loop yields the token unless it is blank, then whatever the next `getToken` calls yield |
| Lexer.ItemsAgreeWithTokens | 3_ParsingArithExp/Lexer.py:150-156 | calling `next_valid_token` until EOF sees exactly the tokens `tokens()` yields, in the same order, and then the same end (EOF or the same lexical error) |
| Lexer.YieldedKept | 3_ParsingArithExp/Lexer.py:150-156 | what the generator yields from a position is the first non-blank token followed by what it yields after it |
| Lexer.YieldedConcat | 3_ParsingArithExp/Lexer.py:150-156 | the tokens of a concatenation are the tokens of each part, in order, when the first part lexes without error and no number straddles the junction |
| Lexer.YieldedDigits | 3_ParsingArithExp/Lexer.py:206-216 | a non-empty run of digits lexes as exactly one NUM token |
| Lexer.YieldedSingle | 3_ParsingArithExp/Lexer.py:219-233 | each table character lexes as its one-character token, dropped by `tokens()` when blank |
| Lexer.YieldedNonBlank | 3_ParsingArithExp/Lexer.py:150-156 | `tokens()` never yields a blank token or EOF |
| Lexer.TokensOfParenthesised | 4_bottomUp/Lexer.py:138-140 | the doctest: "(3 + 2)" yields '(', '3', '+', '2', ')' and no error |
| Lexer.NextValidSkipsBlanks | 4_bottomUp/Lexer.py:114-119 | the doctest: on "  2 + 3 " the first call skips the blanks and returns '2', the next returns '+' |
| Lexer.ItemsOfOneTwoPlus | 3_ParsingArithExp/Lexer.py:102-113 | the doctest: on "1 2 +" successive calls return '1', '2', '+', then EOF |
| Lexer.Lexer.constructor | 3_ParsingArithExp/Lexer.py:84-86 | the lexer starts at position 0 of its input |
| Lexer.Lexer.GetToken | 3_ParsingArithExp/Lexer.py:198-233 | the method with its digit loop returns the token `Scan` describes and leaves the position where `Scan` says |
| Lexer.Lexer.NextValidToken | 3_ParsingArithExp/Lexer.py:116-121 | the recursive method agrees with `NextValid`, token and position |
| Lexer.Lexer.Tokens | 3_ParsingArithExp/Lexer.py:150-156 | the generator run to completion yields what `Yielded` says and raises the error it says |
| Lexer.Yielded | 3_ParsingArithExp/Lexer.py:150-156 | what `tokens()` yields and the error it ends with; `YieldedNonBlank` proves it yields no blank and no EOF, and `YieldedConcat` that the tokens of a concatenation at a token boundary are the concatenated tokens |
| Prefix.OpOf | 4_bottomUp/Lexer.py:251-258 | each operator token selects the node of its own symbol: ADD gives `+`, SUB `-`, MUL `*`, DIV `/` |
| Prefix.KindOf | 3_ParsingArithExp/Lexer.py:283-288 | every node operator comes from exactly one operator token kind, and `OpOf` takes it back |
| Prefix.Parse | 3_ParsingArithExp/Lexer.py:271-293 | `compute_prefix` over the token stream consumes at least one item when it succeeds and leaves a stream behind |
| Prefix.ComputePrefix | 3_ParsingArithExp/Lexer.py:271-293 | the recursive method on the shared lexer returns the tree `Parse` returns, or its error (an unexpected token kind or the lexer's error), and leaves the lexer at the items `Parse` leaves unread |
| Prefix.PrefixTokens | 4_bottomUp/Exp.py:264-267 | the tokens of a tree in prefix order are all well-formed lexemes, none of them EOF |
| Prefix.LexPrefixNode | 4_bottomUp/Exp.py:264-267 | the text `print_prefix` writes for a node lexes as the operator's token followed by its operands' tokens |
| Prefix.LexPrintPrefix | 4_bottomUp/Lexer.py:142-146 | the lexer reads back from `print_prefix` of a tree with non-negative literals exactly its prefix-order tokens, without error |
| Prefix.ParsePrefixTokens | 4_bottomUp/Lexer.py:240-261 | parsing the prefix tokens of a tree followed by any stream gives back the tree and leaves that stream unread |
| Prefix.PrefixRoundTrip | 4_bottomUp/Lexer.py:240-261 | `compute_prefix` undoes `print_prefix`: for every tree whose literals are non-negative it rebuilds the printed tree and leaves only EOF |
| Prefix.PrefixExampleEleven | 3_ParsingArithExp/Lexer.py:260-263 | the doctest: "+ 3 * 4 2" parses to 3 + (4 * 2), which evaluates to 11 |
| Prefix.PrefixExampleFourteen | 3_ParsingArithExp/Parser0.py:26-29 | the doctest of `parse_infix`, which repeats `compute_prefix`: "+ * 3 4 2" parses to (3 * 4) + 2, which evaluates to 14 |
| Exp.FloorDivIsFloor | 4_bottomUp/Exp.py:208 | Python's `//` rounds towards minus infinity for every sign of dividend and divisor |
| Exp.Apply | 4_bottomUp/Exp.py:91-208 | applying an operator to two values fails exactly when it divides by zero |
| Exp.DivFreeEvaluates | 4_bottomUp/Exp.py:76-78 | only a division by zero can make `eval` fail |
| Exp.Symbol | 4_bottomUp/Exp.py:102-219 | `__str__` of a binary node is one character, its operator |
| Exp.EvalExamples | 4_bottomUp/Exp.py:194-238 | the doctests of `eval` and `evaluate`: 28 / 4 is 7, 22 / 4 is 5, 7 * 4 is 28, a number prints its value and a division prints "/" |
| Exp.PrintNode | 4_bottomUp/Exp.py:264-267 | `print_prefix` of a node is its operator, then its children's texts, separated by spaces |
| Exp.InfixNode | 4_bottomUp/Exp.py:292-295 | `print_infix` of a node is "(left) op (right)" |
| Exp.PostfixNode | 4_bottomUp/Exp.py:320-323 | `print_postfix` of a node is its children's texts, then its operator |
| Exp.PrintLeaf | 4_bottomUp/Exp.py:49-50 | a number prints as its decimal text under all three printers |
| Exp.PrefixExampleSmall | 4_bottomUp/Exp.py:247-253 | the doctest: (28 / 4) * 5 prints "* / 28 4 5" and evaluates to 35 |
| Exp.InfixExampleSmall | 4_bottomUp/Exp.py:275-281 | the doctest: (28 / 4) * 5 prints "((28) / (4)) * (5)" |
| Exp.PostfixExampleSmall | 4_bottomUp/Exp.py:303-309 | the doctest: (28 / 4) * 5 prints "28 4 / 5 *" |
| Exp.PrefixExampleShared | 4_bottomUp/Exp.py:255-262 | the doctest: (50 / (28 / 4)) * (28 / 4) prints "* / 50 / 28 4 / 28 4" and evaluates to 49 |
| Exp.InfixExampleShared | 4_bottomUp/Exp.py:283-290 | the doctest: the same tree prints "((50) / ((28) / (4))) * ((28) / (4))" |
| Exp.PostfixExampleShared | 4_bottomUp/Exp.py:311-318 | the doctest: the same tree prints "50 28 4 / / 28 4 / *" |
| Exp.NestedExamples | 6_LetBinding/Exp1.py:142-148 | the doctests on nested nodes: 5 + (3 + 4) is 12, 5 - (3 - 4) is 6, (3 + 4) * (3 * 4) is 84 and (0 - 10) / (0 - 5) is 2 |
| Tokens.DecimalText | 4_bottomUp/Exp.py:49-50 | Python's `str(n)` of a natural number is a non-empty run of digits without a leading zero, which `int()` reads back as n |
| Tokens.IntText | 6_LetBinding/Exp1.py:59-68 | `str(i)` of an integer starts with '-' exactly when i is negative |
| ArithLexer.Scan | 1_ArithLexing/Lexer.py:78-123 | this `getToken`: EOF at the end; a digit starts a maximal NUM run; an operator is its one-character token; a blank is its token and one step, except that a blank in the last position gives EOF; the position never moves back or past the end |
| ArithLexer.NextKnown | 1_ArithLexing/Lexer.py:120-123 | the first position from which `getToken` stops skipping: every character before it has no branch |
| ArithLexer.ScanSkipsUnknown | 1_ArithLexing/Lexer.py:120-123 | an unknown character (a parenthesis, a letter) is skipped silently: `getToken` returns what it returns at the next known character and raises nothing |
| ArithLexer.NextValid | 1_ArithLexing/Lexer.py:57-60 | `next_valid_token` never returns a blank; EOF only at the end of the input |
| ArithLexer.Yielded | 1_ArithLexing/Lexer.py:66-69 | `tokens()` yields only numbers and operators, all well-formed |
| ArithLexer.Items | 1_ArithLexing/Lexer.py:57-60 | successive `next_valid_token` results form a stream ended by EOF |
| ArithLexer.ItemsAreYielded | 1_ArithLexing/Lexer.py:66-69 | `tokens()` yields exactly what `next_valid_token` returns before EOF |
| ArithLexer.ScanAgrees | 1_ArithLexing/Lexer.py:96-118 | on a digit or an operator this lexer returns the token the lexer of 3_ParsingArithExp returns, at the same position |
| ArithLexer.YieldedAgrees | 1_ArithLexing/Lexer.py:84-93 | on text of digits, operators and blanks this generator yields what the later lexer's yields: EOF in place of a final blank makes no difference once blanks are dropped |
| ArithLexer.PrintedIsPlain | 4_bottomUp/Exp.py:264-267 | `print_prefix` and `print_postfix` write only digits, operators and spaces for trees without negative literals |
| ArithLexer.PostfixOfPrinted | 1_ArithLexing/Lexer.py:140-166 | `compute_postfix` on what `print_postfix` writes is `evaluate` of the tree, or ZeroDivisionError where `evaluate` divides by zero |
| ArithLexer.ItemsOfPrinted | 1_ArithLexing/Lexer.py:57-60 | this lexer reads back from `print_prefix` the tree's tokens in prefix order, then EOF |
| ArithLexer.PrefixOfPrinted | 1_ArithLexing/Lexer.py:183-205 | `compute_prefix` on what `print_prefix` writes is `evaluate` of the tree, and it reads the whole input |
| ArithLexer.PostfixExampleOne | 1_ArithLexing/Lexer.py:132-134 | the doctest: "3 4 + 2 * 7 /" gives 2 |
| ArithLexer.PostfixExampleTwo | 1_ArithLexing/Lexer.py:136-138 | the doctest: "4 2 5 * + 1 3 2 * + /" gives 2 |
| ArithLexer.PrefixExampleEleven | 1_ArithLexing/Lexer.py:175-177 | the doctest: "+ 3 * 4 2" gives 11 |
| ArithLexer.PrefixExampleFourteen | 1_ArithLexing/Lexer.py:179-181 | the doctest: "+ * 3 4 2" gives 14 |
| ArithLexer.Lexer.constructor | 1_ArithLexing/Lexer.py:49-51 | the lexer starts at position 0 |
| ArithLexer.Lexer.GetToken | 1_ArithLexing/Lexer.py:78-123 | the method returns the token `Scan` describes and leaves the position where it says |
| ArithLexer.Lexer.NextValidToken | 1_ArithLexing/Lexer.py:57-60 | the recursive method agrees with `NextValid` |
| ArithLexer.Lexer.Tokens | 1_ArithLexing/Lexer.py:66-69 | the generator run to completion yields `Yielded` |
| ArithLexer.PendingStep | 1_ArithLexing/Lexer.py:66-69 | what the generator yields is the token `next_valid_token` returns, unless EOF, then the rest |
| ArithLexer.ComputePostfix | 1_ArithLexing/Lexer.py:140-166 | the loop over `tokens()` returns what the stack machine `PostfixResult` gives on the yielded tokens |
| ArithLexer.ComputePrefix | 1_ArithLexing/Lexer.py:183-205 | the recursive method returns `PrefixValue` of the stream, or its error, and leaves the lexer at what it did not read |
| StackCalc.RunToken | 1_ArithLexing/Lexer.py:144-161 | one loop body: a number is pushed; an operator with fewer than two values raises; otherwise it pops b, then a, and pushes a op b, raising ZeroDivisionError for b = 0 |
| StackCalc.PostfixCons | 1_ArithLexing/Lexer.py:143-161 | the loop over one more token runs that token's body first, and stops at its error |
| StackCalc.PostfixTokens | 4_bottomUp/Exp.py:320-323 | the postfix tokens of a tree are well-formed and none is EOF |
| StackCalc.PostfixApply | 1_ArithLexing/Lexer.py:149-161 | an operator with both operands on top of the stack replaces them by a op b, or raises ZeroDivisionError |
| StackCalc.PostfixComputesEval | 1_ArithLexing/Lexer.py:143-161 | the machine run over a tree's postfix tokens pushes the tree's value, or raises ZeroDivisionError where `eval` divides by zero |
| StackCalc.LexPrintPostfix | 4_bottomUp/Exp.py:320-323 | the lexer reads back from `print_postfix` exactly the tree's postfix tokens |
| StackCalc.PostfixDoctestOne | 1_ArithLexing/Lexer.py:132-134 | "3 4 + 2 * 7 /" is what `print_postfix` writes for ((3 + 4) * 2) / 7, whose value is 2 |
| StackCalc.PostfixDoctestTwo | 1_ArithLexing/Lexer.py:136-138 | "4 2 5 * + 1 3 2 * + /" is what `print_postfix` writes for (4 + 2 * 5) / (1 + 3 * 2), whose value is 2 |
| StackCalc.PostfixResultIsEval | 1_ArithLexing/Lexer.py:140-166 | `compute_postfix` on the postfix tokens of a tree is `evaluate` of the tree |
| StackCalc.PostfixStackErrors | 1_ArithLexing/Lexer.py:147-164 | "3 +" raises "Insufficient values"; "3 4" and an empty input raise "too many values" |
| StackCalc.PrefixValue | 1_ArithLexing/Lexer.py:183-205 | `compute_prefix` consumes input when it succeeds and leaves a stream behind |
| StackCalc.PrefixValueIsEvalOfParse | 1_ArithLexing/Lexer.py:183-205 | the evaluator is the tree parser of 3_ParsingArithExp followed by `eval`: the same value, ZeroDivisionError where `eval` fails, and an error where the parser fails |
| Exp.Eval | 4_bottomUp/Exp.py:46-208 | `eval`: a number is its value, a binary node applies its operator to both values, left first; `DivFreeEvaluates` and `Apply` state that only a division by zero fails, `EvalExamples` the doctests |
| Exp.Str | 4_bottomUp/Exp.py:49-219 | `__str__`: a number prints its decimal text, a binary node only its operator; `Symbol` and `PrintLeaf` state the two cases |
| Exp.PrintPrefix | 4_bottomUp/Exp.py:242-267 | `print_prefix`: the operator, then the two children's texts, separated by blanks; `PrintNode` states it node by node and `Prefix.PrefixRoundTrip` proves the parser reads it back |
| Exp.PrintInfix | 4_bottomUp/Exp.py:270-295 | `print_infix`: "(left) op (right)"; `InfixNode` states it node by node and `ArithClasses.PrintInfixCorrected` is proved equal to it |
| Exp.PrintPostfix | 4_bottomUp/Exp.py:298-323 | `print_postfix`: the two children's texts, then the operator; `PostfixNode` states it node by node and `StackCalc.PostfixResultIsEval` proves the stack machine evaluates it |
| Exp.FloorDiv | 4_bottomUp/Exp.py:208 | Python's `//` on a non-zero divisor; `FloorDivIsFloor` proves the quotient is rounded towards minus infinity for every sign |
| VarLexer.KeyWordToken | 1_ArithLexing/Lexer1.py:47-68 | `key_word_token`: "add" and "sub" become the one-character ADD and SUB tokens; every other word is a VAR token carrying its own text, and only then |
| VarLexer.KeyWordExamples | 1_ArithLexing/Lexer1.py:53-60 | the three doctests of `key_word_token`: "add" gives "+", "sub" gives "-", "x" gives "x" |
| VarLexer.AlnumRunEnd | 1_ArithLexing/Lexer1.py:158-164 | the identifier loop stops at the first character that is not a letter or digit, and everything it consumed is one |
| VarLexer.Scan | 1_ArithLexing/Lexer1.py:140-186 | `getToken` with identifiers (as evidently intended, see Findings): EOF at the end; a maximal digit run is a NUM; a letter starts a maximal alphanumeric word handed to `key_word_token`; the four operators, blank and newline are one-character tokens; anything else raises "Unexpected character"; the position always moves forward, never past the end |
| VarLexer.AsWrittenFailsOnLetters | 1_ArithLexing/Lexer1.py:157-165 | the code as written returns `key_word_token(tokText)`, an unbound name: it fails exactly when the token starts with a letter, consumes the same characters, and otherwise agrees with the corrected scanner |
| VarLexer.AddKeywordExample | 1_ArithLexing/Lexer1.py:157-165 | on "add" the code as written raises NameError where the corrected scanner yields the ADD token "+" |
| VarLexer.NextValid | 1_ArithLexing/Lexer1.py:97-110 | `next_valid_token` never returns a blank or newline token; EOF comes only at the end of the input; otherwise the position advances |
| VarLexer.Items | 1_ArithLexing/Lexer1.py:97-110 | the successive results of `next_valid_token` up to EOF or the first error form a well-formed item stream |
| VarLexer.Yielded | 1_ArithLexing/Lexer1.py:112-127 | `tokens()` yields only well-formed tokens that are neither EOF nor blanks |
| VarLexer.ItemsAgreeWithTokens | 1_ArithLexing/Lexer1.py:97-127 | `tokens()` yields exactly what repeated `next_valid_token` calls return before EOF, ending with EOF or with the same error |
| VarLexer.ScanAgrees | 1_ArithLexing/Lexer1.py:140-186 | on a digit, operator or blank this lexer returns the same token and position as the arithmetic lexer of 3_ParsingArithExp |
| VarLexer.YieldedAgrees | 1_ArithLexing/Lexer1.py:112-127 | on input made only of digits, operators and blanks, `tokens()` yields the same stream as the arithmetic lexer and no error |
| VarLexer.PostfixOfPrinted | 1_ArithLexing/Lexer1.py:189-255 | `compute_postfix` applied to the postfix printing of any expression without negative literals returns the expression's value, or ZeroDivisionError exactly when evaluation divides by zero |
| VarLexer.ItemsOfPrinted | 1_ArithLexing/Lexer1.py:97-110 | lexing the prefix printing of an expression yields exactly its prefix token sequence followed by EOF |
| VarLexer.PrefixOfPrinted | 1_ArithLexing/Lexer1.py:258-310 | `compute_prefix` applied to the prefix printing of any expression without negative literals returns its value and leaves only EOF, or fails with ZeroDivisionError exactly when evaluation divides by zero |
| VarLexer.PostfixExampleOne | 1_ArithLexing/Lexer1.py:211-213 | doctest: "3 4 + 2 * 7 /" evaluates to 2 |
| VarLexer.PostfixExampleTwo | 1_ArithLexing/Lexer1.py:215-217 | doctest: "4 2 5 * + 1 3 2 * + /" evaluates to 2 |
| VarLexer.PrefixExampleEleven | 1_ArithLexing/Lexer1.py:279-281 | doctest: "+ 3 * 4 2" evaluates to 11 |
| VarLexer.PrefixExampleFourteen | 1_ArithLexing/Lexer1.py:283-285 | doctest: "+ * 3 4 2" evaluates to 14 |
| VarLexer.PostfixRejectsVariable | 1_ArithLexing/Lexer1.py:248-249 | a VAR token reaching `compute_postfix` raises "Unexpected token type" |
| VarLexer.Lexer.constructor | 1_ArithLexing/Lexer1.py:86-95 | a new lexer holds the input and starts at position 0 |
| VarLexer.Lexer.GetToken | 1_ArithLexing/Lexer1.py:129-186 | the loop-based `getToken` returns the token and new position that `Scan` specifies |
| VarLexer.Lexer.ReadNumber | 1_ArithLexing/Lexer1.py:146-155 | the digit loop stops at the end of the maximal digit run and returns that run as a NUM token, as `Scan` specifies |
| VarLexer.Lexer.ReadWord | 1_ArithLexing/Lexer1.py:157-165 | the word loop stops at the end of the maximal run of letters and digits and returns the word's keyword token, as `Scan` specifies |
| VarLexer.Lexer.NextValidToken | 1_ArithLexing/Lexer1.py:97-110 | `next_valid_token` returns and advances as `NextValid` specifies |
| VarLexer.Lexer.Tokens | 1_ArithLexing/Lexer1.py:112-127 | the generator's whole output is `Yielded` of the input from the starting position |
| VarLexer.ComputePostfix | 1_ArithLexing/Lexer1.py:189-255 | the stack loop returns what the postfix specification gives for the yielded tokens: pushes numbers, applies operators to the top two values, raises on too few values, division by zero, a bad token, or more than one value left |
| VarLexer.ComputePrefix | 1_ArithLexing/Lexer1.py:258-310 | the recursive evaluator returns the prefix specification's value and leaves the lexer just after the consumed tokens, or fails with its error |
| InfixTrees.CompleteEmbed | 3_ParsingArithExp/Parser2.py:126-150 | a parse tree built without any missing factor (`F` returning `None`) stands for exactly the expression it was built from |
| InfixTrees.EmbedComplete | 3_ParsingArithExp/Parser2.py:126-150 | conversely, a parse tree holding no `None` is the tree of the expression it stands for |
| InfixTrees.Eat | 3_ParsingArithExp/Parser1.py:62-66 | `eat(kind)` succeeds exactly when the current token has that kind, then moves to the next valid token (EOF stays at EOF); a lexical error surfaces as that error, any other token raises "Unexpected token" naming its kind |
| InfixTrees.LexPrintInfix | 4_bottomUp/Exp.py:292-295 | the lexer reads back the text of `print_infix(e)` as exactly the tree's fully parenthesised token sequence, with no error |
| InfixTrees.ItemsOfPrintInfix | 4_bottomUp/Exp.py:292-295 | the parsers' token stream for `print_infix(e)` is that token sequence followed by EOF |
| InfixTrees.MulRun | 3_ParsingArithExp/Parser3.py:136-168 | the products at the front of an operator chain end at the first `+` or `-`, or at the end of the chain |
| InfixTrees.SumFromAdditive | 3_ParsingArithExp/Parser3.py:88-121 | on a chain of only `+` and `-`, grouping by precedence is plain left grouping |
| InfixTrees.LeftChainUniform | 3_ParsingArithExp/Parser3.py:74-168 | the left-grouping precedence reading of a chain with a single precedence level is the left fold ((n0 op n1) op n2)... |
| InfixTrees.RightChainUniform | 3_ParsingArithExp/Parser2.py:66-124 | the right-grouping precedence reading of a chain with a single precedence level is the right fold n0 op (n1 op (n2 ...)) |
| InfixTrees.MulRunAll | 3_ParsingArithExp/Parser3.py:136-168 | a chain of only `*` and `/` is one product |
| InfixTrees.LexChain | 3_ParsingArithExp/Parser3.py:27-60 | the lexer reads a chain written like the doctests ("2 + 3 + 4", "2 - 3 - 4") as its numbers and operators, with no error |
| InfixTrees.LexBinary | 3_ParsingArithExp/Parser3.py:39-48 | the lexer reads a binary doctest text such as "(2 + 3) * 4" as its operands' tokens around the operator |
| Parser1.ParseE | 3_ParsingArithExp/Parser1.py:68-93 | `E()` on a number or '(' E ')' hands the result to `F`; on anything else it returns `None` without consuming; the stream it leaves is a suffix of the one it was given |
| Parser1.ParseF | 3_ParsingArithExp/Parser1.py:95-138 | `F(left)` builds a node over `left` for each operator and the `E` after it, and stops at any other token; it only ever consumes |
| Parser1.ContinuationStops | 3_ParsingArithExp/Parser1.py:136-138 | at ')' or EOF `F` returns its argument and consumes nothing |
| Parser1.MissingOperand | 3_ParsingArithExp/Parser1.py:80-93 | at ')' or EOF `E` returns `None` and consumes nothing |
| Parser1.Continue | 3_ParsingArithExp/Parser1.py:117-135 | an operator followed by an expression that reads up to ')' or EOF makes one node over `left` with that expression on the right |
| Parser1.ParseInfixItems | 3_ParsingArithExp/Parser1.py:68-138 | the token stream of `print_infix(e)`, followed by ')' or EOF, parses back as exactly `e` and consumes exactly its tokens |
| Parser1.PrintInfixRoundTrip | 3_ParsingArithExp/Parser1.py:68-138 | `Parser(Lexer(print_infix(e))).E()` returns the tree of `e` and stops at EOF, for every tree without negative literals |
| Parser1.ParseChain | 3_ParsingArithExp/Parser1.py:95-138 | a chain without parentheses is grouped to the right whatever its operators: n0 op1 (n1 op2 (n2 ...)) |
| Parser1.ParseBinary | 3_ParsingArithExp/Parser1.py:68-138 | two operands (a number or a parenthesised chain) around one operator make one node |
| Parser1.DoctestSum | 3_ParsingArithExp/Parser1.py:21-25 | doctest: "2 + 3 + 4" parses as 2 + (3 + 4), which evaluates to 9 |
| Parser1.DoctestProduct | 3_ParsingArithExp/Parser1.py:27-31 | doctest: "2 * 3 * 4" evaluates to 24 |
| Parser1.DoctestGroupTimes | 3_ParsingArithExp/Parser1.py:33-37 | doctest: "(2 + 3) * 4" evaluates to 20 |
| Parser1.DoctestTimesGroup | 3_ParsingArithExp/Parser1.py:39-43 | doctest: "4 * (2 + 3)" evaluates to 20 |
| Parser1.DoctestGroupPlus | 3_ParsingArithExp/Parser1.py:45-49 | doctest: "(2 * 3) + 4" evaluates to 10 |
| Parser1.DoctestGroupsMinus | 3_ParsingArithExp/Parser1.py:51-55 | doctest: "(2 - 3) - (4 - 10)" evaluates to 5 |
| Parser1.NoPrecedence | 3_ParsingArithExp/Parser1.py:95-138 | the grammar has no precedence: "2 * 3 + 4" is read as 2 * (3 + 4), value 14 |
| Parser1.Parser.constructor | 3_ParsingArithExp/Parser1.py:58-60 | `__init__` keeps the lexer and reads the first valid token; what is left to read is the lexer's whole item stream |
| Parser1.Parser.Eat | 3_ParsingArithExp/Parser1.py:62-66 | the method `eat` does what `InfixTrees.Eat` specifies to the stream still to be read |
| Parser1.Parser.E | 3_ParsingArithExp/Parser1.py:68-93 | the method `E` returns the tree, or raises the error, that `ParseE` gives, and leaves unread exactly what `ParseE` leaves |
| Parser1.Parser.F | 3_ParsingArithExp/Parser1.py:95-138 | the method `F` returns and consumes what `ParseF` specifies |
| Parser2.ParseE | 3_ParsingArithExp/Parser2.py:66-94 | `E()`: a term, then optionally '+' or '-' and another expression as right child; it only ever consumes |
| Parser2.ParseT | 3_ParsingArithExp/Parser2.py:96-124 | `T()`: a factor, then optionally '*' or '/' and another term as right child; it only ever consumes |
| Parser2.ParseF | 3_ParsingArithExp/Parser2.py:126-150 | `F()`: a number or '(' E ')'; any other token gives `None` with nothing consumed |
| Parser2.TermStop | 3_ParsingArithExp/Parser2.py:110-124 | a factor not followed by '*' or '/' is a whole term |
| Parser2.ExpressionStop | 3_ParsingArithExp/Parser2.py:80-94 | a term not followed by '+' or '-' is a whole expression |
| Parser2.ProductLink | 3_ParsingArithExp/Parser2.py:113-122 | a factor, '*' or '/', and a term make one product node |
| Parser2.SumLink | 3_ParsingArithExp/Parser2.py:83-92 | a term, '+' or '-', and an expression make one sum node |
| Parser2.GroupFactor | 3_ParsingArithExp/Parser2.py:146-150 | an expression between parentheses is a factor |
| Parser2.NodeOfFactors | 3_ParsingArithExp/Parser2.py:66-124 | two factors around any one operator, then ')' or EOF, make one node |
| Parser2.ParseInfixItems | 3_ParsingArithExp/Parser2.py:66-150 | the token stream of `print_infix(e)`, followed by ')' or EOF, parses back as exactly `e` and consumes exactly its tokens |
| Parser2.PrintInfixRoundTrip | 3_ParsingArithExp/Parser2.py:66-150 | `Parser(Lexer(print_infix(e))).E()` returns the tree of `e` and stops at EOF |
| Parser2.TermChain | 3_ParsingArithExp/Parser2.py:96-124 | `T` over a chain reads its leading run of `*` and `/` and groups it to the right |
| Parser2.ParseChain | 3_ParsingArithExp/Parser2.py:66-124 | a chain without parentheses is read with `*` and `/` binding tighter than `+` and `-`, each level grouped to the right |
| Parser2.RightAssociative | 3_ParsingArithExp/Parser2.py:80-94 | a chain of one precedence level groups to the right: "2 - 3 - 4" is 2 - (3 - 4) |
| Parser2.ParseBinary | 3_ParsingArithExp/Parser2.py:66-150 | two operands (a number or a parenthesised chain) around one operator make one node, whatever the operator's level |
| Parser2.DoctestSum | 3_ParsingArithExp/Parser2.py:19-23 | doctest: "2 + 3 + 4" evaluates to 9 |
| Parser2.DoctestProduct | 3_ParsingArithExp/Parser2.py:25-29 | doctest: "2 * 3 * 4" evaluates to 24 |
| Parser2.DoctestGroupTimes | 3_ParsingArithExp/Parser2.py:31-35 | doctest: "(2 + 3) * 4" evaluates to 20 |
| Parser2.DoctestTimesGroup | 3_ParsingArithExp/Parser2.py:37-41 | doctest: "4 * (2 + 3)" evaluates to 20 |
| Parser2.DoctestPrecedence | 3_ParsingArithExp/Parser2.py:43-47 | doctest: "2 * 3 + 4" takes the product first and evaluates to 10 |
| Parser2.DoctestDifference | 3_ParsingArithExp/Parser2.py:49-53 | "2 - 3 - 4" parses as 2 - (3 - 4), value 3, not the -5 the doctest expects (see Findings) |
| Parser2.Parser.constructor | 3_ParsingArithExp/Parser2.py:56-58 | `__init__` keeps the lexer and reads the first valid token |
| Parser2.Parser.Eat | 3_ParsingArithExp/Parser2.py:60-64 | the method `eat` does what `InfixTrees.Eat` specifies |
| Parser2.Parser.E | 3_ParsingArithExp/Parser2.py:66-94 | the method `E` returns and consumes what `ParseE` specifies |
| Parser2.Parser.T | 3_ParsingArithExp/Parser2.py:96-124 | the method `T` returns and consumes what `ParseT` specifies |
| Parser2.Parser.F | 3_ParsingArithExp/Parser2.py:126-150 | the method `F` returns and consumes what `ParseF` specifies |
| Parser3.ParseE | 3_ParsingArithExp/Parser3.py:74-86 | `E()`: a term, then its continuation `EE`; it only ever consumes |
| Parser3.ParseEE | 3_ParsingArithExp/Parser3.py:88-121 | `EE(left)`: each '+' or '-' and the term after it make a new node over `left`, to the left; any other token ends it |
| Parser3.ParseT | 3_ParsingArithExp/Parser3.py:123-134 | `T()`: a factor, then its continuation `TT` |
| Parser3.ParseTT | 3_ParsingArithExp/Parser3.py:136-168 | `TT(left)`: each '*' or '/' and the factor after it make a new node over `left`, to the left |
| Parser3.ParseF | 3_ParsingArithExp/Parser3.py:170-194 | `F()`: a number or '(' E ')'; any other token gives `None` with nothing consumed |
| Parser3.ContinuationsStop | 3_ParsingArithExp/Parser3.py:110-121 | `EE` and `TT` return their argument and consume nothing when no operator of their level comes next |
| Parser3.MissingFactor | 3_ParsingArithExp/Parser3.py:170-194 | at ')' or EOF, `F` and then `E` return `None` and consume nothing |
| Parser3.GroupFactor | 3_ParsingArithExp/Parser3.py:190-194 | an expression between parentheses is a factor |
| Parser3.ProductOfFactors | 3_ParsingArithExp/Parser3.py:136-168 | a factor, '*' or '/', a second factor, then ')' or EOF, make one product node |
| Parser3.SumOfFactors | 3_ParsingArithExp/Parser3.py:88-121 | a factor, '+' or '-', a second factor, then ')' or EOF, make one sum node |
| Parser3.ParseInfixItems | 3_ParsingArithExp/Parser3.py:74-194 | the token stream of `print_infix(e)`, followed by ')' or EOF, parses back as exactly `e` and consumes exactly its tokens |
| Parser3.PrintInfixRoundTrip | 3_ParsingArithExp/Parser3.py:74-194 | `Parser(Lexer(print_infix(e))).E()` returns the tree of `e` and stops at EOF |
| Parser3.ProductStep | 3_ParsingArithExp/Parser3.py:157-165 | one '*' or '/' and a number fold into `TT`'s accumulator as a new left-grouped node |
| Parser3.SumStep | 3_ParsingArithExp/Parser3.py:110-118 | one '+' or '-' and the term after it (parsed by `F` then `TT`) fold into `EE`'s accumulator |
| Parser3.TermChain | 3_ParsingArithExp/Parser3.py:136-168 | `TT` over a chain folds its leading `*` and `/` links into the accumulator, to the left, and stops at the first `+` or `-` |
| Parser3.SumChain | 3_ParsingArithExp/Parser3.py:88-121 | `EE` over a chain of sums adds one product term after another, grouped to the left |
| Parser3.ParseChain | 3_ParsingArithExp/Parser3.py:74-168 | a chain without parentheses is read the way arithmetic is written: `*` and `/` before `+` and `-`, each level grouped to the left |
| Parser3.LeftAssociative | 3_ParsingArithExp/Parser3.py:88-121 | a chain of one precedence level groups to the left: "2 - 3 - 4" is (2 - 3) - 4 |
| Parser3.ParseBinary | 3_ParsingArithExp/Parser3.py:74-194 | two operands (a number or a parenthesised chain) around one operator make one node, whatever the operator's level |
| Parser3.DoctestSum | 3_ParsingArithExp/Parser3.py:27-31 | doctest: "2 + 3 + 4" evaluates to 9 |
| Parser3.DoctestProduct | 3_ParsingArithExp/Parser3.py:33-37 | doctest: "2 * 3 * 4" evaluates to 24 |
| Parser3.DoctestGroupTimes | 3_ParsingArithExp/Parser3.py:39-43 | doctest: "(2 + 3) * 4" evaluates to 20 |
| Parser3.DoctestTimesGroup | 3_ParsingArithExp/Parser3.py:45-49 | doctest: "4 * (2 + 3)" evaluates to 20 |
| Parser3.DoctestPrecedence | 3_ParsingArithExp/Parser3.py:51-55 | doctest: "2 * 3 + 4" takes the product first and evaluates to 10 |
| Parser3.DoctestDifference | 3_ParsingArithExp/Parser3.py:57-61 | doctest: "2 - 3 - 4" is (2 - 3) - 4 and evaluates to -5 |
| Parser3.Parser.constructor | 3_ParsingArithExp/Parser3.py:64-66 | `__init__` keeps the lexer and reads the first valid token |
| Parser3.Parser.Eat | 3_ParsingArithExp/Parser3.py:68-72 | the method `eat` does what `InfixTrees.Eat` specifies |
| Parser3.Parser.E | 3_ParsingArithExp/Parser3.py:74-86 | the method `E` returns and consumes what `ParseE` specifies |
| Parser3.Parser.EE | 3_ParsingArithExp/Parser3.py:88-121 | the method `EE` returns and consumes what `ParseEE` specifies |
| Parser3.Parser.T | 3_ParsingArithExp/Parser3.py:123-134 | the method `T` returns and consumes what `ParseT` specifies |
| Parser3.Parser.TT | 3_ParsingArithExp/Parser3.py:136-168 | the method `TT` returns and consumes what `ParseTT` specifies |
| Parser3.Parser.F | 3_ParsingArithExp/Parser3.py:170-194 | the method `F` returns and consumes what `ParseF` specifies |
| Parens.LexWord | 4_bottomUp/Lexer.py:197-201 | the lexer reads a text of parentheses as one LPR or RPR token per character, then EOF |
| Parens.ReadParen | 4_bottomUp/Lexer.py:197-201 | a '(' or ')' in the text is read as its one-character token and the position moves past it |
| Parens.Consume | 4_bottomUp/Dick.py:14-19 | `consume(kind)` succeeds exactly when the current token has that kind and then reads the next one; otherwise it raises "Expected kind, got kind" |
| Parens.NeverBelowLowest | 4_bottomUp/Dick.py:3-9 | read from depth d, a word never goes below 0 exactly when d plus the lowest depth it reaches is at least 0 |
| Parens.BalancedLowest | 4_bottomUp/Dick.py:3-9 | a word is balanced (every ')' closes an earlier '(' and every '(' is closed) exactly when its depth ends at 0 and never drops below 0 |
| Parens.BalancedWrap | 2_ArithRepresentation/Exp0.py:64 | two balanced words wrapped together in one pair, ( a b ), are balanced (the shape the infix printer writes around two operands) |
| Parens.BalancedProduction | 4_bottomUp/Dick.py:3-9 | the production S ::= ( S ) S keeps words balanced: ( a ) b is balanced when a and b are |
| Parens.LeadingOpens | 4_bottomUp/LL_LHPL.py:4-16 | the run of '(' a word starts with ends at its first ')' or at its end |
| Dick.ParseS | 4_bottomUp/Dick.py:21-26 | `S()` on '(' consumes it, runs `S`, consumes ')' and runs `S` again; on anything else it consumes nothing; it only ever consumes |
| Dick.SStops | 4_bottomUp/Dick.py:21-26 | `S` consumes nothing unless the current token is '(' |
| Dick.PendingOpen | 4_bottomUp/Dick.py:21-26 | a '(' in front of `S` adds one pending call that will consume ')' and run `S` again |
| Dick.PendingIsMatching | 4_bottomUp/Dick.py:21-31 | `S` with d pending calls and `parse` waiting above it gives exactly the verdict of a left-to-right depth counter started at d, errors included |
| Dick.RecognizeIsMatching | 4_bottomUp/Dick.py:28-31 | `parse()` agrees with the depth counter on every token stream: accepted, "Unexpected token" or "Expected ..., got ..." with the same kinds |
| Dick.MatchingWord | 4_bottomUp/Dick.py:21-31 | on a word of parentheses from depth d, the counter reports an unexpected ')' exactly when the word drops below depth 0, accepts when it ends at 0, and otherwise expects ')' at EOF |
| Dick.MatchingEmpty | 4_bottomUp/Dick.py:28-31 | at the end of a word the counter accepts exactly at depth 0, and otherwise expects ')' but gets EOF |
| Dick.MatchingStuck | 4_bottomUp/Dick.py:28-31 | a ')' at depth 0 is an unexpected token |
| Dick.BalancedAccepted | 4_bottomUp/Dick.py:28-31 | the parser accepts the text of a word of parentheses exactly when the word is balanced; an unmatched ')' gives "Unexpected token RPR", an unclosed '(' gives "Expected RPR, got EOF" |
| Dick.VerdictOfText | 4_bottomUp/Dick.py:28-31 | the verdict on a text is decided by the lowest depth and the final depth of its word |
| Dick.DoctestPair | 4_bottomUp/dickLang.py:19-21 | doctest: '()' is accepted |
| Dick.DoctestNested | 4_bottomUp/Dick.py:44-45 | doctest: '((()))' is valid |
| Dick.DoctestSequence | 4_bottomUp/Dick.py:38-39 | doctest: '()()()' is valid |
| Dick.DoctestInnerSequence | 4_bottomUp/Dick.py:41-42 | doctest: '(()())' is valid |
| Dick.DoctestEmpty | 4_bottomUp/Dick.py:47-48 | doctest: the empty input is valid |
| Dick.DoctestUnclosed | 4_bottomUp/dickLang.py:27-32 | doctest: '(()' fails with "Expected TokenType.RPR, got TokenType.EOF" |
| Dick.DoctestUnclosedNested | 4_bottomUp/Dick.py:53-54 | doctest: '((())' fails with "Expected TokenType.RPR, got TokenType.EOF" |
| Dick.DoctestExtraClose | 4_bottomUp/Dick.py:50-51 | doctest: '(()))' fails with "Unexpected token TokenType.RPR" |
| Dick.Parser.constructor | 4_bottomUp/Dick.py:10-12 | `__init__` keeps the lexer and reads the first valid token |
| Dick.Parser.Consume | 4_bottomUp/Dick.py:14-19 | the method `consume` does what `Parens.Consume` specifies |
| Dick.Parser.S | 4_bottomUp/Dick.py:21-26 | the method `S` fails or consumes as `ParseS` specifies |
| Dick.Parser.Parse | 4_bottomUp/Dick.py:28-31 | the method `parse` returns the verdict `Recognize` gives on the stream still to be read |
| Dick.TestParser | 4_bottomUp/Dick.py:56-62 | `test_parser` builds the parser outside its `try`, and the constructor reads the first token (Dick.py:12): a lexer error there escapes uncaught (`Raised`) exactly when the input's first item is a bad character; otherwise it prints "valid" or the ValueError exactly as `Recognize` decides on the input's token stream |
| Dick.StrayCharacter | 4_bottomUp/Lexer.py:209-210 | a character the lexer rejects raises out of the constructor when it comes first ('x()'), and is reported as the invalid verdict when it comes later ('(x') |
| Dick.Recognize | 4_bottomUp/Dick.py:28-31 | `parse()`: `S`, then the end of the input; `RecognizeIsMatching` reduces it to the depth counter `Matching`, and `BalancedAccepted` proves that on a word of parentheses it accepts exactly the balanced words |
| LlLhpl.ParseS | 4_bottomUp/LL_LHPL.py:81-97 | `S()`: on '(' it consumes it and runs `S` again; then it always runs `P`; it only ever consumes |
| LlLhpl.ParseP | 4_bottomUp/LL_LHPL.py:99-123 | `P()`: on '(' it consumes it, runs `P` and consumes ')'; otherwise it consumes nothing |
| LlLhpl.SSkipsOpens | 4_bottomUp/LL_LHPL.py:81-97 | `S` reads every leading '(' and stops: the `P` it calls sees no '(' and consumes nothing, so `S` never reads a ')' |
| LlLhpl.RecognizeOpens | 4_bottomUp/LL_LHPL.py:125-134 | `parse` accepts a stream exactly when every token before EOF is '('; otherwise the first other token is reported as unexpected |
| LlLhpl.PCloses | 4_bottomUp/LL_LHPL.py:99-123 | `P` matches its leading run of '(' with exactly as many ')' |
| LlLhpl.OnlyOpensAccepted | 4_bottomUp/LL_LHPL.py:125-134 | the text of a word of parentheses is accepted exactly when it holds no ')'; otherwise "Unexpected token TokenType.RPR" |
| LlLhpl.AcceptedAreLeftSkewed | 4_bottomUp/LL_LHPL.py:4-16 | every accepted word is a word of S ::= ( S \| P, P ::= ( P ) \| empty |
| LlLhpl.LeftRecursionGap | 4_bottomUp/LL_LHPL.py:148-149 | '(()' is a word of the grammar, yet the parser rejects it with "Unexpected token TokenType.RPR", as the doctest's comment concedes |
| LlLhpl.DoctestOpens | 4_bottomUp/LL_LHPL.py:17-23 | doctest: '(' and '((' are accepted |
| LlLhpl.DoctestPair | 4_bottomUp/LL_LHPL.py:145-146 | doctest: '()' fails with "Unexpected token TokenType.RPR" |
| LlLhpl.DoctestNested | 4_bottomUp/LL_LHPL.py:25-31 | doctest: '(())' fails with "Unexpected token TokenType.RPR" |
| LlLhpl.DoctestExtraClose | 4_bottomUp/LL_LHPL.py:154-155 | doctest: '(()))' fails with "Unexpected token TokenType.RPR" |
| LlLhpl.DoctestS | 4_bottomUp/LL_LHPL.py:90-92 | doctest: `S()` alone on '(()())' raises nothing |
| LlLhpl.ClosingCloses | 4_bottomUp/LL_LHPL.py:99-123 | n pending ')' are matched by a run of ')' when it is long enough, and otherwise meet EOF |
| LlLhpl.PWord | 4_bottomUp/LL_LHPL.py:99-123 | `P` on a word: its leading '(' must be followed by as many ')' |
| LlLhpl.DoctestP | 4_bottomUp/LL_LHPL.py:108-110 | doctest: `P()` alone accepts '(())' and reaches EOF |
| LlLhpl.DoctestPUnclosed | 4_bottomUp/LL_LHPL.py:112-117 | doctest: `P()` on '(()' raises "Expected TokenType.RPR, got TokenType.EOF" |
| LlLhpl.Parser.constructor | 4_bottomUp/LL_LHPL.py:34-48 | `__init__` keeps the lexer and reads the first valid token |
| LlLhpl.Parser.Consume | 4_bottomUp/LL_LHPL.py:50-79 | the method `consume` does what `Parens.Consume` specifies |
| LlLhpl.Parser.S | 4_bottomUp/LL_LHPL.py:81-97 | the method `S` fails or consumes as `ParseS` specifies |
| LlLhpl.Parser.P | 4_bottomUp/LL_LHPL.py:99-123 | the method `P` fails or consumes as `ParseP` specifies |
| LlLhpl.Parser.Parse | 4_bottomUp/LL_LHPL.py:125-134 | the method `parse` returns the verdict `Recognize` gives |
| LlLhpl.TestParser | 4_bottomUp/LL_LHPL.py:158-163 | `test_parser` builds the parser outside its `try`, and the constructor reads the first token (LL_LHPL.py:48): a lexer error there escapes uncaught (`Raised`) exactly when the input's first item is a bad character; otherwise it prints "valid" or the ValueError exactly as `Recognize` decides on the input's token stream |
| LlLhpl.StrayCharacter | 4_bottomUp/Lexer.py:209-210 | a character the lexer rejects raises out of the constructor when it comes first ('x()'), and is reported as the invalid verdict when it comes later ('(x') |
| LlLhpl.Recognize | 4_bottomUp/LL_LHPL.py:125-134 | `parse()`: `S`, then the end of the input; `OnlyOpensAccepted` proves that on a word of parentheses it accepts exactly the words without a `)` |
| LrFer.Stack.constructor | 4_bottomUp/LR_Fer.py:175-177 | `test_parser` starts from an empty stack |
| LrFer.EndsWithSplit | 4_bottomUp/LR_Fer.py:26-29 | the test of `match_and_pop` (length check, then comparing the top slice) holds for a non-empty pattern exactly when the stack is something followed by the pattern |
| LrFer.MatchAndPop | 4_bottomUp/LR_Fer.py:4-31 | `match_and_pop` returns True exactly when the stack ends with the pattern, and then the stack loses exactly that pattern; otherwise the stack is unchanged |
| LrFer.Shift0Move | 4_bottomUp/LR_Fer.py:60-73 | `shift_0` succeeds exactly on '(', ')' or EOF and only pushes; state 0 follows exactly on '('; any other token raises "Unknown token" |
| LrFer.Reduce1Move | 4_bottomUp/LR_Fer.py:97-109 | `reduce_1` succeeds exactly when the stack ends with `( P )`, `P` or `( S`, or is `[S]`; `[S]` alone accepts with state -1; every other reduction shrinks the stack or removes a "P" from its top; otherwise "Reduce error" |
| LrFer.Shift2Move | 4_bottomUp/LR_Fer.py:134-143 | `shift_2` succeeds exactly on ')' or EOF, always goes to state 1, and leaves the stack alone at EOF; otherwise "Reduce error" |
| LrFer.Shift0 | 4_bottomUp/LR_Fer.py:38-73 | the method `shift_0` reads one token and updates the stack and state as `Shift0Move` specifies |
| LrFer.Reduce1 | 4_bottomUp/LR_Fer.py:76-109 | the method `reduce_1` updates the stack and state as `Reduce1Move` specifies |
| LrFer.Shift2 | 4_bottomUp/LR_Fer.py:112-143 | the method `shift_2` reads one token and updates the stack and state as `Shift2Move` specifies |
| LrFer.Dispatch | 4_bottomUp/LR_Fer.py:146 | `state_machine[state](stack, lexer)` runs the action of that state; only `reduce_1` leaves the lexer where it was |
| LrFer.TestParser | 4_bottomUp/LR_Fer.py:149-184 | the loop of `test_parser` ends as the machine `Run` decides: "is valid" or "is invalid" |
| LrFer.DoctestMatchAndPop | 4_bottomUp/LR_Fer.py:16-24 | doctests: [4, 5] is popped from [1, 2, 3, 4, 5]; [3, 4] is not and the stack stays as it was |
| LrFer.DoctestShift0 | 4_bottomUp/LR_Fer.py:53-59 | doctest: on '(' `shift_0` pushes LPR and stays in state 0 |
| LrFer.DoctestReduce1 | 4_bottomUp/LR_Fer.py:91-95 | doctest: `( P )` reduces to `P` and state 2 follows |
| LrFer.DoctestShift2 | 4_bottomUp/LR_Fer.py:127-133 | doctest: on ')' `shift_2` pushes "P" and RPR and goes to state 1 |
| LrFer.ReducesToS | 4_bottomUp/LR_Fer.py:97-109 | in state 1, an "S" above any number of '(' reduces down to `[S]` and accepts |
| LrFer.AfterCloseRun | 4_bottomUp/LR_Fer.py:134-143 | in state 2, after `( P )` became `P`, only EOF is accepted |
| LrFer.RunIsVerdict | 4_bottomUp/LR_Fer.py:149-184 | the stack machine decides every token stream as a counter does: after any number of '(', EOF accepts, and a single ')' accepts only above at least one '(' and only if EOF follows |
| LrFer.VerdictWord | 4_bottomUp/LR_Fer.py:149-184 | on a word of parentheses the counter accepts exactly when the word is all '(' or its leading run of '(' is followed by one last ')' |
| LrFer.AcceptedWords | 4_bottomUp/LR_Fer.py:149-184 | `test_parser` says "is valid" for the text of a word exactly when it is a run of '(' optionally followed by a single ')'; the parser is not the balanced-parentheses recogniser its doctests suggest |
| LrFer.VerdictOfText | 4_bottomUp/LR_Fer.py:149-184 | the verdict on a literal text of parentheses, from its word |
| LrFer.DoctestValid | 4_bottomUp/LR_Fer.py:154-155 | doctest: '()' is valid |
| LrFer.DoctestValidUnclosed | 4_bottomUp/LR_Fer.py:157-158 | doctest: '(()' is valid |
| LrFer.DoctestValidOpen | 4_bottomUp/LR_Fer.py:160-161 | doctest: '(' is valid |
| LrFer.DoctestExtraClose | 4_bottomUp/LR_Fer.py:163-164 | doctest: '())' is invalid |
| LrFer.DoctestNestedExtraClose | 4_bottomUp/LR_Fer.py:166-167 | doctest: '(()))' is invalid |
| LrFer.DoctestSequence | 4_bottomUp/LR_Fer.py:169-170 | doctest: '()()' is invalid |
| LrFer.DoctestReversed | 4_bottomUp/LR_Fer.py:172-173 | doctest: ')(' is invalid |
| LrFer.Run | 4_bottomUp/LR_Fer.py:149-184 | the `while next_state >= 0` loop of `test_parser`; `RunIsVerdict` proves that from the empty stack it ends with the verdict `Verdict` on the input |
| LrLhpl.ActionTable | 4_bottomUp/LR_LHPL.py:9-16 | the action table has an entry exactly for '(' in states 0 and 1, ')' in states 1 and 2, and EOF in state 2; shifts lead to state 1, or to 2 only from 1; states 0 and 1 only shift |
| LrLhpl.GotoTable | 4_bottomUp/LR_LHPL.py:18-22 | on "P" the goto table has an entry only for state 1, and it leads to state 2 |
| LrLhpl.PushShape | 4_bottomUp/LR_LHPL.py:36-40 | pushing a token and its state keeps the stack alternating state, symbol, state, with state 2 only above state 1 |
| LrLhpl.PopShape | 4_bottomUp/LR_LHPL.py:44-48 | the four pops of the reduction keep that shape |
| LrLhpl.RunShift | 4_bottomUp/LR_LHPL.py:36-40 | a shift pushes the current token and the next state and reads the next token |
| LrLhpl.RunReduce | 4_bottomUp/LR_LHPL.py:42-56 | a reduction pops four cells without reading and follows the goto table from the state it uncovers, or raises "Unexpected reduction" when there is none |
| LrLhpl.LRParser.constructor | 4_bottomUp/LR_LHPL.py:4-22 | `__init__` keeps the lexer, reads the first valid token and starts from the stack [0] |
| LrLhpl.LRParser.ShiftTo | 4_bottomUp/LR_LHPL.py:36-40 | the shift branch consumes a token and leaves the outcome of the run unchanged |
| LrLhpl.LRParser.ReduceP | 4_bottomUp/LR_LHPL.py:42-56 | the reduce branch shrinks the stack without reading and leaves the outcome unchanged, or raises the error the run ends with |
| LrLhpl.LRParser.Parse | 4_bottomUp/LR_LHPL.py:24-64 | the `while True` loop of `parse` ends as the table-driven run `Run` decides |
| LrLhpl.TestParser | 4_bottomUp/LR_LHPL.py:91-96 | `test_parser` builds the parser outside its `try`, and the constructor reads the first token (LR_LHPL.py:6): a lexer error there escapes uncaught (`Raised`) exactly when the input's first item is a bad character; otherwise it prints "valid" or the ValueError exactly as `Recognize` decides on the input's token stream |
| LrLhpl.StrayCharacter | 4_bottomUp/Lexer.py:209-210 | a character the lexer rejects raises out of the constructor when it comes first ('x()'), and is reported as the invalid verdict when it comes later ('(x') |
| LrLhpl.ReductionChain | 4_bottomUp/LR_LHPL.py:42-56 | with a ')' still current after state 2, every reduction of ( P ) uncovers one more '(' until state 0 has no goto on "P": "Unexpected reduction" |
| LrLhpl.AfterCloseRun | 4_bottomUp/LR_LHPL.py:24-64 | after the first ')' is shifted, EOF accepts, another ')' ends in "Unexpected reduction", and '(' is an unexpected token |
| LrLhpl.RunIsVerdict | 4_bottomUp/LR_LHPL.py:24-64 | the table-driven parser decides every token stream as a counter does: after any number of '(' EOF is valid; a ')' with no '(' before it is unexpected; one ')' must be followed by EOF |
| LrLhpl.VerdictClose | 4_bottomUp/LR_LHPL.py:24-64 | the counter on a ')' : unexpected with no '(' before it, valid when it is last, "Unexpected reduction" before another ')', and an unexpected '(' otherwise |
| LrLhpl.VerdictWord | 4_bottomUp/LR_LHPL.py:24-64 | on a word, the counter agrees with the word-level verdict |
| LrLhpl.AcceptedWords | 4_bottomUp/LR_LHPL.py:67-96 | the text of a word is valid exactly when it is a run of '(' optionally followed by one ')'; a leading ')' is an unexpected token, a second ')' an unexpected reduction, a '(' after the ')' an unexpected token |
| LrLhpl.DoctestValid | 4_bottomUp/LR_LHPL.py:72-73 | doctest: '()' is valid |
| LrLhpl.DoctestValidUnclosed | 4_bottomUp/LR_LHPL.py:75-76 | doctest: '(()' is valid |
| LrLhpl.DoctestValidOpen | 4_bottomUp/LR_LHPL.py:78-79 | doctest: '(' is valid |
| LrLhpl.DoctestExtraClose | 4_bottomUp/LR_LHPL.py:81-82 | doctest: '())' fails with "Unexpected reduction" |
| LrLhpl.DoctestNestedExtraClose | 4_bottomUp/LR_LHPL.py:84-85 | doctest: '(()))' fails with "Unexpected reduction" |
| LrLhpl.DoctestSequence | 4_bottomUp/LR_LHPL.py:87-88 | doctest: '()()' fails with "Unexpected token: TokenType.LPR" |
| LrLhpl.Run | 4_bottomUp/LR_LHPL.py:24-64 | the loop of `parse`; `RunIsVerdictFrom` proves that it ends with the verdict `Verdict` on the input |
| Recognisers.LrParsersAgree | 4_bottomUp/LR_LHPL.py:24-64 | the state machine of LR_Fer.py and the tables of LR_LHPL.py accept exactly the same token streams; only their error messages differ |
| Recognisers.LrAcceptedWords | 4_bottomUp/LR_Fer.py:149-184 | both LR parsers accept the text of a word exactly when it is a run of '(' optionally followed by a single ')' |
| Recognisers.LrAcceptedAreLeftSkewed | 4_bottomUp/LR_LHPL.py:67-70 | every word the LR parsers accept belongs to the left-skewed language their docstrings name |
| Recognisers.LlWithinLr | 4_bottomUp/LL_LHPL.py:125-134 | whatever the LL parser of LL_LHPL.py accepts, both LR parsers accept too |
| Recognisers.NestedPairRejected | 4_bottomUp/LL_LHPL.py:4-16 | '(())' is a word of S ::= ( S \| P, P ::= ( P ) \| empty, yet none of the three left-skewed recognisers accepts it |
| Recognisers.BalancedAndSkewed | 4_bottomUp/Dick.py:28-31 | the words that both the Dyck parser and the LR parsers accept are exactly the empty word and '()' |
| Recognisers.BalancedOpensThenClose | 4_bottomUp/Dick.py:3-9 | the only balanced words that are a run of '(' with at most one ')' after it are the empty word and '()' |
| ArithNodes.Leaf | 2_ArithRepresentation/Exp0.py:1-5 | `Node(value)` has that value and both children `None` |
| ArithNodes.LabelValue | 2_ArithRepresentation/Exp0.py:25-26 | `int(value)` on a leaf: a number is itself; a text converts exactly when it is a non-empty run of digits |
| ArithNodes.Operate | 2_ArithRepresentation/Exp0.py:30-38 | the operator chain of `evaluate` gives an integer exactly for "+", "-" and "*"; "/" is true division (a float) and any other text falls off the chain |
| ArithNodes.MissingChildIsZero | 2_ArithRepresentation/Exp0.py:22-29 | a missing child evaluates as 0: a node with a single child is a binary node whose other operand is the number 0 |
| ArithNodes.FromExp | 2_ArithRepresentation/Exp0.py:1-5 | a class-based tree maps to a `Node` tree: a number becomes a leaf, an operator node a node with both children |
| ArithNodes.EvaluateFromExp | 2_ArithRepresentation/Exp0.py:8-38 | on trees without division, `evaluate` agrees with the `eval` of the class-based trees; with a division it leaves the integers (true division) |
| ArithNodes.PostfixFromExp | 2_ArithRepresentation/Exp0.py:67-89 | `print_postfix` writes what the class-based postfix printer writes, with one trailing space |
| ArithNodes.InfixBalanced | 2_ArithRepresentation/Exp0.py:41-64 | the parentheses `print_infix` writes are balanced, for any tree whose labels hold none |
| ArithNodes.EvaluateExamples | 2_ArithRepresentation/Exp0.py:12-20 | doctests: the two example trees evaluate to 42 and 16 |
| ArithNodes.InfixExamples | 2_ArithRepresentation/Exp0.py:45-53 | doctests: '(23+19)' and '(20-(23-19))' |
| ArithNodes.PostfixSumExample | 2_ArithRepresentation/Exp0.py:72-74 | doctest: '23 19 + ' |
| ArithNodes.PostfixDifferenceExample | 2_ArithRepresentation/Exp0.py:76-79 | doctest: '20 23 19 - - ' |
| ArithNodes.Evaluate | 2_ArithRepresentation/Exp0.py:8-38 | `evaluate(node)`: `None` is 0, a leaf is `int(value)`, an inner node combines both sides; `EvaluateFromExp` ties it to `Exp.Eval` and `MissingChildIsZero` states the missing-child case |
| ArithNodes.PrintInfix | 2_ArithRepresentation/Exp0.py:41-64 | `print_infix`: "(left value right)" without blanks; `InfixBalanced` proves its parentheses balance |
| ArithNodes.PrintPostfix | 2_ArithRepresentation/Exp0.py:67-89 | `print_postfix`: both children, then the value and a blank; `PostfixFromExp` ties it to the class-based postfix printer |
| ArithClasses.AsWrittenDropsOperands | 2_ArithRepresentation/Exp1.py:176-192 | the `print_infix` of Exp1.py, as written, tests `isinstance` on the string `str(exp)`, which never holds: on every binary node it prints only the operator and differs from the recursive printer |
| ArithClasses.AsWrittenExample | 2_ArithRepresentation/Exp1.py:180-187 | on the doctest tree (28 / 4) * 5 the written `print_infix` gives '*', not the 28 the doctest expects, while the recursive printer writes '((28) / (4)) * (5)' |
| ArithClasses.EvalExamples | 2_ArithRepresentation/Exp1.py:46-172 | the doctests of the four operator classes on 3 and 4 (7, -1, 12, and `__str__` giving the symbol), of `Div` (28 // 4 = 7, 22 // 4 = 5) and of `evaluate` (7 * 4 = 28) |
| ArithClasses.PrintInfixAsWritten | 2_ArithRepresentation/Exp1.py:176-192 | `print_infix` as written returns `str(exp)`; `AsWrittenDropsOperands` proves it drops both operands of every binary node |
| ArithClasses.PrintInfixCorrected | 2_ArithRepresentation/Exp1.py:176-192 | `print_infix` as evidently intended, testing the node and writing `{s}`: its result is the recursive infix text `Exp.PrintInfix` of the same tree (see Findings) |
| ArithClasses.InfixLayout | 2_ArithRepresentation/Exp1.py:191 | in "(l) s (r)" the left text starts at index 1, the one-character operator sits after ") ", and the right text ends one before the last character |
| ArithClasses.CorrectedWritesOperands | 2_ArithRepresentation/Exp1.py:189-192 | the corrected printer writes the left operand's text, the operator and the right operand's text, each at its place |
| ArithClasses.CorrectedExample | 2_ArithRepresentation/Exp1.py:180-187 | on the doctest tree (28 / 4) * 5 the corrected printer writes '((28) / (4)) * (5)' |
| LetLang.Apply | 6_LetBinding/Exp2.py:141-275 | the four operator classes: only a division by zero fails, with ZeroDivisionError; otherwise the value is the arithmetic of `Exp.Apply`, with floor division |
| LetLang.EvalLocal | 6_LetBinding/Exp2.py:297-319 | the value of an expression depends only on the bindings of its free names: `let` evaluates its body in a copy of the environment with one more binding and changes nothing else |
| LetLang.BoundNamesEvaluate | 6_LetBinding/Exp2.py:40-56 | when every free name is bound, evaluation never stops at an unknown name; only a division by zero can stop it |
| LetLang.Size | 7_Visitors/Exp3.py:52-349 | `size()`: at least 1, and larger than the sizes of the parts (plus one for the bound name of a `let`) |
| LetLang.SizeCounts | 7_Visitors/Exp3.py:331-349 | `size()` counts every node once and the name of every `let` once more |
| LetLang.ToStrIsStr | 7_Visitors/Exp4.py:272-304 | `to_str` writes exactly what `__str__` writes, for every expression |
| LetLang.OptimizeSound | 7_Visitors/Exp5.py:175-232 | `VisitorOptimize` keeps the value of the expression under every environment and leaves no binary node with two number operands |
| LetLang.OptimizeFailsOnlyIfEvalFails | 7_Visitors/Exp5.py:222-227 | folding raises only on an expression whose evaluation fails in every environment |
| LetLang.OptimizeFolded | 7_Visitors/Exp5.py:175-232 | an expression with nothing to fold is returned unchanged |
| LetLang.OptimizeIdempotent | 7_Visitors/Exp5.py:175-232 | folding twice gives what folding once gives |
| LetLang.LetExamples | 6_VarBiding/Exp2.py:142-156 | doctests of `Let.eval`, the same in both copies of the language: 42, 42 and 1764 |
| LetLang.NameExamples | 6_LetBinding/Exp2.py:40-275 | doctests of `Var` and the binary classes with names: 42, 12, 10, 49 and 2 |
| LetLang.ShadowingExample | 6_LetBinding/Exp2.py:314-319 | an inner `let` of the same name hides the outer binding, which is back once the inner `let` is done: let x = 1 in (let x = 2 in x end) + x end is 3 |
| LetLang.SizeExamples | 7_Visitors/Exp3.py:331-349 | doctests of `size()`: 4, 9 and 8 for the three `let` examples, 3 for x + 2 |
| LetLang.StrPlain | 7_Visitors/Exp5.py:85-93 | doctest of `VisitorStr`: 'let v = 42 in v end' |
| LetLang.StrNested | 7_Visitors/Exp5.py:95-98 | doctest of `VisitorStr`: 'let v = 40 in let w = 2 in (v + w) end end' |
| LetLang.StrSquare | 7_Visitors/Exp5.py:100-103 | doctest of `VisitorStr`: 'let v = (40 + 2) in (v * v) end' |
| LetLang.OptimizeExamples | 7_Visitors/Exp5.py:180-192 | doctests of `VisitorOptimize`: 40 + 2 folds to 42; let v = 1 + 1 in 40 + v end folds only its definition |
| LetLang.OptimizedText | 7_Visitors/Exp5.py:187-192 | the folded `let` prints as 'let v = 2 in (40 + v) end' |
| LetLang.Eval | 6_LetBinding/Exp2.py:17-319 | `eval(env)`: a name is looked up, a `let` binds its definition's value in a copy of `env` for the body; `EvalLocal` proves the value depends only on the free names, and `BoundNamesEvaluate` that with every free name bound only a division by zero fails |
| LetLang.Str | 7_Visitors/Exp5.py:85-126 | `__str__` and `VisitorStr`: "(l op r)" and "let v = d in b end"; `StrPlain`, `StrNested` and `StrSquare` state the doctests |
| LetLang.ToStr | 7_Visitors/Exp4.py:272-304 | `to_str`: the same cases as `__str__`; `ToStrIsStr` proves both write the same text |
| LetLang.Optimize | 7_Visitors/Exp5.py:175-232 | `VisitorOptimize`: constant folding; `OptimizeSound`, `OptimizeFailsOnlyIfEvalFails` and `OptimizeIdempotent` state that it keeps the value, fails only where evaluation fails, and is idempotent |
| TypedLang.OpSymbol | 9_TypeChecking/Exp6.py:782-1128 | every operator has a non-empty symbol in the checker's "Type error: t op t" messages |
| TypedLang.BinaryType | 9_TypeChecking/Exp6.py:782-838 | the rule of a binary node: it type-checks exactly when both sides have the operator's operand type, and then has its result type; an error on the left side is raised first |
| TypedLang.TypingRules | 9_TypeChecking/Exp6.py:633-1269 | `TypeChecker`: a number is int, a boolean bool, a name has its type in the environment when bound; an operator needs both operands of its type; a `let` needs a definition of the declared type and checks its body with the name bound to it; an `if` needs a bool condition and two branches of the same type, which it has |
| TypedLang.TypesFromEnv | 9_TypeChecking/Exp6.py:633-1269 | under an environment of int and bool names the checker derives only int or bool |
| TypedLang.TypeName | 9_TypeChecking/Exp6.py:1365-1371 | `type(value)` of a value of the language is int or bool |
| TypedLang.EnsureType | 9_TypeChecking/Exp6.py:1365-1371 | `ensure_type` passes exactly when the value's exact type is the expected one (so a bool is not an int), and returns nothing new |
| TypedLang.Strict | 9_TypeChecking/Exp6.py:1307-1349 | an arithmetic operator or `<` on two evaluated values succeeds only on two ints, and its result has the operator's result type |
| TypedLang.ConformsExtend | 9_TypeChecking/Exp6.py:1359-1363 | binding a value in the environment keeps the values conforming to the types when the type environment binds its type |
| TypedLang.Soundness | 9_TypeChecking/Exp6.py:1294-1371 | an expression the checker accepts evaluates, under values of the assumed types, to a value of the derived type; the only failure left is a division by zero |
| TypedLang.StaticallySafe | 9_TypeChecking/Exp6.py:1398-1423 | `statically_type_safe_eval` returns what `dynamically_type_safe_eval` returns whenever it returns a value, otherwise a rejection by the checker or a division by zero; on an accepted expression that evaluates, both agree |
| TypedLang.SumExample | 9_TypeChecking/Exp6.py:1377-1380 | doctest: let v: int = 40 in let w: int = 2 in v + w evaluates to 42 both ways |
| TypedLang.ConjunctionExample | 9_TypeChecking/Exp6.py:1382-1385 | doctest: `v and w` on two ints fails at run time with "Type error in And: expected bool, got int", and statically with "Type error: int and int" |
| TypedLang.MixedExample | 9_TypeChecking/Exp6.py:1387-1389 | doctest: if True then 0 else False evaluates to 0, which the checker rejects because the branches differ |
| TypedLang.OperandExamples | 9_TypeChecking/Exp6.py:676-1070 | doctests of `visit_var`, `visit_add`, `visit_div` and `visit_and`: an operand of the wrong type names both types in the error, an unbound name is "not defined" |
| TypedLang.LetExamples | 9_TypeChecking/Exp6.py:1130-1203 | doctests of `visit_let`: a definition of the declared type checks, a definition of another type raises "Type error in let" |
| TypedLang.TypeOf | 9_TypeChecking/Exp6.py:633-1269 | the `TypeChecker`'s `visit_*` methods; `TypingRules` states the rules, and `Soundness` proves that in an environment of values of the declared types a well-typed expression gives a value of its type or fails only by dividing by zero |
| TypedLang.SafeEval | 9_TypeChecking/Exp6.py:1294-1371 | `VisitorTypeSafeEval`: evaluation that checks the type of each operand it uses; `Strict` states the operand checks, and `Soundness` what it gives on a well-typed expression |
| TypedLang.DynamicallySafeEval | 9_TypeChecking/Exp6.py:1373-1396 | `dynamically_type_safe_eval`: `SafeEval` in the empty environment; `SumExample`, `ConjunctionExample` and `MixedExample` state the doctests |
| TypedLang.StaticallySafeEval | 9_TypeChecking/Exp6.py:1398-1423 | `statically_type_safe_eval`: the checker, then the evaluator; `StaticallySafe` proves that an accepted expression gives what the dynamic evaluator gives, and fails only by being rejected or by dividing by zero |
| FieldChecker.SuccessRestores | 8_TypeChecking/Exp6.py:213-226 | a successful check leaves the `env` field as it found it: each `let` restores the copy it saved |
| FieldChecker.FailureExtends | 8_TypeChecking/Exp6.py:213-226 | a check never removes a name from `env`; a failed one can leave the bindings of the `let`s it was inside |
| FieldChecker.LeftoverExample | 8_TypeChecking/Exp6.py:216-221 | checking let x: int = 1 in y raises on `y` and leaves x: int behind in `env` |
| FieldChecker.TypeChecker.constructor | 8_TypeChecking/Exp6.py:140-142 | `TypeChecker()` starts with an empty environment |
| FieldChecker.TypeChecker.Check | 8_TypeChecking/Exp6.py:139-241 | `e.accept(checker, arg)` returns the type the typing rules give under the current `env` (the visitor's `arg` is never read) and leaves `env` as `LeftEnv` says |
| FieldChecker.LeftEnv | 8_TypeChecking/Exp6.py:213-226 | the `env` field left after a check; `SuccessRestores` proves it is the starting one after a success, and `FailureExtends` that after a failure it keeps every starting name |
| Inference.Operands | 10_TypeInference/Exp7.py:176-195 | `+`, `<` and `and` type both operands left first and succeed exactly when both have the operand type, with the operator's result type; otherwise a type error |
| Inference.ConformsExtend | 10_TypeInference/Exp7.py:156-160 | binding a name to a value in the evaluator and to that value's type in the propagator, as both `visit_let`s do, keeps every typed name bound to a value of its type |
| Inference.PropagationSound | 10_TypeInference/Exp7.py:108-212 | whenever `VisitorTypePropagator` gives an expression a type under a typing its environment of values conforms to, `VisitorEval` evaluates it without an unbound name, to a value of exactly that type |
| Inference.FindTypeSound | 10_TypeInference/Exp7.py:214-234 | an expression `find_type` types evaluates from the empty environment to a value of the type found |
| Inference.UntypedExamples | 10_TypeInference/Exp7.py:135-147 | the evaluator alone follows Python: `3 and 4` is 4, `0 and x` is False without looking up `x`, `True + True` is 2, while `find_type` rejects `3 and 4` |
| Inference.FindTypeExamples | 10_TypeInference/Exp7.py:218-231 | the doctests of `find_type`: int, bool and int |
| Inference.LetExamples | 10_TypeInference/Exp7.py:112-121 | the doctests of `VisitorEval`: both `let` programs are 42 |
| Inference.EvalExamples | 10_TypeInference/Exp8.py:106-195 | the class doctests: `True and False` is False, `5 + 3` is 8, `2 < 5` is True, `let x = 10 in x` is 10, `if True then 1 else 0` is 1 |
| Inference.Eval | 10_TypeInference/Exp7.py:108-161 | `VisitorEval` of the untyped language; `UntypedExamples` and `EvalExamples` state the doctests, and `PropagationSound` proves that an expression the propagator types evaluates to a value of that type |
| Inference.TypeOf | 10_TypeInference/Exp7.py:163-212 | `VisitorTypePropagator`; `PropagationSound` proves that evaluation of a typed expression succeeds with a value of the inferred type, and `Operands` states the operand rules |
| Inference.FindType | 10_TypeInference/Exp7.py:214-234 | `find_type`: the propagator in the empty environment; `FindTypeSound` and `FindTypeExamples` state its properties |
| DynamicScope.Plus | 11_AnonymousFunctions/Exp9.py:241-242 | Python's `+` succeeds exactly when neither operand is a `Function` (booleans count as 0 and 1) |
| DynamicScope.Less | 11_AnonymousFunctions/Exp9.py:250-253 | Python's `<` succeeds exactly when neither operand is a `Function` |
| DynamicScope.FuelMonotone | 11_AnonymousFunctions/Exp9.py:229-278 | the recursion bound only cuts evaluations short: any evaluation that finishes gives the same result, value or error, under any larger bound |
| DynamicScope.FnCapturesNothing | 11_AnonymousFunctions/Exp9.py:268-269 | `fn x => e` evaluates to the same `Function(x, e)` in every environment: it keeps no environment |
| DynamicScope.CallerScope | 11_AnonymousFunctions/Exp9.py:271-278 | an application whose function position gives `Function(x, body)` and whose argument gives `v` is the body run in the caller's environment with `x` bound to `v` |
| DynamicScope.DoubleExample | 11_AnonymousFunctions/Exp9.py:159-163 | `(fn v => v + v) (40 + 2)` is 84 |
| DynamicScope.FreeNameExample | 11_AnonymousFunctions/Exp9.py:165-169 | `let w = 3 in (fn v => v + w) 2` is 5: the free `w` is found in the caller's scope |
| DynamicScope.NamedExample | 11_AnonymousFunctions/Exp9.py:171-174 | `let f = fn x => x + 1 in f 1` is 2 |
| DynamicScope.ShadowedIsFour | 11_AnonymousFunctions/Exp9.py:176-181 | `let w = 2 in let f = fn v => v + w in let w = 3 in f 1` evaluates to 4 and not to the 3 the doctest expects (see Findings) |
| DynamicScope.SelfCallDiverges | 11_AnonymousFunctions/Exp9.py:262-278 | `let f = fn x => f x in f 1` runs out of every recursion bound: under dynamic scoping a function sees its own `let` name and can call itself forever |
| DynamicScope.SelfCallLoops | 11_AnonymousFunctions/Exp9.py:271-278 | with `f` bound to `fn x => f x`, the call `f x` never finishes, whatever the bound |
| DynamicScope.Eval | 11_AnonymousFunctions/Exp9.py:213-278 | `VisitorEval` with dynamic scoping, under a fuel bound; `FuelMonotone` proves more fuel never changes a finished result, and `CallerScope` that a call runs the body in the caller's environment |
| Closures.Plus | 12_RecFun/Exp10.py:741-766 | `+` succeeds exactly when neither operand is a `Function` or `RecFunction` |
| Closures.Less | 12_RecFun/Exp10.py:800-828 | `<` succeeds exactly when neither operand is a `Function` or `RecFunction` |
| Closures.CallEnv | 12_RecFun/Exp10.py:993-998 | the call environment binds the parameter to the argument, and a `RecFunction` also binds its own name to itself, the name winning when the two coincide |
| Closures.FuelMonotone | 12_RecFun/Exp10.py:643-1000 | the recursion bound only cuts evaluations short: a finished evaluation gives the same result under any larger bound |
| Closures.DefinitionScope | 12_RecFun/Exp10.py:950-1000 | an application runs the function's body in the environment the function kept, extended by the call; for a `Function` that environment has exactly the kept names plus the parameter, so no binding of the caller is visible |
| Closures.LetStep | 12_RecFun/Exp10.py:867-910 | `let x = d in b` runs `b` with `x` bound to the value of `d` |
| Closures.AddStep | 12_RecFun/Exp10.py:741-766 | `l + r` on numbers a and b is a + b |
| Closures.LthStep | 12_RecFun/Exp10.py:800-828 | `l < r` on numbers a and b is a < b |
| Closures.IfStep | 12_RecFun/Exp10.py:830-865 | `if` evaluates only the branch its condition selects |
| Closures.FnStep | 12_RecFun/Exp10.py:912-929 | `fn x => b` is a `Function` keeping the current environment |
| Closures.FunStep | 12_RecFun/Exp10.py:931-948 | `fun f x => b` is a `RecFunction` keeping its name and the current environment |
| Closures.VarStep | 12_RecFun/Exp10.py:643-685 | a bound name evaluates to its value |
| Closures.ShadowedIsThree | 12_RecFun/Exp10.py:503-508 | under lexical scoping `let w = 2 in let f = fn v => v + w in let w = 3 in f 1` is 3, the value the doctest expects |
| Closures.RecFunctionExample | 12_RecFun/Exp10.py:975-979 | `let f = fun f v => v + 1 in f 2` is 3 |
| Closures.Eval | 12_RecFun/Exp10.py:588-1000 | `VisitorEval` with closures and recursive functions, under a fuel bound; `FuelMonotone` proves more fuel never changes a finished result, and `DefinitionScope` that a call runs the body in the closure's own environment |
| RecPrograms.SumRangeClosed | 12_RecFun/Exp10.py:1003-1029 | the sum the `range` program describes has the closed form 2·sum = (b − a)(a + b − 1) |
| RecPrograms.RangeCall | 12_RecFun/Exp10.py:1042-1051 | the recursive call `range (n0 + 1) n1` runs the body of `range` again with n0 one larger and the same n1 |
| RecPrograms.RangeBodySum | 12_RecFun/Exp10.py:1042-1051 | the body `if n0 < n1 then n0 + range (n0 + 1) n1 else 0` computes the sum of the integers of [n0, n1), for every n0 and n1 |
| RecPrograms.RangePartial | 12_RecFun/Exp10.py:1060-1062 | `range a` is the `Function` waiting for `n1`, with `n0` bound to a and `range` to itself |
| RecPrograms.RangeApplied | 12_RecFun/Exp10.py:1060-1062 | `range a b` is the sum of [a, b) |
| RecPrograms.ArithmeticSumValue | 12_RecFun/Exp10.py:1003-1065 | the program `create_arithmetic_sum(a, b)` evaluates to the sum of the integers of [a, b) for every a and b |
| RecPrograms.ArithmeticSumExamples | 12_RecFun/Exp10.py:1030-1038 | the doctests: 20 for (2, 7) and 28 for (1, 8) |
| RecPrograms.CreateLoop | 12_RecFun/Exp10.py:1068-1128 | `create_loop(n)` is `create_for_loop(2, n, fn x => x + 1)`: the two builders make the same `loop` |
| RecPrograms.LoopRound | 12_RecFun/Exp10.py:1165-1172 | one round of the body of `loop`: with n < 2 it returns `a`, otherwise it runs again with n − 1 and f(a) |
| RecPrograms.LoopBodyIterates | 12_RecFun/Exp10.py:1165-1181 | the body of `loop` under n, f and a applies f to a n − 1 times (no time when n < 2) |
| RecPrograms.LoopApplied | 12_RecFun/Exp10.py:1184 | `loop end f` is the function waiting for `a`, with `n` bound to end and `f` to the loop's body function |
| RecPrograms.LoopRuns | 12_RecFun/Exp10.py:1184 | `loop end f begin` applies f end − 1 times to begin |
| RecPrograms.ForLoopValue | 12_RecFun/Exp10.py:1131-1186 | `create_for_loop(begin, end, fn x => body)` evaluates to the function applied end − 1 times to begin, for every function that computes an integer function |
| RecPrograms.SuccessorComputes | 12_RecFun/Exp10.py:1152 | `fn x => x + 1` maps every number k to k + 1 |
| RecPrograms.DoubleComputes | 12_RecFun/Exp10.py:1157 | `fn x => x + x` maps every number k to 2k |
| RecPrograms.IterateSuccessor | 12_RecFun/Exp10.py:1152-1155 | adding one k times to a gives a + k |
| RecPrograms.IterateDouble | 12_RecFun/Exp10.py:1157-1161 | doubling k times multiplies by 2^k |
| RecPrograms.CreateLoopValue | 12_RecFun/Exp10.py:1068-1128 | `create_loop(n)` evaluates to n + 1 for n ≥ 1 and to 2 otherwise |
| RecPrograms.LoopExamples | 12_RecFun/Exp10.py:1093-1161 | the doctests: `create_loop(10)` is 11, `create_for_loop(2, 10, fn x => x + 1)` is 11 and with `fn x => x + x` it is 1024 |
| RecPrograms.ArithmeticSum | 12_RecFun/Exp10.py:1003-1065 | `create_arithmetic_sum(a, b)`; `ArithmeticSumValue` proves the program evaluates to the sum of the integers of [a, b) |
| RecPrograms.ForLoop | 12_RecFun/Exp10.py:1131-1186 | `create_for_loop(begin, end, f)`; `ForLoopValue` proves the program applies f to `begin` end − 1 times |
| RecPrograms.LoopN | 12_RecFun/Exp10.py:1180-1184 | the closure `loop n` waiting for `f`; `LoopBodyIterates` proves that its body, once given f and a, applies f to a n − 1 times |
| Aggregates.Bind | 18_Aggregates/Exp.py:247-259 | a `let` binding takes the next location, binds the name to it and stores the value there; every other name keeps its location, and the store stays consistent with the context |
| Aggregates.Run | 18_Aggregates/Exp.py:224-308 | evaluation keeps every bound name at a written location below the counter, and never unbinds a name, erases a cell or moves the counter back, even when it raises |
| Aggregates.LocationsPerLet | 18_Aggregates/Exp.py:214-222 | a successful evaluation advances `next_location` by exactly the number of `let`s it evaluates: one fresh location per binding |
| Aggregates.DereferenceAddressOf | 18_Aggregates/Exp.py:274-296 | `!&x` succeeds exactly when `x` does, and then gives the same value and state |
| Aggregates.AssignThenRead | 18_Aggregates/Exp.py:261-272 | after `t := v`, the location `t` gave holds the assigned value, reading it gives that value, and every other cell is as `v` left it |
| Aggregates.BindingPersists | 18_Aggregates/Exp.py:247-259 | a name bound by a successful `let` is still bound after the `let` ends: `context` is never restored |
| Aggregates.EvalVisitor.constructor | 18_Aggregates/Exp.py:204-212 | `EvalVisitor()` starts with no bindings, an empty store and the counter at 0 |
| Aggregates.EvalVisitor.FreshLocation | 18_Aggregates/Exp.py:214-222 | `fresh_location` returns the counter, a location no name is bound to, and moves the counter on by one, changing nothing else |
| Aggregates.EvalVisitor.Visit | 18_Aggregates/Exp.py:224-308 | `e.accept(visitor, arg)` returns or raises what `Run` gives and leaves the visitor's fields as `Run` says |
| Aggregates.ReadExample | 18_Aggregates/Exp.py:166-170 | `let x = 10 in x` is 10 |
| Aggregates.AddressExample | 18_Aggregates/Exp.py:172-182 | `let x = 42 in &x` is location 0, and dereferencing it gives 42 |
| Aggregates.AssignExample | 18_Aggregates/Exp.py:184-188 | `let x = 1 in x := 2` is 2 |
| Aggregates.AssignThroughAddress | 18_Aggregates/Exp.py:190-195 | `let x = 1 in (let y = 2 in &x := y) + x` is 4 |
| Aggregates.AssignThroughNumber | 18_Aggregates/Exp.py:197-202 | `let x = 1 in (let y = 2 in 0 := y) + x` is 4 |
| MemoryClassifier.Outside | 19_MemoryAllocation/MemoryClassifier.py:63-121 | the sub-expressions the classifier visits start with the expression itself |
| MemoryClassifier.ClassifyIsOutsideLets | 19_MemoryAllocation/MemoryClassifier.py:63-121 | a name is classified as static exactly when some `let` outside every function body binds it |
| MemoryClassifier.ClassifyWithinLets | 19_MemoryAllocation/MemoryClassifier.py:80-100 | only names a `let` binds are classified; a function's formal parameter never is |
| MemoryClassifier.Examples | 19_MemoryAllocation/MemoryClassifier.py:64-121 | the doctests: {v} for `let v = 0 in v` and `let v = fn w => w in fn w => w`, nothing for a function or `(fn w => w) x`, {v} and {v, x} for the two applications |
| MemoryClassifier.Classify | 19_MemoryAllocation/MemoryClassifier.py:63-121 | `VisitorLocClassifier`; `ClassifyIsOutsideLets` proves it collects exactly the names of the `let`s outside every function body, and `ClassifyWithinLets` that it collects only `let`-bound names |
| HeapLayout.TiledFootprint | 21_HeapAllocation/v2_heap.c:19-24 | when the blocks tile the heap, their headers and payloads add up to exactly the heap size, as `init_heap` sets up |
| HeapLayout.Ordered | 21_HeapAllocation/v2_heap.c:42-50 | blocks in list order never overlap: each ends before any later one starts |
| HeapLayout.InsideHeap | 21_HeapAllocation/v2_heap.c:30-31 | every block of a tiling ends inside the heap, so reading its header stays in bounds |
| HeapLayout.FirstFitFrom | 21_HeapAllocation/v2_heap.c:30-63 | the walk from block i finds the first block at or after i that is free and large enough, and reports none only when no such block remains |
| HeapLayout.FirstFit | 21_HeapAllocation/v2_heap.c:27-67 | first fit finds a block exactly when some free block is large enough, and it is the first such block in list order |
| HeapLayout.AllocateTiled | 21_HeapAllocation/v2_heap.c:35-56 | serving a request keeps the tiling; the chosen block stays where it was, is taken and holds at least the bytes asked; with a split it holds exactly those and a free block of the rest less a header follows it, and without one only the free flag changes |
| HeapLayout.MarkFree | 21_HeapAllocation/v2_heap.c:70-78 | freeing marks one block free and leaves its place, its size and every other block unchanged |
| HeapLayout.MarkFreeTiled | 21_HeapAllocation/v2_heap.c:70-78 | marking a block free keeps the tiling |
| HeapLayout.MergeNextTiled | 21_HeapAllocation/v2_heap.c:87-90 | a block absorbing its successor, header included, ends where the successor ended, is free, and the tiling holds; every other block stays |
| HeapLayout.Coalesce | 21_HeapAllocation/v2_heap.c:80-95 | the coalescing pass keeps the first block's offset and free flag |
| HeapLayout.CoalesceNoAdjacentFree | 21_HeapAllocation/v2_heap.c:80-95 | after `coalesce_memory` no free block is followed by a free block |
| HeapLayout.CoalesceKeepsAllocated | 21_HeapAllocation/v2_heap.c:80-95 | coalescing leaves the allocated blocks exactly as they were, in the same order |
| HeapLayout.CoalesceTiled | 21_HeapAllocation/v2_heap.c:80-95 | coalescing keeps the tiling, so no byte of the heap is lost or duplicated |
| HeapLayout.CoalesceChained | 21_HeapAllocation/v2_heap.c:80-95 | coalescing a chain gives a chain with the same start and end |
| HeapLayout.StoredSetFree | 21_HeapAllocation/v2_heap.c:76-77 | rewriting one header's free flag in the byte array stores the block list with that block so marked |
| HeapLayout.StoredSplit | 21_HeapAllocation/v2_heap.c:42-51 | writing the new block's header and then the split block's header stores the block list after the split |
| HeapLayout.StoredMerge | 21_HeapAllocation/v2_heap.c:89-90 | rewriting a block's header to cover its successor stores the merged block list |
| HeapLayout.StoredRewrite | 21_HeapAllocation/v3_heap.c:101-103 | rewriting a header with one that reads the same (a reference count change) keeps the block list stored |
| HeapLayout.FreeAndMergeTiled | 21_HeapAllocation/v3_heap.c:74-94 | freeing with the eager merge keeps the tiling; the freed block is free at its offset and the blocks before it are untouched |
| HeapLayout.FreeAndMergeAllocated | 21_HeapAllocation/v3_heap.c:82-92 | freeing an allocated block removes exactly that block from the allocated ones: the merge only absorbs a free block |
| HeapLayout.Allocate | 21_HeapAllocation/v2_heap.c:35-56 | the block list after a block serves a request; `AllocateTiled` proves the list still tiles the heap |
| HeapLayout.MergeNext | 21_HeapAllocation/v2_heap.c:87-90 | a block absorbs its successor; `MergeNextTiled` proves the list still tiles the heap |
| HeapLayout.FreeAndMerge | 21_HeapAllocation/v3_heap.c:79-93 | freeing with an eager merge; `FreeAndMergeTiled` proves the list still tiles the heap, and `FreeAndMergeAllocated` that exactly the freed block leaves the allocated ones |
| HeapV1.AlignAsWritten | 21_HeapAllocation/1_heap.c:9 | `ALIGN` as written, in `size_t`, gives a multiple of 8 that is again a `size_t` |
| HeapV1.Align | 21_HeapAllocation/1_heap.c:8-9 | the intended rounding is a multiple of 8, at least `size` and less than `size + 8` |
| HeapV1.AlignLeast | 21_HeapAllocation/1_heap.c:8-9 | the intended rounding is the least multiple of 8 that covers `size` |
| HeapV1.AlignAsWrittenAgrees | 21_HeapAllocation/1_heap.c:9 | the macro gives the intended rounding whenever `size + 7` does not wrap |
| HeapV1.AlignAsWrittenWraps | 21_HeapAllocation/1_heap.c:9 | for the last seven `size_t` values the macro gives 0 (see Findings) |
| HeapV1.FieldsFit | 21_HeapAllocation/1_heap.c:19 | under the tiling every block, header included, lies inside the 1024-byte array |
| HeapV1.Initial | 21_HeapAllocation/1_heap.c:25-30 | the heap after `init_heap` is one free block of 1024 − 24 bytes, and it tiles the heap |
| HeapV1.HugeRequestServed | 21_HeapAllocation/1_heap.c:33-42 | with the macro as written a request of `SIZE_MAX` bytes becomes a request of 0 and the fresh heap serves it; with the intended rounding no block fits (see Findings) |
| HeapV1.Heap.constructor | 21_HeapAllocation/1_heap.c:18-22 | the static array starts zeroed and `free_list` starts NULL |
| HeapV1.Heap.InitHeap | 21_HeapAllocation/1_heap.c:25-30 | `init_heap` writes one free header of 1000 bytes with a NULL `next` at offset 0, leaves the rest of the array, and the headers then spell the initial block list |
| HeapV1.Heap.Take | 21_HeapAllocation/1_heap.c:42-57 | taking a block found by the walk splits it when the rest is larger than a header and marks it allocated, and the headers then spell `Allocate` of the old list |
| HeapV1.Heap.Malloc | 21_HeapAllocation/1_heap.c:33-65 | `my_malloc` returns NULL for 0 bytes or before `init_heap`; otherwise the payload of the first free block of at least the size under the intended rounding (not the wrapping macro, see Left out), with the list after `Allocate`, or NULL with nothing changed when no block fits |
| HeapV1.Heap.Free | 21_HeapAllocation/1_heap.c:68-75 | `my_free(NULL)` changes nothing; otherwise the block whose payload is `ptr` is marked free and nothing is merged |
| HeapV2.FieldsFit | 21_HeapAllocation/v2_heap.c:9-13 | under the tiling every offset and size fits in a `uint8_t` and every block lies inside the 128-byte array, so no `uint8_t` sum of the source wraps |
| HeapV2.Heap.constructor | 21_HeapAllocation/v2_heap.c:6 | the static array starts zeroed |
| HeapV2.Heap.InitHeap | 21_HeapAllocation/v2_heap.c:19-24 | `init_heap` writes one free header of 125 bytes with no successor at offset 0 and leaves the rest of the array |
| HeapV2.Heap.Take | 21_HeapAllocation/v2_heap.c:35-56 | taking a block found by the walk splits it when more than a header would be left and marks it allocated; the headers then spell `Allocate` of the old list |
| HeapV2.Heap.Malloc | 21_HeapAllocation/v2_heap.c:27-67 | `my_malloc` returns the payload of the first free block large enough, with the list after `Allocate`, or NULL with the array unchanged when no block fits |
| HeapV2.Heap.Free | 21_HeapAllocation/v2_heap.c:70-78 | `my_free(NULL)` changes nothing; otherwise exactly the block whose payload is `ptr` is marked free |
| HeapV2.Heap.MergeAt | 21_HeapAllocation/v2_heap.c:87-90 | one merge step of `coalesce_memory` turns the list into `MergeNext` of it |
| HeapV2.Heap.CoalesceMemory | 21_HeapAllocation/v2_heap.c:80-95 | `coalesce_memory` leaves the list as `Coalesce` of the old one: neighbouring free blocks joined, allocated blocks as they were |
| HeapV3.FieldsFit | 21_HeapAllocation/v3_heap.c:10-15 | under the tiling every offset and size fits in a `uint8_t` and every block lies inside the 64-byte array |
| HeapV3.PayloadUnique | 21_HeapAllocation/v3_heap.c:79-80 | a pointer is the payload of at most one block, so `ptr - sizeof(BlockHeader)` names one header |
| HeapV3.OtherBlocksKept | 21_HeapAllocation/v3_heap.c:38-60 | when taking a block writes only its own header and the header it splits off, the headers of all other blocks of the tiling are unchanged |
| HeapV3.Heap.constructor | 21_HeapAllocation/v3_heap.c:7 | the static array starts zeroed |
| HeapV3.Heap.InitHeap | 21_HeapAllocation/v3_heap.c:21-27 | `init_heap` writes one free header of 60 bytes with no successor and no references at offset 0 |
| HeapV3.Heap.Take | 21_HeapAllocation/v3_heap.c:38-60 | taking a block splits it when more than a header would be left, the new free block with count 0, and marks the taken block allocated with count 1; no other header of the array changes |
| HeapV3.Heap.Malloc | 21_HeapAllocation/v3_heap.c:30-71 | `my_malloc` returns the payload of the first free block large enough, taken as `Allocate` says and holding one reference, or NULL with nothing changed; the header, and so the count, of every other block stays as it was |
| HeapV3.Heap.FreeBlock | 21_HeapAllocation/v3_heap.c:79-93 | freeing the block at `ptr` gives `FreeAndMerge` of the list: an allocated block is freed and absorbs a free successor, a free block is left alone; its count is kept and only its header changes |
| HeapV3.Heap.MergeFreed | 21_HeapAllocation/v3_heap.c:82-91 | an allocated block with a free successor is marked free and absorbs the successor, header included: the headers spell `MergeNext` of the old list and the block's count is kept |
| HeapV3.Heap.MarkFreed | 21_HeapAllocation/v3_heap.c:82-83 | an allocated block that is last or has an allocated successor is only marked free: the headers spell `MarkFree` of the old list and no other header changes |
| HeapV3.Heap.Free | 21_HeapAllocation/v3_heap.c:74-94 | `my_free(NULL)` changes nothing; otherwise the block is freed as `FreeAndMerge` says, its count is kept, and no header outside the freed block changes |
| HeapV3.Heap.IncrementRef | 21_HeapAllocation/v3_heap.c:97-104 | `increment_ref(NULL)` changes nothing; otherwise the block's count goes up by one modulo 256, and no other header and no block changes |
| HeapV3.Heap.DecrementRef | 21_HeapAllocation/v3_heap.c:107-121 | `decrement_ref` changes nothing for NULL or a count of 0; otherwise the count drops by one, and the block is freed, as `my_free` does, exactly when the count reaches 0; no header outside that block changes |
| HeapV3.ReleaseSecond | 21_HeapAllocation/v3_heap.c:30-121 | two 4-byte allocations from a fresh heap give payloads 4 and 12; releasing the second leaves the first with one reference and the second with none |
| Restrict.Masked | 22_Optimizations/restrict.c:13-15 | the value stored at one index is 0 or `a[i]`, and it is `a[i]` whenever `b[i]` is not 0 |
| Restrict.Dot0 | 22_Optimizations/restrict.c:10-17 | `dot0` on arrays that may alias: when `r` is not `b`, each index below `size` holds the mask of the old `a` and `b` at that index; when `r` is `b`, it holds the old `a[i]`; indices from `size` on are untouched |
| Restrict.Dot1 | 22_Optimizations/restrict.c:19-26 | `dot1` with `restrict`, that is distinct arrays: each index below `size` holds the mask of `a` and `b`, and the rest of `r` is untouched |
| Restrict.SumArray | 22_Optimizations/restrict.c:28-35 | `sum_array` returns the sum of the first `size` elements |
| Restrict.InitArray | 22_Optimizations/restrict.c:37-42 | `init_array` sets index i below `size` to i mod 3 and leaves the rest |
| Restrict.Cycle3 | 22_Optimizations/restrict.c:37-42 | the contents `init_array` writes: `size` elements, element i being i mod 3 |
| Restrict.SumCycle3 | 22_Optimizations/restrict.c:28-42 | `sum_array` after `init_array` is 3 for each full round of 0, 1, 2, plus 1 for a trailing 0, 1 |
| FactorialLoop.Factorial | 14_CodeGeneration/factorial.c:3-10 | the reference factorial is at least 1 |
| FactorialLoop.Fact | 14_CodeGeneration/factorial.c:3-10 | `fact(n)` is n! for every n ≥ 1, and n itself for n ≤ 1, where the loop never runs (so `fact(0)` is 0) |
| FactorialLoop.LoopStep | 14_CodeGeneration/factorial.c:5-8 | one round of `--n; r *= n` keeps r · (n − 1)! equal to the factorial of the argument |
| FactorialLoop.FactorialMonotone | 14_CodeGeneration/factorial.c:3-10 | the factorial never decreases as n grows |
| FactorialLoop.FactorialFitsInt | 14_CodeGeneration/factorial.c:3 | the result fits a 32-bit `int` exactly for n ≤ 12; from 13 on `fact` overflows |
| FactorialLoop.FactorialExamples | 14_CodeGeneration/factorial.c:12-16 | the values `main` prints: 6, 720 and 3628800 |
| FunctionFact.DyFactIsFact | 16_FunctionCodeGen/fact.c:10-15 | the recursive `dy_fact` agrees with the loop of `fact` for every argument: n! from 1 on and n itself for n ≤ 1 |
| FunctionFact.DyFact | 16_FunctionCodeGen/fact.c:10-15 | `dy_fact(n)`; `DyFactIsFact` proves it is n! for n ≥ 1 and n itself for n ≤ 1 |
| Gcd.DividesDifference | 17_MemoryAllocation/gcd.c:15-16 | d divides m and n exactly when it divides n and m − n: the subtraction step keeps the common divisors |
| Gcd.GcdOfDifference | 17_MemoryAllocation/gcd.c:14-16 | the greatest common divisor of n and m − n is that of m and n |
| Gcd.GcdOfSelf | 17_MemoryAllocation/gcd.c:12-13 | a positive m is the greatest common divisor of m and m, so storing `m` when the arguments meet is right |
| Gcd.GcdUnique | 17_MemoryAllocation/gcd.c:10-11 | the greatest common divisor does not depend on the order of the arguments, so swapping them when n > m is harmless |
| Gcd.Program.constructor | 17_MemoryAllocation/gcd.c:7 | the global `answer` starts at 0 |
| Gcd.Program.Gcd | 17_MemoryAllocation/gcd.c:9-18 | for positive m and n, `gcd(m, n)` leaves in `answer` the greatest common divisor of m and n; for equal arguments of any sign it stores m at once |
| Collatz.Collatz | 22_Optimizations/collatz.c:4-15 | for an n that reaches 1, `collatz(n)` is the least number of steps after which n is 1 |
| Collatz.NonPositiveStays | 22_Optimizations/collatz.c:6-13 | from n ≤ 0 every step stays at most 0, so the loop never ends there |
| Collatz.SixSteps | 22_Optimizations/collatz.c:17-19 | 6 reaches 1 after 8 steps and not before |
| Collatz.SixReturn | 22_Optimizations/collatz.c:17-19 | `main` returns `collatz(6)`, which is 8 |
| Collatz.OneReturn | 22_Optimizations/collatz.c:4-15 | `collatz(1)` is 0: the loop does not run |
| Collatz.Step | 22_Optimizations/collatz.c:8-12 | one iteration of the loop body; `NonPositiveStays` proves that iterating it from n ≤ 0 never reaches 1 |
| SizeList.List.constructor | 20_ObjectOrientation/size_oo.cpp:9 | a new list holds no elements |
| SizeList.List.Add | 20_ObjectOrientation/size_oo.cpp:11-15 | `add` appends the element after the ones already there when fewer than 100 are held, and leaves a full list as it was |
| SizeList.List.GetSize | 20_ObjectOrientation/size_oo.cpp:17-19 | `getSize` is the number of elements held, never above 100 |
| SizeList.ThreeAdds | 20_ObjectOrientation/size_oo.cpp:23-29 | `main`'s three adds leave the elements 1, 2, 3 and a size of 3 |
| Creatures.Creature.NewAnimal | 20_ObjectOrientation/InheritAnimalsElves.c:54-60 | `new_animal` sets the age and the `animal_inc_age` pointer, with no name |
| Creatures.Creature.NewElf | 20_ObjectOrientation/InheritAnimalsElves.c:63-72 | `new_elf` sets the age, the name and the `elf_inc_age` pointer |
| Creatures.Creature.AnimalIncAgeCall | 20_ObjectOrientation/InheritAnimalsElves.c:31-33 | `animal_inc_age` adds one year to the `unsigned short` age, wrapping at 65536, and keeps the name |
| Creatures.Creature.ElfIncAgeCall | 20_ObjectOrientation/InheritAnimalsElves.c:48-51 | `elf_inc_age` adds seven years, wrapping at 65536, and keeps the name |
| Creatures.Creature.IncAge | 20_ObjectOrientation/InheritAnimalsElves.c:9 | a call through the `inc_age` pointer runs the function the object was built with, whatever the static type: an elf seen as an `Animal*` still ages by 7 |
| Creatures.Creature.SetName | 20_ObjectOrientation/InheritAnimalsElves.c:40-42 | `elf_set_name` replaces the name and keeps the age |
| Creatures.AnimalsElvesMain | 20_ObjectOrientation/InheritAnimalsElves.c:74-102 | `main` prints the ages 5, 6, 100, 107, 50, 57 and the names Galadriel then Elrond |
| Creatures.AnimalElvesMainAsWritten | 20_ObjectOrientation/InheritAnimalElves.c:68-93 | `main` as written prints the ages 5, 6, 100, 107, 50, 50: its third part increments `ae` a second time instead of `e` (see Findings) |
| Creatures.AnimalElvesMain | 20_ObjectOrientation/InheritAnimalElves.c:81-85 | with `e` incremented, as the messages of the third part say, the ages are 5, 6, 100, 107, 50, 57 |
| Creatures.Creature.GetAge | 20_ObjectOrientation/InheritAnimalsElves.c:35-37 | `animal_get_age`: the age field |
| Creatures.Creature.GetName | 20_ObjectOrientation/InheritAnimalsElves.c:44-46 | `elf_get_name`: the name field of an elf |

## Left out

- Input and output are not modelled: `print`, `printf`, the printing parts of every `test_parser`, `print_heap`, and the printing in `dynamically_type_safe_eval` and `statically_type_safe_eval`. Only the value or error each one returns is modelled. For `test_parser` in Dick.py, dickLang.py, LL_LHPL.py and LR_LHPL.py that includes whether the lexer's error is caught: the parser is built before the `try`, so a bad first character escapes it (`Outcome.Raised`), and any other error is the printed verdict (`Outcome.Reported`). The `main`s of `factorial.c`, `collatz.c`, `size_oo.cpp` and the two `Inherit*` files are modelled by the values they print or return. The `main`s of the three heap files, of `gcd.c`, `restrict.c` and `fact.c` only read arguments and print, so they are not modelled.
- `run_experiment` in 22_Optimizations/restrict.c is not modelled. It measures time with `clock()` and computes in `double`.
- `st_fact` in 16_FunctionCodeGen/fact.c is not modelled. Its `result *= st_fact(...)` on a `static` variable depends on the order in which the compiler evaluates the operands.
- The module-level example code at 8_TypeChecking/Exp6.py:243-256 is not modelled; it prints.
- `test_type_checking_rules` at 9_TypeChecking/Exp6.py:1272-1291 is not modelled; it prints.
- C `int` arithmetic is unbounded here. 32-bit overflow is not modelled in `fact`, `dy_fact`, `sum_array` or the `3 * n + 1` of `collatz`. Overflow is undefined behaviour in C.
- FactorialLoop.Fact: states n! without 32-bit wrap-around. `FactorialLoop.FactorialFitsInt` shows that the value fits in an `int` exactly up to n = 12.
- FunctionFact.DyFactIsFact: same as `Fact`, it does not model 32-bit wrap-around.
- Restrict.SumArray: the sum is unbounded, so an overflowing sum is not modelled.
- Collatz.Collatz: requires that n reaches 1.
  - Otherwise the C loop never ends, and nobody knows whether every positive n reaches 1.
  - For n ≤ 0 the loop provably never ends; see `Collatz.NonPositiveStays`.
- Gcd.Program.Gcd: requires both arguments to be positive, or equal. Equal arguments of any sign stop at once with `answer = m`; `gcd(0, 0)` gives 0. In every other case with a 0 or a negative argument the C recursion never ends.
- DynamicScope.Eval and Closures.Eval take a fuel bound on the depth of nested calls.
  - Running out of fuel is an error of its own.
  - `FuelMonotone` proves that fuel never changes a finished result.
  - What the fuel stands for is Python's recursion limit and programs that run forever; neither is modelled otherwise.
- HeapV1.Heap.Free: a non-NULL pointer must be the payload of a block. C accepts any pointer, with undefined behaviour.
- HeapV2.Heap.Free: the same precondition on the pointer.
- HeapV3.Heap.Free: the same precondition on the pointer.
- HeapV3.Heap.IncrementRef: the same precondition on the pointer.
- HeapV3.Heap.DecrementRef: the same precondition on the pointer.
- HeapV2.Heap.Malloc and HeapV3.Heap.Malloc: require `init_heap` to have run.
  - Before it, the zeroed array reads as one allocated block of size 0, and the C code returns NULL.
  - `HeapV1.Heap.Malloc` models that case: its NULL `free_list` gives NULL.
- HeapV1.Heap.Malloc: rounds the size with the intended `Align`, not with the macro as written. For the last seven `size_t` values the macro wraps to 0, and the C code then serves the request. `HeapV1.HugeRequestServed` exhibits that case (see Findings).
- The heaps hold headers only. The payload bytes that a client writes are not modelled. So the model does not capture a client that overwrites a header through a payload pointer.
- The 24-byte header of 1_heap.c is the LP64 layout. Other ABIs are not modelled.
- SizeList.List.constructor: C++ leaves the `elements` array uninitialised; here it holds zeros. No member reads an element that was never added.
- Creatures.Creature: `get_age` is not a field. Both constructors store `animal_get_age` in it, so it is the method `GetAge`.
  - The `inc_age` pointer is a tag that names the function stored.
  - `malloc` failure is not modelled.
  - The `free` calls at the end of each `main` are not modelled.
- Lexer.Scan, ArithLexer.Scan and VarLexer.Scan: the character classes are ASCII. Python's `isdigit`, `isalpha` and `isalnum` also hold for other Unicode characters. So the model does not capture that "٣" lexes as the number 3, that "²" lexes as a number and then makes `int()` raise ValueError, or that "é" starts an identifier. Here those characters are unknown characters.
- Lexical errors in the parsers are lazy.
  - A parser's current item may be a lexer error.
  - The error surfaces when the parser next inspects or consumes that item.
  - This gives the same outcome as the source, where `eat`/`consume` raises when it asks for the next token.
- The "Unknown reduction" and "Invalid action" branches of 4_bottomUp/LR_LHPL.py are not in the model. Its action table holds one production, so neither branch can be reached.
- Python `int(text)` is modelled only on non-empty strings of ASCII digits, the only texts these ASCII lexers give it. Signs, blanks, underscores and other digit sets are not modelled. `int()` of a node value that is neither an integer nor a text is not modelled.
- ArithNodes.Evaluate: Python true division is not modelled.
  - The `/` branch at 2_ArithRepresentation/Exp0.py:37-38 is an error, `TrueDivision`, because it returns a float.
  - An unknown operator text makes the Python function return `None`. This becomes a TypeError only when a parent node adds it. Here it is the error `NoValue` at once.
- LetLang.NameExamples: the environment holds integers only. The doctest at 6_LetBinding/Exp2.py:48-50, which stores `True`, is not modelled.
- `to_str` in 7_Visitors/Exp4.py raises ValueError for an unknown class. With a closed datatype that case cannot arise.
- Python `bool` values used as `int` are modelled only where the untyped evaluators of 10_TypeInference, 11_AnonymousFunctions and 12_RecFun can produce them. Elsewhere values are tagged.
- Errors are datatype constructors that carry what their messages name. The message strings themselves are not built.
- TypedLang keeps the strings `'int'` and `'bool'` of 9_TypeChecking as type names: `Ty` is `string`. Inference uses the datatype `Type` for Python's classes `int` and `bool`, not the objects `<class 'int'>` and `<class 'bool'>`.
- A visitor's `accept`/`visit_*` double dispatch is a `match` in one function.
- The rest of the repository is outside this model:
  - the ANTLR and parsy front ends of 5_PracticalParsing;
  - the address- and layout-printing C programs;
  - `trixSum.c`, `count_char.c`, `size_procedural.c` and `virtNonVirt.cpp`.

## Findings

| source | as written | input that shows it | evidently intended | confidence | as-written member | corrected member |
|---|---|---|---|---|---|---|
| 3_ParsingArithExp/Parser2.py:66-124 | `E` and `T` recurse on their right, so same-level chains group to the right | "2 - 3 - 4" parses as 2 - (3 - 4) = 3; the doctest at lines 49-53 expects -5 | left-associative chains, (2 - 3) - 4 = -5, as Parser3.py builds | not executed | Parser2.DoctestDifference | Parser3.DoctestDifference |
| 1_ArithLexing/Lexer1.py:157-165 | the identifier branch returns `Token.key_word_token(tokText)`, and `tokText` is undefined | "add": NameError instead of a token | `key_word_token(id_text)`, giving the token `+` for "add" | not executed | VarLexer.AsWrittenFailsOnLetters | VarLexer.Scan |
| 2_ArithRepresentation/Exp1.py:189-192 | `isinstance(s, BinaryExpression)` asks about the string `str(exp)` and never holds, so only the operator is printed; the f-string also writes the letter `s` where `{s}` is meant | `Mul(Div(Num(28), Num(4)), Num(5))` prints "*"; the doctest at lines 181-187 expects 28 | a recursive printer that tests the node and writes both operands around the operator, as `print_infix` of 4_bottomUp/Exp.py does | not executed | ArithClasses.AsWrittenDropsOperands | ArithClasses.PrintInfixCorrected |
| 11_AnonymousFunctions/Exp9.py:268-278 | the body of a function runs in the caller's environment (dynamic scoping) | `let w = 2 in let f = fn v => v + w in let w = 3 in f 1` gives 4; the doctest at lines 176-181 expects 3 | lexical scoping, as 12_RecFun/Exp10.py implements with closures | not executed | DynamicScope.ShadowedIsFour | Closures.ShadowedIsThree |
| 21_HeapAllocation/1_heap.c:9 | `ALIGN(size)` adds 7 in `size_t`, which wraps for the last seven values | `my_malloc(SIZE_MAX)` rounds to 0 and is served from the fresh heap | the least multiple of 8 at least `size`, which no block can serve for a huge size, so NULL | not executed | HeapV1.HugeRequestServed | HeapV1.AlignLeast |
| 20_ObjectOrientation/InheritAnimalElves.c:82-85 | the third part creates `e` but calls `ae->inc_age(ae)` | the age printed after the increment is 50 | `e->inc_age(e)`, printing 57 as the message says | not executed | Creatures.AnimalElvesMainAsWritten | Creatures.AnimalElvesMain |
