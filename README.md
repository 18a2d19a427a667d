# Equation checker across four domains

This is a model of a small program that reads an XML document of equations
and reports whether each equation holds. Each element names the domain its
texts are read in:

- `<strings>`: "repeated addition" text rendering;
- `<algebra>`: integer `+` and `*`;
- `<sets>`: union and intersection of digit sets written `{1, 2}`;
- `<boolean>`: bitwise `|` and `&`.

Elements nest. Each text is split on `=`. In Algebra, Boolean and Sets, every piece goes through three stages:

1. it is tokenized;
2. it is converted to postfix by Dijkstra's shunting-yard algorithm, using the weights of `get_weight`;
3. it is evaluated on a value stack.

In Strings, the digits and operators of each piece are collected on two stacks. The stacks are then drained into a textual sum. The text's verdict is the `equal` flag, which compares the piece results.

Modules:

- `Tokens`: the token and domain types, `get_weight`, and the stack helpers.
- `TokenPrecedence`: the ten-token `operator_precedence` of `src/token/mod.rs`.
- `Tokenizer`: `tokenize`, specified by `Split` and `TokenizePiece`.
- `ShuntingYard`: `shunting_yard`, specified by the step function `Step` and its fold `Run`/`Convert`.
- `Bitwise`: `|` and `&` on unbounded two's-complement integers.
- `Resolve`: `resolve`, specified by `ScalarRun`/`SetRun`/`ResolveSpec`.
- `StringsPath`: the class `StringStacks`, which owns the two vectors that `tokenize_string` fills and `recognize_string_expression` drains. It is specified by `ScanDigits`, `ScanOperators` and `Rebuild`.
- `Driver`: the loop of `main` over abstract document events. It covers the domain stack, the per-domain processing of a text, and the `equal` flag.
- `Grammar` and `Evaluation`: a grammar of well-formed expressions, and the theorem that the pipeline evaluates them according to the usual precedence.
- `Examples`: the equations of the embedded document and their verdicts.

Each imperative routine is a `method` whose `ensures` ties its result or new state to a specification function. The properties are proved as lemmas about those functions.

Panics are values of `Result`: an `assert!` that fails, an `unwrap()` of an empty stack, or reading the domain of a text outside every element. The report of a document keeps the verdicts produced before a panic.

Where the code and the documented intent of the program differ, the model follows the code:

- **Unmatched openers are accepted.** An unmatched `(` or `{` is drained into the postfix output rather than rejected.
- **Only the last comparison counts.** `equal` is overwritten on each piece, so a text is valid when its last piece equals its first, whatever lies between.
- **A Strings product can merge with the next number.** A product is written without a following " + ", so it runs into the next numeral. `StringsPath.Rebuild([1, 2, 3], [Plus, Multiply])` writes "2 + 2 + 21 + ".

## Model

| member | source | states |
|---|---|---|
| Tokens.GetWeight | src/main.rs:51-57 | the weight is 0, 1 or 2; it is positive exactly for `+` and `*`, and 2 exactly for `*` |
| TokenPrecedence.OperatorPrecedence | src/token/mod.rs:18-24 | the precedence is 0, 1 or 2: 1 exactly for `Plus`/`Minus`, 2 exactly for `Multiply`/`Power`, 0 exactly for every non-operator whatever its payload |
| TokenPrecedence.OperatorsOutrankOperands | src/token/mod.rs:18-24 | every operator ranks strictly above every non-operator |
| TokenPrecedence.MultiplicativeOutranksAdditive | src/token/mod.rs:20-21 | multiplicative operators rank above additive ones; `Power` shares `Multiply`'s rank and `Minus` shares `Plus`'s |
| TokenPrecedence.Embed | src/token/mod.rs:4-15 | the eight shared variants map into the ten-variant token, never onto `Minus` or `Power`, keeping operator-ness |
| TokenPrecedence.PrecedenceAgreesWithWeight | src/main.rs:51-57 | on the variants both token types define, `operator_precedence` equals `get_weight` |
| Tokenizer.TrimStart | src/main.rs:265 | drops exactly the leading Unicode whitespace |
| Tokenizer.TrimEnd | src/main.rs:265 | drops exactly the trailing Unicode whitespace |
| Tokenizer.CharTokens | src/main.rs:268-305 | a recognized character gives one token and any other none; a digit gives `Number` of its value; no `Set` and no multi-digit number comes out |
| Tokenizer.TokenizePiece | src/main.rs:265-307 | a piece gives at most one token per character, all of them lexical (one-digit numbers, operators, brackets) |
| Tokenizer.TokenizePieceAppend | src/main.rs:268-306 | tokenizing is compositional: the tokens of a concatenation are the tokens of each part in order |
| Tokenizer.SunkCharactersVanish | src/main.rs:301-304 | a piece of unrecognized characters gives no tokens and no error |
| Tokenizer.WhitespaceIsSunk | src/main.rs:301-304 | whitespace is never a recognized character |
| Tokenizer.TrimStartKeepsTokens | src/main.rs:265 | trimming the start does not change the tokens |
| Tokenizer.TrimEndKeepsTokens | src/main.rs:265 | trimming the end does not change the tokens |
| Tokenizer.TrimKeepsTokens | src/main.rs:265 | trimming does not change the tokens |
| Tokenizer.Split | src/main.rs:264 | a text splits into one more piece than it has `=` signs, and no piece contains `=` |
| Tokenizer.JoinSplit | src/main.rs:264 | joining the pieces with `=` gives the text back |
| Tokenizer.SplitJoin | src/main.rs:264 | splitting the join of `=`-free pieces gives those pieces back |
| Tokenizer.TokenizeEach | src/main.rs:264-308 | one token sequence per piece, each that piece's tokens |
| Tokenizer.Tokenize | src/main.rs:262-310 | the loop returns (number of `=`) + 1 token sequences, the i-th being the tokens of the i-th piece |
| Bitwise.HalfShrinks | src/main.rs:90 | halving shrinks every integer but 0 and -1, so the bitwise recursion ends |
| Bitwise.LowBit | src/main.rs:90 | the lowest bit is 0 or 1 |
| Bitwise.Bit | src/main.rs:90 | every bit of a value is 0 or 1 |
| Bitwise.OrAndBitwise | src/main.rs:87-96 | every bit of the result of `Or` is the disjunction, and every bit of the result of `And` the conjunction, of the operands' bits in that position |
| Bitwise.OnTruthValues | src/main.rs:87-96 | on 0 and 1, bitwise or is logical or and bitwise and is logical and |
| Bitwise.Commutative | src/main.rs:87-96 | bitwise or and bitwise and are commutative |
| Bitwise.NonNegativeBounds | src/main.rs:87-96 | on non-negative values, the bitwise or of a and b lies between max(a, b) and a + b, and their bitwise and between 0 and min(a, b) |
| ShuntingYard.ShuntingYard | src/main.rs:168-234 | the loop computes the specification: each token is stepped, then the working stack is drained into the output |
| ShuntingYard.PopOperatorsPopsHeavier | src/main.rs:186-196 | an incoming operator pops exactly the top run of stacked tokens of weight at least its own, in stack order, and stops at a lighter token (a bracket, or `+` under `*`); equal weights pop, so operators associate to the left |
| ShuntingYard.PopToOpenerFinds | src/main.rs:199-227 | a closer fails exactly when its opener is not on the stack; otherwise it pops to the topmost opener, emits what lay above it, and discards the opener |
| ShuntingYard.ClosersFailWithoutOpener | src/main.rs:199-227 | a `)` or `}` step fails its `assert!` exactly when no matching opener is on the working stack |
| ShuntingYard.TalliesAppend | src/main.rs:174-233 | the number, set and operator tallies of a concatenation add up |
| ShuntingYard.ReversedKeepsTokens | src/main.rs:230-232 | draining in reverse keeps every token and its multiplicity |
| ShuntingYard.OperatorStepAccounts | src/main.rs:186-196 | an operator step never fails, keeps the state consistent, and keeps every operator on the stack or in the output |
| ShuntingYard.MustacheStepAccounts | src/main.rs:199-213 | a successful `}` step emits one `Set`, no closer, and keeps every operator |
| ShuntingYard.ParenthesesStepAccounts | src/main.rs:215-227 | a successful `)` step emits no closer and keeps every operator |
| ShuntingYard.OpenerStepAccounts | src/main.rs:198-214 | an opener step never fails and pushes the opener onto the working stack |
| ShuntingYard.OperandOrOpenerStepAccounts | src/main.rs:176-185 | a number, set or opener step never fails; a number is emitted in order outside Sets and gathered into the pending set in Sets |
| ShuntingYard.StepAccounts | src/main.rs:174-228 | every successful step keeps the stack holding only `+`, `*`, `(`, `{`, keeps closers out of the output, and accounts for every token read: operators are kept, and each closer removes one opener of its kind |
| ShuntingYard.AccountedChains | src/main.rs:174-229 | the accounting of two runs composes |
| ShuntingYard.RunAccounts | src/main.rs:174-229 | a successful run keeps the invariants and accounts for every token read |
| ShuntingYard.ConvertAccounts | src/main.rs:168-234 | the output has no closers; it has each input operator exactly once; outside Sets its numbers keep their order, and in Sets there are none; it has one `Set` per input `Set` and per `}` |
| ShuntingYard.UnmatchedOpenersAreEmitted | src/main.rs:198-232 | a successful conversion rejects no unmatched opener: each of `(` and `{` appears in the output as many times as it outnumbers its closer in the input |
| ShuntingYard.MustacheEmitsPendingSet | src/main.rs:199-212 | a matched `}` emits the pending set and clears it; outside Sets that set is empty |
| ShuntingYard.RunCollectsDigits | src/main.rs:179-185 | in Sets, between two `}` the pending set gathers exactly the digits read |
| ShuntingYard.RunAppend | src/main.rs:174-229 | converting a concatenation is converting the first part then the second, stopping at the first failure |
| Resolve.CombineCommutes | src/main.rs:69-121 | each operator of each domain is commutative, so popping the right operand first does not change results |
| Resolve.Resolve | src/main.rs:60-133 | the loop computes the specification: tokens of the other kind are skipped, an operator on fewer than two values panics, and the result is the top value (`Err` on an empty stack) |
| Resolve.ScalarRunHeight | src/main.rs:64-100 | a successful integer evaluation changes the stack height by the net effect of numbers (+1) and operators (-1) |
| Resolve.SetRunHeight | src/main.rs:101-125 | a successful set evaluation changes the stack height by the net effect of sets (+1) and operators (-1) |
| Resolve.ScalarRunAppend | src/main.rs:64-100 | integer evaluation of a concatenation evaluates the parts in turn |
| Resolve.SetRunAppend | src/main.rs:101-125 | set evaluation of a concatenation evaluates the parts in turn |
| Resolve.ScalarTokens | src/main.rs:79 | the tokens integer evaluation acts on are numbers and operators |
| Resolve.SetTokens | src/main.rs:122 | the tokens set evaluation acts on are sets and operators |
| Resolve.ScalarSkipsOthers | src/main.rs:79 | brackets and sets do not affect integer evaluation |
| Resolve.SetSkipsOthers | src/main.rs:122 | brackets and numbers do not affect set evaluation |
| Resolve.ResolveSucceedsOnPositiveEffect | src/main.rs:128-131 | when no operator underflows, `resolve` succeeds exactly when more numbers than operators were read; any values below the top are discarded |
| StringsPath.Natural | src/main.rs:145 | the decimal rendering of a natural is a non-empty digit string without a leading zero |
| StringsPath.NaturalRoundTrip | src/main.rs:145 | parsing the rendering of a natural gives it back |
| StringsPath.DigitRendersAsOneCharacter | src/main.rs:244 | a digit read by the scanner renders as its own character |
| StringsPath.ScanDigits | src/main.rs:242-245 | every number collected is a digit 0..9 |
| StringsPath.ScanOperators | src/main.rs:246-253 | every operator collected is `+` or `*` |
| StringsPath.ScanAgreesWithTokenize | src/main.rs:236-260 | the Strings scanner collects exactly the numbers and operators `tokenize` yields, in order; only brackets are lost |
| StringsPath.Repeat | src/main.rs:151-154 | k copies of a string |
| StringsPath.SumTextSnoc | src/main.rs:145-153 | appending a part to a sum appends " + " and the part |
| StringsPath.MultiplyRendersAsRepeatedAddition | src/main.rs:148-156 | `m * n` renders as m written max(n, 1) times joined by " + " |
| StringsPath.Pop | src/main.rs:141-162 | one drain step takes numbers and operators only from the ends of the two vectors, and at least one number |
| StringsPath.PopConsumes | src/main.rs:141-162 | one drain step takes at most two numbers (two only for `*`) and at most one operator |
| StringsPath.Rebuild | src/main.rs:141-164 | draining consumes every number and leaves a prefix of the operators |
| StringsPath.Decimals | src/main.rs:145 | one rendering per number |
| StringsPath.SumRendersReversed | src/main.rs:141-162 | with only `+` operators (one fewer than numbers) the rendering is the numbers in reverse order joined by " + ", and every operator is consumed |
| StringsPath.StringStacks.TokenizeString | src/main.rs:236-260 | the digits of the text are appended to the number vector and its `+`/`*` to the operator vector, in order |
| StringsPath.StringStacks.RecognizeStringExpression | src/main.rs:135-165 | the number vector ends empty; the text returned and the operators left are the drain of the old vectors |
| Driver.DomainOf | src/main.rs:345-351 | exactly the four element names select a domain |
| Driver.EqualFlag | src/main.rs:379-385 | the flag ends true exactly when there are no results or the last equals the first |
| Driver.EarlierMismatchIsOverwritten | src/main.rs:412-418 | an illustration of `EqualFlag`'s general contract: with results 1, 2, 1 the flag ends true although the second result differs from the first |
| Driver.ScalarResults | src/main.rs:435-438 | when no piece panics there is one integer result per piece |
| Driver.SetResults | src/main.rs:402-408 | when no piece panics there is one set result per piece |
| Driver.StringResults | src/main.rs:368-376 | one rendering per piece, with the operator vector carried from piece to piece |
| Driver.ProcessText | src/main.rs:354-460 | a text outside every element panics; otherwise it is processed by the innermost domain |
| Driver.ProcessStringsText | src/main.rs:360-397 | a Strings text is valid when its last rendering equals its first |
| Driver.ProcessSetsText | src/main.rs:399-430 | a Sets text converts and evaluates each piece, panicking at the first failure; it is valid when the last set equals the first |
| Driver.ProcessScalarText | src/main.rs:432-459 | an Algebra or Boolean text converts and evaluates each piece, panicking at the first failure; it is valid when the last value equals the first |
| Driver.ProcessDocument | src/main.rs:331-471 | the event loop produces the report of the document: one verdict per text, up to the first panic |
| Driver.NoEqualsSignMeansNoSplit | src/main.rs:264 | a text without `=` is a single piece |
| Driver.NoEqualsSignIsValid | src/main.rs:379-385 | a text without `=` that does not panic is always valid |
| Driver.TextOutsideDomainPanics | src/main.rs:358 | a text before any domain element ends the run with a panic and no verdicts |
| Driver.OneVerdictPerText | src/main.rs:338-478 | a run without a panic gives one verdict per text, and a run with one gives fewer |
| Driver.ElementScopesDomain | src/main.rs:345-470 | inside a domain element its domain is on top, and leaving it restores the enclosing stack |
| Grammar.TermPending | src/main.rs:186-196 | a term leaves at most its outermost `*` on the working stack |
| Grammar.ExprPending | src/main.rs:186-196 | an expression leaves only operators on the working stack |
| Grammar.PopsPending | src/main.rs:186-196 | an incoming operator pops exactly the pending operators at least as heavy, and stops at a lighter token |
| Grammar.ClosesGroup | src/main.rs:215-227 | a `)` emits the pending operators of its group in stack order and drops the `(` |
| Grammar.DigitsGather | src/main.rs:179-181 | in Sets, the digits of a literal gather into the pending set and nothing is emitted |
| Grammar.FactorConverts | src/main.rs:174-227 | a well-formed factor converts to its postfix form and leaves the stack as it found it |
| Grammar.SetLiteralConverts | src/main.rs:198-213 | a set literal converts to one `Set` of its digits |
| Grammar.GroupConverts | src/main.rs:214-227 | a parenthesized expression converts to its postfix form |
| Grammar.TermConverts | src/main.rs:174-227 | a well-formed term converts to its postfix form, less its outermost pending `*` |
| Grammar.MultiplyAfterTerm | src/main.rs:186-196 | a `*` after a term flushes that term's pending `*` (left association) and is pushed |
| Grammar.ProductConverts | src/main.rs:186-196 | a product converts to its left term, then its right factor, then `*` pending |
| Grammar.ExprConverts | src/main.rs:174-227 | a well-formed expression converts to its postfix form, less its pending operators |
| Grammar.PlusAfterExpr | src/main.rs:186-196 | a `+` after an expression flushes all its pending operators and is pushed |
| Grammar.SumConverts | src/main.rs:186-196 | a sum converts to its left expression, then its right term, then `+` pending |
| Grammar.PostfixSplits | src/main.rs:230-232 | what was emitted plus the drained pending operators is the full postfix form |
| Grammar.ConvertGivesPostfix | src/main.rs:168-234 | `shunting_yard` turns the infix tokens of a well-formed expression into its postfix form: `*` binds tighter than `+`, both associate left, and parentheses group |
| Evaluation.OperatorCombines | src/main.rs:69-96 | an operator replaces the top two integers with their combination |
| Evaluation.PostfixCombines | src/main.rs:64-100 | evaluating `a b op` pushes the combination of the values of `a` and `b` |
| Evaluation.FactorEvaluates | src/main.rs:64-100 | the postfix form of a factor evaluates to its value on top of the stack |
| Evaluation.TermEvaluates | src/main.rs:64-100 | the postfix form of a term evaluates to its value |
| Evaluation.ExprEvaluates | src/main.rs:64-100 | the postfix form of an expression evaluates to its value in Algebra and Boolean |
| Evaluation.SetOperatorCombines | src/main.rs:105-121 | an operator replaces the top two sets with their union or intersection |
| Evaluation.SetPostfixCombines | src/main.rs:101-125 | evaluating `a b op` on sets pushes the combination of the values of `a` and `b` |
| Evaluation.FactorEvaluatesSet | src/main.rs:101-125 | the postfix form of a factor evaluates to its set |
| Evaluation.TermEvaluatesSet | src/main.rs:101-125 | the postfix form of a term evaluates to its set |
| Evaluation.ExprEvaluatesSet | src/main.rs:101-125 | the postfix form of an expression evaluates to its set |
| Evaluation.PipelineComputesValue | src/main.rs:399-438 | converting and resolving a well-formed expression gives its value: the integer value in Algebra and Boolean, its set in Sets, and a panic in Strings |
| Evaluation.SeparatorTokenizes | src/main.rs:301-304 | the ", " between set members gives no tokens |
| Evaluation.DigitThenSeparator | src/main.rs:268-304 | a digit then ", " gives just the digit |
| Evaluation.ListStep | src/main.rs:268-306 | a member, ", " and a tail tokenize as the member then the tail |
| Evaluation.ListTokenizes | src/main.rs:268-306 | the text of a set's members tokenizes to their numbers |
| Evaluation.Spaced | src/main.rs:301-304 | spaces around a character do not add tokens |
| Evaluation.Infix | src/main.rs:268-306 | an operator written between two texts with spaces tokenizes in place |
| Evaluation.Enclosed | src/main.rs:268-306 | a bracketed text tokenizes to the brackets around its tokens |
| Evaluation.FactorTokenizes | src/main.rs:262-310 | the written form of a factor tokenizes to its infix tokens |
| Evaluation.TermTokenizes | src/main.rs:262-310 | the written form of a term tokenizes to its infix tokens |
| Evaluation.ExprTokenizes | src/main.rs:262-310 | the written form of an expression tokenizes to its infix tokens |
| Evaluation.TextComputesValue | src/main.rs:262-310 | tokenizing, converting and resolving the written form of an expression gives its value |
| Evaluation.ListHasNoEquals | src/main.rs:264 | a set's member list contains no `=` |
| Evaluation.FactorHasNoEquals | src/main.rs:264 | a written factor contains no `=` |
| Evaluation.TermHasNoEquals | src/main.rs:264 | a written term contains no `=` |
| Evaluation.ExprHasNoEquals | src/main.rs:264 | a written expression contains no `=`, so it is one piece of an equation |
| Evaluation.Texts | src/main.rs:264 | one written form per expression |
| Evaluation.Values | src/main.rs:435-438 | the value of each expression, in order |
| Evaluation.SetValues | src/main.rs:402-408 | the set of each expression, in order |
| Evaluation.ScalarResultsAreValues | src/main.rs:435-438 | the integer results of an equation's pieces are the values of its sides |
| Evaluation.SetResultsAreValues | src/main.rs:402-408 | the set results of an equation's pieces are the sets of its sides |
| Evaluation.EquationPieces | src/main.rs:264-308 | an equation splits into its sides, and each side tokenizes to its infix tokens |
| Evaluation.ScalarVerdictOfValues | src/main.rs:432-447 | an Algebra or Boolean equation is valid exactly when its last side's value equals its first |
| Evaluation.SetsVerdictOfValues | src/main.rs:399-418 | a Sets equation is valid exactly when its last side's set equals its first |
| Evaluation.EquationVerdict | src/main.rs:354-460 | the verdict on an equation in Algebra, Boolean or Sets compares the values of its last and first sides |
| Evaluation.StringsScanSeesTokens | src/main.rs:236-260 | the Strings scanner sees the numbers and operators of an expression's infix tokens |
| Examples.AlgebraLineIsValid | src/main.rs:318 | in Algebra, `2 * 3 + 1 = (1 + 1) * 2 + 2 + 1 = 7` is valid, every side being 7 |
| Examples.PrecedenceLineIsValid | src/main.rs:322 | in Algebra, `1 + 2 * 2 + 1 = 2 + 2 + 2 * 1` is valid (6 = 6) because `*` binds tighter than `+` |
| Examples.SetsLineIsInvalid | src/main.rs:320 | in Sets, `{1, 2} + ({1, 2, 3} * {2, 3}) = ({1, 2} + {1, 2, 3}) * {2, 3}` is invalid |
| Examples.BooleanLineIsValid | src/main.rs:325 | in Boolean, `(1 + 0) * 1 + 1 = 0 * 1 + 1` is valid |
| Examples.ProductRunsIntoNextNumeral | src/main.rs:144-156 | the Strings rendering of `1 + 2 * 3` is "2 + 2 + 21 + " |
| Examples.StringsLineIsValid | src/main.rs:316 | in Strings, `2 * 3 + 1 = 2 + 2 + 2 + 1` is valid, both sides rendering as "1 + 2 + 2 + 2" |
| Examples.LastStringsLineIsInvalid | src/main.rs:327 | in Strings, `1 * (2 + 1) + 1 = 1 + 1 + 1` is invalid: "1 + 1 + 1 + 1" against "1 + 1 + 1" |
| Examples.SetsPartVerdicts | src/main.rs:319-321 | the Sets element inside Algebra adds one invalid verdict and restores the Algebra context |
| Examples.AlgebraPartVerdicts | src/main.rs:317-323 | the Algebra element adds the verdicts of its texts and its nested Sets element, in order |
| Examples.BooleanPartVerdicts | src/main.rs:324-326 | the Boolean element adds one valid verdict |
| Examples.DocumentShape | src/main.rs:314-329 | the embedded document, whose texts get these verdicts in their domains, is reported valid, valid, invalid, valid, valid, invalid without a panic |

## Left out

- Reading XML: the reader, event decoding, whitespace trimming of texts and the panic on a reader error (src/main.rs:333-341, 472-478). The model takes a sequence of abstract `Start`/`Text`/`End` events instead.
- The printed reports and the `resolved` strings (src/main.rs:378-384, 387-397, 411-430, 440-459). They are presentation only, and the `HashSet` is printed in an unspecified order; only the `equal` flag is modelled.
- The timing of the run (src/main.rs:313, 479-480) and the `Display` implementations (src/main.rs:39-48). They are I/O.
- src/domain/mod.rs is not part of this model. It duplicates the `Domain` type with formatting only, and `main` does not use it.
- `HashSet` internals and the copy loops that build a union or intersection (src/main.rs:109-111, 117-119). Dafny's `set<int>` union and intersection stand for them.
- Resolve.Combine: does not model the 64-bit overflow panic of `a + b` and `a * b`, because integers are unbounded here.
- Evaluation.ExprValue: does not model the 64-bit overflow panic either, for the same reason.
- Minus and Power are given no meaning beyond their precedence. No code handles them, since the tokenizer drops `-` and `^`. `;` is dropped like any other unrecognized character, as the code does.
- Parentheses in the Strings pathway, which the code leaves as a TODO. Brackets are never collected there, and the unused `is_left` flag is not modelled.
- Examples: equations are written with a bare `=` and without the document's trailing `;`. Neither scanner turns spaces or `;` into anything, as Tokenizer.TrimKeepsTokens and Tokenizer.SunkCharactersVanish state for the tokens.
- Examples.DocumentShape: takes the six texts' verdicts as premises. The lemmas for each line prove those verdicts separately; they are not instantiated together in one proof.
