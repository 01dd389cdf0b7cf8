# littleLisp, modelled in Dafny

littleLisp is a small Lisp interpreter written in JavaScript. It has two entry points:

- `parse` turns source text into an annotated syntax tree;
- `interpret` evaluates that tree in an environment of nested frames.

The repository's test suite pins down the observable behaviour, and it also holds one helper of its own, `unannotate`, which flattens a parse tree into raw values.

This project models that behaviour as pure functions and proves the suite's equations, plus general laws about each stage.

- `Wrappers`: the failures each stage can report, and the `Result` type.
- `Ast`: the annotated node (identifier, number, string, form, quote) and the runtime value:
  - number, text and list;
  - the empty value of `()`, which the host sees as null;
  - closure and quoted form;
  - the absent value of an unbound name, which the host sees as undefined;
  - a host primitive.
- `Lexer`: text to tokens.
  - Whitespace separates tokens.
  - `(`, `)` and `'` are tokens of their own.
  - A string literal runs to the next `"` and keeps blanks and parentheses verbatim.
  - Any other run of non-delimiters is an atom.
- `Parser`: tokens to exactly one node.
  - An all-digit atom is a number, any other atom an identifier.
  - Two printers, `Tokens` and `Show`: parsing a printed well-formed tree returns that tree. The converse does not hold, since `007` parses to the number 7, which prints as `7`.
- `Unannotate`: the suite's `unannotate` helper.
- `Environment`: a chain of frames, innermost first. Lookup yields the absent value for an unbound name.
- `Evaluator`: the evaluator.
  - Special forms (`list`, `first`, `rest`, `print`, `lambda`, `let`, `eval`, `if`) are recognised by the head identifier.
  - Any other form is an application, evaluated left to right.
  - A closure call binds its parameters positionally in a new frame chained to the captured environment.
  - A value that is not callable, applied to no arguments, is itself.
  - `quote` yields its node as data, and `eval` re-enters the evaluator.
  - Evaluation takes a depth bound (`fuel`); exceeding it is a stack overflow.
- `Semantics`: the evaluation rules stated for every program of a given shape.
- `LittleLisp`: `Run`, parsing followed by interpretation, and its two round trips.
- `Programs`, `Examples`: the suite's programs as trees, and one lemma per test.
  - The parse tests flatten with `unannotate` to the expected raw values.
  - The interpret tests run to the expected value at every depth that suffices.

## Model

| member | source | states |
|---|---|---|
| Unannotate.Unannotate | littlelisp.spec.js:8-20 | a leaf gives the one-element array of its value; a form gives one entry per child |
| Unannotate.UnannotateChildren | littlelisp.spec.js:9-16 | one entry per child; an entry is nested exactly when its child is a form, and a leaf child contributes its value |
| Unannotate.UnannotateKeepsShape | littlelisp.spec.js:8-20 | flattening a form gives one entry per child, in order; a form child stays a nested array and a leaf child becomes its value |
| Unannotate.UnannotateAppend | littlelisp.spec.js:13-15 | flattening distributes over concatenation of children (the `concat` of the head's and the tail's flattening) |
| Lexer.Scan | littlelisp.spec.js:23-59 | the front of the text is skipped exactly when it is whitespace, is an unterminated string exactly when it is a `"` with no other `"` after it, and otherwise yields a valid token |
| Lexer.Lex | littlelisp.spec.js:23-59 | lexing fails only with a lexical error and produces only valid tokens (non-empty delimiter-free atoms, strings without `"`) |
| Lexer.LexStringLiteral | littlelisp.spec.js:84-102 | a string literal is one string token holding its characters verbatim, blanks and parentheses included |
| Lexer.LexUnterminated | littlelisp.spec.js:84-102 | a `"` with no closing `"` after it is a lexical error, after any text that lexes on its own |
| Lexer.LexFailsExactly | littlelisp.spec.js:84-102 | lexing fails exactly when the text holds a `"` with no `"` after it and the text before that quote lexes |
| Lexer.LexQuoteFree | littlelisp.spec.js:23-80 | text without a `"` always lexes |
| Lexer.LexAppend | littlelisp.spec.js:146-157 | text that lexes, followed by text starting at a token boundary, lexes to both token runs in order, or fails as the second text does |
| Lexer.LexBlank | littlelisp.spec.js:146-157 | leading whitespace is skipped and changes no token |
| Lexer.LexLayout | littlelisp.spec.js:146-157 | any layout of valid tokens with blanks (non-empty between two atoms) lexes back to exactly those tokens |
| Parser.NumeralValueOfNumeral | littlelisp.spec.js:57-59 | the decimal spelling of a natural number reads back as that number |
| Parser.Classify | littlelisp.spec.js:56-59 | an atom is a number exactly when it is all digits; otherwise it is the identifier with the atom's text |
| Parser.ParseNode | littlelisp.spec.js:23-59 | the parser consumes a proper prefix, yields a well-formed node from valid tokens, and fails only with a parse error |
| Parser.ParseChildren | littlelisp.spec.js:28-54 | the children of a form are read through their closing parenthesis, leaving a proper suffix; they are well formed; failure is a parse error |
| Parser.Parse | littlelisp.spec.js:23-59 | a tree parsed from valid tokens is well formed; failure is a parse error |
| Parser.ParseText | littlelisp.spec.js:23-59 | text parses to a well-formed tree, or fails with a lexical or a parse error; a lexical error exactly when lexing fails |
| Parser.Tokens | littlelisp.spec.js:23-59 | the tokens printed for a tree hold as many closing as opening parentheses |
| Parser.ChildrenTokens | littlelisp.spec.js:28-54 | the same for the tokens of a run of children |
| Parser.Show | littlelisp.spec.js:23-59 | a well-formed tree prints as non-empty text with no blank at either end |
| Parser.ShowChildren | littlelisp.spec.js:28-54 | well-formed children print as empty text exactly when there are none, and with no blank at either end |
| Parser.ParseNodeOfTokens | littlelisp.spec.js:23-59 | parsing the tokens of a well-formed node returns that node and leaves any following tokens untouched |
| Parser.ParseTextOfShow | littlelisp.spec.js:23-59 | the printed text of a well-formed tree parses back to that tree |
| Parser.ParseTextOfLayout | littlelisp.spec.js:146-157 | any spacing of a tree's tokens parses back to that tree |
| Parser.ParseAtom | littlelisp.spec.js:24-26 | a lone atom parses to a number when all digits and to the identifier with that text otherwise |
| Parser.ParseNumeral | littlelisp.spec.js:57-59 | a numeral parses to the number it spells |
| Parser.ParseStringLiteral | littlelisp.spec.js:78-102 | a quoted string parses to a string leaf, even when it holds digits, blanks or parentheses |
| Parser.UnclosedForm | littlelisp.spec.js:23-59 | children whose closing parenthesis never comes are a parse error |
| Parser.ParseErrors | littlelisp.spec.js:23-59 | no tokens, a `)` in front of any tokens, an `(` before any run of children that never closes, and any tokens after a complete tree are parse errors |
| Environment.Lookup | littlelisp.spec.js:146-157 | an empty chain gives the absent value; a binding in the innermost frame wins |
| Environment.LookupSource | littlelisp.spec.js:171-175 | a looked-up value is absent or a value some frame binds the name to |
| Environment.Extend | littlelisp.spec.js:146-157 | the new frame is innermost and the outer frames are kept in order |
| Environment.LookupFindsInnermost | littlelisp.spec.js:146-157 | the innermost frame that binds a name decides its value |
| Environment.LookupUnbound | littlelisp.spec.js:171-175 | a name no frame binds looks up to the absent (undefined) value |
| Environment.LookupExtend | littlelisp.spec.js:146-157 | a child frame shadows its parent; other names fall through |
| Environment.BindFrame | littlelisp.spec.js:134-144 | binding succeeds exactly when counts match and names are distinct, binds each name to the value at its position, and otherwise reports arity or duplicate |
| Environment.BindEach | littlelisp.spec.js:134-144 | with equal counts, binding succeeds exactly when the names are distinct and binds each name to the value at its position |
| Evaluator.Eval | littlelisp.spec.js:63-212 | evaluation fails only with a runtime error, and a leaf never fails once there is depth left |
| Evaluator.EvalSeq | littlelisp.spec.js:69-80 | arguments give one value each, and fail only with a runtime error |
| Evaluator.EvalApplication | littlelisp.spec.js:69-72 | the operator is evaluated before the arguments, so its failure is the result |
| Evaluator.Apply | littlelisp.spec.js:65-72 | a value that is neither closure nor primitive succeeds exactly when given no arguments; a closure given the wrong number of arguments fails with an arity error |
| Evaluator.EvalSpecial | littlelisp.spec.js:110-211 | `first`, `rest`, `print`, `eval` need one argument, `if` three and `let` a binding list and a body, or they fail as malformed; `lambda` succeeds exactly when it has a parameter list and a body |
| Evaluator.Interpret | littlelisp.spec.js:171-197 | an identifier is what the host bound it to, or absent; failures are runtime errors |
| Evaluator.ApplyPrimitive | littlelisp.spec.js:189-197 | the injected `+` succeeds exactly on two numbers and returns their sum |
| Evaluator.EvalMonotone | littlelisp.spec.js:63-212 | a result that is not a stack overflow stays the same at any greater depth |
| Semantics.EvalSeqElementwise | littlelisp.spec.js:69-80 | arguments evaluate to a sequence exactly when each evaluates to the element at its position |
| Semantics.EvalSeqFirstFailure | littlelisp.spec.js:69-72 | the first failing argument decides the failure |
| Semantics.EmptyFormIsEmpty | littlelisp.spec.js:65-67 | `()` evaluates to the empty (null) value |
| Semantics.UnboundIsAbsent | littlelisp.spec.js:171-175 | an unbound identifier evaluates to the absent value rather than failing |
| Semantics.ListEvaluatesInOrder | littlelisp.spec.js:69-80 | `(list e1 .. en)` is the list of the argument values in order; `(list)` is the empty list, not the empty value |
| Semantics.FirstAndRest | littlelisp.spec.js:116-122 | `first`/`rest` give the head/the tail of a non-empty list and fail on an empty list or a non-list |
| Semantics.PrintIsTransparent | littlelisp.spec.js:110-114 | `print` returns its argument's value unchanged |
| Semantics.NonCallableOperator | littlelisp.spec.js:69-72 | a non-callable operator is its own value with no arguments and fails as not callable with arguments |
| Semantics.DegenerateApplication | littlelisp.spec.js:183-188 | parenthesising an expression whose value is not callable changes nothing |
| Semantics.LambdaCaptures | littlelisp.spec.js:125-163 | `lambda` evaluates nothing and captures the environment it is evaluated in |
| Semantics.ClosureCall | littlelisp.spec.js:134-144 | a closure call binds arguments positionally in a frame chained to the captured environment, and fails on wrong arity or a repeated parameter |
| Semantics.ImmediateLambda | littlelisp.spec.js:126-144 | a lambda applied where it is written runs its body in the caller's environment plus one frame of parameters |
| Semantics.CallFrameScoping | littlelisp.spec.js:134-157 | in a call each parameter names its own argument and every other name resolves in the captured environment |
| Semantics.NestedClosures | littlelisp.spec.js:146-158 | `((lambda (a) ((lambda (b) (list a a b b)) y)) x)` lists x's value twice, then y's value inside the outer call twice |
| Semantics.InnerArgumentReadsOuter | littlelisp.spec.js:146-158 | `((lambda (a) ((lambda (b) (list a a b b)) a)) x)` lists x's value four times |
| Semantics.InnerClosureSeesOuter | littlelisp.spec.js:146-158 | the inner closure of that program sees the outer parameter |
| Semantics.LetBindsInParallel | littlelisp.spec.js:167-179 | `let` evaluates all initialisers in the outer environment, binds them at once in one new frame and runs the body there; a repeated name fails |
| Semantics.LetWithValues | littlelisp.spec.js:167-179 | once the initialisers have values, `let` runs the body in their frame or reports the binding failure |
| Semantics.LetStep | littlelisp.spec.js:167-169 | a `let` with distinct names runs its body in the frame of its initialisers' values |
| Semantics.LetWithoutBindings | littlelisp.spec.js:177-179 | `(let () body)` is the body evaluated in an empty child frame |
| Semantics.LetDoesNotExposeBindings | littlelisp.spec.js:171-175 | in `(let ((x e) (y x)) (list x y))`, `y` gets the outer `x`, absent when unbound |
| Semantics.LetListsItsNames | littlelisp.spec.js:167-175 | `(let ((x a) (y b)) (list x y))` lists the values of `a` and `b` |
| Semantics.ListOfTwoNames | littlelisp.spec.js:138-140 | `(list x y)` lists the values bound to `x` and `y` |
| Semantics.TwoBindings | littlelisp.spec.js:167-175 | a two-binding list names `x` and `y` and holds their initialisers in order |
| Semantics.IfChoosesOneBranch | littlelisp.spec.js:207-211 | `if` takes the else branch exactly when the condition is 0 and the then branch otherwise |
| Semantics.IfIgnoresUntakenBranch | littlelisp.spec.js:207-211 | the branch `if` does not take can be anything |
| Semantics.QuoteHoldsForm | littlelisp.spec.js:183-188 | a quote evaluates to its node as data, also when parenthesised |
| Semantics.EvalForm | littlelisp.spec.js:191-204 | `eval` runs a quoted node, runs a list as the form its items stand for, and returns any other value unchanged |
| Semantics.EvalOfQuote | littlelisp.spec.js:191-194 | evaluating a quoted node is evaluating the node |
| Semantics.QuoteEvalRoundTrip | littlelisp.spec.js:202-204 | quoting and evaluating twice gives the value of the original expression |
| Semantics.BuiltinCall | littlelisp.spec.js:189-194 | applying a host primitive applies it to the argument values |
| Semantics.HostAddition | littlelisp.spec.js:189-194 | `(+ x y)` adds two numbers and fails on anything else |
| Semantics.EvalQuotedSum | littlelisp.spec.js:191-194 | `(eval ('(+ a b)))` is a + b when `+` is injected |
| Semantics.EvalOfList | littlelisp.spec.js:195-198 | `(eval (list p1 .. pn))` runs the code the parts' values stand for |
| Semantics.EvalListOfQuotedParts | littlelisp.spec.js:195-198 | a list of quoted parts, or of a quoted `+` and numbers, evaluates to the sum |
| Semantics.EvalListOfQuotedCode | littlelisp.spec.js:196 | `(eval (list ('+) ('a) ('b)))` is a + b |
| Semantics.EvalListOfMixedParts | littlelisp.spec.js:197 | `(eval (list ('+) a b))` is a + b |
| Semantics.EvalIdempotentOnData | littlelisp.spec.js:199-201 | `eval` of data that is not code is the identity, so repeating it changes nothing |
| LittleLisp.Run | littlelisp.spec.js:63-212 | a running program fails with a lexical or parse error exactly when its text does not parse, and with a lexical error exactly when it does not lex |
| LittleLisp.RunShow | littlelisp.spec.js:63-212 | running the printed text of a tree is interpreting that tree |
| LittleLisp.RunLayout | littlelisp.spec.js:146-157 | running any spacing of a tree's tokens is interpreting that tree |
| Examples.ParseSingleAtom | littlelisp.spec.js:24-26 | `a` parses to the identifier `a` |
| Examples.ParseEmptyList | littlelisp.spec.js:28-30 | `()` parses to the empty form, which flattens to [] |
| Examples.ParseTwoAtoms | littlelisp.spec.js:32-34 | `(hi you)` flattens to ["hi", "you"] |
| Examples.ParseNestedList | littlelisp.spec.js:36-38 | `((x))` flattens to [["x"]] |
| Examples.ParseAtomThenList | littlelisp.spec.js:40-42 | `(x (x))` flattens to ["x", ["x"]] |
| Examples.ParseTwoNames | littlelisp.spec.js:44-46 | `(x y)` flattens to ["x", "y"] |
| Examples.ParseListBetweenAtoms | littlelisp.spec.js:48-50 | `(x (y) z)` flattens to ["x", ["y"], "z"] |
| Examples.ParseTwoInnerLists | littlelisp.spec.js:52-54 | `(x (y) (a b c))` flattens to ["x", ["y"], ["a", "b", "c"]] |
| Examples.ParseNumbers | littlelisp.spec.js:56-59 | `(1 (a 2))` flattens to [1, ["a", 2]] |
| Examples.InterpretEmptyList | littlelisp.spec.js:65-67 | `()` runs to the empty (null) value |
| Examples.StringHeadEvaluates | littlelisp.spec.js:70 | a form headed by a string with arguments fails as not callable |
| Examples.InterpretStringHead | littlelisp.spec.js:70 | the text `("hi" "mary" "rose")` fails as not callable |
| Examples.ListOfStringsEvaluates | littlelisp.spec.js:71 | `(list "hi" "mary" "rose")` is the three strings |
| Examples.InterpretListOfStrings | littlelisp.spec.js:71 | as text, the same |
| Examples.ListOfNumbersEvaluates | littlelisp.spec.js:74-76 | `(list 1 2 3)` is [1, 2, 3] |
| Examples.InterpretListOfNumbers | littlelisp.spec.js:74-76 | as text, the same |
| Examples.NumeralsInStringsEvaluates | littlelisp.spec.js:78-80 | `(list "1" "2" "3")` is three strings, not numbers |
| Examples.InterpretNumeralsInStrings | littlelisp.spec.js:78-80 | as text, the same |
| Examples.RunString | littlelisp.spec.js:84-102 | any string literal runs to its text verbatim |
| Examples.InterpretStringAtom | littlelisp.spec.js:84-86 | `"a"` runs to "a" |
| Examples.InterpretStringWithSpace | littlelisp.spec.js:88-90 | `"a b"` runs to "a b" |
| Examples.InterpretStringWithOpeningParen | littlelisp.spec.js:92-94 | `"(a"` runs to "(a" |
| Examples.InterpretStringWithClosingParen | littlelisp.spec.js:96-98 | `")a"` runs to ")a" |
| Examples.InterpretStringWithParens | littlelisp.spec.js:100-102 | `"(a)"` runs to "(a)" |
| Examples.InterpretNumberAtom | littlelisp.spec.js:104-106 | `123` runs to 123 |
| Examples.PrintOneEvaluates | littlelisp.spec.js:110-114 | `(print 1)` is 1 |
| Examples.InterpretPrintOne | littlelisp.spec.js:110-114 | as text, the same |
| Examples.FirstOfListEvaluates | littlelisp.spec.js:116-118 | `(first (list 1 2 3))` is 1 |
| Examples.InterpretFirstOfList | littlelisp.spec.js:116-118 | as text, the same |
| Examples.RestOfListEvaluates | littlelisp.spec.js:120-122 | `(rest (list 1 2 3))` is [2, 3] |
| Examples.InterpretRestOfList | littlelisp.spec.js:120-122 | as text, the same |
| Examples.ConstantLambdaEvaluates | littlelisp.spec.js:126-128 | `((lambda () "asdf"))` is "asdf" |
| Examples.InterpretConstantLambda | littlelisp.spec.js:126-128 | as text, the same |
| Examples.RestOfPairEvaluates | littlelisp.spec.js:130-132 | `(rest (list 1 2))` is [2] in any environment |
| Examples.LambdaWithoutParamsEvaluates | littlelisp.spec.js:130-132 | `((lambda () (rest (list 1 2))))` is [2] |
| Examples.InterpretLambdaWithoutParams | littlelisp.spec.js:130-132 | as text, the same |
| Examples.IdentityCallEvaluates | littlelisp.spec.js:134-136 | `((lambda (x) x) 1)` is 1 |
| Examples.InterpretIdentityCall | littlelisp.spec.js:134-136 | as text, the same |
| Examples.ListOfNamesEvaluates | littlelisp.spec.js:138-144 | `(list x y)` and `(list 0 x y)` list the bound values, after the literal |
| Examples.PairCallEvaluates | littlelisp.spec.js:138-140 | `((lambda (x y) (list x y)) 1 2)` is [1, 2] |
| Examples.InterpretPairCall | littlelisp.spec.js:138-140 | as text, the same |
| Examples.LiteralsAndParamsEvaluates | littlelisp.spec.js:142-144 | `((lambda (x y) (list 0 x y)) 1 2)` is [0, 1, 2] |
| Examples.InterpretLiteralsAndParams | littlelisp.spec.js:142-144 | as text, the same |
| Examples.NestedLambdasEvaluates | littlelisp.spec.js:146-158 | the nested lambdas give ["apple", "apple", "banana", "banana"] |
| Examples.InterpretNestedLambdasSpaced | littlelisp.spec.js:146-158 | the same for the program's tokens laid out with any blanks, the test's nine lines included |
| Examples.FirstOfNameEvaluates | littlelisp.spec.js:160-163 | `(first l)` is the head of the list bound to `l` |
| Examples.ListArgumentEvaluates | littlelisp.spec.js:160-163 | `((lambda (l) (first l)) (list 1 2))` is 1 |
| Examples.InterpretListArgument | littlelisp.spec.js:160-163 | as text, the same |
| Examples.LetPairEvaluates | littlelisp.spec.js:167-169 | `(let ((x 1) (y 2)) (list x y))` is [1, 2] |
| Examples.InterpretLetPair | littlelisp.spec.js:167-169 | as text, the same |
| Examples.LetParallelEvaluates | littlelisp.spec.js:171-175 | `(let ((x 1) (y x)) (list x y))` is [1, absent] |
| Examples.InterpretLetParallel | littlelisp.spec.js:171-175 | as text, the same |
| Examples.LetEmptyEvaluates | littlelisp.spec.js:177-179 | `(let () 42)` is 42 |
| Examples.InterpretLetEmpty | littlelisp.spec.js:177-179 | as text, the same |
| Examples.QuoteGarbageEvaluates | littlelisp.spec.js:184-185 | `('(garbage))` is the form `(garbage)` as data, unevaluated |
| Examples.InterpretQuoteGarbage | littlelisp.spec.js:184-185 | as text, the same |
| Examples.QuoteListEvaluates | littlelisp.spec.js:186-187 | `('(list 1 3))` is the form `(list 1 3)` as data |
| Examples.InterpretQuoteList | littlelisp.spec.js:186-187 | as text, the same |
| Examples.QuotedSumEvaluates | littlelisp.spec.js:191-194 | `(eval ('(+ 1 3)))` is 4 with `+` injected |
| Examples.InterpretQuotedSum | littlelisp.spec.js:191-194 | as text, the same |
| Examples.QuotedPartsEvaluates | littlelisp.spec.js:196 | `(eval (list ('+) ('1) ('3)))` is 4 |
| Examples.InterpretQuotedParts | littlelisp.spec.js:196 | as text, the same |
| Examples.MixedPartsEvaluates | littlelisp.spec.js:197 | `(eval (list (' +) 1 4))` is 5 |
| Examples.InterpretMixedParts | littlelisp.spec.js:197 | as text, written `('+)`, the same |
| Examples.InterpretMixedPartsSpaced | littlelisp.spec.js:197 | the same for any spacing of its tokens, the test's `(' +)` included |
| Examples.RepeatedEvalEvaluates | littlelisp.spec.js:199-201 | `(eval (eval (eval 4)))` is 4 |
| Examples.InterpretRepeatedEval | littlelisp.spec.js:199-201 | as text, the same |
| Examples.InterpretRepeatedEvalSpaced | littlelisp.spec.js:199-201 | the same for any spacing, the test's `(eval(eval(eval 4)))` included |
| Examples.RoundTripEvaluates | littlelisp.spec.js:202-204 | `(eval (' (eval (' (list 1 2)))))` is [1, 2] |
| Examples.InterpretRoundTrip | littlelisp.spec.js:202-204 | as text, the same |
| Examples.InterpretRoundTripSpaced | littlelisp.spec.js:202-204 | the same for any spacing, the test's `( list 1 2)` included |
| Examples.IfTrueEvaluates | littlelisp.spec.js:209 | `(if 1 42 4711)` is 42 |
| Examples.InterpretIfTrue | littlelisp.spec.js:209 | as text, the same |
| Examples.IfFalseEvaluates | littlelisp.spec.js:210 | `(if 0 42 4711)` is 4711 |
| Examples.InterpretIfFalse | littlelisp.spec.js:210 | as text, the same |

## Left out

- The interpreter's implementation file, littlelisp.js, is not part of this model.
  - The model follows the behaviour the test suite asserts.
  - Where the suite is silent, the behaviour is the model's own choice. These cases are:
    - a closure applied to the wrong number of arguments, or with a repeated parameter, fails;
    - a `let` that binds the same name twice fails with a duplicate-binding error;
    - `first`/`rest` of the empty list or of a non-list fails;
    - a special form of the wrong shape fails;
    - an unterminated string literal is a lexical error;
    - trailing tokens after the first node are a parse error;
    - `(list)` is the empty list, not the empty value.
  - These are stated as error results rather than host exceptions.
- `print` writes to the host console, and the `hotSwap` helper silences it. `print` is modelled as returning its argument; the output itself is an ignored side effect.
- The Jasmine scaffolding (`describe`, `it`, `expect`, `require`) and the `is` type-test helper are left out. Pattern matching on datatypes takes the place of `is`.
- Host-injected JavaScript functions are not modelled. The injected `+` of the tests is a single primitive that adds two integers.
  - Evaluator.ApplyPrimitive: JavaScript `+` on non-numbers (string concatenation, coercion) is a type error here.
- JavaScript truthiness is not modelled: `if` treats only the number 0 as false, which covers both of the suite's `if` tests.
- Numbers are unbounded integers with non-negative literals. Floating point, negative literals and JavaScript's numeric parsing are not modelled.
- The host's call stack is modelled as the `fuel` depth bound, and running out is a stack-overflow error.
  - Every equation is stated for all depths from the one it needs upwards (`f + k` for every `f`).
  - Evaluator.EvalMonotone shows that more depth changes no other result.
- Examples.InterpretNestedLambdasSpaced: the nine-line banana program is stated for every spacing of its tokens, which includes the test's layout. It is not stated separately on one fixed string.
