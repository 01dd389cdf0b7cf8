/**
 * The programs of the interpreter's test suite as trees, with the facts that
 * tie each to its canonical spelling: it is well formed, and `Show` prints
 * it as the text the test writes.  Each fact is proved from the facts about
 * the tree's parts, one form at a time.
 */
module Programs {
  import opened Ast
  import opened Lexer
  import opened Parser
  import U = Unannotate

  // Helpers.  The lemmas from here to the test programs relate `Show`,
  // `WellFormed` and `Unannotate` on a form to the same functions on its
  // children, for forms of one to five children.

  lemma Word(x: string)
    requires x != [] && !IsDigit(x[0]) && forall i :: 0 <= i < |x| ==> !IsDelimiter(x[i])
    ensures WellFormed(Identifier(x)) && Show(Identifier(x)) == x
  {
  }

  lemma Opening(s: string, t: string)
    requires |t| == |s| + 1 && t[0] == '(' && t[1..] == s
    ensures "(" + s == t
  {
    assert t == [t[0]] + t[1..];
  }

  lemma Quoted(x: string)
    requires forall i :: 0 <= i < |x| ==> x[i] != '"'
    ensures WellFormed(Str(x)) && Show(Str(x)) == "\"" + x + "\""
  {
  }

  lemma Associative(x: string, y: string, z: string)
    ensures x + (y + z) == x + y + z
  {
  }

  lemma ChildrenTwo(a: Node, b: Node)
    ensures ShowChildren([a, b]) == Show(a) + " " + Show(b)
  {
    assert [a, b][1..] == [b];
  }

  lemma ChildrenThree(a: Node, b: Node, c: Node)
    ensures ShowChildren([a, b, c]) == Show(a) + " " + Show(b) + " " + Show(c)
  {
    ChildrenTwo(b, c);
    assert [a, b, c][1..] == [b, c];
    Associative(Show(a) + " ", Show(b) + " ", Show(c));
    Associative(Show(a) + " ", Show(b), " ");
  }

  lemma ChildrenFour(a: Node, b: Node, c: Node, d: Node)
    ensures ShowChildren([a, b, c, d]) == Show(a) + " " + Show(b) + " " + Show(c) + " " + Show(d)
  {
    ChildrenThree(b, c, d);
    assert [a, b, c, d][1..] == [b, c, d];
    Associative(Show(a) + " ", Show(b) + " " + Show(c) + " ", Show(d));
    Associative(Show(a) + " ", Show(b) + " " + Show(c), " ");
    Associative(Show(a) + " ", Show(b) + " ", Show(c));
    Associative(Show(a) + " ", Show(b), " ");
  }

  lemma ChildrenFive(a: Node, b: Node, c: Node, d: Node, e: Node)
    ensures ShowChildren([a, b, c, d, e]) == Show(a) + " " + Show(b) + " " + Show(c) + " " + Show(d) + " " + Show(e)
  {
    ChildrenFour(b, c, d, e);
    assert [a, b, c, d, e][1..] == [b, c, d, e];
    Associative(Show(a) + " ", Show(b) + " " + Show(c) + " " + Show(d) + " ", Show(e));
    Associative(Show(a) + " ", Show(b) + " " + Show(c) + " " + Show(d), " ");
    Associative(Show(a) + " ", Show(b) + " " + Show(c) + " ", Show(d));
    Associative(Show(a) + " ", Show(b) + " " + Show(c), " ");
    Associative(Show(a) + " ", Show(b) + " ", Show(c));
    Associative(Show(a) + " ", Show(b), " ");
  }

  lemma ShowOne(a: Node)
    ensures Show(Form([a])) == "(" + Show(a) + ")"
  {
  }

  lemma ShowTwo(a: Node, b: Node)
    ensures Show(Form([a, b])) == "(" + Show(a) + " " + Show(b) + ")"
  {
    ChildrenTwo(a, b);
    Associative("(", Show(a) + " ", Show(b));
    Associative("(", Show(a), " ");
  }

  lemma ShowThree(a: Node, b: Node, c: Node)
    ensures Show(Form([a, b, c])) == "(" + Show(a) + " " + Show(b) + " " + Show(c) + ")"
  {
    ChildrenThree(a, b, c);
    Associative("(", Show(a) + " " + Show(b) + " ", Show(c));
    Associative("(", Show(a) + " " + Show(b), " ");
    Associative("(", Show(a) + " ", Show(b));
    Associative("(", Show(a), " ");
  }

  lemma ShowFour(a: Node, b: Node, c: Node, d: Node)
    ensures Show(Form([a, b, c, d])) == "(" + Show(a) + " " + Show(b) + " " + Show(c) + " " + Show(d) + ")"
  {
    ChildrenFour(a, b, c, d);
    Associative("(", Show(a) + " " + Show(b) + " " + Show(c) + " ", Show(d));
    Associative("(", Show(a) + " " + Show(b) + " " + Show(c), " ");
    Associative("(", Show(a) + " " + Show(b) + " ", Show(c));
    Associative("(", Show(a) + " " + Show(b), " ");
    Associative("(", Show(a) + " ", Show(b));
    Associative("(", Show(a), " ");
  }

  lemma ShowFive(a: Node, b: Node, c: Node, d: Node, e: Node)
    ensures Show(Form([a, b, c, d, e])) == "(" + Show(a) + " " + Show(b) + " " + Show(c) + " " + Show(d) + " " + Show(e) + ")"
  {
    ChildrenFive(a, b, c, d, e);
    Associative("(", Show(a) + " " + Show(b) + " " + Show(c) + " " + Show(d) + " ", Show(e));
    Associative("(", Show(a) + " " + Show(b) + " " + Show(c) + " " + Show(d), " ");
    Associative("(", Show(a) + " " + Show(b) + " " + Show(c) + " ", Show(d));
    Associative("(", Show(a) + " " + Show(b) + " " + Show(c), " ");
    Associative("(", Show(a) + " " + Show(b) + " ", Show(c));
    Associative("(", Show(a) + " " + Show(b), " ");
    Associative("(", Show(a) + " ", Show(b));
    Associative("(", Show(a), " ");
  }

  lemma WellFormedOne(a: Node)
    requires WellFormed(a)
    ensures WellFormed(Form([a]))
  {
  }

  lemma WellFormedTwo(a: Node, b: Node)
    requires WellFormed(a) && WellFormed(b)
    ensures WellFormed(Form([a, b]))
  {
  }

  lemma WellFormedThree(a: Node, b: Node, c: Node)
    requires WellFormed(a) && WellFormed(b) && WellFormed(c)
    ensures WellFormed(Form([a, b, c]))
  {
  }

  lemma WellFormedFour(a: Node, b: Node, c: Node, d: Node)
    requires WellFormed(a) && WellFormed(b) && WellFormed(c) && WellFormed(d)
    ensures WellFormed(Form([a, b, c, d]))
  {
  }

  lemma WellFormedFive(a: Node, b: Node, c: Node, d: Node, e: Node)
    requires WellFormed(a) && WellFormed(b) && WellFormed(c) && WellFormed(d) && WellFormed(e)
    ensures WellFormed(Form([a, b, c, d, e]))
  {
  }

  lemma FlatOne(a: Node)
    ensures U.Unannotate(Form([a])) == [U.RawOf(a)]
  {
    U.UnannotateKeepsShape([a]);
  }

  lemma FlatTwo(a: Node, b: Node)
    ensures U.Unannotate(Form([a, b])) == [U.RawOf(a), U.RawOf(b)]
  {
    U.UnannotateKeepsShape([a, b]);
  }

  lemma FlatThree(a: Node, b: Node, c: Node)
    ensures U.Unannotate(Form([a, b, c])) == [U.RawOf(a), U.RawOf(b), U.RawOf(c)]
  {
    U.UnannotateKeepsShape([a, b, c]);
  }

  // The test programs, one function per tree the suite writes.

  function TwoAtoms(): Node
  {
    Form([Identifier("hi"), Identifier("you")])
  }

  function NestedList(): Node
  {
    Form([Form([Identifier("x")])])
  }

  function AtomThenList(): Node
  {
    Form([Identifier("x"), Form([Identifier("x")])])
  }

  function TwoNames(): Node
  {
    Form([Identifier("x"), Identifier("y")])
  }

  function ListBetweenAtoms(): Node
  {
    Form([Identifier("x"), Form([Identifier("y")]), Identifier("z")])
  }

  function TwoInnerLists(): Node
  {
    Form([Identifier("x"), Form([Identifier("y")]), Form([Identifier("a"), Identifier("b"), Identifier("c")])])
  }

  function Numbers(): Node
  {
    Form([Number(1), Form([Identifier("a"), Number(2)])])
  }

  function StringHead(): Node
  {
    Form([Str("hi"), Str("mary"), Str("rose")])
  }

  function ListOfStrings(): Node
  {
    Form([Identifier("list"), Str("hi"), Str("mary"), Str("rose")])
  }

  function ListOfNumbers(): Node
  {
    Form([Identifier("list"), Number(1), Number(2), Number(3)])
  }

  function NumeralsInStrings(): Node
  {
    Form([Identifier("list"), Str("1"), Str("2"), Str("3")])
  }

  function PrintOne(): Node
  {
    Form([Identifier("print"), Number(1)])
  }

  function FirstOfList(): Node
  {
    Form([Identifier("first"), Form([Identifier("list"), Number(1), Number(2), Number(3)])])
  }

  function RestOfList(): Node
  {
    Form([Identifier("rest"), Form([Identifier("list"), Number(1), Number(2), Number(3)])])
  }

  function ConstantLambda(): Node
  {
    Form([Form([Identifier("lambda"), Form([]), Str("asdf")])])
  }

  function LambdaWithoutParams(): Node
  {
    Form([Form([Identifier("lambda"), Form([]), Form([Identifier("rest"), Form([Identifier("list"), Number(1), Number(2)])])])])
  }

  function IdentityCall(): Node
  {
    Form([Form([Identifier("lambda"), Form([Identifier("x")]), Identifier("x")]), Number(1)])
  }

  function PairCall(): Node
  {
    Form([Form([Identifier("lambda"), Form([Identifier("x"), Identifier("y")]), Form([Identifier("list"), Identifier("x"), Identifier("y")])]), Number(1), Number(2)])
  }

  function LiteralsAndParams(): Node
  {
    Form([Form([Identifier("lambda"), Form([Identifier("x"), Identifier("y")]), Form([Identifier("list"), Number(0), Identifier("x"), Identifier("y")])]), Number(1), Number(2)])
  }

  function NestedLambdas(): Node
  {
    Form([Form([Identifier("lambda"), Form([Identifier("a")]), Form([Form([Identifier("lambda"), Form([Identifier("b")]), Form([Identifier("list"), Identifier("a"), Identifier("a"), Identifier("b"), Identifier("b")])]), Str("banana")])]), Str("apple")])
  }

  function ListArgument(): Node
  {
    Form([Form([Identifier("lambda"), Form([Identifier("l")]), Form([Identifier("first"), Identifier("l")])]), Form([Identifier("list"), Number(1), Number(2)])])
  }

  function LetPair(): Node
  {
    Form([Identifier("let"), Form([Form([Identifier("x"), Number(1)]), Form([Identifier("y"), Number(2)])]), Form([Identifier("list"), Identifier("x"), Identifier("y")])])
  }

  function LetParallel(): Node
  {
    Form([Identifier("let"), Form([Form([Identifier("x"), Number(1)]), Form([Identifier("y"), Identifier("x")])]), Form([Identifier("list"), Identifier("x"), Identifier("y")])])
  }

  function LetEmpty(): Node
  {
    Form([Identifier("let"), Form([]), Number(42)])
  }

  function QuoteGarbage(): Node
  {
    Form([Quote(Form([Identifier("garbage")]))])
  }

  function QuoteList(): Node
  {
    Form([Quote(Form([Identifier("list"), Number(1), Number(3)]))])
  }

  function QuotedSum(): Node
  {
    Form([Identifier("eval"), Form([Quote(Form([Identifier("+"), Number(1), Number(3)]))])])
  }

  function QuotedParts(): Node
  {
    Form([Identifier("eval"), Form([Identifier("list"), Form([Quote(Identifier("+"))]), Form([Quote(Number(1))]), Form([Quote(Number(3))])])])
  }

  function MixedParts(): Node
  {
    Form([Identifier("eval"), Form([Identifier("list"), Form([Quote(Identifier("+"))]), Number(1), Number(4)])])
  }

  function RepeatedEval(): Node
  {
    Form([Identifier("eval"), Form([Identifier("eval"), Form([Identifier("eval"), Number(4)])])])
  }

  function RoundTrip(): Node
  {
    Form([Identifier("eval"), Form([Quote(Form([Identifier("eval"), Form([Quote(Form([Identifier("list"), Number(1), Number(2)]))])]))])])
  }

  function IfTrue(): Node
  {
    Form([Identifier("if"), Number(1), Number(42), Number(4711)])
  }

  function IfFalse(): Node
  {
    Form([Identifier("if"), Number(0), Number(42), Number(4711)])
  }

  // Helpers.  Each `...Text` lemma states that `Show` prints a test program
  // (or one of its sub-forms) as the text the test writes.  The
  // `...Spelling` and `...SpellingPrefix` lemmas beside them are equalities
  // between string literals, nothing about the interpreter: each is kept
  // apart so that its proof does not see the `Show` terms, which makes it
  // far more expensive for the solver.

  lemma TwoAtomsText()
    ensures Show(TwoAtoms()) == "(hi you)"
  {
    ShowTwo(Identifier("hi"), Identifier("you"));
    TwoAtomsSpelling();
  }

  lemma TwoAtomsSpelling()
    ensures "(" + "hi" + " " + "you" + ")" == "(hi you)"
  {
  }

  lemma XText()
    ensures Show(Form([Identifier("x")])) == "(x)"
  {
    ShowOne(Identifier("x"));
    XSpelling();
  }

  lemma XSpelling()
    ensures "(" + "x" + ")" == "(x)"
  {
  }

  lemma NestedListText()
    ensures Show(NestedList()) == "((x))"
  {
    XText();
    ShowOne(Form([Identifier("x")]));
    NestedListSpelling();
  }

  lemma NestedListSpelling()
    ensures "(" + "(x)" + ")" == "((x))"
  {
  }

  lemma AtomThenListText()
    ensures Show(AtomThenList()) == "(x (x))"
  {
    XText();
    ShowTwo(Identifier("x"), Form([Identifier("x")]));
    AtomThenListSpelling();
  }

  lemma AtomThenListSpelling()
    ensures "(" + "x" + " " + "(x)" + ")" == "(x (x))"
  {
  }

  lemma TwoNamesText()
    ensures Show(TwoNames()) == "(x y)"
  {
    ShowTwo(Identifier("x"), Identifier("y"));
    TwoNamesSpelling();
  }

  lemma TwoNamesSpelling()
    ensures "(" + "x" + " " + "y" + ")" == "(x y)"
  {
  }

  lemma YText()
    ensures Show(Form([Identifier("y")])) == "(y)"
  {
    ShowOne(Identifier("y"));
    YSpelling();
  }

  lemma YSpelling()
    ensures "(" + "y" + ")" == "(y)"
  {
  }

  lemma ListBetweenAtomsText()
    ensures Show(ListBetweenAtoms()) == "(x (y) z)"
  {
    YText();
    ShowThree(Identifier("x"), Form([Identifier("y")]), Identifier("z"));
    ListBetweenAtomsSpelling();
  }

  lemma ListBetweenAtomsSpelling()
    ensures "(" + "x" + " " + "(y)" + " " + "z" + ")" == "(x (y) z)"
  {
  }

  lemma ABCText()
    ensures Show(Form([Identifier("a"), Identifier("b"), Identifier("c")])) == "(a b c)"
  {
    ShowThree(Identifier("a"), Identifier("b"), Identifier("c"));
    ABCSpelling();
  }

  lemma ABCSpelling()
    ensures "(" + "a" + " " + "b" + " " + "c" + ")" == "(a b c)"
  {
  }

  lemma TwoInnerListsText()
    ensures Show(TwoInnerLists()) == "(x (y) (a b c))"
  {
    YText();
    ABCText();
    ShowThree(Identifier("x"), Form([Identifier("y")]), Form([Identifier("a"), Identifier("b"), Identifier("c")]));
    TwoInnerListsSpelling();
  }

  lemma TwoInnerListsSpelling()
    ensures "(" + "x" + " " + "(y)" + " " + "(a b c)" + ")" == "(x (y) (a b c))"
  {
  }

  lemma ATwoText()
    ensures Show(Form([Identifier("a"), Number(2)])) == "(a 2)"
  {
    assert Show(Number(2)) == "2";
    ShowTwo(Identifier("a"), Number(2));
    ATwoSpelling();
  }

  lemma ATwoSpelling()
    ensures "(" + "a" + " " + "2" + ")" == "(a 2)"
  {
  }

  lemma NumbersText()
    ensures Show(Numbers()) == "(1 (a 2))"
  {
    assert Show(Number(1)) == "1";
    ATwoText();
    ShowTwo(Number(1), Form([Identifier("a"), Number(2)]));
    NumbersSpelling();
  }

  lemma NumbersSpelling()
    ensures "(" + "1" + " " + "(a 2)" + ")" == "(1 (a 2))"
  {
  }

  lemma StringHeadText()
    ensures Show(StringHead()) == "(\"hi\" \"mary\" \"rose\")"
  {
    assert Show(Str("hi")) == "\"hi\"";
    assert Show(Str("mary")) == "\"mary\"";
    assert Show(Str("rose")) == "\"rose\"";
    ShowThree(Str("hi"), Str("mary"), Str("rose"));
    StringHeadSpelling();
  }

  lemma StringHeadSpelling()
    ensures "(" + "\"hi\"" + " " + "\"mary\"" + " " + "\"rose\"" + ")" == "(\"hi\" \"mary\" \"rose\")"
  {
  }

  lemma ListOfStringsText()
    ensures Show(ListOfStrings()) == "(list \"hi\" \"mary\" \"rose\")"
  {
    assert Show(Str("hi")) == "\"hi\"";
    assert Show(Str("mary")) == "\"mary\"";
    assert Show(Str("rose")) == "\"rose\"";
    ShowFour(Identifier("list"), Str("hi"), Str("mary"), Str("rose"));
    ListOfStringsSpelling();
  }

  lemma ListOfStringsSpelling()
    ensures "(" + "list" + " " + "\"hi\"" + " " + "\"mary\"" + " " + "\"rose\"" + ")" == "(list \"hi\" \"mary\" \"rose\")"
  {
    ListOfStringsSpellingPrefix4();
  }

  lemma ListOfStringsSpellingPrefix4()
    ensures "(" + "list" + " " + "\"hi\"" + " " + "\"mary\"" + " " + "\"rose\"" == "(list \"hi\" \"mary\" \"rose\""
  {
    ListOfStringsSpellingPrefix3();
  }

  lemma ListOfStringsSpellingPrefix3()
    ensures "(" + "list" + " " + "\"hi\"" + " " + "\"mary\"" == "(list \"hi\" \"mary\""
  {
  }

  lemma ListOfNumbersText()
    ensures Show(ListOfNumbers()) == "(list 1 2 3)"
  {
    assert Show(Number(1)) == "1";
    assert Show(Number(2)) == "2";
    assert Show(Number(3)) == "3";
    ShowFour(Identifier("list"), Number(1), Number(2), Number(3));
    ListOfNumbersSpelling();
  }

  lemma ListOfNumbersSpelling()
    ensures "(" + "list" + " " + "1" + " " + "2" + " " + "3" + ")" == "(list 1 2 3)"
  {
  }

  lemma NumeralsInStringsText()
    ensures Show(NumeralsInStrings()) == "(list \"1\" \"2\" \"3\")"
  {
    assert Show(Str("1")) == "\"1\"";
    assert Show(Str("2")) == "\"2\"";
    assert Show(Str("3")) == "\"3\"";
    ShowFour(Identifier("list"), Str("1"), Str("2"), Str("3"));
    NumeralsInStringsSpelling();
  }

  lemma NumeralsInStringsSpelling()
    ensures "(" + "list" + " " + "\"1\"" + " " + "\"2\"" + " " + "\"3\"" + ")" == "(list \"1\" \"2\" \"3\")"
  {
  }

  lemma PrintOneText()
    ensures Show(PrintOne()) == "(print 1)"
  {
    assert Show(Number(1)) == "1";
    ShowTwo(Identifier("print"), Number(1));
    PrintOneSpelling();
  }

  lemma PrintOneSpelling()
    ensures "(" + "print" + " " + "1" + ")" == "(print 1)"
  {
  }

  lemma FirstOfListText()
    ensures Show(FirstOfList()) == "(first (list 1 2 3))"
  {
    ListOfNumbersText();
    ShowTwo(Identifier("first"), Form([Identifier("list"), Number(1), Number(2), Number(3)]));
    FirstOfListSpelling();
  }

  lemma FirstOfListSpelling()
    ensures "(" + "first" + " " + "(list 1 2 3)" + ")" == "(first (list 1 2 3))"
  {
  }

  lemma RestOfListText()
    ensures Show(RestOfList()) == "(rest (list 1 2 3))"
  {
    ListOfNumbersText();
    ShowTwo(Identifier("rest"), Form([Identifier("list"), Number(1), Number(2), Number(3)]));
    RestOfListSpelling();
  }

  lemma RestOfListSpelling()
    ensures "(" + "rest" + " " + "(list 1 2 3)" + ")" == "(rest (list 1 2 3))"
  {
  }

  lemma LambdaNilStrAsdfText()
    ensures Show(Form([Identifier("lambda"), Form([]), Str("asdf")])) == "(lambda () \"asdf\")"
  {
    assert Show(Form([])) == "()";
    assert Show(Str("asdf")) == "\"asdf\"";
    ShowThree(Identifier("lambda"), Form([]), Str("asdf"));
    LambdaNilStrAsdfSpelling();
  }

  lemma LambdaNilStrAsdfSpelling()
    ensures "(" + "lambda" + " " + "()" + " " + "\"asdf\"" + ")" == "(lambda () \"asdf\")"
  {
  }

  lemma ConstantLambdaText()
    ensures Show(ConstantLambda()) == "((lambda () \"asdf\"))"
  {
    LambdaNilStrAsdfText();
    ShowOne(Form([Identifier("lambda"), Form([]), Str("asdf")]));
    ConstantLambdaSpelling();
  }

  lemma ConstantLambdaSpelling()
    ensures "(" + "(lambda () \"asdf\")" + ")" == "((lambda () \"asdf\"))"
  {
  }

  lemma ListOneTwoText()
    ensures Show(Form([Identifier("list"), Number(1), Number(2)])) == "(list 1 2)"
  {
    assert Show(Number(1)) == "1";
    assert Show(Number(2)) == "2";
    ShowThree(Identifier("list"), Number(1), Number(2));
    ListOneTwoSpelling();
  }

  lemma ListOneTwoSpelling()
    ensures "(" + "list" + " " + "1" + " " + "2" + ")" == "(list 1 2)"
  {
  }

  lemma RestListOneTwoText()
    ensures Show(Form([Identifier("rest"), Form([Identifier("list"), Number(1), Number(2)])])) == "(rest (list 1 2))"
  {
    ListOneTwoText();
    ShowTwo(Identifier("rest"), Form([Identifier("list"), Number(1), Number(2)]));
    RestListOneTwoSpelling();
  }

  lemma RestListOneTwoSpelling()
    ensures "(" + "rest" + " " + "(list 1 2)" + ")" == "(rest (list 1 2))"
  {
  }

  lemma LambdaNilRestListOneTwoText()
    ensures Show(Form([Identifier("lambda"), Form([]), Form([Identifier("rest"), Form([Identifier("list"), Number(1), Number(2)])])])) == "(lambda () (rest (list 1 2)))"
  {
    assert Show(Form([])) == "()";
    RestListOneTwoText();
    ShowThree(Identifier("lambda"), Form([]), Form([Identifier("rest"), Form([Identifier("list"), Number(1), Number(2)])]));
    LambdaNilRestListOneTwoSpelling();
  }

  lemma LambdaNilRestListOneTwoSpelling()
    ensures "(" + "lambda" + " " + "()" + " " + "(rest (list 1 2))" + ")" == "(lambda () (rest (list 1 2)))"
  {
    LambdaNilRestListOneTwoSpellingPrefix3();
  }

  lemma LambdaNilRestListOneTwoSpellingPrefix3()
    ensures "(" + "lambda" + " " + "()" + " " + "(rest (list 1 2))" == "(lambda () (rest (list 1 2))"
  {
    LambdaNilRestListOneTwoSpellingPrefix2();
  }

  lemma LambdaNilRestListOneTwoSpellingPrefix2()
    ensures "(" + "lambda" + " " + "()" == "(lambda ()"
  {
  }

  lemma LambdaWithoutParamsText()
    ensures Show(LambdaWithoutParams()) == "((lambda () (rest (list 1 2))))"
  {
    LambdaNilRestListOneTwoText();
    ShowOne(Form([Identifier("lambda"), Form([]), Form([Identifier("rest"), Form([Identifier("list"), Number(1), Number(2)])])]));
    LambdaWithoutParamsSpelling();
  }

  lemma LambdaWithoutParamsSpelling()
    ensures "(" + "(lambda () (rest (list 1 2)))" + ")" == "((lambda () (rest (list 1 2))))"
  {
    LambdaWithoutParamsSpellingPrefix1();
  }

  lemma LambdaWithoutParamsSpellingPrefix1()
    ensures "(" + "(lambda () (rest (list 1 2)))" == "((lambda () (rest (list 1 2)))"
  {
    Opening("(lambda () (rest (list 1 2)))", "((lambda () (rest (list 1 2)))");
  }

  lemma LambdaXXText()
    ensures Show(Form([Identifier("lambda"), Form([Identifier("x")]), Identifier("x")])) == "(lambda (x) x)"
  {
    XText();
    ShowThree(Identifier("lambda"), Form([Identifier("x")]), Identifier("x"));
    LambdaXXSpelling();
  }

  lemma LambdaXXSpelling()
    ensures "(" + "lambda" + " " + "(x)" + " " + "x" + ")" == "(lambda (x) x)"
  {
  }

  lemma IdentityCallText()
    ensures Show(IdentityCall()) == "((lambda (x) x) 1)"
  {
    LambdaXXText();
    assert Show(Number(1)) == "1";
    ShowTwo(Form([Identifier("lambda"), Form([Identifier("x")]), Identifier("x")]), Number(1));
    IdentityCallSpelling();
  }

  lemma IdentityCallSpelling()
    ensures "(" + "(lambda (x) x)" + " " + "1" + ")" == "((lambda (x) x) 1)"
  {
  }

  lemma ListXYText()
    ensures Show(Form([Identifier("list"), Identifier("x"), Identifier("y")])) == "(list x y)"
  {
    ShowThree(Identifier("list"), Identifier("x"), Identifier("y"));
    ListXYSpelling();
  }

  lemma ListXYSpelling()
    ensures "(" + "list" + " " + "x" + " " + "y" + ")" == "(list x y)"
  {
  }

  lemma LambdaXYListXYText()
    ensures Show(Form([Identifier("lambda"), Form([Identifier("x"), Identifier("y")]), Form([Identifier("list"), Identifier("x"), Identifier("y")])])) == "(lambda (x y) (list x y))"
  {
    TwoNamesText();
    ListXYText();
    ShowThree(Identifier("lambda"), Form([Identifier("x"), Identifier("y")]), Form([Identifier("list"), Identifier("x"), Identifier("y")]));
    LambdaXYListXYSpelling();
  }

  lemma LambdaXYListXYSpelling()
    ensures "(" + "lambda" + " " + "(x y)" + " " + "(list x y)" + ")" == "(lambda (x y) (list x y))"
  {
    LambdaXYListXYSpellingPrefix3();
  }

  lemma LambdaXYListXYSpellingPrefix3()
    ensures "(" + "lambda" + " " + "(x y)" + " " + "(list x y)" == "(lambda (x y) (list x y)"
  {
    LambdaXYListXYSpellingPrefix2();
  }

  lemma LambdaXYListXYSpellingPrefix2()
    ensures "(" + "lambda" + " " + "(x y)" == "(lambda (x y)"
  {
  }

  lemma PairCallText()
    ensures Show(PairCall()) == "((lambda (x y) (list x y)) 1 2)"
  {
    LambdaXYListXYText();
    assert Show(Number(1)) == "1";
    assert Show(Number(2)) == "2";
    ShowThree(Form([Identifier("lambda"), Form([Identifier("x"), Identifier("y")]), Form([Identifier("list"), Identifier("x"), Identifier("y")])]), Number(1), Number(2));
    PairCallSpelling();
  }

  lemma PairCallSpelling()
    ensures "(" + "(lambda (x y) (list x y))" + " " + "1" + " " + "2" + ")" == "((lambda (x y) (list x y)) 1 2)"
  {
    PairCallSpellingPrefix3();
  }

  lemma PairCallSpellingPrefix3()
    ensures "(" + "(lambda (x y) (list x y))" + " " + "1" + " " + "2" == "((lambda (x y) (list x y)) 1 2"
  {
    PairCallSpellingPrefix2();
  }

  lemma PairCallSpellingPrefix2()
    ensures "(" + "(lambda (x y) (list x y))" + " " + "1" == "((lambda (x y) (list x y)) 1"
  {
    PairCallSpellingPrefix1();
  }

  lemma PairCallSpellingPrefix1()
    ensures "(" + "(lambda (x y) (list x y))" == "((lambda (x y) (list x y))"
  {
    Opening("(lambda (x y) (list x y))", "((lambda (x y) (list x y))");
  }

  lemma ListZeroXYText()
    ensures Show(Form([Identifier("list"), Number(0), Identifier("x"), Identifier("y")])) == "(list 0 x y)"
  {
    assert Show(Number(0)) == "0";
    ShowFour(Identifier("list"), Number(0), Identifier("x"), Identifier("y"));
    ListZeroXYSpelling();
  }

  lemma ListZeroXYSpelling()
    ensures "(" + "list" + " " + "0" + " " + "x" + " " + "y" + ")" == "(list 0 x y)"
  {
  }

  lemma LambdaXYListZeroXYText()
    ensures Show(Form([Identifier("lambda"), Form([Identifier("x"), Identifier("y")]), Form([Identifier("list"), Number(0), Identifier("x"), Identifier("y")])])) == "(lambda (x y) (list 0 x y))"
  {
    TwoNamesText();
    ListZeroXYText();
    ShowThree(Identifier("lambda"), Form([Identifier("x"), Identifier("y")]), Form([Identifier("list"), Number(0), Identifier("x"), Identifier("y")]));
    LambdaXYListZeroXYSpelling();
  }

  lemma LambdaXYListZeroXYSpelling()
    ensures "(" + "lambda" + " " + "(x y)" + " " + "(list 0 x y)" + ")" == "(lambda (x y) (list 0 x y))"
  {
    LambdaXYListZeroXYSpellingPrefix3();
  }

  lemma LambdaXYListZeroXYSpellingPrefix3()
    ensures "(" + "lambda" + " " + "(x y)" + " " + "(list 0 x y)" == "(lambda (x y) (list 0 x y)"
  {
    LambdaXYListZeroXYSpellingPrefix2();
  }

  lemma LambdaXYListZeroXYSpellingPrefix2()
    ensures "(" + "lambda" + " " + "(x y)" == "(lambda (x y)"
  {
  }

  lemma LiteralsAndParamsText()
    ensures Show(LiteralsAndParams()) == "((lambda (x y) (list 0 x y)) 1 2)"
  {
    LambdaXYListZeroXYText();
    assert Show(Number(1)) == "1";
    assert Show(Number(2)) == "2";
    ShowThree(Form([Identifier("lambda"), Form([Identifier("x"), Identifier("y")]), Form([Identifier("list"), Number(0), Identifier("x"), Identifier("y")])]), Number(1), Number(2));
    LiteralsAndParamsSpelling();
  }

  lemma LiteralsAndParamsSpelling()
    ensures "(" + "(lambda (x y) (list 0 x y))" + " " + "1" + " " + "2" + ")" == "((lambda (x y) (list 0 x y)) 1 2)"
  {
    LiteralsAndParamsSpellingPrefix3();
  }

  lemma LiteralsAndParamsSpellingPrefix3()
    ensures "(" + "(lambda (x y) (list 0 x y))" + " " + "1" + " " + "2" == "((lambda (x y) (list 0 x y)) 1 2"
  {
    LiteralsAndParamsSpellingPrefix2();
  }

  lemma LiteralsAndParamsSpellingPrefix2()
    ensures "(" + "(lambda (x y) (list 0 x y))" + " " + "1" == "((lambda (x y) (list 0 x y)) 1"
  {
    LiteralsAndParamsSpellingPrefix1();
  }

  lemma LiteralsAndParamsSpellingPrefix1()
    ensures "(" + "(lambda (x y) (list 0 x y))" == "((lambda (x y) (list 0 x y))"
  {
    Opening("(lambda (x y) (list 0 x y))", "((lambda (x y) (list 0 x y))");
  }

  lemma LText()
    ensures Show(Form([Identifier("l")])) == "(l)"
  {
    ShowOne(Identifier("l"));
    LSpelling();
  }

  lemma LSpelling()
    ensures "(" + "l" + ")" == "(l)"
  {
  }

  lemma FirstLText()
    ensures Show(Form([Identifier("first"), Identifier("l")])) == "(first l)"
  {
    ShowTwo(Identifier("first"), Identifier("l"));
    FirstLSpelling();
  }

  lemma FirstLSpelling()
    ensures "(" + "first" + " " + "l" + ")" == "(first l)"
  {
  }

  lemma LambdaLFirstLText()
    ensures Show(Form([Identifier("lambda"), Form([Identifier("l")]), Form([Identifier("first"), Identifier("l")])])) == "(lambda (l) (first l))"
  {
    LText();
    FirstLText();
    ShowThree(Identifier("lambda"), Form([Identifier("l")]), Form([Identifier("first"), Identifier("l")]));
    LambdaLFirstLSpelling();
  }

  lemma LambdaLFirstLSpelling()
    ensures "(" + "lambda" + " " + "(l)" + " " + "(first l)" + ")" == "(lambda (l) (first l))"
  {
    LambdaLFirstLSpellingPrefix3();
  }

  lemma LambdaLFirstLSpellingPrefix3()
    ensures "(" + "lambda" + " " + "(l)" + " " + "(first l)" == "(lambda (l) (first l)"
  {
    LambdaLFirstLSpellingPrefix2();
  }

  lemma LambdaLFirstLSpellingPrefix2()
    ensures "(" + "lambda" + " " + "(l)" == "(lambda (l)"
  {
  }

  lemma ListArgumentText()
    ensures Show(ListArgument()) == "((lambda (l) (first l)) (list 1 2))"
  {
    LambdaLFirstLText();
    ListOneTwoText();
    ShowTwo(Form([Identifier("lambda"), Form([Identifier("l")]), Form([Identifier("first"), Identifier("l")])]), Form([Identifier("list"), Number(1), Number(2)]));
    ListArgumentSpelling();
  }

  lemma ListArgumentSpelling()
    ensures "(" + "(lambda (l) (first l))" + " " + "(list 1 2)" + ")" == "((lambda (l) (first l)) (list 1 2))"
  {
    ListArgumentSpellingPrefix2();
  }

  lemma ListArgumentSpellingPrefix2()
    ensures "(" + "(lambda (l) (first l))" + " " + "(list 1 2)" == "((lambda (l) (first l)) (list 1 2)"
  {
    ListArgumentSpellingPrefix1();
  }

  lemma ListArgumentSpellingPrefix1()
    ensures "(" + "(lambda (l) (first l))" == "((lambda (l) (first l))"
  {
    Opening("(lambda (l) (first l))", "((lambda (l) (first l))");
  }

  lemma XOneText()
    ensures Show(Form([Identifier("x"), Number(1)])) == "(x 1)"
  {
    assert Show(Number(1)) == "1";
    ShowTwo(Identifier("x"), Number(1));
    XOneSpelling();
  }

  lemma XOneSpelling()
    ensures "(" + "x" + " " + "1" + ")" == "(x 1)"
  {
  }

  lemma YTwoText()
    ensures Show(Form([Identifier("y"), Number(2)])) == "(y 2)"
  {
    assert Show(Number(2)) == "2";
    ShowTwo(Identifier("y"), Number(2));
    YTwoSpelling();
  }

  lemma YTwoSpelling()
    ensures "(" + "y" + " " + "2" + ")" == "(y 2)"
  {
  }

  lemma XOneYTwoText()
    ensures Show(Form([Form([Identifier("x"), Number(1)]), Form([Identifier("y"), Number(2)])])) == "((x 1) (y 2))"
  {
    XOneText();
    YTwoText();
    ShowTwo(Form([Identifier("x"), Number(1)]), Form([Identifier("y"), Number(2)]));
    XOneYTwoSpelling();
  }

  lemma XOneYTwoSpelling()
    ensures "(" + "(x 1)" + " " + "(y 2)" + ")" == "((x 1) (y 2))"
  {
  }

  lemma LetPairText()
    ensures Show(LetPair()) == "(let ((x 1) (y 2)) (list x y))"
  {
    XOneYTwoText();
    ListXYText();
    ShowThree(Identifier("let"), Form([Form([Identifier("x"), Number(1)]), Form([Identifier("y"), Number(2)])]), Form([Identifier("list"), Identifier("x"), Identifier("y")]));
    LetPairSpelling();
  }

  lemma LetPairSpelling()
    ensures "(" + "let" + " " + "((x 1) (y 2))" + " " + "(list x y)" + ")" == "(let ((x 1) (y 2)) (list x y))"
  {
    LetPairSpellingPrefix3();
  }

  lemma LetPairSpellingPrefix3()
    ensures "(" + "let" + " " + "((x 1) (y 2))" + " " + "(list x y)" == "(let ((x 1) (y 2)) (list x y)"
  {
    LetPairSpellingPrefix2();
  }

  lemma LetPairSpellingPrefix2()
    ensures "(" + "let" + " " + "((x 1) (y 2))" == "(let ((x 1) (y 2))"
  {
  }

  lemma YXText()
    ensures Show(Form([Identifier("y"), Identifier("x")])) == "(y x)"
  {
    ShowTwo(Identifier("y"), Identifier("x"));
    YXSpelling();
  }

  lemma YXSpelling()
    ensures "(" + "y" + " " + "x" + ")" == "(y x)"
  {
  }

  lemma XOneYXText()
    ensures Show(Form([Form([Identifier("x"), Number(1)]), Form([Identifier("y"), Identifier("x")])])) == "((x 1) (y x))"
  {
    XOneText();
    YXText();
    ShowTwo(Form([Identifier("x"), Number(1)]), Form([Identifier("y"), Identifier("x")]));
    XOneYXSpelling();
  }

  lemma XOneYXSpelling()
    ensures "(" + "(x 1)" + " " + "(y x)" + ")" == "((x 1) (y x))"
  {
  }

  lemma LetParallelText()
    ensures Show(LetParallel()) == "(let ((x 1) (y x)) (list x y))"
  {
    XOneYXText();
    ListXYText();
    ShowThree(Identifier("let"), Form([Form([Identifier("x"), Number(1)]), Form([Identifier("y"), Identifier("x")])]), Form([Identifier("list"), Identifier("x"), Identifier("y")]));
    LetParallelSpelling();
  }

  lemma LetParallelSpelling()
    ensures "(" + "let" + " " + "((x 1) (y x))" + " " + "(list x y)" + ")" == "(let ((x 1) (y x)) (list x y))"
  {
    LetParallelSpellingPrefix3();
  }

  lemma LetParallelSpellingPrefix3()
    ensures "(" + "let" + " " + "((x 1) (y x))" + " " + "(list x y)" == "(let ((x 1) (y x)) (list x y)"
  {
    LetParallelSpellingPrefix2();
  }

  lemma LetParallelSpellingPrefix2()
    ensures "(" + "let" + " " + "((x 1) (y x))" == "(let ((x 1) (y x))"
  {
  }

  lemma LetEmptyText()
    ensures Show(LetEmpty()) == "(let () 42)"
  {
    assert Show(Form([])) == "()";
    assert Show(Number(42)) == "42";
    ShowThree(Identifier("let"), Form([]), Number(42));
    LetEmptySpelling();
  }

  lemma LetEmptySpelling()
    ensures "(" + "let" + " " + "()" + " " + "42" + ")" == "(let () 42)"
  {
  }

  lemma GarbageText()
    ensures Show(Form([Identifier("garbage")])) == "(garbage)"
  {
    ShowOne(Identifier("garbage"));
    GarbageSpelling();
  }

  lemma GarbageSpelling()
    ensures "(" + "garbage" + ")" == "(garbage)"
  {
  }

  lemma QuoteGarbageText()
    ensures Show(QuoteGarbage()) == "('(garbage))"
  {
    GarbageText();
    assert Show(Quote(Form([Identifier("garbage")]))) == "'" + "(garbage)";
    ShowOne(Quote(Form([Identifier("garbage")])));
    QuoteGarbageSpelling();
  }

  lemma QuoteGarbageSpelling()
    ensures "(" + "'" + "(garbage)" + ")" == "('(garbage))"
  {
  }

  lemma ListOneThreeText()
    ensures Show(Form([Identifier("list"), Number(1), Number(3)])) == "(list 1 3)"
  {
    assert Show(Number(1)) == "1";
    assert Show(Number(3)) == "3";
    ShowThree(Identifier("list"), Number(1), Number(3));
    ListOneThreeSpelling();
  }

  lemma ListOneThreeSpelling()
    ensures "(" + "list" + " " + "1" + " " + "3" + ")" == "(list 1 3)"
  {
  }

  lemma QuoteListText()
    ensures Show(QuoteList()) == "('(list 1 3))"
  {
    ListOneThreeText();
    assert Show(Quote(Form([Identifier("list"), Number(1), Number(3)]))) == "'" + "(list 1 3)";
    ShowOne(Quote(Form([Identifier("list"), Number(1), Number(3)])));
    QuoteListSpelling();
  }

  lemma QuoteListSpelling()
    ensures "(" + "'" + "(list 1 3)" + ")" == "('(list 1 3))"
  {
  }

  lemma PlusOneThreeText()
    ensures Show(Form([Identifier("+"), Number(1), Number(3)])) == "(+ 1 3)"
  {
    assert Show(Number(1)) == "1";
    assert Show(Number(3)) == "3";
    ShowThree(Identifier("+"), Number(1), Number(3));
    PlusOneThreeSpelling();
  }

  lemma PlusOneThreeSpelling()
    ensures "(" + "+" + " " + "1" + " " + "3" + ")" == "(+ 1 3)"
  {
  }

  lemma QuotedPlusOneThreeText()
    ensures Show(Form([Quote(Form([Identifier("+"), Number(1), Number(3)]))])) == "('(+ 1 3))"
  {
    PlusOneThreeText();
    assert Show(Quote(Form([Identifier("+"), Number(1), Number(3)]))) == "'" + "(+ 1 3)";
    ShowOne(Quote(Form([Identifier("+"), Number(1), Number(3)])));
    QuotedPlusOneThreeSpelling();
  }

  lemma QuotedPlusOneThreeSpelling()
    ensures "(" + "'" + "(+ 1 3)" + ")" == "('(+ 1 3))"
  {
  }

  lemma QuotedSumText()
    ensures Show(QuotedSum()) == "(eval ('(+ 1 3)))"
  {
    QuotedPlusOneThreeText();
    ShowTwo(Identifier("eval"), Form([Quote(Form([Identifier("+"), Number(1), Number(3)]))]));
    QuotedSumSpelling();
  }

  lemma QuotedSumSpelling()
    ensures "(" + "eval" + " " + "('(+ 1 3))" + ")" == "(eval ('(+ 1 3)))"
  {
  }

  lemma QuotedPlusText()
    ensures Show(Form([Quote(Identifier("+"))])) == "('+)"
  {
    assert Show(Quote(Identifier("+"))) == "'" + "+";
    ShowOne(Quote(Identifier("+")));
    QuotedPlusSpelling();
  }

  lemma QuotedPlusSpelling()
    ensures "(" + "'" + "+" + ")" == "('+)"
  {
  }

  lemma QuotedOneText()
    ensures Show(Form([Quote(Number(1))])) == "('1)"
  {
    assert Show(Number(1)) == "1";
    assert Show(Quote(Number(1))) == "'" + "1";
    ShowOne(Quote(Number(1)));
    QuotedOneSpelling();
  }

  lemma QuotedOneSpelling()
    ensures "(" + "'" + "1" + ")" == "('1)"
  {
  }

  lemma QuotedThreeText()
    ensures Show(Form([Quote(Number(3))])) == "('3)"
  {
    assert Show(Number(3)) == "3";
    assert Show(Quote(Number(3))) == "'" + "3";
    ShowOne(Quote(Number(3)));
    QuotedThreeSpelling();
  }

  lemma QuotedThreeSpelling()
    ensures "(" + "'" + "3" + ")" == "('3)"
  {
  }

  lemma ListQuotedPlusQuotedOneQuotedThreeText()
    ensures Show(Form([Identifier("list"), Form([Quote(Identifier("+"))]), Form([Quote(Number(1))]), Form([Quote(Number(3))])])) == "(list ('+) ('1) ('3))"
  {
    QuotedPlusText();
    QuotedOneText();
    QuotedThreeText();
    ShowFour(Identifier("list"), Form([Quote(Identifier("+"))]), Form([Quote(Number(1))]), Form([Quote(Number(3))]));
    ListQuotedPlusQuotedOneQuotedThreeSpelling();
  }

  lemma ListQuotedPlusQuotedOneQuotedThreeSpelling()
    ensures "(" + "list" + " " + "('+)" + " " + "('1)" + " " + "('3)" + ")" == "(list ('+) ('1) ('3))"
  {
    ListQuotedPlusQuotedOneQuotedThreeSpellingPrefix4();
  }

  lemma ListQuotedPlusQuotedOneQuotedThreeSpellingPrefix4()
    ensures "(" + "list" + " " + "('+)" + " " + "('1)" + " " + "('3)" == "(list ('+) ('1) ('3)"
  {
  }

  lemma QuotedPartsText()
    ensures Show(QuotedParts()) == "(eval (list ('+) ('1) ('3)))"
  {
    ListQuotedPlusQuotedOneQuotedThreeText();
    ShowTwo(Identifier("eval"), Form([Identifier("list"), Form([Quote(Identifier("+"))]), Form([Quote(Number(1))]), Form([Quote(Number(3))])]));
    QuotedPartsSpelling();
  }

  lemma QuotedPartsSpelling()
    ensures "(" + "eval" + " " + "(list ('+) ('1) ('3))" + ")" == "(eval (list ('+) ('1) ('3)))"
  {
    QuotedPartsSpellingPrefix2();
  }

  lemma QuotedPartsSpellingPrefix2()
    ensures "(" + "eval" + " " + "(list ('+) ('1) ('3))" == "(eval (list ('+) ('1) ('3))"
  {
    QuotedPartsSpellingPrefix1();
  }

  lemma QuotedPartsSpellingPrefix1()
    ensures "(" + "eval" == "(eval"
  {
  }

  lemma ListQuotedPlusOneFourText()
    ensures Show(Form([Identifier("list"), Form([Quote(Identifier("+"))]), Number(1), Number(4)])) == "(list ('+) 1 4)"
  {
    QuotedPlusText();
    assert Show(Number(1)) == "1";
    assert Show(Number(4)) == "4";
    ShowFour(Identifier("list"), Form([Quote(Identifier("+"))]), Number(1), Number(4));
    ListQuotedPlusOneFourSpelling();
  }

  lemma ListQuotedPlusOneFourSpelling()
    ensures "(" + "list" + " " + "('+)" + " " + "1" + " " + "4" + ")" == "(list ('+) 1 4)"
  {
  }

  lemma MixedPartsText()
    ensures Show(MixedParts()) == "(eval (list ('+) 1 4))"
  {
    ListQuotedPlusOneFourText();
    ShowTwo(Identifier("eval"), Form([Identifier("list"), Form([Quote(Identifier("+"))]), Number(1), Number(4)]));
    MixedPartsSpelling();
  }

  lemma MixedPartsSpelling()
    ensures "(" + "eval" + " " + "(list ('+) 1 4)" + ")" == "(eval (list ('+) 1 4))"
  {
    MixedPartsSpellingPrefix2();
  }

  lemma MixedPartsSpellingPrefix2()
    ensures "(" + "eval" + " " + "(list ('+) 1 4)" == "(eval (list ('+) 1 4)"
  {
    MixedPartsSpellingPrefix1();
  }

  lemma MixedPartsSpellingPrefix1()
    ensures "(" + "eval" == "(eval"
  {
  }

  lemma EvalFourText()
    ensures Show(Form([Identifier("eval"), Number(4)])) == "(eval 4)"
  {
    assert Show(Number(4)) == "4";
    ShowTwo(Identifier("eval"), Number(4));
    EvalFourSpelling();
  }

  lemma EvalFourSpelling()
    ensures "(" + "eval" + " " + "4" + ")" == "(eval 4)"
  {
  }

  lemma EvalEvalFourText()
    ensures Show(Form([Identifier("eval"), Form([Identifier("eval"), Number(4)])])) == "(eval (eval 4))"
  {
    EvalFourText();
    ShowTwo(Identifier("eval"), Form([Identifier("eval"), Number(4)]));
    EvalEvalFourSpelling();
  }

  lemma EvalEvalFourSpelling()
    ensures "(" + "eval" + " " + "(eval 4)" + ")" == "(eval (eval 4))"
  {
  }

  lemma RepeatedEvalText()
    ensures Show(RepeatedEval()) == "(eval (eval (eval 4)))"
  {
    EvalEvalFourText();
    ShowTwo(Identifier("eval"), Form([Identifier("eval"), Form([Identifier("eval"), Number(4)])]));
    RepeatedEvalSpelling();
  }

  lemma RepeatedEvalSpelling()
    ensures "(" + "eval" + " " + "(eval (eval 4))" + ")" == "(eval (eval (eval 4)))"
  {
    RepeatedEvalSpellingPrefix2();
  }

  lemma RepeatedEvalSpellingPrefix2()
    ensures "(" + "eval" + " " + "(eval (eval 4))" == "(eval (eval (eval 4))"
  {
    RepeatedEvalSpellingPrefix1();
  }

  lemma RepeatedEvalSpellingPrefix1()
    ensures "(" + "eval" == "(eval"
  {
  }

  lemma QuotedListOneTwoText()
    ensures Show(Form([Quote(Form([Identifier("list"), Number(1), Number(2)]))])) == "('(list 1 2))"
  {
    ListOneTwoText();
    assert Show(Quote(Form([Identifier("list"), Number(1), Number(2)]))) == "'" + "(list 1 2)";
    ShowOne(Quote(Form([Identifier("list"), Number(1), Number(2)])));
    QuotedListOneTwoSpelling();
  }

  lemma QuotedListOneTwoSpelling()
    ensures "(" + "'" + "(list 1 2)" + ")" == "('(list 1 2))"
  {
  }

  lemma EvalQuotedListOneTwoText()
    ensures Show(Form([Identifier("eval"), Form([Quote(Form([Identifier("list"), Number(1), Number(2)]))])])) == "(eval ('(list 1 2)))"
  {
    QuotedListOneTwoText();
    ShowTwo(Identifier("eval"), Form([Quote(Form([Identifier("list"), Number(1), Number(2)]))]));
    EvalQuotedListOneTwoSpelling();
  }

  lemma EvalQuotedListOneTwoSpelling()
    ensures "(" + "eval" + " " + "('(list 1 2))" + ")" == "(eval ('(list 1 2)))"
  {
  }

  lemma QuotedEvalQuotedListOneTwoText()
    ensures Show(Form([Quote(Form([Identifier("eval"), Form([Quote(Form([Identifier("list"), Number(1), Number(2)]))])]))])) == "('(eval ('(list 1 2))))"
  {
    EvalQuotedListOneTwoText();
    assert Show(Quote(Form([Identifier("eval"), Form([Quote(Form([Identifier("list"), Number(1), Number(2)]))])]))) == "'" + "(eval ('(list 1 2)))";
    ShowOne(Quote(Form([Identifier("eval"), Form([Quote(Form([Identifier("list"), Number(1), Number(2)]))])])));
    QuotedEvalQuotedListOneTwoSpelling();
  }

  lemma QuotedEvalQuotedListOneTwoSpelling()
    ensures "(" + "'" + "(eval ('(list 1 2)))" + ")" == "('(eval ('(list 1 2))))"
  {
    QuotedEvalQuotedListOneTwoSpellingPrefix1();
  }

  lemma QuotedEvalQuotedListOneTwoSpellingPrefix1()
    ensures "(" + "'" + "(eval ('(list 1 2)))" == "('(eval ('(list 1 2)))"
  {
  }

  lemma RoundTripText()
    ensures Show(RoundTrip()) == "(eval ('(eval ('(list 1 2)))))"
  {
    QuotedEvalQuotedListOneTwoText();
    ShowTwo(Identifier("eval"), Form([Quote(Form([Identifier("eval"), Form([Quote(Form([Identifier("list"), Number(1), Number(2)]))])]))]));
    RoundTripSpelling();
  }

  lemma RoundTripSpelling()
    ensures "(" + "eval" + " " + "('(eval ('(list 1 2))))" + ")" == "(eval ('(eval ('(list 1 2)))))"
  {
    RoundTripSpellingPrefix2();
  }

  lemma RoundTripSpellingPrefix2()
    ensures "(" + "eval" + " " + "('(eval ('(list 1 2))))" == "(eval ('(eval ('(list 1 2))))"
  {
    RoundTripSpellingPrefix1();
  }

  lemma RoundTripSpellingPrefix1()
    ensures "(" + "eval" == "(eval"
  {
  }

  lemma IfTrueText()
    ensures Show(IfTrue()) == "(if 1 42 4711)"
  {
    assert Show(Number(1)) == "1";
    assert Show(Number(42)) == "42";
    assert Show(Number(4711)) == "4711";
    ShowFour(Identifier("if"), Number(1), Number(42), Number(4711));
    IfTrueSpelling();
  }

  lemma IfTrueSpelling()
    ensures "(" + "if" + " " + "1" + " " + "42" + " " + "4711" + ")" == "(if 1 42 4711)"
  {
  }

  lemma IfFalseText()
    ensures Show(IfFalse()) == "(if 0 42 4711)"
  {
    assert Show(Number(0)) == "0";
    assert Show(Number(42)) == "42";
    assert Show(Number(4711)) == "4711";
    ShowFour(Identifier("if"), Number(0), Number(42), Number(4711));
    IfFalseSpelling();
  }

  lemma IfFalseSpelling()
    ensures "(" + "if" + " " + "0" + " " + "42" + " " + "4711" + ")" == "(if 0 42 4711)"
  {
  }

  // Helpers.  Each test program, and each of its sub-forms, is well formed
  // (its identifiers are valid atoms other than numerals, its strings hold
  // no `"`), which is what Parser.ParseTextOfShow needs to read its printed
  // text back.

  lemma TwoAtomsWellFormed()
    ensures WellFormed(TwoAtoms())
  {
    Word("hi");
    Word("you");
    WellFormedTwo(Identifier("hi"), Identifier("you"));
  }

  lemma XWellFormed()
    ensures WellFormed(Form([Identifier("x")]))
  {
    Word("x");
    WellFormedOne(Identifier("x"));
  }

  lemma NestedListWellFormed()
    ensures WellFormed(NestedList())
  {
    XWellFormed();
    WellFormedOne(Form([Identifier("x")]));
  }

  lemma AtomThenListWellFormed()
    ensures WellFormed(AtomThenList())
  {
    Word("x");
    XWellFormed();
    WellFormedTwo(Identifier("x"), Form([Identifier("x")]));
  }

  lemma TwoNamesWellFormed()
    ensures WellFormed(TwoNames())
  {
    Word("x");
    Word("y");
    WellFormedTwo(Identifier("x"), Identifier("y"));
  }

  lemma YWellFormed()
    ensures WellFormed(Form([Identifier("y")]))
  {
    Word("y");
    WellFormedOne(Identifier("y"));
  }

  lemma ListBetweenAtomsWellFormed()
    ensures WellFormed(ListBetweenAtoms())
  {
    Word("x");
    YWellFormed();
    Word("z");
    WellFormedThree(Identifier("x"), Form([Identifier("y")]), Identifier("z"));
  }

  lemma ABCWellFormed()
    ensures WellFormed(Form([Identifier("a"), Identifier("b"), Identifier("c")]))
  {
    Word("a");
    Word("b");
    Word("c");
    WellFormedThree(Identifier("a"), Identifier("b"), Identifier("c"));
  }

  lemma TwoInnerListsWellFormed()
    ensures WellFormed(TwoInnerLists())
  {
    Word("x");
    YWellFormed();
    ABCWellFormed();
    WellFormedThree(Identifier("x"), Form([Identifier("y")]), Form([Identifier("a"), Identifier("b"), Identifier("c")]));
  }

  lemma ATwoWellFormed()
    ensures WellFormed(Form([Identifier("a"), Number(2)]))
  {
    Word("a");
    WellFormedTwo(Identifier("a"), Number(2));
  }

  lemma NumbersWellFormed()
    ensures WellFormed(Numbers())
  {
    ATwoWellFormed();
    WellFormedTwo(Number(1), Form([Identifier("a"), Number(2)]));
  }

  lemma StringHeadWellFormed()
    ensures WellFormed(StringHead())
  {
    Quoted("hi");
    Quoted("mary");
    Quoted("rose");
    WellFormedThree(Str("hi"), Str("mary"), Str("rose"));
  }

  lemma ListOfStringsWellFormed()
    ensures WellFormed(ListOfStrings())
  {
    Word("list");
    Quoted("hi");
    Quoted("mary");
    Quoted("rose");
    WellFormedFour(Identifier("list"), Str("hi"), Str("mary"), Str("rose"));
  }

  lemma ListOfNumbersWellFormed()
    ensures WellFormed(ListOfNumbers())
  {
    Word("list");
    WellFormedFour(Identifier("list"), Number(1), Number(2), Number(3));
  }

  lemma NumeralsInStringsWellFormed()
    ensures WellFormed(NumeralsInStrings())
  {
    Word("list");
    Quoted("1");
    Quoted("2");
    Quoted("3");
    WellFormedFour(Identifier("list"), Str("1"), Str("2"), Str("3"));
  }

  lemma PrintOneWellFormed()
    ensures WellFormed(PrintOne())
  {
    Word("print");
    WellFormedTwo(Identifier("print"), Number(1));
  }

  lemma FirstOfListWellFormed()
    ensures WellFormed(FirstOfList())
  {
    Word("first");
    ListOfNumbersWellFormed();
    WellFormedTwo(Identifier("first"), Form([Identifier("list"), Number(1), Number(2), Number(3)]));
  }

  lemma RestOfListWellFormed()
    ensures WellFormed(RestOfList())
  {
    Word("rest");
    ListOfNumbersWellFormed();
    WellFormedTwo(Identifier("rest"), Form([Identifier("list"), Number(1), Number(2), Number(3)]));
  }

  lemma LambdaNilStrAsdfWellFormed()
    ensures WellFormed(Form([Identifier("lambda"), Form([]), Str("asdf")]))
  {
    Word("lambda");
    Quoted("asdf");
    WellFormedThree(Identifier("lambda"), Form([]), Str("asdf"));
  }

  lemma ConstantLambdaWellFormed()
    ensures WellFormed(ConstantLambda())
  {
    LambdaNilStrAsdfWellFormed();
    WellFormedOne(Form([Identifier("lambda"), Form([]), Str("asdf")]));
  }

  lemma ListOneTwoWellFormed()
    ensures WellFormed(Form([Identifier("list"), Number(1), Number(2)]))
  {
    Word("list");
    WellFormedThree(Identifier("list"), Number(1), Number(2));
  }

  lemma RestListOneTwoWellFormed()
    ensures WellFormed(Form([Identifier("rest"), Form([Identifier("list"), Number(1), Number(2)])]))
  {
    Word("rest");
    ListOneTwoWellFormed();
    WellFormedTwo(Identifier("rest"), Form([Identifier("list"), Number(1), Number(2)]));
  }

  lemma LambdaNilRestListOneTwoWellFormed()
    ensures WellFormed(Form([Identifier("lambda"), Form([]), Form([Identifier("rest"), Form([Identifier("list"), Number(1), Number(2)])])]))
  {
    Word("lambda");
    RestListOneTwoWellFormed();
    WellFormedThree(Identifier("lambda"), Form([]), Form([Identifier("rest"), Form([Identifier("list"), Number(1), Number(2)])]));
  }

  lemma LambdaWithoutParamsWellFormed()
    ensures WellFormed(LambdaWithoutParams())
  {
    LambdaNilRestListOneTwoWellFormed();
    WellFormedOne(Form([Identifier("lambda"), Form([]), Form([Identifier("rest"), Form([Identifier("list"), Number(1), Number(2)])])]));
  }

  lemma LambdaXXWellFormed()
    ensures WellFormed(Form([Identifier("lambda"), Form([Identifier("x")]), Identifier("x")]))
  {
    Word("lambda");
    XWellFormed();
    Word("x");
    WellFormedThree(Identifier("lambda"), Form([Identifier("x")]), Identifier("x"));
  }

  lemma IdentityCallWellFormed()
    ensures WellFormed(IdentityCall())
  {
    LambdaXXWellFormed();
    WellFormedTwo(Form([Identifier("lambda"), Form([Identifier("x")]), Identifier("x")]), Number(1));
  }

  lemma ListXYWellFormed()
    ensures WellFormed(Form([Identifier("list"), Identifier("x"), Identifier("y")]))
  {
    Word("list");
    Word("x");
    Word("y");
    WellFormedThree(Identifier("list"), Identifier("x"), Identifier("y"));
  }

  lemma LambdaXYListXYWellFormed()
    ensures WellFormed(Form([Identifier("lambda"), Form([Identifier("x"), Identifier("y")]), Form([Identifier("list"), Identifier("x"), Identifier("y")])]))
  {
    Word("lambda");
    TwoNamesWellFormed();
    ListXYWellFormed();
    WellFormedThree(Identifier("lambda"), Form([Identifier("x"), Identifier("y")]), Form([Identifier("list"), Identifier("x"), Identifier("y")]));
  }

  lemma PairCallWellFormed()
    ensures WellFormed(PairCall())
  {
    LambdaXYListXYWellFormed();
    WellFormedThree(Form([Identifier("lambda"), Form([Identifier("x"), Identifier("y")]), Form([Identifier("list"), Identifier("x"), Identifier("y")])]), Number(1), Number(2));
  }

  lemma ListZeroXYWellFormed()
    ensures WellFormed(Form([Identifier("list"), Number(0), Identifier("x"), Identifier("y")]))
  {
    Word("list");
    Word("x");
    Word("y");
    WellFormedFour(Identifier("list"), Number(0), Identifier("x"), Identifier("y"));
  }

  lemma LambdaXYListZeroXYWellFormed()
    ensures WellFormed(Form([Identifier("lambda"), Form([Identifier("x"), Identifier("y")]), Form([Identifier("list"), Number(0), Identifier("x"), Identifier("y")])]))
  {
    Word("lambda");
    TwoNamesWellFormed();
    ListZeroXYWellFormed();
    WellFormedThree(Identifier("lambda"), Form([Identifier("x"), Identifier("y")]), Form([Identifier("list"), Number(0), Identifier("x"), Identifier("y")]));
  }

  lemma LiteralsAndParamsWellFormed()
    ensures WellFormed(LiteralsAndParams())
  {
    LambdaXYListZeroXYWellFormed();
    WellFormedThree(Form([Identifier("lambda"), Form([Identifier("x"), Identifier("y")]), Form([Identifier("list"), Number(0), Identifier("x"), Identifier("y")])]), Number(1), Number(2));
  }

  lemma AWellFormed()
    ensures WellFormed(Form([Identifier("a")]))
  {
    Word("a");
    WellFormedOne(Identifier("a"));
  }

  lemma BWellFormed()
    ensures WellFormed(Form([Identifier("b")]))
  {
    Word("b");
    WellFormedOne(Identifier("b"));
  }

  lemma ListAABBWellFormed()
    ensures WellFormed(Form([Identifier("list"), Identifier("a"), Identifier("a"), Identifier("b"), Identifier("b")]))
  {
    Word("list");
    Word("a");
    Word("a");
    Word("b");
    Word("b");
    WellFormedFive(Identifier("list"), Identifier("a"), Identifier("a"), Identifier("b"), Identifier("b"));
  }

  lemma LambdaBListAABBWellFormed()
    ensures WellFormed(Form([Identifier("lambda"), Form([Identifier("b")]), Form([Identifier("list"), Identifier("a"), Identifier("a"), Identifier("b"), Identifier("b")])]))
  {
    Word("lambda");
    BWellFormed();
    ListAABBWellFormed();
    WellFormedThree(Identifier("lambda"), Form([Identifier("b")]), Form([Identifier("list"), Identifier("a"), Identifier("a"), Identifier("b"), Identifier("b")]));
  }

  lemma LambdaBListAABBStrBananaWellFormed()
    ensures WellFormed(Form([Form([Identifier("lambda"), Form([Identifier("b")]), Form([Identifier("list"), Identifier("a"), Identifier("a"), Identifier("b"), Identifier("b")])]), Str("banana")]))
  {
    LambdaBListAABBWellFormed();
    Quoted("banana");
    WellFormedTwo(Form([Identifier("lambda"), Form([Identifier("b")]), Form([Identifier("list"), Identifier("a"), Identifier("a"), Identifier("b"), Identifier("b")])]), Str("banana"));
  }

  lemma LambdaALambdaBListAABBStrBananaWellFormed()
    ensures WellFormed(Form([Identifier("lambda"), Form([Identifier("a")]), Form([Form([Identifier("lambda"), Form([Identifier("b")]), Form([Identifier("list"), Identifier("a"), Identifier("a"), Identifier("b"), Identifier("b")])]), Str("banana")])]))
  {
    Word("lambda");
    AWellFormed();
    LambdaBListAABBStrBananaWellFormed();
    WellFormedThree(Identifier("lambda"), Form([Identifier("a")]), Form([Form([Identifier("lambda"), Form([Identifier("b")]), Form([Identifier("list"), Identifier("a"), Identifier("a"), Identifier("b"), Identifier("b")])]), Str("banana")]));
  }

  lemma NestedLambdasWellFormed()
    ensures WellFormed(NestedLambdas())
  {
    LambdaALambdaBListAABBStrBananaWellFormed();
    Quoted("apple");
    WellFormedTwo(Form([Identifier("lambda"), Form([Identifier("a")]), Form([Form([Identifier("lambda"), Form([Identifier("b")]), Form([Identifier("list"), Identifier("a"), Identifier("a"), Identifier("b"), Identifier("b")])]), Str("banana")])]), Str("apple"));
  }

  lemma LWellFormed()
    ensures WellFormed(Form([Identifier("l")]))
  {
    Word("l");
    WellFormedOne(Identifier("l"));
  }

  lemma FirstLWellFormed()
    ensures WellFormed(Form([Identifier("first"), Identifier("l")]))
  {
    Word("first");
    Word("l");
    WellFormedTwo(Identifier("first"), Identifier("l"));
  }

  lemma LambdaLFirstLWellFormed()
    ensures WellFormed(Form([Identifier("lambda"), Form([Identifier("l")]), Form([Identifier("first"), Identifier("l")])]))
  {
    Word("lambda");
    LWellFormed();
    FirstLWellFormed();
    WellFormedThree(Identifier("lambda"), Form([Identifier("l")]), Form([Identifier("first"), Identifier("l")]));
  }

  lemma ListArgumentWellFormed()
    ensures WellFormed(ListArgument())
  {
    LambdaLFirstLWellFormed();
    ListOneTwoWellFormed();
    WellFormedTwo(Form([Identifier("lambda"), Form([Identifier("l")]), Form([Identifier("first"), Identifier("l")])]), Form([Identifier("list"), Number(1), Number(2)]));
  }

  lemma XOneWellFormed()
    ensures WellFormed(Form([Identifier("x"), Number(1)]))
  {
    Word("x");
    WellFormedTwo(Identifier("x"), Number(1));
  }

  lemma YTwoWellFormed()
    ensures WellFormed(Form([Identifier("y"), Number(2)]))
  {
    Word("y");
    WellFormedTwo(Identifier("y"), Number(2));
  }

  lemma XOneYTwoWellFormed()
    ensures WellFormed(Form([Form([Identifier("x"), Number(1)]), Form([Identifier("y"), Number(2)])]))
  {
    XOneWellFormed();
    YTwoWellFormed();
    WellFormedTwo(Form([Identifier("x"), Number(1)]), Form([Identifier("y"), Number(2)]));
  }

  lemma LetPairWellFormed()
    ensures WellFormed(LetPair())
  {
    Word("let");
    XOneYTwoWellFormed();
    ListXYWellFormed();
    WellFormedThree(Identifier("let"), Form([Form([Identifier("x"), Number(1)]), Form([Identifier("y"), Number(2)])]), Form([Identifier("list"), Identifier("x"), Identifier("y")]));
  }

  lemma YXWellFormed()
    ensures WellFormed(Form([Identifier("y"), Identifier("x")]))
  {
    Word("y");
    Word("x");
    WellFormedTwo(Identifier("y"), Identifier("x"));
  }

  lemma XOneYXWellFormed()
    ensures WellFormed(Form([Form([Identifier("x"), Number(1)]), Form([Identifier("y"), Identifier("x")])]))
  {
    XOneWellFormed();
    YXWellFormed();
    WellFormedTwo(Form([Identifier("x"), Number(1)]), Form([Identifier("y"), Identifier("x")]));
  }

  lemma LetParallelWellFormed()
    ensures WellFormed(LetParallel())
  {
    Word("let");
    XOneYXWellFormed();
    ListXYWellFormed();
    WellFormedThree(Identifier("let"), Form([Form([Identifier("x"), Number(1)]), Form([Identifier("y"), Identifier("x")])]), Form([Identifier("list"), Identifier("x"), Identifier("y")]));
  }

  lemma LetEmptyWellFormed()
    ensures WellFormed(LetEmpty())
  {
    Word("let");
    WellFormedThree(Identifier("let"), Form([]), Number(42));
  }

  lemma GarbageWellFormed()
    ensures WellFormed(Form([Identifier("garbage")]))
  {
    Word("garbage");
    WellFormedOne(Identifier("garbage"));
  }

  lemma QuoteGarbageWellFormed()
    ensures WellFormed(QuoteGarbage())
  {
    GarbageWellFormed();
    WellFormedOne(Quote(Form([Identifier("garbage")])));
  }

  lemma ListOneThreeWellFormed()
    ensures WellFormed(Form([Identifier("list"), Number(1), Number(3)]))
  {
    Word("list");
    WellFormedThree(Identifier("list"), Number(1), Number(3));
  }

  lemma QuoteListWellFormed()
    ensures WellFormed(QuoteList())
  {
    ListOneThreeWellFormed();
    WellFormedOne(Quote(Form([Identifier("list"), Number(1), Number(3)])));
  }

  lemma PlusOneThreeWellFormed()
    ensures WellFormed(Form([Identifier("+"), Number(1), Number(3)]))
  {
    Word("+");
    WellFormedThree(Identifier("+"), Number(1), Number(3));
  }

  lemma QuotedPlusOneThreeWellFormed()
    ensures WellFormed(Form([Quote(Form([Identifier("+"), Number(1), Number(3)]))]))
  {
    PlusOneThreeWellFormed();
    WellFormedOne(Quote(Form([Identifier("+"), Number(1), Number(3)])));
  }

  lemma QuotedSumWellFormed()
    ensures WellFormed(QuotedSum())
  {
    Word("eval");
    QuotedPlusOneThreeWellFormed();
    WellFormedTwo(Identifier("eval"), Form([Quote(Form([Identifier("+"), Number(1), Number(3)]))]));
  }

  lemma QuotedPlusWellFormed()
    ensures WellFormed(Form([Quote(Identifier("+"))]))
  {
    Word("+");
    WellFormedOne(Quote(Identifier("+")));
  }

  lemma QuotedOneWellFormed()
    ensures WellFormed(Form([Quote(Number(1))]))
  {
    WellFormedOne(Quote(Number(1)));
  }

  lemma QuotedThreeWellFormed()
    ensures WellFormed(Form([Quote(Number(3))]))
  {
    WellFormedOne(Quote(Number(3)));
  }

  lemma ListQuotedPlusQuotedOneQuotedThreeWellFormed()
    ensures WellFormed(Form([Identifier("list"), Form([Quote(Identifier("+"))]), Form([Quote(Number(1))]), Form([Quote(Number(3))])]))
  {
    Word("list");
    QuotedPlusWellFormed();
    QuotedOneWellFormed();
    QuotedThreeWellFormed();
    WellFormedFour(Identifier("list"), Form([Quote(Identifier("+"))]), Form([Quote(Number(1))]), Form([Quote(Number(3))]));
  }

  lemma QuotedPartsWellFormed()
    ensures WellFormed(QuotedParts())
  {
    Word("eval");
    ListQuotedPlusQuotedOneQuotedThreeWellFormed();
    WellFormedTwo(Identifier("eval"), Form([Identifier("list"), Form([Quote(Identifier("+"))]), Form([Quote(Number(1))]), Form([Quote(Number(3))])]));
  }

  lemma ListQuotedPlusOneFourWellFormed()
    ensures WellFormed(Form([Identifier("list"), Form([Quote(Identifier("+"))]), Number(1), Number(4)]))
  {
    Word("list");
    QuotedPlusWellFormed();
    WellFormedFour(Identifier("list"), Form([Quote(Identifier("+"))]), Number(1), Number(4));
  }

  lemma MixedPartsWellFormed()
    ensures WellFormed(MixedParts())
  {
    Word("eval");
    ListQuotedPlusOneFourWellFormed();
    WellFormedTwo(Identifier("eval"), Form([Identifier("list"), Form([Quote(Identifier("+"))]), Number(1), Number(4)]));
  }

  lemma EvalFourWellFormed()
    ensures WellFormed(Form([Identifier("eval"), Number(4)]))
  {
    Word("eval");
    WellFormedTwo(Identifier("eval"), Number(4));
  }

  lemma EvalEvalFourWellFormed()
    ensures WellFormed(Form([Identifier("eval"), Form([Identifier("eval"), Number(4)])]))
  {
    Word("eval");
    EvalFourWellFormed();
    WellFormedTwo(Identifier("eval"), Form([Identifier("eval"), Number(4)]));
  }

  lemma RepeatedEvalWellFormed()
    ensures WellFormed(RepeatedEval())
  {
    Word("eval");
    EvalEvalFourWellFormed();
    WellFormedTwo(Identifier("eval"), Form([Identifier("eval"), Form([Identifier("eval"), Number(4)])]));
  }

  lemma QuotedListOneTwoWellFormed()
    ensures WellFormed(Form([Quote(Form([Identifier("list"), Number(1), Number(2)]))]))
  {
    ListOneTwoWellFormed();
    WellFormedOne(Quote(Form([Identifier("list"), Number(1), Number(2)])));
  }

  lemma EvalQuotedListOneTwoWellFormed()
    ensures WellFormed(Form([Identifier("eval"), Form([Quote(Form([Identifier("list"), Number(1), Number(2)]))])]))
  {
    Word("eval");
    QuotedListOneTwoWellFormed();
    WellFormedTwo(Identifier("eval"), Form([Quote(Form([Identifier("list"), Number(1), Number(2)]))]));
  }

  lemma QuotedEvalQuotedListOneTwoWellFormed()
    ensures WellFormed(Form([Quote(Form([Identifier("eval"), Form([Quote(Form([Identifier("list"), Number(1), Number(2)]))])]))]))
  {
    EvalQuotedListOneTwoWellFormed();
    WellFormedOne(Quote(Form([Identifier("eval"), Form([Quote(Form([Identifier("list"), Number(1), Number(2)]))])])));
  }

  lemma RoundTripWellFormed()
    ensures WellFormed(RoundTrip())
  {
    Word("eval");
    QuotedEvalQuotedListOneTwoWellFormed();
    WellFormedTwo(Identifier("eval"), Form([Quote(Form([Identifier("eval"), Form([Quote(Form([Identifier("list"), Number(1), Number(2)]))])]))]));
  }

  lemma IfTrueWellFormed()
    ensures WellFormed(IfTrue())
  {
    Word("if");
    WellFormedFour(Identifier("if"), Number(1), Number(42), Number(4711));
  }

  lemma IfFalseWellFormed()
    ensures WellFormed(IfFalse())
  {
    Word("if");
    WellFormedFour(Identifier("if"), Number(0), Number(42), Number(4711));
  }

  lemma TwoAtomsFlattened()
    ensures U.Unannotate(TwoAtoms()) == [U.Atom(Text("hi")), U.Atom(Text("you"))]
  {
    FlatTwo(Identifier("hi"), Identifier("you"));
  }

  lemma NestedListFlattened()
    ensures U.Unannotate(NestedList()) == [U.Nested([U.Atom(Text("x"))])]
  {
    FlatOne(Identifier("x"));
    FlatOne(Form([Identifier("x")]));
  }

  lemma AtomThenListFlattened()
    ensures U.Unannotate(AtomThenList()) == [U.Atom(Text("x")), U.Nested([U.Atom(Text("x"))])]
  {
    FlatOne(Identifier("x"));
    FlatTwo(Identifier("x"), Form([Identifier("x")]));
  }

  lemma TwoNamesFlattened()
    ensures U.Unannotate(TwoNames()) == [U.Atom(Text("x")), U.Atom(Text("y"))]
  {
    FlatTwo(Identifier("x"), Identifier("y"));
  }

  lemma ListBetweenAtomsFlattened()
    ensures U.Unannotate(ListBetweenAtoms()) == [U.Atom(Text("x")), U.Nested([U.Atom(Text("y"))]), U.Atom(Text("z"))]
  {
    FlatOne(Identifier("y"));
    FlatThree(Identifier("x"), Form([Identifier("y")]), Identifier("z"));
  }

  lemma TwoInnerListsFlattened()
    ensures U.Unannotate(TwoInnerLists()) == [U.Atom(Text("x")), U.Nested([U.Atom(Text("y"))]), U.Nested([U.Atom(Text("a")), U.Atom(Text("b")), U.Atom(Text("c"))])]
  {
    FlatOne(Identifier("y"));
    FlatThree(Identifier("a"), Identifier("b"), Identifier("c"));
    FlatThree(Identifier("x"), Form([Identifier("y")]), Form([Identifier("a"), Identifier("b"), Identifier("c")]));
  }

  lemma NumbersFlattened()
    ensures U.Unannotate(Numbers()) == [U.Atom(Num(1)), U.Nested([U.Atom(Text("a")), U.Atom(Num(2))])]
  {
    FlatTwo(Identifier("a"), Number(2));
    FlatTwo(Number(1), Form([Identifier("a"), Number(2)]));
  }
}
