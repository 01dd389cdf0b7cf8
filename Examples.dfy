/**
 * The interpreter's own test cases.  A program written in its canonical
 * spelling is stated on its text: the text parses to the program's tree and
 * runs to the value the test expects, at every depth that suffices.  The
 * few written with extra blanks are stated for every spacing of their
 * tokens, which includes the one the test writes.
 */
module Examples {
  import opened Wrappers
  import opened Ast
  import opened Lexer
  import opened Parser
  import opened Environment
  import opened Evaluator
  import opened Semantics
  import opened LittleLisp
  import opened Programs
  import U = Unannotate

  /** The empty root environment of the tests that inject nothing. */
  const NoGlobals: Frame := map[]

  /** A well-formed tree parses from its printed text. */
  lemma Parses(n: Node, text: string)
    requires WellFormed(n) && Show(n) == text
    ensures ParseText(text) == Ok(n)
  {
    ParseTextOfShow(n);
  }

  /** A well-formed tree in its printed text runs as the tree does. */
  lemma Runs(n: Node, text: string, globals: Frame, depth: nat)
    requires WellFormed(n) && Show(n) == text
    ensures Run(text, globals, depth) == Interpret(n, globals, depth)
  {
    RunShow(n, globals, depth);
  }

  // parse

  lemma ParseSingleAtom()
    ensures ParseText("a") == Ok(Identifier("a"))
  {
    assert !IsDigit("a"[0]);
    ParseAtom("a");
  }

  lemma ParseEmptyList()
    ensures ParseText("()") == Ok(Form([]))
    ensures U.Unannotate(Form([])) == []
  {
    assert Show(Form([])) == "()";
    Parses(Form([]), "()");
  }

  lemma ParseTwoAtoms()
    ensures ParseText("(hi you)") == Ok(TwoAtoms())
    ensures U.Unannotate(TwoAtoms()) == [U.Atom(Text("hi")), U.Atom(Text("you"))]
  {
    TwoAtomsText();
    TwoAtomsWellFormed();
    Parses(TwoAtoms(), "(hi you)");
    TwoAtomsFlattened();
  }

  lemma ParseNestedList()
    ensures ParseText("((x))") == Ok(NestedList())
    ensures U.Unannotate(NestedList()) == [U.Nested([U.Atom(Text("x"))])]
  {
    NestedListText();
    NestedListWellFormed();
    Parses(NestedList(), "((x))");
    NestedListFlattened();
  }

  lemma ParseAtomThenList()
    ensures ParseText("(x (x))") == Ok(AtomThenList())
    ensures U.Unannotate(AtomThenList()) == [U.Atom(Text("x")), U.Nested([U.Atom(Text("x"))])]
  {
    AtomThenListText();
    AtomThenListWellFormed();
    Parses(AtomThenList(), "(x (x))");
    AtomThenListFlattened();
  }

  lemma ParseTwoNames()
    ensures ParseText("(x y)") == Ok(TwoNames())
    ensures U.Unannotate(TwoNames()) == [U.Atom(Text("x")), U.Atom(Text("y"))]
  {
    TwoNamesText();
    TwoNamesWellFormed();
    Parses(TwoNames(), "(x y)");
    TwoNamesFlattened();
  }

  lemma ParseListBetweenAtoms()
    ensures ParseText("(x (y) z)") == Ok(ListBetweenAtoms())
    ensures U.Unannotate(ListBetweenAtoms()) == [U.Atom(Text("x")), U.Nested([U.Atom(Text("y"))]), U.Atom(Text("z"))]
  {
    ListBetweenAtomsText();
    ListBetweenAtomsWellFormed();
    Parses(ListBetweenAtoms(), "(x (y) z)");
    ListBetweenAtomsFlattened();
  }

  lemma ParseTwoInnerLists()
    ensures ParseText("(x (y) (a b c))") == Ok(TwoInnerLists())
    ensures U.Unannotate(TwoInnerLists()) == [U.Atom(Text("x")), U.Nested([U.Atom(Text("y"))]), U.Nested([U.Atom(Text("a")), U.Atom(Text("b")), U.Atom(Text("c"))])]
  {
    TwoInnerListsText();
    TwoInnerListsWellFormed();
    Parses(TwoInnerLists(), "(x (y) (a b c))");
    TwoInnerListsFlattened();
  }

  lemma ParseNumbers()
    ensures ParseText("(1 (a 2))") == Ok(Numbers())
    ensures U.Unannotate(Numbers()) == [U.Atom(Num(1)), U.Nested([U.Atom(Text("a")), U.Atom(Num(2))])]
  {
    NumbersText();
    NumbersWellFormed();
    Parses(Numbers(), "(1 (a 2))");
    NumbersFlattened();
  }

  // interpret: atoms and the empty list

  lemma InterpretEmptyList(f: nat)
    ensures Run("()", NoGlobals, f + 1) == Ok(Empty)
  {
    assert Show(Form([])) == "()";
    Runs(Form([]), "()", NoGlobals, f + 1);
    EmptyFormIsEmpty([NoGlobals], f);
  }

  /** A string literal runs to its text, whatever blanks and parentheses it holds. */
  lemma RunString(x: string, f: nat)
    requires forall i :: 0 <= i < |x| ==> x[i] != '"'
    ensures Run("\"" + x + "\"", NoGlobals, f + 1) == Ok(Text(x))
  {
    ParseStringLiteral(x);
  }

  lemma InterpretStringAtom(f: nat)
    ensures Run("\"a\"", NoGlobals, f + 1) == Ok(Text("a"))
  {
    RunString("a", f);
    assert "\"" + "a" + "\"" == "\"a\"";
  }

  lemma InterpretStringWithSpace(f: nat)
    ensures Run("\"a b\"", NoGlobals, f + 1) == Ok(Text("a b"))
  {
    RunString("a b", f);
    assert "\"" + "a b" + "\"" == "\"a b\"";
  }

  lemma InterpretStringWithOpeningParen(f: nat)
    ensures Run("\"(a\"", NoGlobals, f + 1) == Ok(Text("(a"))
  {
    RunString("(a", f);
    assert "\"" + "(a" + "\"" == "\"(a\"";
  }

  lemma InterpretStringWithClosingParen(f: nat)
    ensures Run("\")a\"", NoGlobals, f + 1) == Ok(Text(")a"))
  {
    RunString(")a", f);
    assert "\"" + ")a" + "\"" == "\")a\"";
  }

  lemma InterpretStringWithParens(f: nat)
    ensures Run("\"(a)\"", NoGlobals, f + 1) == Ok(Text("(a)"))
  {
    RunString("(a)", f);
    assert "\"" + "(a)" + "\"" == "\"(a)\"";
  }

  lemma InterpretNumberAtom(f: nat)
    ensures Run("123", NoGlobals, f + 1) == Ok(Num(123))
  {
    assert Numeral(123) == "123";
    ParseNumeral(123);
  }

  // What each test program evaluates to, stated on its tree for every depth
  // that suffices.

  // The trees the tests write, against the shorthands the semantic lemmas use.

  lemma CallOne(h: string, a: Node)
    ensures Call(h, [a]) == Form([Identifier(h), a])
  {
    assert [Identifier(h)] + [a] == [Identifier(h), a];
  }

  lemma CallTwo(h: string, a: Node, b: Node)
    ensures Call(h, [a, b]) == Form([Identifier(h), a, b])
  {
    assert [Identifier(h)] + [a, b] == [Identifier(h), a, b];
  }

  lemma CallThree(h: string, a: Node, b: Node, c: Node)
    ensures Call(h, [a, b, c]) == Form([Identifier(h), a, b, c])
  {
    assert [Identifier(h)] + [a, b, c] == [Identifier(h), a, b, c];
  }

  lemma CallFour(h: string, a: Node, b: Node, c: Node, d: Node)
    ensures Call(h, [a, b, c, d]) == Form([Identifier(h), a, b, c, d])
  {
    assert [Identifier(h)] + [a, b, c, d] == [Identifier(h), a, b, c, d];
  }

  lemma LambdaOf(params: seq<string>, body: Node)
    ensures |params| == 0 ==> Lambda(params, body) == Form([Identifier("lambda"), Form([]), body])
    ensures |params| == 1 ==> Lambda(params, body) == Form([Identifier("lambda"), Form([Identifier(params[0])]), body])
    ensures |params| == 2 ==>
              Lambda(params, body) == Form([Identifier("lambda"), Form([Identifier(params[0]), Identifier(params[1])]), body])
  {
    CallTwo("lambda", Form(Identifiers(params)), body);
    if |params| == 0 {
      assert Identifiers(params) == [];
    } else if |params| == 1 {
      assert Identifiers(params) == [Identifier(params[0])];
    } else if |params| == 2 {
      assert Identifiers(params) == [Identifier(params[0]), Identifier(params[1])];
    }
  }

  lemma Applied(op: Node, args: seq<Node>)
    ensures |args| == 0 ==> Form([op] + args) == Form([op])
    ensures |args| == 1 ==> Form([op] + args) == Form([op, args[0]])
    ensures |args| == 2 ==> Form([op] + args) == Form([op, args[0], args[1]])
  {
    if |args| == 0 {
      assert [op] + args == [op];
    } else if |args| == 1 {
      assert [op] + args == [op, args[0]];
    } else if |args| == 2 {
      assert [op] + args == [op, args[0], args[1]];
    }
  }

  lemma EvalQuotedOf(n: Node)
    ensures EvalQuoted(n) == Form([Identifier("eval"), Form([Quote(n)])])
  {
    CallOne("eval", Form([Quote(n)]));
  }

  lemma StringHeadEvaluates(f: nat)
    ensures Interpret(StringHead(), NoGlobals, f + 2) == Err(NotCallable)
  {
    NonCallableOperator(Str("hi"), [Str("mary"), Str("rose")], [NoGlobals], f + 1,
                        Text("hi"), [Text("mary"), Text("rose")]);
    assert [Str("hi")] + [Str("mary"), Str("rose")] == StringHead().children;
  }

  lemma ListOfStringsEvaluates(f: nat)
    ensures Interpret(ListOfStrings(), NoGlobals, f + 2) == Ok(List([Text("hi"), Text("mary"), Text("rose")]))
  {
    ListEvaluatesInOrder([Str("hi"), Str("mary"), Str("rose")], [NoGlobals], f + 1,
                         [Text("hi"), Text("mary"), Text("rose")]);
    CallThree("list", Str("hi"), Str("mary"), Str("rose"));
  }

  lemma ListOfNumbersEvaluates(f: nat)
    ensures Interpret(ListOfNumbers(), NoGlobals, f + 2) == Ok(List([Num(1), Num(2), Num(3)]))
  {
    ListEvaluatesInOrder([Number(1), Number(2), Number(3)], [NoGlobals], f + 1, [Num(1), Num(2), Num(3)]);
    CallThree("list", Number(1), Number(2), Number(3));
  }

  lemma NumeralsInStringsEvaluates(f: nat)
    ensures Interpret(NumeralsInStrings(), NoGlobals, f + 2) == Ok(List([Text("1"), Text("2"), Text("3")]))
  {
    ListEvaluatesInOrder([Str("1"), Str("2"), Str("3")], [NoGlobals], f + 1, [Text("1"), Text("2"), Text("3")]);
    CallThree("list", Str("1"), Str("2"), Str("3"));
  }

  lemma PrintOneEvaluates(f: nat)
    ensures Interpret(PrintOne(), NoGlobals, f + 2) == Ok(Num(1))
  {
    PrintIsTransparent(Number(1), [NoGlobals], f + 1);
    CallOne("print", Number(1));
  }

  lemma FirstOfListEvaluates(f: nat)
    ensures Interpret(FirstOfList(), NoGlobals, f + 3) == Ok(Num(1))
  {
    ListOfNumbersEvaluates(f);
    FirstAndRest(ListOfNumbers(), [NoGlobals], f + 2, List([Num(1), Num(2), Num(3)]));
    CallOne("first", ListOfNumbers());
  }

  lemma RestOfListEvaluates(f: nat)
    ensures Interpret(RestOfList(), NoGlobals, f + 3) == Ok(List([Num(2), Num(3)]))
  {
    ListOfNumbersEvaluates(f);
    FirstAndRest(ListOfNumbers(), [NoGlobals], f + 2, List([Num(1), Num(2), Num(3)]));
    CallOne("rest", ListOfNumbers());
    assert [Num(1), Num(2), Num(3)][1..] == [Num(2), Num(3)];
  }

  lemma ConstantLambdaEvaluates(f: nat)
    ensures Interpret(ConstantLambda(), NoGlobals, f + 2) == Ok(Text("asdf"))
  {
    ImmediateLambda([], Str("asdf"), [], [NoGlobals], f + 1, []);
    LambdaOf([], Str("asdf"));
    Applied(Lambda([], Str("asdf")), []);
  }

  /** The body of `((lambda () (rest (list 1 2))))`, in any environment. */
  lemma RestOfPairEvaluates(env: Env, f: nat)
    ensures Eval(Call("rest", [Call("list", [Number(1), Number(2)])]), env, f + 3) == Ok(List([Num(2)]))
  {
    ListEvaluatesInOrder([Number(1), Number(2)], env, f + 1, [Num(1), Num(2)]);
    FirstAndRest(Call("list", [Number(1), Number(2)]), env, f + 2, List([Num(1), Num(2)]));
    assert [Num(1), Num(2)][1..] == [Num(2)];
  }

  lemma LambdaWithoutParamsEvaluates(f: nat)
    ensures Interpret(LambdaWithoutParams(), NoGlobals, f + 4) == Ok(List([Num(2)]))
  {
    var body := Call("rest", [Call("list", [Number(1), Number(2)])]);
    ImmediateLambda([], body, [], [NoGlobals], f + 3, []);
    RestOfPairEvaluates(Extend([NoGlobals], map[]), f);
    CallOne("rest", Call("list", [Number(1), Number(2)]));
    CallTwo("list", Number(1), Number(2));
    LambdaOf([], body);
    Applied(Lambda([], body), []);
  }

  /** The frame a call binds, seen from the call's body. */
  lemma BoundTwo(x: string, y: string, u: Value, w: Value, captured: Env)
    requires x != y
    ensures BindFrame([x, y], [u, w]).Ok?
    ensures Lookup(Extend(captured, BindFrame([x, y], [u, w]).value), x) == u
    ensures Lookup(Extend(captured, BindFrame([x, y], [u, w]).value), y) == w
  {
    CallFrameScoping([x, y], [u, w], captured, x);
  }

  lemma BoundOne(x: string, u: Value, captured: Env)
    ensures BindFrame([x], [u]).Ok?
    ensures Lookup(Extend(captured, BindFrame([x], [u]).value), x) == u
  {
    CallFrameScoping([x], [u], captured, x);
  }

  lemma IdentityCallEvaluates(f: nat)
    ensures Interpret(IdentityCall(), NoGlobals, f + 2) == Ok(Num(1))
  {
    ImmediateLambda(["x"], Identifier("x"), [Number(1)], [NoGlobals], f + 1, [Num(1)]);
    BoundOne("x", Num(1), [NoGlobals]);
    LambdaOf(["x"], Identifier("x"));
    Applied(Lambda(["x"], Identifier("x")), [Number(1)]);
  }

  /** `(list x y)` where `x` and `y` are bound. */
  lemma ListOfNamesEvaluates(env: Env, f: nat, u: Value, w: Value)
    requires Lookup(env, "x") == u && Lookup(env, "y") == w
    ensures Eval(Call("list", [Identifier("x"), Identifier("y")]), env, f + 2) == Ok(List([u, w]))
    ensures Eval(Call("list", [Number(0), Identifier("x"), Identifier("y")]), env, f + 2) == Ok(List([Num(0), u, w]))
  {
    ListEvaluatesInOrder([Identifier("x"), Identifier("y")], env, f + 1, [u, w]);
    ListEvaluatesInOrder([Number(0), Identifier("x"), Identifier("y")], env, f + 1, [Num(0), u, w]);
  }

  lemma PairCallEvaluates(f: nat)
    ensures Interpret(PairCall(), NoGlobals, f + 3) == Ok(List([Num(1), Num(2)]))
  {
    var body := Call("list", [Identifier("x"), Identifier("y")]);
    ImmediateLambda(["x", "y"], body, [Number(1), Number(2)], [NoGlobals], f + 2, [Num(1), Num(2)]);
    BoundTwo("x", "y", Num(1), Num(2), [NoGlobals]);
    ListOfNamesEvaluates(Extend([NoGlobals], BindFrame(["x", "y"], [Num(1), Num(2)]).value), f, Num(1), Num(2));
    CallTwo("list", Identifier("x"), Identifier("y"));
    LambdaOf(["x", "y"], body);
    Applied(Lambda(["x", "y"], body), [Number(1), Number(2)]);
  }

  lemma LiteralsAndParamsEvaluates(f: nat)
    ensures Interpret(LiteralsAndParams(), NoGlobals, f + 3) == Ok(List([Num(0), Num(1), Num(2)]))
  {
    var body := Call("list", [Number(0), Identifier("x"), Identifier("y")]);
    ImmediateLambda(["x", "y"], body, [Number(1), Number(2)], [NoGlobals], f + 2, [Num(1), Num(2)]);
    BoundTwo("x", "y", Num(1), Num(2), [NoGlobals]);
    ListOfNamesEvaluates(Extend([NoGlobals], BindFrame(["x", "y"], [Num(1), Num(2)]).value), f, Num(1), Num(2));
    CallThree("list", Number(0), Identifier("x"), Identifier("y"));
    LambdaOf(["x", "y"], body);
    Applied(Lambda(["x", "y"], body), [Number(1), Number(2)]);
  }

  lemma NestedLambdasEvaluates(f: nat)
    ensures Interpret(NestedLambdas(), NoGlobals, f + 4) == Ok(List([Text("apple"), Text("apple"), Text("banana"), Text("banana")]))
  {
    var listed := Call("list", [Identifier("a"), Identifier("a"), Identifier("b"), Identifier("b")]);
    var inner := Form([Lambda(["b"], listed), Str("banana")]);
    NestedClosures("a", "b", Str("apple"), Str("banana"), [NoGlobals], f + 2, Text("apple"), Text("banana"));
    CallFour("list", Identifier("a"), Identifier("a"), Identifier("b"), Identifier("b"));
    LambdaOf(["b"], listed);
    LambdaOf(["a"], inner);
    Applied(Lambda(["a"], inner), [Str("apple")]);
  }

  /** `(first l)` where `l` is bound to a list. */
  lemma FirstOfNameEvaluates(env: Env, f: nat, items: seq<Value>)
    requires Lookup(env, "l") == List(items) && items != []
    ensures Eval(Call("first", [Identifier("l")]), env, f + 2) == Ok(items[0])
  {
    FirstAndRest(Identifier("l"), env, f + 1, List(items));
  }

  lemma ListArgumentEvaluates(f: nat)
    ensures Interpret(ListArgument(), NoGlobals, f + 3) == Ok(Num(1))
  {
    var body := Call("first", [Identifier("l")]);
    var pair := Call("list", [Number(1), Number(2)]);
    ListEvaluatesInOrder([Number(1), Number(2)], [NoGlobals], f + 1, [Num(1), Num(2)]);
    ImmediateLambda(["l"], body, [pair], [NoGlobals], f + 2, [List([Num(1), Num(2)])]);
    BoundOne("l", List([Num(1), Num(2)]), [NoGlobals]);
    FirstOfNameEvaluates(Extend([NoGlobals], BindFrame(["l"], [List([Num(1), Num(2)])]).value), f, [Num(1), Num(2)]);
    CallOne("first", Identifier("l"));
    CallTwo("list", Number(1), Number(2));
    LambdaOf(["l"], body);
    Applied(Lambda(["l"], body), [pair]);
  }

  lemma LetPairEvaluates(f: nat)
    ensures Interpret(LetPair(), NoGlobals, f + 3) == Ok(List([Num(1), Num(2)]))
  {
    var bindings := [Form([Identifier("x"), Number(1)]), Form([Identifier("y"), Number(2)])];
    var body := Call("list", [Identifier("x"), Identifier("y")]);
    LetBindsInParallel(bindings, body, [NoGlobals], f + 2, [Num(1), Num(2)]);
    assert BoundNames(Form(bindings)) == ["x", "y"];
    BoundTwo("x", "y", Num(1), Num(2), [NoGlobals]);
    ListOfNamesEvaluates(Extend([NoGlobals], BindFrame(["x", "y"], [Num(1), Num(2)]).value), f, Num(1), Num(2));
    CallTwo("list", Identifier("x"), Identifier("y"));
    CallTwo("let", Form(bindings), body);
  }

  lemma LetParallelEvaluates(f: nat)
    ensures Interpret(LetParallel(), NoGlobals, f + 3) == Ok(List([Num(1), Absent]))
  {
    LetDoesNotExposeBindings("x", "y", Number(1), [NoGlobals], f + 2, Num(1));
    assert Lookup([NoGlobals], "x") == Absent;
    CallTwo("list", Identifier("x"), Identifier("y"));
    CallTwo("let", Form([Form([Identifier("x"), Number(1)]), Form([Identifier("y"), Identifier("x")])]),
            Form([Identifier("list"), Identifier("x"), Identifier("y")]));
  }

  lemma LetEmptyEvaluates(f: nat)
    ensures Interpret(LetEmpty(), NoGlobals, f + 2) == Ok(Num(42))
  {
    LetWithoutBindings(Number(42), [NoGlobals], f + 1);
    CallTwo("let", Form([]), Number(42));
  }

  lemma QuoteGarbageEvaluates(f: nat)
    ensures Interpret(QuoteGarbage(), NoGlobals, f + 2) == Ok(QuotedForm(Form([Identifier("garbage")])))
  {
    QuoteHoldsForm(Form([Identifier("garbage")]), [NoGlobals], f);
  }

  lemma QuoteListEvaluates(f: nat)
    ensures Interpret(QuoteList(), NoGlobals, f + 2) == Ok(QuotedForm(Form([Identifier("list"), Number(1), Number(3)])))
  {
    QuoteHoldsForm(Form([Identifier("list"), Number(1), Number(3)]), [NoGlobals], f);
  }

  lemma PlusIsBound()
    ensures Lookup([PlusContext], "+") == Builtin(Plus)
  {
  }

  lemma QuotedSumEvaluates(f: nat)
    ensures Interpret(QuotedSum(), PlusContext, f + 3) == Ok(Num(4))
  {
    PlusIsBound();
    EvalQuotedSum(1, 3, [PlusContext], f);
    CallTwo("+", Number(1), Number(3));
    EvalQuotedOf(Form([Identifier("+"), Number(1), Number(3)]));
  }

  lemma QuotedPartsEvaluates(f: nat)
    ensures Interpret(QuotedParts(), PlusContext, f + 4) == Ok(Num(4))
  {
    var parts := [Form([Quote(Identifier("+"))]), Form([Quote(Number(1))]), Form([Quote(Number(3))])];
    PlusIsBound();
    EvalListOfQuotedParts(1, 3, [PlusContext], f);
    CallThree("list", parts[0], parts[1], parts[2]);
    CallOne("eval", Form([Identifier("list")] + parts));
    assert [Identifier("list")] + parts == [Identifier("list"), parts[0], parts[1], parts[2]];
  }

  lemma MixedPartsEvaluates(f: nat)
    ensures Interpret(MixedParts(), PlusContext, f + 4) == Ok(Num(5))
  {
    PlusIsBound();
    EvalListOfQuotedParts(1, 4, [PlusContext], f);
    CallThree("list", Form([Quote(Identifier("+"))]), Number(1), Number(4));
    CallOne("eval", Form([Identifier("list"), Form([Quote(Identifier("+"))]), Number(1), Number(4)]));
  }

  lemma RepeatedEvalEvaluates(f: nat)
    ensures Interpret(RepeatedEval(), NoGlobals, f + 4) == Ok(Num(4))
  {
    var twice := Call("eval", [Call("eval", [Number(4)])]);
    EvalIdempotentOnData(Number(4), [NoGlobals], f + 1, Num(4));
    EvalIdempotentOnData(twice, [NoGlobals], f + 3, Num(4));
    CallOne("eval", Number(4));
    CallOne("eval", Form([Identifier("eval"), Number(4)]));
    CallOne("eval", twice);
  }

  lemma RoundTripEvaluates(f: nat)
    ensures Interpret(RoundTrip(), NoGlobals, f + 4) == Ok(List([Num(1), Num(2)]))
  {
    var pair := Call("list", [Number(1), Number(2)]);
    ListEvaluatesInOrder([Number(1), Number(2)], [NoGlobals], f + 1, [Num(1), Num(2)]);
    QuoteEvalRoundTrip(pair, [NoGlobals], f + 2);
    CallTwo("list", Number(1), Number(2));
    EvalQuotedOf(pair);
    EvalQuotedOf(EvalQuoted(pair));
  }

  lemma IfTrueEvaluates(f: nat)
    ensures Interpret(IfTrue(), NoGlobals, f + 2) == Ok(Num(42))
  {
    IfChoosesOneBranch(Number(1), Number(42), Number(4711), [NoGlobals], f + 1, Num(1));
    CallThree("if", Number(1), Number(42), Number(4711));
  }

  lemma IfFalseEvaluates(f: nat)
    ensures Interpret(IfFalse(), NoGlobals, f + 2) == Ok(Num(4711))
  {
    IfChoosesOneBranch(Number(0), Number(42), Number(4711), [NoGlobals], f + 1, Num(0));
    CallThree("if", Number(0), Number(42), Number(4711));
  }

  // interpret: each program run from its text

  lemma InterpretStringHead(f: nat)
    ensures Run("(\"hi\" \"mary\" \"rose\")", NoGlobals, f + 2) == Err(NotCallable)
  {
    StringHeadText();
    StringHeadWellFormed();
    Runs(StringHead(), "(\"hi\" \"mary\" \"rose\")", NoGlobals, f + 2);
    StringHeadEvaluates(f);
  }

  lemma InterpretListOfStrings(f: nat)
    ensures Run("(list \"hi\" \"mary\" \"rose\")", NoGlobals, f + 2) == Ok(List([Text("hi"), Text("mary"), Text("rose")]))
  {
    ListOfStringsText();
    ListOfStringsWellFormed();
    Runs(ListOfStrings(), "(list \"hi\" \"mary\" \"rose\")", NoGlobals, f + 2);
    ListOfStringsEvaluates(f);
  }

  lemma InterpretListOfNumbers(f: nat)
    ensures Run("(list 1 2 3)", NoGlobals, f + 2) == Ok(List([Num(1), Num(2), Num(3)]))
  {
    ListOfNumbersText();
    ListOfNumbersWellFormed();
    Runs(ListOfNumbers(), "(list 1 2 3)", NoGlobals, f + 2);
    ListOfNumbersEvaluates(f);
  }

  lemma InterpretNumeralsInStrings(f: nat)
    ensures Run("(list \"1\" \"2\" \"3\")", NoGlobals, f + 2) == Ok(List([Text("1"), Text("2"), Text("3")]))
  {
    NumeralsInStringsText();
    NumeralsInStringsWellFormed();
    Runs(NumeralsInStrings(), "(list \"1\" \"2\" \"3\")", NoGlobals, f + 2);
    NumeralsInStringsEvaluates(f);
  }

  lemma InterpretPrintOne(f: nat)
    ensures Run("(print 1)", NoGlobals, f + 2) == Ok(Num(1))
  {
    PrintOneText();
    PrintOneWellFormed();
    Runs(PrintOne(), "(print 1)", NoGlobals, f + 2);
    PrintOneEvaluates(f);
  }

  lemma InterpretFirstOfList(f: nat)
    ensures Run("(first (list 1 2 3))", NoGlobals, f + 3) == Ok(Num(1))
  {
    FirstOfListText();
    FirstOfListWellFormed();
    Runs(FirstOfList(), "(first (list 1 2 3))", NoGlobals, f + 3);
    FirstOfListEvaluates(f);
  }

  lemma InterpretRestOfList(f: nat)
    ensures Run("(rest (list 1 2 3))", NoGlobals, f + 3) == Ok(List([Num(2), Num(3)]))
  {
    RestOfListText();
    RestOfListWellFormed();
    Runs(RestOfList(), "(rest (list 1 2 3))", NoGlobals, f + 3);
    RestOfListEvaluates(f);
  }

  lemma InterpretConstantLambda(f: nat)
    ensures Run("((lambda () \"asdf\"))", NoGlobals, f + 2) == Ok(Text("asdf"))
  {
    ConstantLambdaText();
    ConstantLambdaWellFormed();
    Runs(ConstantLambda(), "((lambda () \"asdf\"))", NoGlobals, f + 2);
    ConstantLambdaEvaluates(f);
  }

  lemma InterpretLambdaWithoutParams(f: nat)
    ensures Run("((lambda () (rest (list 1 2))))", NoGlobals, f + 4) == Ok(List([Num(2)]))
  {
    LambdaWithoutParamsText();
    LambdaWithoutParamsWellFormed();
    Runs(LambdaWithoutParams(), "((lambda () (rest (list 1 2))))", NoGlobals, f + 4);
    LambdaWithoutParamsEvaluates(f);
  }

  lemma InterpretIdentityCall(f: nat)
    ensures Run("((lambda (x) x) 1)", NoGlobals, f + 2) == Ok(Num(1))
  {
    IdentityCallText();
    IdentityCallWellFormed();
    Runs(IdentityCall(), "((lambda (x) x) 1)", NoGlobals, f + 2);
    IdentityCallEvaluates(f);
  }

  lemma InterpretPairCall(f: nat)
    ensures Run("((lambda (x y) (list x y)) 1 2)", NoGlobals, f + 3) == Ok(List([Num(1), Num(2)]))
  {
    PairCallText();
    PairCallWellFormed();
    Runs(PairCall(), "((lambda (x y) (list x y)) 1 2)", NoGlobals, f + 3);
    PairCallEvaluates(f);
  }

  lemma InterpretLiteralsAndParams(f: nat)
    ensures Run("((lambda (x y) (list 0 x y)) 1 2)", NoGlobals, f + 3) == Ok(List([Num(0), Num(1), Num(2)]))
  {
    LiteralsAndParamsText();
    LiteralsAndParamsWellFormed();
    Runs(LiteralsAndParams(), "((lambda (x y) (list 0 x y)) 1 2)", NoGlobals, f + 3);
    LiteralsAndParamsEvaluates(f);
  }

  lemma InterpretNestedLambdasSpaced(gaps: seq<string>, f: nat)
    requires Gaps(Tokens(NestedLambdas()), gaps)
    ensures Run(Layout(Tokens(NestedLambdas()), gaps), NoGlobals, f + 4) == Ok(List([Text("apple"), Text("apple"), Text("banana"), Text("banana")]))
  {
    NestedLambdasWellFormed();
    RunLayout(NestedLambdas(), gaps, NoGlobals, f + 4);
    NestedLambdasEvaluates(f);
  }

  lemma InterpretListArgument(f: nat)
    ensures Run("((lambda (l) (first l)) (list 1 2))", NoGlobals, f + 3) == Ok(Num(1))
  {
    ListArgumentText();
    ListArgumentWellFormed();
    Runs(ListArgument(), "((lambda (l) (first l)) (list 1 2))", NoGlobals, f + 3);
    ListArgumentEvaluates(f);
  }

  lemma InterpretLetPair(f: nat)
    ensures Run("(let ((x 1) (y 2)) (list x y))", NoGlobals, f + 3) == Ok(List([Num(1), Num(2)]))
  {
    LetPairText();
    LetPairWellFormed();
    Runs(LetPair(), "(let ((x 1) (y 2)) (list x y))", NoGlobals, f + 3);
    LetPairEvaluates(f);
  }

  lemma InterpretLetParallel(f: nat)
    ensures Run("(let ((x 1) (y x)) (list x y))", NoGlobals, f + 3) == Ok(List([Num(1), Absent]))
  {
    LetParallelText();
    LetParallelWellFormed();
    Runs(LetParallel(), "(let ((x 1) (y x)) (list x y))", NoGlobals, f + 3);
    LetParallelEvaluates(f);
  }

  lemma InterpretLetEmpty(f: nat)
    ensures Run("(let () 42)", NoGlobals, f + 2) == Ok(Num(42))
  {
    LetEmptyText();
    LetEmptyWellFormed();
    Runs(LetEmpty(), "(let () 42)", NoGlobals, f + 2);
    LetEmptyEvaluates(f);
  }

  lemma InterpretQuoteGarbage(f: nat)
    ensures Run("('(garbage))", NoGlobals, f + 2) == Ok(QuotedForm(Form([Identifier("garbage")])))
  {
    QuoteGarbageText();
    QuoteGarbageWellFormed();
    Runs(QuoteGarbage(), "('(garbage))", NoGlobals, f + 2);
    QuoteGarbageEvaluates(f);
  }

  lemma InterpretQuoteList(f: nat)
    ensures Run("('(list 1 3))", NoGlobals, f + 2) == Ok(QuotedForm(Form([Identifier("list"), Number(1), Number(3)])))
  {
    QuoteListText();
    QuoteListWellFormed();
    Runs(QuoteList(), "('(list 1 3))", NoGlobals, f + 2);
    QuoteListEvaluates(f);
  }

  lemma InterpretQuotedSum(f: nat)
    ensures Run("(eval ('(+ 1 3)))", PlusContext, f + 3) == Ok(Num(4))
  {
    QuotedSumText();
    QuotedSumWellFormed();
    Runs(QuotedSum(), "(eval ('(+ 1 3)))", PlusContext, f + 3);
    QuotedSumEvaluates(f);
  }

  lemma InterpretQuotedParts(f: nat)
    ensures Run("(eval (list ('+) ('1) ('3)))", PlusContext, f + 4) == Ok(Num(4))
  {
    QuotedPartsText();
    QuotedPartsWellFormed();
    Runs(QuotedParts(), "(eval (list ('+) ('1) ('3)))", PlusContext, f + 4);
    QuotedPartsEvaluates(f);
  }

  lemma InterpretMixedParts(f: nat)
    ensures Run("(eval (list ('+) 1 4))", PlusContext, f + 4) == Ok(Num(5))
  {
    MixedPartsText();
    MixedPartsWellFormed();
    Runs(MixedParts(), "(eval (list ('+) 1 4))", PlusContext, f + 4);
    MixedPartsEvaluates(f);
  }

  lemma InterpretMixedPartsSpaced(gaps: seq<string>, f: nat)
    requires Gaps(Tokens(MixedParts()), gaps)
    ensures Run(Layout(Tokens(MixedParts()), gaps), PlusContext, f + 4) == Ok(Num(5))
  {
    MixedPartsWellFormed();
    RunLayout(MixedParts(), gaps, PlusContext, f + 4);
    MixedPartsEvaluates(f);
  }

  lemma InterpretRepeatedEval(f: nat)
    ensures Run("(eval (eval (eval 4)))", NoGlobals, f + 4) == Ok(Num(4))
  {
    RepeatedEvalText();
    RepeatedEvalWellFormed();
    Runs(RepeatedEval(), "(eval (eval (eval 4)))", NoGlobals, f + 4);
    RepeatedEvalEvaluates(f);
  }

  lemma InterpretRepeatedEvalSpaced(gaps: seq<string>, f: nat)
    requires Gaps(Tokens(RepeatedEval()), gaps)
    ensures Run(Layout(Tokens(RepeatedEval()), gaps), NoGlobals, f + 4) == Ok(Num(4))
  {
    RepeatedEvalWellFormed();
    RunLayout(RepeatedEval(), gaps, NoGlobals, f + 4);
    RepeatedEvalEvaluates(f);
  }

  lemma InterpretRoundTrip(f: nat)
    ensures Run("(eval ('(eval ('(list 1 2)))))", NoGlobals, f + 4) == Ok(List([Num(1), Num(2)]))
  {
    RoundTripText();
    RoundTripWellFormed();
    Runs(RoundTrip(), "(eval ('(eval ('(list 1 2)))))", NoGlobals, f + 4);
    RoundTripEvaluates(f);
  }

  lemma InterpretRoundTripSpaced(gaps: seq<string>, f: nat)
    requires Gaps(Tokens(RoundTrip()), gaps)
    ensures Run(Layout(Tokens(RoundTrip()), gaps), NoGlobals, f + 4) == Ok(List([Num(1), Num(2)]))
  {
    RoundTripWellFormed();
    RunLayout(RoundTrip(), gaps, NoGlobals, f + 4);
    RoundTripEvaluates(f);
  }

  lemma InterpretIfTrue(f: nat)
    ensures Run("(if 1 42 4711)", NoGlobals, f + 2) == Ok(Num(42))
  {
    IfTrueText();
    IfTrueWellFormed();
    Runs(IfTrue(), "(if 1 42 4711)", NoGlobals, f + 2);
    IfTrueEvaluates(f);
  }

  lemma InterpretIfFalse(f: nat)
    ensures Run("(if 0 42 4711)", NoGlobals, f + 2) == Ok(Num(4711))
  {
    IfFalseText();
    IfFalseWellFormed();
    Runs(IfFalse(), "(if 0 42 4711)", NoGlobals, f + 2);
    IfFalseEvaluates(f);
  }
}
