/**
 * What the evaluator promises, stated for every program of a given shape:
 * the rules for each special form, application, closures and quote/eval.
 */
module Semantics {
  import opened Wrappers
  import opened Ast
  import opened Environment
  import opened Evaluator

  /** A special form or call written with an identifier head. */
  function Call(head: string, args: seq<Node>): Node
  {
    Form([Identifier(head)] + args)
  }

  /** The arguments of a form evaluate, left to right, exactly when each one does. */
  lemma {:induction false} EvalSeqElementwise(ns: seq<Node>, env: Env, f: nat, vs: seq<Value>)
    ensures EvalSeq(ns, env, f) == Ok(vs) <==>
              |vs| == |ns| && forall i :: 0 <= i < |ns| ==> Eval(ns[i], env, f) == Ok(vs[i])
    decreases |ns|
  {
    if ns != [] {
      if vs != [] {
        EvalSeqElementwise(ns[1..], env, f, vs[1..]);
        assert [vs[0]] + vs[1..] == vs;
        if |vs| == |ns| && forall i :: 0 <= i < |ns| ==> Eval(ns[i], env, f) == Ok(vs[i]) {
          assert forall i :: 0 <= i < |ns| - 1 ==> Eval(ns[1..][i], env, f) == Ok(vs[1..][i]) by {
            forall i | 0 <= i < |ns| - 1 ensures Eval(ns[1..][i], env, f) == Ok(vs[1..][i]) {
              assert ns[1..][i] == ns[i + 1] && vs[1..][i] == vs[i + 1];
            }
          }
        }
      } else {
        assert EvalSeq(ns, env, f) != Ok(vs) by {
          match EvalSeq(ns, env, f)
          case Err(_) =>
          case Ok(ws) => EvalSeqLength(ns, env, f);
        }
      }
    }
  }

  lemma {:induction false} EvalSeqLength(ns: seq<Node>, env: Env, f: nat)
    ensures EvalSeq(ns, env, f).Ok? ==> |EvalSeq(ns, env, f).value| == |ns|
    decreases |ns|
  {
    if ns != [] {
      EvalSeqLength(ns[1..], env, f);
    }
  }

  /** When an argument fails, the first one that fails decides the failure. */
  lemma {:induction false} EvalSeqFirstFailure(ns: seq<Node>, env: Env, f: nat, k: nat, e: Error)
    requires k < |ns| && Eval(ns[k], env, f) == Err(e)
    requires forall i :: 0 <= i < k ==> Eval(ns[i], env, f).Ok?
    ensures EvalSeq(ns, env, f) == Err(e)
    decreases k
  {
    if k > 0 {
      assert ns[1..][k - 1] == ns[k];
      EvalSeqFirstFailure(ns[1..], env, f, k - 1, e);
    }
  }

  /** The empty form evaluates to the distinguished empty value. */
  lemma EmptyFormIsEmpty(env: Env, f: nat)
    ensures Eval(Form([]), env, f + 1) == Ok(Empty)
  {
  }

  /** A name no frame binds evaluates to Absent rather than failing. */
  lemma UnboundIsAbsent(x: string, env: Env, f: nat)
    requires forall j :: 0 <= j < |env| ==> x !in env[j]
    ensures Eval(Identifier(x), env, f + 1) == Ok(Absent)
  {
    LookupUnbound(env, x);
  }

  /** `(list e1 ... en)` is the list of the values of its arguments, in order; `(list)` is the empty list, not the empty value. */
  lemma ListEvaluatesInOrder(ns: seq<Node>, env: Env, f: nat, vs: seq<Value>)
    requires |vs| == |ns| && forall i :: 0 <= i < |ns| ==> Eval(ns[i], env, f) == Ok(vs[i])
    ensures Eval(Call("list", ns), env, f + 1) == Ok(List(vs))
    ensures Eval(Call("list", []), env, f + 1) == Ok(List([])) != Ok(Empty)
  {
    EvalSeqElementwise(ns, env, f, vs);
    assert Call("list", ns).children[1..] == ns;
    assert Call("list", []).children[1..] == [];
    assert EvalSeq([], env, f) == Ok([]);
    assert Eval(Call("list", []), env, f + 1) == EvalSpecial("list", [], env, f);
  }

  /** `first` and `rest` take a non-empty list apart and fail on anything else. */
  lemma FirstAndRest(e: Node, env: Env, f: nat, v: Value)
    requires Eval(e, env, f) == Ok(v)
    ensures Eval(Call("first", [e]), env, f + 1) ==
              if !v.List? then Err(NotAList) else if v.items == [] then Err(EmptyList) else Ok(v.items[0])
    ensures Eval(Call("rest", [e]), env, f + 1) ==
              if !v.List? then Err(NotAList) else if v.items == [] then Err(EmptyList) else Ok(List(v.items[1..]))
  {
    assert Call("first", [e]).children[1..] == [e];
    assert Call("rest", [e]).children[1..] == [e];
    assert Eval(Call("first", [e]), env, f + 1) == EvalSpecial("first", [e], env, f);
    assert Eval(Call("rest", [e]), env, f + 1) == EvalSpecial("rest", [e], env, f);
  }

  /** `print` returns the value of its argument unchanged. */
  lemma PrintIsTransparent(e: Node, env: Env, f: nat)
    ensures Eval(Call("print", [e]), env, f + 1) == Eval(e, env, f)
  {
    assert Call("print", [e]).children[1..] == [e];
  }

  /**
   * A form whose head is not a special form and whose operator's value is
   * not callable: with no arguments it is that value, with arguments that
   * evaluate it fails as not callable.
   */
  lemma NonCallableOperator(op: Node, args: seq<Node>, env: Env, f: nat, v: Value, vs: seq<Value>)
    requires !IsSpecialHead(op)
    requires Eval(op, env, f) == Ok(v) && !v.Closure? && !v.Builtin?
    requires |vs| == |args| && forall i :: 0 <= i < |args| ==> Eval(args[i], env, f) == Ok(vs[i])
    ensures Eval(Form([op] + args), env, f + 1) == if args == [] then Ok(v) else Err(NotCallable)
  {
    EvalSeqElementwise(args, env, f, vs);
    assert (Form([op] + args)).children[0] == op;
    assert (Form([op] + args)).children[1..] == args;
    assert Eval(Form([op] + args), env, f + 1) == Apply(v, vs, f);
  }

  /** Parenthesising an expression whose value is not callable changes nothing, failures included. */
  lemma DegenerateApplication(op: Node, env: Env, f: nat)
    requires !IsSpecialHead(op)
    requires Eval(op, env, f).Ok? ==> !Eval(op, env, f).value.Closure? && !Eval(op, env, f).value.Builtin?
    ensures Eval(Form([op]), env, f + 1) == Eval(op, env, f)
  {
    assert Form([op]).children[1..] == [];
    assert Eval(Form([op]), env, f + 1) == EvalApplication(op, [], env, f);
    assert EvalSeq([], env, f) == Ok([]);
    match Eval(op, env, f)
    case Err(_) =>
    case Ok(v) => assert Apply(v, [], f) == Ok(v);
  }

  /** `lambda` evaluates nothing and captures the environment it is evaluated in. */
  lemma LambdaCaptures(params: seq<string>, body: Node, env: Env, f: nat)
    ensures Eval(Call("lambda", [Form(Identifiers(params)), body]), env, f + 1) == Ok(Closure(params, body, env))
  {
    var form := Call("lambda", [Form(Identifiers(params)), body]);
    assert form.children[1..] == [Form(Identifiers(params)), body];
    assert ParamNames(Form(Identifiers(params))) == params;
    assert Eval(form, env, f + 1) == EvalSpecial("lambda", [Form(Identifiers(params)), body], env, f);
  }

  function Identifiers(names: seq<string>): (ns: seq<Node>)
    ensures |ns| == |names| && forall i :: 0 <= i < |names| ==> ns[i] == Identifier(names[i])
  {
    seq(|names|, i requires 0 <= i < |names| => Identifier(names[i]))
  }

  /**
   * Calling a closure: the arguments are bound positionally in a new frame
   * chained to the captured environment, and the body's value is the result;
   * a wrong argument count or a repeated parameter fails.
   */
  lemma ClosureCall(op: Node, args: seq<Node>, env: Env, f: nat, params: seq<string>, body: Node, captured: Env, vs: seq<Value>)
    requires !IsSpecialHead(op)
    requires Eval(op, env, f) == Ok(Closure(params, body, captured))
    requires |vs| == |args| && forall i :: 0 <= i < |args| ==> Eval(args[i], env, f) == Ok(vs[i])
    ensures |params| != |vs| ==> Eval(Form([op] + args), env, f + 1) == Err(ArityMismatch)
    ensures |params| == |vs| && !Distinct(params) ==> Eval(Form([op] + args), env, f + 1) == Err(DuplicateBinding)
    ensures |params| == |vs| && Distinct(params) ==>
              Eval(Form([op] + args), env, f + 1) == Eval(body, Extend(captured, BindFrame(params, vs).value), f)
  {
    EvalSeqElementwise(args, env, f, vs);
    assert (Form([op] + args)).children[0] == op;
    assert (Form([op] + args)).children[1..] == args;
    assert Eval(Form([op] + args), env, f + 1) == Apply(Closure(params, body, captured), vs, f);
  }

  /** A lambda form with the given parameter names. */
  function Lambda(params: seq<string>, body: Node): Node
  {
    Call("lambda", [Form(Identifiers(params)), body])
  }

  /**
   * A lambda applied where it is written: the arguments are evaluated in the
   * caller's environment and the body runs in that environment extended with
   * one frame binding the parameters.
   */
  lemma ImmediateLambda(params: seq<string>, body: Node, args: seq<Node>, env: Env, f: nat, vs: seq<Value>)
    requires f >= 1
    requires |vs| == |args| && forall i :: 0 <= i < |args| ==> Eval(args[i], env, f) == Ok(vs[i])
    ensures |params| != |vs| ==> Eval(Form([Lambda(params, body)] + args), env, f + 1) == Err(ArityMismatch)
    ensures |params| == |vs| && !Distinct(params) ==> Eval(Form([Lambda(params, body)] + args), env, f + 1) == Err(DuplicateBinding)
    ensures |params| == |vs| && Distinct(params) ==>
              Eval(Form([Lambda(params, body)] + args), env, f + 1) == Eval(body, Extend(env, BindFrame(params, vs).value), f)
  {
    LambdaCaptures(params, body, env, f - 1);
    ClosureCall(Lambda(params, body), args, env, f, params, body, env, vs);
  }

  /**
   * An inner closure sees the parameters of the call it was created in:
   * `((lambda (a) ((lambda (b) (list a a b b)) y)) x)` lists the value of `x`
   * twice and then the value of `y` twice, where `y` is evaluated inside the
   * outer call and so may itself name `a`.
   */
  lemma NestedClosures(a: string, b: string, x: Node, y: Node, env: Env, f: nat, u: Value, w: Value)
    requires a != b && f >= 2
    requires Eval(x, env, f + 1) == Ok(u)
    requires Eval(y, Extend(env, map[a := u]), f) == Ok(w)
    ensures Eval(Form([Lambda([a], Form([Lambda([b], Call("list", [Identifier(a), Identifier(a), Identifier(b), Identifier(b)])), y])), x]), env, f + 2)
            == Ok(List([u, u, w, w]))
  {
    var inner := Call("list", [Identifier(a), Identifier(a), Identifier(b), Identifier(b)]);
    var outerBody := Form([Lambda([b], inner), y]);
    ImmediateLambda([a], outerBody, [x], env, f + 1, [u]);
    assert Form([Lambda([a], outerBody)] + [x]) == Form([Lambda([a], outerBody), x]);
    CallFrameScoping([a], [u], env, a);
    assert BindFrame([a], [u]).value == map[a := u];
    InnerClosureSeesOuter(a, b, y, Extend(env, BindFrame([a], [u]).value), f, u, w);
  }

  /**
   * The inner argument may read the outer parameter:
   * `((lambda (a) ((lambda (b) (list a a b b)) a)) x)` lists the value of `x` four times.
   */
  lemma InnerArgumentReadsOuter(a: string, b: string, x: Node, env: Env, f: nat, u: Value)
    requires a != b && f >= 2
    requires Eval(x, env, f + 1) == Ok(u)
    ensures Eval(Form([Lambda([a], Form([Lambda([b], Call("list", [Identifier(a), Identifier(a), Identifier(b), Identifier(b)])), Identifier(a)])), x]), env, f + 2)
            == Ok(List([u, u, u, u]))
  {
    LookupExtend(env, map[a := u], a);
    NestedClosures(a, b, x, Identifier(a), env, f, u, u);
  }

  /** The inner call of `NestedClosures`, in an environment where `a` is bound to `u`. */
  lemma InnerClosureSeesOuter(a: string, b: string, y: Node, env: Env, f: nat, u: Value, w: Value)
    requires a != b && f >= 2 && Lookup(env, a) == u
    requires Eval(y, env, f) == Ok(w)
    ensures Eval(Form([Lambda([b], Call("list", [Identifier(a), Identifier(a), Identifier(b), Identifier(b)])), y]), env, f + 1)
            == Ok(List([u, u, w, w]))
  {
    var inner := Call("list", [Identifier(a), Identifier(a), Identifier(b), Identifier(b)]);
    ImmediateLambda([b], inner, [y], env, f, [w]);
    assert Form([Lambda([b], inner)] + [y]) == Form([Lambda([b], inner), y]);
    ListOfOuterAndParam(a, b, env, f - 1, u, w);
  }

  /** `(list a a b b)` in a call frame binding `b` to `w`, over an environment binding `a` to `u`. */
  lemma ListOfOuterAndParam(a: string, b: string, env: Env, f: nat, u: Value, w: Value)
    requires a != b && f >= 1 && Lookup(env, a) == u
    ensures Eval(Call("list", [Identifier(a), Identifier(a), Identifier(b), Identifier(b)]), Extend(env, BindFrame([b], [w]).value), f + 1)
            == Ok(List([u, u, w, w]))
  {
    var env2 := Extend(env, BindFrame([b], [w]).value);
    CallFrameScoping([b], [w], env, a);
    ListEvaluatesInOrder([Identifier(a), Identifier(a), Identifier(b), Identifier(b)], env2, f, [u, u, w, w]);
  }

  /**
   * Inside a call, each parameter names its own argument and every other
   * name resolves in the captured environment, not the caller's.
   */
  lemma CallFrameScoping(params: seq<string>, vs: seq<Value>, captured: Env, x: string)
    requires BindFrame(params, vs).Ok?
    ensures forall i :: 0 <= i < |params| ==> Lookup(Extend(captured, BindFrame(params, vs).value), params[i]) == vs[i]
    ensures x !in params ==> Lookup(Extend(captured, BindFrame(params, vs).value), x) == Lookup(captured, x)
  {
    var frame := BindFrame(params, vs).value;
    forall i | 0 <= i < |params| ensures Lookup(Extend(captured, frame), params[i]) == vs[i] {
      LookupExtend(captured, frame, params[i]);
    }
    LookupExtend(captured, frame, x);
  }

  /**
   * `let` evaluates every initialiser in the environment before the `let`,
   * binds all names at once in one new frame and evaluates the body there.
   */
  lemma LetBindsInParallel(bindings: seq<Node>, body: Node, env: Env, f: nat, vs: seq<Value>)
    requires |vs| == |bindings|
    requires forall i :: 0 <= i < |bindings| ==>
               IsBinding(bindings[i]) && Eval(bindings[i].children[1], env, f) == Ok(vs[i])
    ensures BindFrame(BoundNames(Form(bindings)), vs).Ok? ==>
              Eval(Call("let", [Form(bindings), body]), env, f + 1) ==
              Eval(body, Extend(env, BindFrame(BoundNames(Form(bindings)), vs).value), f)
    ensures BindFrame(BoundNames(Form(bindings)), vs).Err? ==>
              Eval(Call("let", [Form(bindings), body]), env, f + 1) == Err(DuplicateBinding)
  {
    SpecialFormUnfolds("let", [Form(bindings), body], env, f);
    EvalSeqElementwise(Initialisers(Form(bindings)), env, f, vs);
    LetWithValues(Form(bindings), body, env, f, vs);
  }

  /** A form headed by a special-form name evaluates by that form's rule. */
  lemma SpecialFormUnfolds(head: string, args: seq<Node>, env: Env, f: nat)
    requires head in SpecialForms
    ensures Eval(Call(head, args), env, f + 1) == EvalSpecial(head, args, env, f)
  {
    assert Call(head, args).children[0] == Identifier(head);
    assert Call(head, args).children[1..] == args;
  }

  /** The `let` rule once the initialisers have evaluated to `vs`. */
  lemma LetWithValues(bl: Node, body: Node, env: Env, f: nat, vs: seq<Value>)
    requires IsBindingList(bl) && EvalSeq(Initialisers(bl), env, f) == Ok(vs)
    ensures BindFrame(BoundNames(bl), vs).Ok? ==>
              EvalSpecial("let", [bl, body], env, f) == Eval(body, Extend(env, BindFrame(BoundNames(bl), vs).value), f)
    ensures BindFrame(BoundNames(bl), vs).Err? ==>
              EvalSpecial("let", [bl, body], env, f) == Err(BindFrame(BoundNames(bl), vs).error)
  {
    var args := [bl, body];
    assert args[0] == bl && args[1] == body;
  }

  /** `(let () body)` evaluates the body in a fresh, empty child frame. */
  lemma LetWithoutBindings(body: Node, env: Env, f: nat)
    ensures Eval(Call("let", [Form([]), body]), env, f + 1) == Eval(body, Extend(env, map[]), f)
  {
    LetBindsInParallel([], body, env, f, []);
  }

  /**
   * A later binding does not see an earlier one: in
   * `(let ((x e) (y x)) (list x y))` the `x` that `y` is bound to is the `x`
   * of the enclosing environment, Absent when nothing binds it.
   */
  lemma LetDoesNotExposeBindings(x: string, y: string, e: Node, env: Env, f: nat, v: Value)
    requires x != y
    requires f >= 2 && Eval(e, env, f) == Ok(v)
    ensures Eval(Call("let", [Form([Form([Identifier(x), e]), Form([Identifier(y), Identifier(x)])]),
                             Call("list", [Identifier(x), Identifier(y)])]), env, f + 1)
            == Ok(List([v, Lookup(env, x)]))
  {
    TwoBindings(x, y, e, Identifier(x));
    assert Eval(Identifier(x), env, f) == Ok(Lookup(env, x));
    LetListsItsNames(Form([Form([Identifier(x), e]), Form([Identifier(y), Identifier(x)])]),
                     x, y, e, Identifier(x), env, f, v, Lookup(env, x));
  }

  /** `(let bl (list x y))` where `bl` binds `x` to `a` and `y` to `b`. */
  lemma LetListsItsNames(bl: Node, x: string, y: string, a: Node, b: Node, env: Env, f: nat, va: Value, vb: Value)
    requires x != y && f >= 2
    requires IsBindingList(bl) && BoundNames(bl) == [x, y] && Initialisers(bl) == [a, b]
    requires Eval(a, env, f) == Ok(va) && Eval(b, env, f) == Ok(vb)
    ensures Eval(Call("let", [bl, Call("list", [Identifier(x), Identifier(y)])]), env, f + 1) == Ok(List([va, vb]))
  {
    var vs := [va, vb];
    assert EvalSeq(Initialisers(bl), env, f) == Ok(vs) by {
      EvalSeqElementwise([a, b], env, f, vs);
    }
    LetStep(bl, Call("list", [Identifier(x), Identifier(y)]), env, f, vs);
    ListOfBoundPair(x, y, env, f - 1, va, vb);
  }

  /** `(list x y)` in the frame that binds `x` and `y` to `va` and `vb`. */
  lemma ListOfBoundPair(x: string, y: string, env: Env, f: nat, va: Value, vb: Value)
    requires x != y && f >= 1
    ensures Eval(Call("list", [Identifier(x), Identifier(y)]), Extend(env, BindFrame([x, y], [va, vb]).value), f + 1)
            == Ok(List([va, vb]))
  {
    var frame := BindFrame([x, y], [va, vb]).value;
    CallFrameScoping([x, y], [va, vb], env, x);
    ListOfTwoNames(x, y, Extend(env, frame), f, va, vb);
  }

  /** A `let` whose initialisers evaluate to `vs` and whose names are distinct runs its body in the new frame. */
  lemma LetStep(bl: Node, body: Node, env: Env, f: nat, vs: seq<Value>)
    requires IsBindingList(bl) && EvalSeq(Initialisers(bl), env, f) == Ok(vs)
    requires BindFrame(BoundNames(bl), vs).Ok?
    ensures Eval(Call("let", [bl, body]), env, f + 1) == Eval(body, Extend(env, BindFrame(BoundNames(bl), vs).value), f)
  {
    SpecialFormUnfolds("let", [bl, body], env, f);
    LetWithValues(bl, body, env, f, vs);
  }

  /** `(list x y)` lists the values bound to `x` and `y`. */
  lemma ListOfTwoNames(x: string, y: string, env: Env, f: nat, va: Value, vb: Value)
    requires f >= 1 && Lookup(env, x) == va && Lookup(env, y) == vb
    ensures Eval(Call("list", [Identifier(x), Identifier(y)]), env, f + 1) == Ok(List([va, vb]))
  {
    ListEvaluatesInOrder([Identifier(x), Identifier(y)], env, f, [va, vb]);
  }

  /** The names and initialisers of a two-binding list `((x a) (y b))`. */
  lemma TwoBindings(x: string, y: string, a: Node, b: Node)
    ensures IsBindingList(Form([Form([Identifier(x), a]), Form([Identifier(y), b])]))
    ensures BoundNames(Form([Form([Identifier(x), a]), Form([Identifier(y), b])])) == [x, y]
    ensures Initialisers(Form([Form([Identifier(x), a]), Form([Identifier(y), b])])) == [a, b]
  {
  }

  /** `if` evaluates the condition, then exactly one branch: the else branch when the condition is 0. */
  lemma IfChoosesOneBranch(c: Node, t: Node, e: Node, env: Env, f: nat, v: Value)
    requires Eval(c, env, f) == Ok(v)
    ensures Eval(Call("if", [c, t, e]), env, f + 1) == if v == Num(0) then Eval(e, env, f) else Eval(t, env, f)
  {
    assert Call("if", [c, t, e]).children[1..] == [c, t, e];
  }

  /** The branch `if` does not take is never evaluated: replacing it changes nothing. */
  lemma IfIgnoresUntakenBranch(c: Node, t: Node, e: Node, other: Node, env: Env, f: nat, v: Value)
    requires Eval(c, env, f) == Ok(v)
    ensures v == Num(0) ==> Eval(Call("if", [c, t, e]), env, f + 1) == Eval(Call("if", [c, other, e]), env, f + 1)
    ensures v != Num(0) ==> Eval(Call("if", [c, t, e]), env, f + 1) == Eval(Call("if", [c, t, other]), env, f + 1)
  {
    IfChoosesOneBranch(c, t, e, env, f, v);
    IfChoosesOneBranch(c, other, e, env, f, v);
    IfChoosesOneBranch(c, t, other, env, f, v);
  }

  /** A quote yields the node it wraps, unevaluated, and so does the degenerate form around it. */
  lemma QuoteHoldsForm(n: Node, env: Env, f: nat)
    ensures Eval(Quote(n), env, f + 1) == Ok(QuotedForm(n))
    ensures Eval(Form([Quote(n)]), env, f + 2) == Ok(QuotedForm(n))
  {
    DegenerateApplication(Quote(n), env, f + 1);
  }

  /**
   * `eval` runs quoted code in the current environment, turns a list into a
   * form and runs that, and returns any other value unchanged.
   */
  lemma EvalForm(e: Node, env: Env, f: nat, v: Value)
    requires Eval(e, env, f) == Ok(v)
    ensures v.QuotedForm? ==> Eval(Call("eval", [e]), env, f + 1) == Eval(v.node, env, f)
    ensures v.List? ==> Eval(Call("eval", [e]), env, f + 1) == Eval(Form(AllAsCode(v.items)), env, f)
    ensures !v.QuotedForm? && !v.List? ==> Eval(Call("eval", [e]), env, f + 1) == Ok(v)
  {
    assert Call("eval", [e]).children[1..] == [e];
  }

  /**
   * Evaluating a quoted expression is evaluating the expression, whether the
   * quote stands alone or is written `(' n)`.
   */
  lemma EvalOfQuote(n: Node, env: Env, f: nat)
    requires f >= 2
    ensures Eval(Call("eval", [Quote(n)]), env, f + 1) == Eval(n, env, f)
    ensures Eval(Call("eval", [Form([Quote(n)])]), env, f + 1) == Eval(n, env, f)
  {
    EvalForm(Quote(n), env, f, QuotedForm(n));
    QuoteHoldsForm(n, env, f - 2);
    EvalForm(Form([Quote(n)]), env, f, QuotedForm(n));
  }

  /** `(eval (' x))` written around an expression. */
  function EvalQuoted(n: Node): Node
  {
    Call("eval", [Form([Quote(n)])])
  }

  /**
   * Quoting and evaluating back and forth changes nothing:
   * `(eval (' (eval (' n))))` has the value of `n`.
   */
  lemma QuoteEvalRoundTrip(n: Node, env: Env, f: nat)
    requires f >= 2 && Eval(n, env, f) != Err(StackOverflow)
    ensures Eval(EvalQuoted(EvalQuoted(n)), env, f + 2) == Eval(n, env, f)
  {
    EvalOfQuote(EvalQuoted(n), env, f + 1);
    EvalOfQuote(n, env, f);
    EvalMonotone(n, env, f, f + 1);
  }

  /** Applying a host primitive: the arguments are evaluated, then the primitive computes the result. */
  lemma BuiltinCall(op: Node, args: seq<Node>, env: Env, f: nat, p: Primitive, vs: seq<Value>)
    requires !IsSpecialHead(op)
    requires Eval(op, env, f) == Ok(Builtin(p))
    requires |vs| == |args| && forall i :: 0 <= i < |args| ==> Eval(args[i], env, f) == Ok(vs[i])
    ensures Eval(Form([op] + args), env, f + 1) == ApplyPrimitive(p, vs)
  {
    EvalSeqElementwise(args, env, f, vs);
    assert (Form([op] + args)).children[0] == op;
    assert (Form([op] + args)).children[1..] == args;
    assert Eval(Form([op] + args), env, f + 1) == Apply(Builtin(p), vs, f);
  }

  /** With `+` bound to the host's addition, `(+ x y)` adds the values of `x` and `y`, and fails on anything but numbers. */
  lemma HostAddition(x: Node, y: Node, env: Env, f: nat, u: Value, w: Value)
    requires Lookup(env, "+") == Builtin(Plus)
    requires f >= 1 && Eval(x, env, f) == Ok(u) && Eval(y, env, f) == Ok(w)
    ensures u.Num? && w.Num? ==> Eval(Call("+", [x, y]), env, f + 1) == Ok(Num(u.n + w.n))
    ensures !(u.Num? && w.Num?) ==> Eval(Call("+", [x, y]), env, f + 1) == Err(TypeMismatch)
  {
    BuiltinCall(Identifier("+"), [x, y], env, f, Plus, [u, w]);
  }

  /** `(eval ('(+ a b)))`: quoted code that calls a host binding runs when evaluated. */
  lemma EvalQuotedSum(a: int, b: int, env: Env, f: nat)
    requires Lookup(env, "+") == Builtin(Plus)
    ensures Eval(EvalQuoted(Call("+", [Number(a), Number(b)])), env, f + 3) == Ok(Num(a + b))
  {
    EvalOfQuote(Call("+", [Number(a), Number(b)]), env, f + 2);
    HostAddition(Number(a), Number(b), env, f + 1, Num(a), Num(b));
  }

  /**
   * `eval` of a list runs the list as a form: a quoted part stands for its
   * code and any other value for itself, so `(eval (list (' +) (' a) (' b)))`
   * and `(eval (list (' +) a b))` both add.
   */
  lemma EvalListOfQuotedParts(a: int, b: int, env: Env, f: nat)
    requires Lookup(env, "+") == Builtin(Plus)
    ensures Eval(Call("eval", [Call("list", [Form([Quote(Identifier("+"))]), Form([Quote(Number(a))]), Form([Quote(Number(b))])])]), env, f + 4)
            == Ok(Num(a + b))
    ensures Eval(Call("eval", [Call("list", [Form([Quote(Identifier("+"))]), Number(a), Number(b)])]), env, f + 4)
            == Ok(Num(a + b))
  {
    EvalListOfQuotedCode(a, b, env, f);
    EvalListOfMixedParts(a, b, env, f);
  }

  /** `(eval (list p1 .. pn))` runs the code the parts' values stand for. */
  lemma EvalOfList(parts: seq<Node>, vs: seq<Value>, env: Env, f: nat)
    requires |vs| == |parts| && forall i :: 0 <= i < |parts| ==> Eval(parts[i], env, f) == Ok(vs[i])
    ensures Eval(Call("eval", [Call("list", parts)]), env, f + 2) == Eval(Form(AllAsCode(vs)), env, f + 1)
  {
    ListEvaluatesInOrder(parts, env, f, vs);
    EvalForm(Call("list", parts), env, f + 1, List(vs));
  }

  /** `(eval (list (' +) (' a) (' b)))`: every part is quoted code. */
  lemma EvalListOfQuotedCode(a: int, b: int, env: Env, f: nat)
    requires Lookup(env, "+") == Builtin(Plus)
    ensures Eval(Call("eval", [Call("list", [Form([Quote(Identifier("+"))]), Form([Quote(Number(a))]), Form([Quote(Number(b))])])]), env, f + 4)
            == Ok(Num(a + b))
  {
    QuoteHoldsForm(Identifier("+"), env, f);
    QuoteHoldsForm(Number(a), env, f);
    QuoteHoldsForm(Number(b), env, f);
    var vs := [QuotedForm(Identifier("+")), QuotedForm(Number(a)), QuotedForm(Number(b))];
    EvalOfList([Form([Quote(Identifier("+"))]), Form([Quote(Number(a))]), Form([Quote(Number(b))])], vs, env, f + 2);
    SumOfQuotedCode(a, b, env, f);
  }

  /** The form `eval` builds from a quoted `+` and two quoted numbers adds them. */
  lemma SumOfQuotedCode(a: int, b: int, env: Env, f: nat)
    requires Lookup(env, "+") == Builtin(Plus)
    ensures Eval(Form(AllAsCode([QuotedForm(Identifier("+")), QuotedForm(Number(a)), QuotedForm(Number(b))])), env, f + 3) == Ok(Num(a + b))
  {
    assert AllAsCode([QuotedForm(Identifier("+")), QuotedForm(Number(a)), QuotedForm(Number(b))]) == [Identifier("+"), Number(a), Number(b)];
    HostAddition(Number(a), Number(b), env, f + 2, Num(a), Num(b));
    assert Call("+", [Number(a), Number(b)]) == Form([Identifier("+"), Number(a), Number(b)]);
  }

  /** `(eval (list (' +) a b))`: numbers stand for themselves. */
  lemma EvalListOfMixedParts(a: int, b: int, env: Env, f: nat)
    requires Lookup(env, "+") == Builtin(Plus)
    ensures Eval(Call("eval", [Call("list", [Form([Quote(Identifier("+"))]), Number(a), Number(b)])]), env, f + 4)
            == Ok(Num(a + b))
  {
    QuoteHoldsForm(Identifier("+"), env, f);
    var ws := [QuotedForm(Identifier("+")), Num(a), Num(b)];
    EvalOfList([Form([Quote(Identifier("+"))]), Number(a), Number(b)], ws, env, f + 2);
    SumOfValues(a, b, env, f);
  }

  /** The form `eval` builds from a quoted `+` and two numbers adds them. */
  lemma SumOfValues(a: int, b: int, env: Env, f: nat)
    requires Lookup(env, "+") == Builtin(Plus)
    ensures Eval(Form(AllAsCode([QuotedForm(Identifier("+")), Num(a), Num(b)])), env, f + 3) == Ok(Num(a + b))
  {
    assert AllAsCode([QuotedForm(Identifier("+")), Num(a), Num(b)]) == [Identifier("+"), Literal(Num(a)), Literal(Num(b))];
    HostAddition(Literal(Num(a)), Literal(Num(b)), env, f + 2, Num(a), Num(b));
    assert Call("+", [Literal(Num(a)), Literal(Num(b))]) == Form([Identifier("+"), Literal(Num(a)), Literal(Num(b))]);
  }

  /** On data that is not code, `eval` is the identity, so repeating it changes nothing. */
  lemma EvalIdempotentOnData(e: Node, env: Env, f: nat, v: Value)
    requires Eval(e, env, f) == Ok(v) && !v.QuotedForm? && !v.List?
    ensures Eval(Call("eval", [e]), env, f + 1) == Ok(v)
    ensures Eval(Call("eval", [Call("eval", [e])]), env, f + 2) == Ok(v)
  {
    EvalForm(e, env, f, v);
    EvalForm(Call("eval", [e]), env, f + 1, v);
  }
}
