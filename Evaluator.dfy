/**
 * The tree-walking evaluator.  Leaves evaluate to their values, identifiers
 * are looked up, a quote yields its node as data, and a form is either a
 * special form, recognised by the identifier at its head, or an application:
 * operator and arguments are evaluated left to right and the operator's
 * value is applied.
 *
 * `fuel` bounds the depth of nested evaluation, as the host's call stack
 * does: a program that nests deeper fails with StackOverflow.
 */
module Evaluator {
  import opened Wrappers
  import opened Ast
  import opened Environment

  /**
   * Evaluation fails only with a runtime error, and a leaf never fails once
   * there is depth left.
   */
  function Eval(n: Node, env: Env, fuel: nat): (r: Result<Value>)
    ensures r.Err? ==> Runtime(r.error)
    ensures fuel > 0 && !n.Form? ==> r.Ok?
    decreases fuel, 0, 0
  {
    if fuel == 0 then Err(StackOverflow)
    else match n
      case Number(k) => Ok(Num(k))
      case Str(s) => Ok(Text(s))
      case Identifier(x) => Ok(Lookup(env, x))
      case Quote(inner) => Ok(QuotedForm(inner))
      case Literal(v) => Ok(v)
      case Form(cs) =>
        if cs == [] then Ok(Empty)
        else if IsSpecialHead(cs[0]) then EvalSpecial(cs[0].name, cs[1..], env, fuel - 1)
        else EvalApplication(cs[0], cs[1..], env, fuel - 1)
  }

  /** Evaluates nodes left to right, one value per node; the first failure is the result. */
  function EvalSeq(ns: seq<Node>, env: Env, fuel: nat): (r: Result<seq<Value>>)
    ensures r.Ok? ==> |r.value| == |ns|
    ensures r.Err? ==> Runtime(r.error)
    decreases fuel, 1, |ns|
  {
    if ns == [] then Ok([])
    else
      match Eval(ns[0], env, fuel)
      case Err(e) => Err(e)
      case Ok(v) =>
        match EvalSeq(ns[1..], env, fuel)
        case Err(e) => Err(e)
        case Ok(vs) => Ok([v] + vs)
  }

  /** The operator is evaluated before the arguments, so its failure is the result. */
  function EvalApplication(op: Node, args: seq<Node>, env: Env, fuel: nat): (r: Result<Value>)
    ensures Eval(op, env, fuel).Err? ==> r == Eval(op, env, fuel)
    ensures r.Err? ==> Runtime(r.error)
    decreases fuel, 2, 0
  {
    match Eval(op, env, fuel)
    case Err(e) => Err(e)
    case Ok(f) =>
      match EvalSeq(args, env, fuel)
      case Err(e) => Err(e)
      case Ok(vs) => Apply(f, vs, fuel)
  }

  /**
   * A closure runs its body in a new frame, chained to the environment it
   * captured, that binds its parameters to the arguments; a host primitive
   * computes its result; anything else applied to no arguments is its own
   * value, and applied to arguments is not callable.
   */
  function Apply(f: Value, args: seq<Value>, fuel: nat): (r: Result<Value>)
    ensures !f.Closure? && !f.Builtin? ==> (r.Ok? <==> args == [])
    ensures f.Closure? && |f.params| != |args| ==> r == Err(ArityMismatch)
    ensures r.Err? ==> Runtime(r.error)
    decreases fuel, 1, 0
  {
    match f
    case Closure(params, body, captured) =>
      (match BindFrame(params, args)
       case Err(e) => Err(e)
       case Ok(frame) => Eval(body, Extend(captured, frame), fuel))
    case Builtin(p) => ApplyPrimitive(p, args)
    case _ => if args == [] then Ok(f) else Err(NotCallable)
  }

  /** `+` adds two numbers. */
  function ApplyPrimitive(p: Primitive, args: seq<Value>): (r: Result<Value>)
    ensures r.Ok? <==> |args| == 2 && args[0].Num? && args[1].Num?
    ensures r.Ok? ==> r.value == Num(args[0].n + args[1].n)
  {
    match p
    case Plus =>
      if |args| == 2 && args[0].Num? && args[1].Num? then Ok(Num(args[0].n + args[1].n))
      else Err(TypeMismatch)
  }

  /** The parameter list of a lambda: a form of identifiers. */
  predicate IsParamList(n: Node)
  {
    n.Form? && forall i :: 0 <= i < |n.children| ==> n.children[i].Identifier?
  }

  function ParamNames(n: Node): seq<string>
    requires IsParamList(n)
  {
    seq(|n.children|, i requires 0 <= i < |n.children| => n.children[i].name)
  }

  /** The binding list of a let: a form of two-element forms headed by an identifier. */
  predicate IsBindingList(n: Node)
  {
    n.Form? && forall i :: 0 <= i < |n.children| ==> IsBinding(n.children[i])
  }

  predicate IsBinding(b: Node)
  {
    b.Form? && |b.children| == 2 && b.children[0].Identifier?
  }

  function BoundNames(n: Node): seq<string>
    requires IsBindingList(n)
  {
    seq(|n.children|, i requires 0 <= i < |n.children| => n.children[i].children[0].name)
  }

  function Initialisers(n: Node): seq<Node>
    requires IsBindingList(n)
  {
    seq(|n.children|, i requires 0 <= i < |n.children| => n.children[i].children[1])
  }

  /** The code a runtime value stands for inside a form synthesised by `eval`. */
  function AsCode(v: Value): Node
  {
    if v.QuotedForm? then v.node else Literal(v)
  }

  function AllAsCode(vs: seq<Value>): seq<Node>
  {
    seq(|vs|, i requires 0 <= i < |vs| => AsCode(vs[i]))
  }

  /** Only the number zero counts as false for `if`. */
  predicate IsFalse(v: Value)
  {
    v == Num(0)
  }

  /**
   * The special forms; `args` are the unevaluated nodes after the head.  A
   * form of the wrong shape fails as malformed, and `lambda` succeeds exactly
   * when its shape is right.
   */
  function EvalSpecial(head: string, args: seq<Node>, env: Env, fuel: nat): (r: Result<Value>)
    requires head in SpecialForms
    ensures head in {"first", "rest", "print", "eval"} && |args| != 1 ==> r == Err(MalformedForm)
    ensures head == "if" && |args| != 3 ==> r == Err(MalformedForm)
    ensures head == "let" && !(|args| == 2 && IsBindingList(args[0])) ==> r == Err(MalformedForm)
    ensures head == "lambda" ==> (r.Ok? <==> |args| == 2 && IsParamList(args[0]))
    ensures r.Err? ==> Runtime(r.error)
    decreases fuel, 2, 0
  {
    if head == "list" then
      match EvalSeq(args, env, fuel)
      case Err(e) => Err(e)
      case Ok(vs) => Ok(List(vs))
    else if head == "first" || head == "rest" then
      if |args| != 1 then Err(MalformedForm)
      else
        match Eval(args[0], env, fuel)
        case Err(e) => Err(e)
        case Ok(v) =>
          if !v.List? then Err(NotAList)
          else if v.items == [] then Err(EmptyList)
          else if head == "first" then Ok(v.items[0])
          else Ok(List(v.items[1..]))
    else if head == "print" then
      if |args| != 1 then Err(MalformedForm) else Eval(args[0], env, fuel)
    else if head == "lambda" then
      if |args| != 2 || !IsParamList(args[0]) then Err(MalformedForm)
      else Ok(Closure(ParamNames(args[0]), args[1], env))
    else if head == "let" then
      if |args| != 2 || !IsBindingList(args[0]) then Err(MalformedForm)
      else
        match EvalSeq(Initialisers(args[0]), env, fuel)
        case Err(e) => Err(e)
        case Ok(vs) =>
          match BindFrame(BoundNames(args[0]), vs)
          case Err(e) => Err(e)
          case Ok(frame) => Eval(args[1], Extend(env, frame), fuel)
    else if head == "eval" then
      if |args| != 1 then Err(MalformedForm)
      else
        match Eval(args[0], env, fuel)
        case Err(e) => Err(e)
        case Ok(v) =>
          if v.QuotedForm? then Eval(v.node, env, fuel)
          else if v.List? then Eval(Form(AllAsCode(v.items)), env, fuel)
          else Ok(v)
    else
      assert head == "if";
      if |args| != 3 then Err(MalformedForm)
      else
        match Eval(args[0], env, fuel)
        case Err(e) => Err(e)
        case Ok(c) => if IsFalse(c) then Eval(args[2], env, fuel) else Eval(args[1], env, fuel)
  }

  /**
   * Evaluation from a root environment holding the host's bindings: a name
   * is what the host bound it to, or Absent; failures are runtime errors.
   */
  function Interpret(n: Node, globals: Frame, fuel: nat): (r: Result<Value>)
    ensures fuel > 0 && n.Identifier? ==> r == Ok(if n.name in globals then globals[n.name] else Absent)
    ensures r.Err? ==> Runtime(r.error)
  {
    Eval(n, [globals], fuel)
  }

  /*
   * Fuel only bounds the depth of evaluation: a result other than
   * StackOverflow stays the same with more fuel.  So every outcome below is
   * the outcome of an unbounded evaluator whose call stack is deep enough.
   */

  lemma {:induction false} EvalMonotone(n: Node, env: Env, f: nat, g: nat)
    requires f <= g && Eval(n, env, f) != Err(StackOverflow)
    ensures Eval(n, env, g) == Eval(n, env, f)
    decreases f, 0, 0
  {
    match n
    case Form(cs) =>
      if cs != [] {
        if IsSpecialHead(cs[0]) {
          EvalSpecialMonotone(cs[0].name, cs[1..], env, f - 1, g - 1);
        } else {
          EvalApplicationMonotone(cs[0], cs[1..], env, f - 1, g - 1);
        }
      }
    case _ =>
  }

  lemma {:induction false} EvalSeqMonotone(ns: seq<Node>, env: Env, f: nat, g: nat)
    requires f <= g && EvalSeq(ns, env, f) != Err(StackOverflow)
    ensures EvalSeq(ns, env, g) == EvalSeq(ns, env, f)
    decreases f, 1, |ns|
  {
    if ns != [] {
      EvalMonotone(ns[0], env, f, g);
      if Eval(ns[0], env, f).Ok? {
        EvalSeqMonotone(ns[1..], env, f, g);
      }
    }
  }

  lemma {:induction false} EvalApplicationMonotone(op: Node, args: seq<Node>, env: Env, f: nat, g: nat)
    requires f <= g && EvalApplication(op, args, env, f) != Err(StackOverflow)
    ensures EvalApplication(op, args, env, g) == EvalApplication(op, args, env, f)
    decreases f, 2, 0
  {
    EvalMonotone(op, env, f, g);
    if Eval(op, env, f).Ok? {
      EvalSeqMonotone(args, env, f, g);
      if EvalSeq(args, env, f).Ok? {
        ApplyMonotone(Eval(op, env, f).value, EvalSeq(args, env, f).value, f, g);
      }
    }
  }

  lemma {:induction false} ApplyMonotone(fn: Value, args: seq<Value>, f: nat, g: nat)
    requires f <= g && Apply(fn, args, f) != Err(StackOverflow)
    ensures Apply(fn, args, g) == Apply(fn, args, f)
    decreases f, 1, 0
  {
    if fn.Closure? && BindFrame(fn.params, args).Ok? {
      EvalMonotone(fn.body, Extend(fn.captured, BindFrame(fn.params, args).value), f, g);
    }
  }

  lemma {:induction false} EvalSpecialMonotone(head: string, args: seq<Node>, env: Env, f: nat, g: nat)
    requires head in SpecialForms
    requires f <= g && EvalSpecial(head, args, env, f) != Err(StackOverflow)
    ensures EvalSpecial(head, args, env, g) == EvalSpecial(head, args, env, f)
    decreases f, 2, 0
  {
    if head == "list" {
      EvalSeqMonotone(args, env, f, g);
    } else if head == "first" || head == "rest" || head == "print" {
      if |args| == 1 {
        EvalMonotone(args[0], env, f, g);
      }
    } else if head == "lambda" {
    } else if head == "let" {
      if |args| == 2 && IsBindingList(args[0]) {
        var inits := Initialisers(args[0]);
        EvalSeqMonotone(inits, env, f, g);
        if EvalSeq(inits, env, f).Ok? && BindFrame(BoundNames(args[0]), EvalSeq(inits, env, f).value).Ok? {
          var frame := BindFrame(BoundNames(args[0]), EvalSeq(inits, env, f).value).value;
          EvalMonotone(args[1], Extend(env, frame), f, g);
        }
      }
    } else if head == "eval" {
      if |args| == 1 {
        EvalMonotone(args[0], env, f, g);
        if Eval(args[0], env, f).Ok? {
          var v := Eval(args[0], env, f).value;
          if v.QuotedForm? {
            EvalMonotone(v.node, env, f, g);
          } else if v.List? {
            EvalMonotone(Form(AllAsCode(v.items)), env, f, g);
          }
        }
      }
    } else {
      if |args| == 3 {
        EvalMonotone(args[0], env, f, g);
        if Eval(args[0], env, f).Ok? {
          if IsFalse(Eval(args[0], env, f).value) {
            EvalMonotone(args[2], env, f, g);
          } else {
            EvalMonotone(args[1], env, f, g);
          }
        }
      }
    }
  }
}
