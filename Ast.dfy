/**
 * The annotated syntax tree produced by the parser and the runtime values
 * produced by the evaluator.  The two are defined together: a closure holds
 * its body node, a quoted form holds a node as data, and a form synthesised
 * by `eval` from a runtime list may hold runtime values as literal leaves.
 */
module Ast {

  /** Operations a host can inject into the root environment (the `+` of the tests). */
  datatype Primitive = Plus

  datatype Node =
    | Identifier(name: string)
    | Number(value: int)
    | Str(text: string)
    | Form(children: seq<Node>)
    | Quote(inner: Node)
      /** Only built by `eval` when it turns a runtime list back into code. */
    | Literal(datum: Value)

  datatype Value =
    | Num(n: int)
    | Text(s: string)
    | List(items: seq<Value>)
      /** The value of the empty form `()`; the host sees it as null. */
    | Empty
    | Closure(params: seq<string>, body: Node, captured: Env)
      /** A syntax node returned as data by quote. */
    | QuotedForm(node: Node)
      /** The value of an identifier no frame binds; the host sees it as undefined. */
    | Absent
    | Builtin(op: Primitive)

  /** One binding frame; names are unique within a frame by construction of a map. */
  type Frame = map<string, Value>

  /** A chain of frames, innermost first; the last frame is the root. */
  type Env = seq<Frame>

  /** The names the evaluator recognises syntactically at the head of a form. */
  const SpecialForms: set<string> := {"list", "first", "rest", "print", "lambda", "let", "eval", "if"}

  predicate IsSpecialHead(n: Node)
  {
    n.Identifier? && n.name in SpecialForms
  }
}
