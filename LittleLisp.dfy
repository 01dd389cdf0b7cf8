/** The interpreter's two entry points, `parse` and `interpret`, composed. */
module LittleLisp {
  import opened Wrappers
  import opened Ast
  import opened Lexer
  import opened Parser
  import opened Evaluator

  /**
   * Parses `text` and interprets the tree from a root frame holding the
   * host's bindings, within `depth` nested evaluations.
   */
  function Run(text: string, globals: Frame, depth: nat): (r: Result<Value>)
    ensures (r.Err? && !Runtime(r.error)) <==> ParseText(text).Err?
    ensures (r.Err? && r.error == LexError) <==> Lex(text).Err?
  {
    match ParseText(text)
    case Err(e) => Err(e)
    case Ok(n) => Interpret(n, globals, depth)
  }

  /** The root frame of the tests that inject `+`. */
  const PlusContext: Frame := map["+" := Builtin(Plus)]

  /** Running the printed text of a tree is interpreting that tree. */
  lemma RunShow(n: Node, globals: Frame, depth: nat)
    requires WellFormed(n)
    ensures Run(Show(n), globals, depth) == Interpret(n, globals, depth)
  {
    ParseTextOfShow(n);
  }

  /**
   * Layout does not matter: the tokens of a tree, laid out with any blanks
   * that keep adjacent atoms apart, run as the tree does.
   */
  lemma RunLayout(n: Node, gaps: seq<string>, globals: Frame, depth: nat)
    requires WellFormed(n) && Gaps(Tokens(n), gaps)
    ensures Run(Layout(Tokens(n), gaps), globals, depth) == Interpret(n, globals, depth)
  {
    ParseTextOfLayout(n, gaps);
  }
}
