/**
 * `unannotate`, the helper of the test suite that turns an annotated parse
 * tree into the raw values the tests compare against: every leaf becomes its
 * value, every form an array, with sub-forms kept as nested arrays.
 */
module Unannotate {
  import opened Ast

  /** A raw value: a leaf's value, or an array of raw values. */
  datatype Raw = Atom(v: Value) | Nested(items: seq<Raw>)

  /** The value an annotated leaf carries: identifier and string texts, numbers, the node a quote wraps. */
  function LeafValue(n: Node): Value
    requires !n.Form?
  {
    match n
    case Identifier(x) => Text(x)
    case Number(k) => Num(k)
    case Str(s) => Text(s)
    case Quote(m) => QuotedForm(m)
    case Literal(v) => v
  }

  /** A form gives the array of its children; a leaf gives the one-element array of its value. */
  function Unannotate(n: Node): (r: seq<Raw>)
    ensures n.Form? ==> |r| == |n.children|
    ensures !n.Form? ==> r == [Atom(LeafValue(n))]
    decreases n, 1
  {
    match n
    case Form(cs) => UnannotateChildren(cs)
    case _ => [Atom(LeafValue(n))]
  }

  /**
   * The array case, head first: a form child is wrapped so that it stays
   * nested, a leaf child's one-element array is concatenated in place.
   */
  function UnannotateChildren(cs: seq<Node>): (r: seq<Raw>)
    ensures |r| == |cs|
    ensures forall i :: 0 <= i < |cs| ==> (r[i].Nested? <==> cs[i].Form?)
    ensures forall i :: 0 <= i < |cs| && !cs[i].Form? ==> r[i] == Atom(LeafValue(cs[i]))
    decreases cs, 0
  {
    if cs == [] then []
    else if cs[0].Form? then [Nested(Unannotate(cs[0]))] + UnannotateChildren(cs[1..])
    else Unannotate(cs[0]) + UnannotateChildren(cs[1..])
  }

  /** What one child contributes: a nested array for a form, the value for a leaf. */
  function RawOf(n: Node): Raw
  {
    if n.Form? then Nested(Unannotate(n)) else Atom(LeafValue(n))
  }

  /**
   * Flattening keeps the shape of a form: one entry per child, in order,
   * and an entry is nested exactly when its child is a form.
   */
  lemma {:induction false} UnannotateKeepsShape(cs: seq<Node>)
    ensures |UnannotateChildren(cs)| == |cs|
    ensures forall i :: 0 <= i < |cs| ==> UnannotateChildren(cs)[i] == RawOf(cs[i])
  {
    if cs != [] {
      UnannotateKeepsShape(cs[1..]);
      var r := UnannotateChildren(cs);
      if !cs[0].Form? {
        assert Unannotate(cs[0]) == [Atom(LeafValue(cs[0]))];
      }
      assert r == [RawOf(cs[0])] + UnannotateChildren(cs[1..]);
      forall i | 0 <= i < |cs| ensures r[i] == RawOf(cs[i]) {
        if i > 0 {
          assert cs[i] == cs[1..][i - 1];
        }
      }
    }
  }

  /** Flattening a form made of two runs of children flattens each run. */
  lemma UnannotateAppend(a: seq<Node>, b: seq<Node>)
    ensures UnannotateChildren(a + b) == UnannotateChildren(a) + UnannotateChildren(b)
  {
    UnannotateKeepsShape(a);
    UnannotateKeepsShape(b);
    UnannotateKeepsShape(a + b);
    var l, r := UnannotateChildren(a + b), UnannotateChildren(a) + UnannotateChildren(b);
    assert |l| == |r|;
    forall i | 0 <= i < |l| ensures l[i] == r[i] {
      if i >= |a| {
        assert (a + b)[i] == b[i - |a|];
      }
    }
  }
}
