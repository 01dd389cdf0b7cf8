/**
 * The recursive-descent parser: tokens to exactly one annotated syntax node.
 * A quote mark wraps the next node (atom or whole form) in a Quote node; an
 * opening parenthesis collects child nodes up to its closing parenthesis; an
 * atom made only of digits is a Number, any other atom an Identifier, and a
 * string literal a Str whatever its characters.
 */
module Parser {
  import opened Wrappers
  import opened Ast
  import opened Lexer

  predicate IsDigit(c: char)
  {
    '0' <= c <= '9'
  }

  predicate AllDigits(t: string)
  {
    forall i :: 0 <= i < |t| ==> IsDigit(t[i])
  }

  /** An atom that denotes a number. */
  predicate IsNumeral(t: string)
  {
    t != [] && AllDigits(t)
  }

  function DigitValue(c: char): nat
    requires IsDigit(c)
  {
    (c as int) - ('0' as int)
  }

  function NumeralValue(t: string): nat
    requires AllDigits(t)
    decreases |t|
  {
    if t == [] then 0 else 10 * NumeralValue(t[..|t| - 1]) + DigitValue(t[|t| - 1])
  }

  function DigitChar(d: nat): (c: char)
    requires d < 10
    ensures IsDigit(c) && DigitValue(c) == d
  {
    ('0' as int + d) as char
  }

  /** The decimal spelling of a natural number. */
  function Numeral(k: nat): (t: string)
    ensures IsNumeral(t)
  {
    if k < 10 then [DigitChar(k)] else Numeral(k / 10) + [DigitChar(k % 10)]
  }

  lemma {:induction false} NumeralValueOfNumeral(k: nat)
    ensures NumeralValue(Numeral(k)) == k
  {
    var t := Numeral(k);
    if k >= 10 {
      NumeralValueOfNumeral(k / 10);
      assert t[..|t| - 1] == Numeral(k / 10);
    }
  }

  /** Atom classification: Number when the whole atom is digits, Identifier otherwise. */
  function Classify(a: string): (n: Node)
    ensures n.Number? || n.Identifier?
    ensures n.Number? <==> IsNumeral(a)
    ensures n.Identifier? ==> n.name == a
  {
    if IsNumeral(a) then Number(NumeralValue(a)) else Identifier(a)
  }

  /** A node the parser can produce, which is also a node the printer can print. */
  predicate WellFormed(n: Node)
  {
    match n
    case Identifier(x) => ValidToken(AtomTok(x)) && !IsNumeral(x)
    case Number(k) => k >= 0
    case Str(s) => ValidToken(StrTok(s))
    case Form(cs) => forall i :: 0 <= i < |cs| ==> WellFormed(cs[i])
    case Quote(m) => WellFormed(m)
    case Literal(_) => false
  }

  predicate AllValid(ts: seq<Token>)
  {
    forall i :: 0 <= i < |ts| ==> ValidToken(ts[i])
  }

  /**
   * Parses one node from the front of `ts` and returns it with the tokens
   * left over, a proper suffix of `ts`.
   */
  function ParseNode(ts: seq<Token>): (r: Result<(Node, seq<Token>)>)
    ensures r.Ok? ==> |r.value.1| < |ts| && r.value.1 == ts[|ts| - |r.value.1|..]
    ensures r.Ok? && AllValid(ts) ==> WellFormed(r.value.0)
    ensures r.Err? ==> r.error == ParseError
    decreases |ts|, 0
  {
    if ts == [] then Err(ParseError)
    else match ts[0]
      case RParen => Err(ParseError)
      case QuoteMark =>
        (match ParseNode(ts[1..])
         case Err(e) => Err(e)
         case Ok((inner, rest)) => Ok((Quote(inner), rest)))
      case LParen =>
        (match ParseChildren(ts[1..])
         case Err(e) => Err(e)
         case Ok((children, rest)) => Ok((Form(children), rest)))
      case AtomTok(a) => Ok((Classify(a), ts[1..]))
      case StrTok(s) => Ok((Str(s), ts[1..]))
  }

  /**
   * Parses the children of a form up to and including its closing
   * parenthesis; fails when the tokens run out first.
   */
  function ParseChildren(ts: seq<Token>): (r: Result<(seq<Node>, seq<Token>)>)
    ensures r.Ok? ==> |r.value.1| < |ts| && r.value.1 == ts[|ts| - |r.value.1|..]
    ensures r.Ok? && AllValid(ts) ==> forall i :: 0 <= i < |r.value.0| ==> WellFormed(r.value.0[i])
    ensures r.Err? ==> r.error == ParseError
    decreases |ts|, 1
  {
    if ts == [] then Err(ParseError)
    else if ts[0] == RParen then Ok(([], ts[1..]))
    else
      match ParseNode(ts)
      case Err(e) => Err(e)
      case Ok((first, rest)) =>
        match ParseChildren(rest)
        case Err(e) => Err(e)
        case Ok((others, rest')) => Ok(([first] + others, rest'))
  }

  /** The whole token stream must be exactly one node. */
  function Parse(ts: seq<Token>): (r: Result<Node>)
    ensures r.Ok? && AllValid(ts) ==> WellFormed(r.value)
    ensures r.Err? ==> r.error == ParseError
  {
    match ParseNode(ts)
    case Err(e) => Err(e)
    case Ok((n, rest)) => if rest == [] then Ok(n) else Err(ParseError)
  }

  /** Source text to syntax tree: lexing then parsing. */
  function ParseText(s: string): (r: Result<Node>)
    ensures r.Ok? ==> WellFormed(r.value)
    ensures r.Err? ==> r.error == LexError || r.error == ParseError
    ensures (r.Err? && r.error == LexError) <==> Lex(s).Err?
  {
    match Lex(s)
    case Err(e) => Err(e)
    case Ok(ts) => Parse(ts)
  }

  /** The tokens a printer emits for a node: as many closing as opening parentheses. */
  function Tokens(n: Node): (r: seq<Token>)
    ensures multiset(r)[LParen] == multiset(r)[RParen]
  {
    match n
    case Identifier(x) => [AtomTok(x)]
    case Number(k) => [AtomTok(if k >= 0 then Numeral(k) else "")]
    case Str(s) => [StrTok(s)]
    case Form(cs) => [LParen] + ChildrenTokens(cs) + [RParen]
    case Quote(m) => [QuoteMark] + Tokens(m)
    case Literal(_) => []
  }

  function ChildrenTokens(cs: seq<Node>): (r: seq<Token>)
    ensures multiset(r)[LParen] == multiset(r)[RParen]
  {
    if cs == [] then [] else Tokens(cs[0]) + ChildrenTokens(cs[1..])
  }

  /**
   * Prints a node as source text: children one space apart, no space inside
   * parentheses or after `'`, so a well-formed node prints with no blank at
   * either end.
   */
  function Show(n: Node): (r: string)
    ensures WellFormed(n) ==> r != [] && !IsSpace(r[0]) && !IsSpace(r[|r| - 1])
    decreases n, 1
  {
    match n
    case Identifier(x) => x
    case Number(k) => if k >= 0 then Numeral(k) else ""
    case Str(s) => "\"" + s + "\""
    case Form(cs) => "(" + ShowChildren(cs) + ")"
    case Quote(m) => "'" + Show(m)
    case Literal(_) => ""
  }

  function ShowChildren(cs: seq<Node>): (r: string)
    ensures (forall i :: 0 <= i < |cs| ==> WellFormed(cs[i])) ==>
              (r == [] <==> cs == []) && (r != [] ==> !IsSpace(r[0]) && !IsSpace(r[|r| - 1]))
    decreases cs, 0
  {
    if cs == [] then ""
    else if |cs| == 1 then Show(cs[0])
    else Show(cs[0]) + " " + ShowChildren(cs[1..])
  }

  lemma {:induction false} TokensValid(n: Node)
    requires WellFormed(n)
    ensures Tokens(n) != [] && Tokens(n)[0] != RParen
    ensures AllValid(Tokens(n))
    decreases n, 0
  {
    match n
    case Form(cs) =>
      ChildrenTokensValid(cs);
      FormTokensValid(cs);
    case Quote(m) =>
      TokensValid(m);
      QuoteTokensValid(m);
    case Number(k) =>
      assert forall i :: 0 <= i < |Numeral(k)| ==> IsDigit(Numeral(k)[i]);
    case _ =>
  }

  lemma FormTokensValid(cs: seq<Node>)
    requires AllValid(ChildrenTokens(cs))
    ensures Tokens(Form(cs)) != [] && Tokens(Form(cs))[0] == LParen
    ensures AllValid(Tokens(Form(cs)))
  {
    var inner := ChildrenTokens(cs);
    assert Tokens(Form(cs)) == [LParen] + inner + [RParen];
    forall i | 0 <= i < |Tokens(Form(cs))| ensures ValidToken(Tokens(Form(cs))[i]) {
      if 0 < i <= |inner| {
        assert Tokens(Form(cs))[i] == inner[i - 1];
      }
    }
  }

  lemma QuoteTokensValid(m: Node)
    requires AllValid(Tokens(m))
    ensures Tokens(Quote(m)) != [] && Tokens(Quote(m))[0] == QuoteMark
    ensures AllValid(Tokens(Quote(m)))
  {
    var inner := Tokens(m);
    assert Tokens(Quote(m)) == [QuoteMark] + inner;
    forall i | 0 < i < |Tokens(Quote(m))| ensures ValidToken(Tokens(Quote(m))[i]) {
      assert Tokens(Quote(m))[i] == inner[i - 1];
    }
  }

  lemma {:induction false} ChildrenTokensValid(cs: seq<Node>)
    requires forall i :: 0 <= i < |cs| ==> WellFormed(cs[i])
    ensures AllValid(ChildrenTokens(cs))
    decreases cs, 1
  {
    if cs != [] {
      TokensValid(cs[0]);
      ChildrenTokensValid(cs[1..]);
    }
  }

  /** Parsing undoes printing, whatever tokens follow the node. */
  lemma {:induction false} ParseNodeOfTokens(n: Node, rest: seq<Token>)
    requires WellFormed(n)
    ensures ParseNode(Tokens(n) + rest) == Ok((n, rest))
    decreases n, 0
  {
    match n
    case Quote(m) =>
      ParseNodeOfTokens(m, rest);
      ParseQuoteOfTokens(m, rest);
    case Form(cs) =>
      ParseChildrenOfTokens(cs, rest);
      ParseFormOfTokens(cs, rest);
    case _ =>
      ParseLeafOfTokens(n, rest);
  }

  lemma ParseLeafOfTokens(n: Node, rest: seq<Token>)
    requires WellFormed(n) && !n.Quote? && !n.Form?
    ensures ParseNode(Tokens(n) + rest) == Ok((n, rest))
  {
    var ts := Tokens(n) + rest;
    assert |Tokens(n)| == 1 && ts[0] == Tokens(n)[0] && ts[1..] == rest;
    if n.Number? {
      NumeralValueOfNumeral(n.value);
    }
  }

  lemma ParseQuoteOfTokens(m: Node, rest: seq<Token>)
    requires ParseNode(Tokens(m) + rest) == Ok((m, rest))
    ensures ParseNode(Tokens(Quote(m)) + rest) == Ok((Quote(m), rest))
  {
    assert Tokens(Quote(m)) == [QuoteMark] + Tokens(m);
    Regroup([QuoteMark], Tokens(m), rest);
    ParseAfterQuoteMark(Tokens(m) + rest, m, rest);
  }

  lemma ParseAfterQuoteMark(inner: seq<Token>, m: Node, rest: seq<Token>)
    requires ParseNode(inner) == Ok((m, rest))
    ensures ParseNode([QuoteMark] + inner) == Ok((Quote(m), rest))
  {
    assert ([QuoteMark] + inner)[0] == QuoteMark && ([QuoteMark] + inner)[1..] == inner;
  }

  lemma ParseFormOfTokens(cs: seq<Node>, rest: seq<Token>)
    requires ParseChildren(ChildrenTokens(cs) + [RParen] + rest) == Ok((cs, rest))
    ensures ParseNode(Tokens(Form(cs)) + rest) == Ok((Form(cs), rest))
  {
    var inner := ChildrenTokens(cs) + [RParen] + rest;
    assert Tokens(Form(cs)) == [LParen] + ChildrenTokens(cs) + [RParen];
    Regroup([LParen] + ChildrenTokens(cs), [RParen], rest);
    Regroup([LParen], ChildrenTokens(cs), [RParen] + rest);
    Regroup(ChildrenTokens(cs), [RParen], rest);
    ParseAfterLParen(inner, cs, rest);
  }

  lemma ParseAfterLParen(inner: seq<Token>, cs: seq<Node>, rest: seq<Token>)
    requires ParseChildren(inner) == Ok((cs, rest))
    ensures ParseNode([LParen] + inner) == Ok((Form(cs), rest))
  {
    assert ([LParen] + inner)[0] == LParen && ([LParen] + inner)[1..] == inner;
  }

  lemma {:induction false} ParseChildrenOfTokens(cs: seq<Node>, rest: seq<Token>)
    requires forall i :: 0 <= i < |cs| ==> WellFormed(cs[i])
    ensures ParseChildren(ChildrenTokens(cs) + [RParen] + rest) == Ok((cs, rest))
    decreases cs, 1
  {
    var ts := ChildrenTokens(cs) + [RParen] + rest;
    if cs == [] {
      assert ts[0] == RParen && ts[1..] == rest;
    } else {
      var tail := ChildrenTokens(cs[1..]) + [RParen] + rest;
      assert ts == Tokens(cs[0]) + tail by {
        assert ChildrenTokens(cs) == Tokens(cs[0]) + ChildrenTokens(cs[1..]);
        Regroup(Tokens(cs[0]), ChildrenTokens(cs[1..]), [RParen]);
        Regroup(Tokens(cs[0]), ChildrenTokens(cs[1..]) + [RParen], rest);
      }
      TokensValid(cs[0]);
      ParseNodeOfTokens(cs[0], tail);
      ParseChildrenOfTokens(cs[1..], rest);
      assert [cs[0]] + cs[1..] == cs;
    }
  }

  /**
   * Lexing a printed node yields the node's tokens, whatever text follows
   * as long as it starts at a token boundary.
   */
  lemma {:induction false} LexShow(n: Node, s: string, ts: seq<Token>)
    requires WellFormed(n)
    requires s == [] || IsDelimiter(s[0])
    requires Lex(s) == Ok(ts)
    ensures Lex(Show(n) + s) == Ok(Tokens(n) + ts)
    decreases n, 1
  {
    match n
    case Identifier(x) =>
      LexSpelling(AtomTok(x), s);
    case Number(k) =>
      TokensValid(n);
      LexSpelling(AtomTok(Numeral(k)), s);
    case Str(x) =>
      LexSpelling(StrTok(x), s);
      assert Show(n) == Spelling(StrTok(x));
    case Quote(m) =>
      LexShow(m, s, ts);
      LexQuoted(m, s, ts);
    case Form(cs) =>
      LexSpelling(RParen, s);
      LexShowChildren(cs, ")" + s, [RParen] + ts);
      LexParenthesised(cs, s, ts);
  }

  lemma {:induction false} LexShowChildren(cs: seq<Node>, s: string, ts: seq<Token>)
    requires forall i :: 0 <= i < |cs| ==> WellFormed(cs[i])
    requires s == [] || IsDelimiter(s[0])
    requires Lex(s) == Ok(ts)
    ensures Lex(ShowChildren(cs) + s) == Ok(ChildrenTokens(cs) + ts)
    decreases cs, 0
  {
    if cs == [] {
      assert ShowChildren(cs) + s == s;
      assert ChildrenTokens(cs) + ts == ts;
    } else if |cs| == 1 {
      LexShow(cs[0], s, ts);
      assert cs[1..] == [];
      assert ChildrenTokens(cs) == Tokens(cs[0]) + [] == Tokens(cs[0]);
    } else {
      var rest := ShowChildren(cs[1..]) + s;
      LexShowChildren(cs[1..], s, ts);
      LexBlank(" ", rest);
      LexShow(cs[0], " " + rest, ChildrenTokens(cs[1..]) + ts);
      LexSpaced(cs, s, ts);
    }
  }

  lemma LexQuoted(m: Node, s: string, ts: seq<Token>)
    requires WellFormed(m)
    requires Lex(Show(m) + s) == Ok(Tokens(m) + ts)
    ensures Lex(Show(Quote(m)) + s) == Ok(Tokens(Quote(m)) + ts)
  {
    LexPunctuation(QuoteMark, Show(m) + s);
    assert Show(Quote(m)) == Spelling(QuoteMark) + Show(m);
    Regroup(Spelling(QuoteMark), Show(m), s);
    assert Tokens(Quote(m)) == [QuoteMark] + Tokens(m);
    Regroup([QuoteMark], Tokens(m), ts);
  }

  lemma LexParenthesised(cs: seq<Node>, s: string, ts: seq<Token>)
    requires Lex(ShowChildren(cs) + (")" + s)) == Ok(ChildrenTokens(cs) + ([RParen] + ts))
    ensures Lex(Show(Form(cs)) + s) == Ok(Tokens(Form(cs)) + ts)
  {
    var inner := ShowChildren(cs) + (")" + s);
    LexPunctuation(LParen, inner);
    assert Show(Form(cs)) == Spelling(LParen) + ShowChildren(cs) + ")";
    Regroup(Spelling(LParen) + ShowChildren(cs), ")", s);
    Regroup(Spelling(LParen), ShowChildren(cs), ")" + s);
    var tokens := ChildrenTokens(cs);
    assert Tokens(Form(cs)) == [LParen] + tokens + [RParen];
    Regroup([LParen] + tokens, [RParen], ts);
    Regroup([LParen], tokens, [RParen] + ts);
  }

  lemma LexSpaced(cs: seq<Node>, s: string, ts: seq<Token>)
    requires |cs| > 1
    requires Lex(Show(cs[0]) + (" " + (ShowChildren(cs[1..]) + s))) == Ok(Tokens(cs[0]) + (ChildrenTokens(cs[1..]) + ts))
    ensures Lex(ShowChildren(cs) + s) == Ok(ChildrenTokens(cs) + ts)
  {
    var head, others := Show(cs[0]), ShowChildren(cs[1..]);
    assert ShowChildren(cs) == head + " " + others;
    Regroup(head + " ", others, s);
    Regroup(head, " ", others + s);
    assert ChildrenTokens(cs) == Tokens(cs[0]) + ChildrenTokens(cs[1..]);
    Regroup(Tokens(cs[0]), ChildrenTokens(cs[1..]), ts);
  }

  /** Source text printed from a well-formed tree parses back to that tree. */
  lemma ParseTextOfShow(n: Node)
    requires WellFormed(n)
    ensures ParseText(Show(n)) == Ok(n)
  {
    assert Lex("") == Ok([]);
    LexShow(n, "", []);
    assert Show(n) + "" == Show(n);
    TokensValid(n);
    ParseNodeOfTokens(n, []);
    assert Tokens(n) + [] == Tokens(n);
  }

  /** The same holds for any layout of the node's tokens: whitespace between tokens is not significant. */
  lemma ParseTextOfLayout(n: Node, gaps: seq<string>)
    requires WellFormed(n) && Gaps(Tokens(n), gaps)
    ensures ParseText(Layout(Tokens(n), gaps)) == Ok(n)
  {
    TokensValid(n);
    LexLayout(Tokens(n), gaps);
    ParseNodeOfTokens(n, []);
    assert Tokens(n) + [] == Tokens(n);
  }

  /**
   * A lone atom parses to a leaf: a number when it is all digits, an
   * identifier named by the atom's text otherwise.
   */
  lemma ParseAtom(a: string)
    requires ValidToken(AtomTok(a))
    ensures IsNumeral(a) ==> ParseText(a) == Ok(Number(NumeralValue(a)))
    ensures !IsNumeral(a) ==> ParseText(a) == Ok(Identifier(a))
  {
    LexAtom(a, "");
    assert a + "" == a;
    assert Lex("") == Ok([]);
    assert [AtomTok(a)] + [] == [AtomTok(a)];
    assert ParseNode([AtomTok(a)]) == Ok((Classify(a), []));
  }

  /** The decimal spelling of a natural number parses to that number. */
  lemma ParseNumeral(k: nat)
    ensures ParseText(Numeral(k)) == Ok(Number(k))
  {
    ParseTextOfShow(Number(k));
  }

  /**
   * A string literal parses to a string leaf holding its characters verbatim,
   * spaces and parentheses included.
   */
  lemma ParseStringLiteral(x: string)
    requires forall i :: 0 <= i < |x| ==> x[i] != '"'
    ensures ParseText("\"" + x + "\"") == Ok(Str(x))
  {
    LexStringLiteral(x);
    assert ParseNode([StrTok(x)]) == Ok((Str(x), []));
  }

  /** Children whose closing parenthesis never comes are a parse error. */
  lemma {:induction false} UnclosedForm(cs: seq<Node>)
    requires forall i :: 0 <= i < |cs| ==> WellFormed(cs[i])
    ensures ParseChildren(ChildrenTokens(cs)) == Err(ParseError)
  {
    if cs != [] {
      TokensValid(cs[0]);
      ParseNodeOfTokens(cs[0], ChildrenTokens(cs[1..]));
      UnclosedForm(cs[1..]);
    }
  }

  /**
   * No tokens, a stray closing parenthesis at the front, an opening
   * parenthesis whose children never close, and any tokens after a complete
   * tree are parse errors.
   */
  lemma ParseErrors(n: Node, cs: seq<Node>, ts: seq<Token>)
    requires WellFormed(n)
    requires forall i :: 0 <= i < |cs| ==> WellFormed(cs[i])
    ensures Parse([]) == Err(ParseError)
    ensures Parse([RParen] + ts) == Err(ParseError)
    ensures Parse([LParen] + ChildrenTokens(cs)) == Err(ParseError)
    ensures ts != [] ==> Parse(Tokens(n) + ts) == Err(ParseError)
  {
    ParseNodeOfTokens(n, ts);
    UnclosedForm(cs);
    assert ([LParen] + ChildrenTokens(cs))[1..] == ChildrenTokens(cs);
    assert ([RParen] + ts)[0] == RParen;
  }
}
