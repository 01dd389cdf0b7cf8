/**
 * The lexer: source text to a flat sequence of tokens.  Whitespace outside
 * string literals separates tokens and is dropped; `(`, `)` and the quote
 * mark `'` are tokens of their own; a string literal runs from one `"` to the
 * next and keeps spaces and parentheses verbatim; any other run of
 * non-delimiter characters is one atom.
 */
module Lexer {
  import opened Wrappers

  datatype Token =
    | LParen
    | RParen
    | QuoteMark
    | AtomTok(text: string)
      /** The characters between the two delimiters of a string literal. */
    | StrTok(text: string)

  predicate IsSpace(c: char)
  {
    c == ' ' || c == '\t' || c == '\n' || c == '\r'
  }

  /** Characters that end an atom. */
  predicate IsDelimiter(c: char)
  {
    IsSpace(c) || c == '(' || c == ')' || c == '\'' || c == '"'
  }

  /** A token the lexer can produce: atoms are non-empty runs of non-delimiters, strings hold no `"`. */
  predicate ValidToken(t: Token)
  {
    match t
    case AtomTok(a) => a != [] && forall i :: 0 <= i < |a| ==> !IsDelimiter(a[i])
    case StrTok(s) => forall i :: 0 <= i < |s| ==> s[i] != '"'
    case _ => true
  }

  /** The length of the atom at the start of `s`: everything before the first delimiter. */
  function AtomLength(s: string): (k: nat)
    ensures k <= |s|
    ensures forall i :: 0 <= i < k ==> !IsDelimiter(s[i])
    ensures k < |s| ==> IsDelimiter(s[k])
  {
    if s == [] || IsDelimiter(s[0]) then 0 else 1 + AtomLength(s[1..])
  }

  /** The position of the first `"` in `s`, or `|s|` when there is none. */
  function StringLength(s: string): (k: nat)
    ensures k <= |s|
    ensures forall i :: 0 <= i < k ==> s[i] != '"'
    ensures k < |s| ==> s[k] == '"'
  {
    if s == [] || s[0] == '"' then 0 else 1 + StringLength(s[1..])
  }

  function Prepend(t: Token, r: Result<seq<Token>>): Result<seq<Token>>
  {
    match r
    case Ok(ts) => Ok([t] + ts)
    case Err(e) => Err(e)
  }

  /** What the front of the text holds: whitespace to skip, a token, or an unterminated string. */
  datatype Lexeme = Skip | Emit(token: Token) | Unterminated

  /** The lexeme at the front of a non-empty text and how many characters it spans. */
  function Scan(s: string): (r: (Lexeme, nat))
    requires s != []
    ensures 1 <= r.1 <= |s|
    ensures r.0 == Skip <==> IsSpace(s[0])
    ensures r.0 == Unterminated <==> s[0] == '"' && QuoteFree(s[1..])
    ensures r.0.Emit? ==> ValidToken(r.0.token)
  {
    if IsSpace(s[0]) then (Skip, 1)
    else if s[0] == '(' then (Emit(LParen), 1)
    else if s[0] == ')' then (Emit(RParen), 1)
    else if s[0] == '\'' then (Emit(QuoteMark), 1)
    else if s[0] == '"' then
      var k := StringLength(s[1..]);
      if k == |s| - 1 then (Unterminated, |s|) else (Emit(StrTok(s[1..k + 1])), k + 2)
    else
      var k := AtomLength(s);
      (Emit(AtomTok(s[..k])), k)
  }

  /**
   * Splits `s` into tokens.  The only failure is a string literal with no
   * closing delimiter; every token produced is a valid one.
   */
  function Lex(s: string): (r: Result<seq<Token>>)
    ensures r.Err? ==> r.error == LexError
    ensures r.Ok? ==> forall i :: 0 <= i < |r.value| ==> ValidToken(r.value[i])
    decreases |s|
  {
    if s == [] then Ok([])
    else
      var (lexeme, length) := Scan(s);
      match lexeme
      case Skip => Lex(s[length..])
      case Emit(t) => Prepend(t, Lex(s[length..]))
      case Unterminated => Err(LexError)
  }

  /** How a printer spells one token. */
  function Spelling(t: Token): string
  {
    match t
    case LParen => "("
    case RParen => ")"
    case QuoteMark => "'"
    case AtomTok(a) => a
    case StrTok(s) => "\"" + s + "\""
  }

  lemma {:induction false} AtomLengthOfAtom(a: string, s: string)
    requires forall i :: 0 <= i < |a| ==> !IsDelimiter(a[i])
    requires s == [] || IsDelimiter(s[0])
    ensures AtomLength(a + s) == |a|
  {
    if a != [] {
      assert (a + s)[1..] == a[1..] + s;
      AtomLengthOfAtom(a[1..], s);
    }
  }

  lemma {:induction false} StringLengthOfString(x: string, s: string)
    requires forall i :: 0 <= i < |x| ==> x[i] != '"'
    ensures StringLength(x + "\"" + s) == |x|
  {
    if x != [] {
      assert (x + "\"" + s)[1..] == x[1..] + "\"" + s;
      StringLengthOfString(x[1..], s);
    }
  }

  lemma LexAtom(a: string, s: string)
    requires ValidToken(AtomTok(a))
    requires s == [] || IsDelimiter(s[0])
    ensures Lex(a + s) == Prepend(AtomTok(a), Lex(s))
  {
    AtomLengthOfAtom(a, s);
    var text := a + s;
    assert text[0] == a[0];
    assert text[..|a|] == a;
    assert text[|a|..] == s;
  }

  lemma LexString(x: string, s: string)
    requires ValidToken(StrTok(x))
    ensures Lex("\"" + x + "\"" + s) == Prepend(StrTok(x), Lex(s))
  {
    var text := "\"" + x + "\"" + s;
    ScanString(x, s);
    assert text[|x| + 2..] == s;
  }

  lemma ScanString(x: string, s: string)
    requires ValidToken(StrTok(x))
    ensures Scan("\"" + x + "\"" + s) == (Emit(StrTok(x)), |x| + 2)
  {
    var text := "\"" + x + "\"" + s;
    assert text[0] == '"';
    assert text[1..] == x + "\"" + s;
    StringLengthOfString(x, s);
    assert text[1..|x| + 1] == x;
  }

  lemma LexPunctuation(t: Token, s: string)
    requires t == LParen || t == RParen || t == QuoteMark
    ensures Lex(Spelling(t) + s) == Prepend(t, Lex(s))
  {
    var text := Spelling(t) + s;
    assert text[0] == Spelling(t)[0];
    assert text[1..] == s;
  }

  /**
   * Lexing a token's spelling followed by text that starts with a delimiter
   * (or nothing) yields that token and then the tokens of the text.
   */
  lemma LexSpelling(t: Token, s: string)
    requires ValidToken(t)
    requires t.AtomTok? ==> s == [] || IsDelimiter(s[0])
    ensures Lex(Spelling(t) + s) == Prepend(t, Lex(s))
  {
    match t
    case AtomTok(a) => LexAtom(a, s);
    case StrTok(x) => LexString(x, s);
    case _ => LexPunctuation(t, s);
  }

  /**
   * A string literal keeps spaces and parentheses verbatim and does not take
   * part in parenthesis matching.
   */
  lemma LexStringLiteral(x: string)
    requires forall i :: 0 <= i < |x| ==> x[i] != '"'
    ensures Lex("\"" + x + "\"") == Ok([StrTok(x)])
  {
    var text := "\"" + x + "\"";
    LexString(x, "");
    assert text + "" == text;
    assert Lex("") == Ok([]);
    assert [StrTok(x)] + [] == [StrTok(x)];
  }

  /** Text with no `"` in it. */
  predicate QuoteFree(x: string)
  {
    forall i :: 0 <= i < |x| ==> x[i] != '"'
  }

  /**
   * A `"` with no closing `"` after it is a lexical error, wherever it
   * stands: any text that lexes on its own, then the unclosed quote.
   */
  lemma LexUnterminated(p: string, x: string)
    requires Lex(p).Ok? && QuoteFree(x)
    ensures Lex(p + "\"" + x) == Err(LexError)
  {
    var text := "\"" + x;
    StringLengthIsAbsent(x);
    assert text[0] == '"' && text[1..] == x;
    LexAppend(p, text);
    Regroup(p, "\"", x);
  }

  /**
   * Lexing fails exactly when the text holds a `"` with no `"` after it and
   * the text before that quote lexes.
   */
  lemma LexFailsExactly(s: string)
    ensures Lex(s).Err? <==>
              exists k :: 0 <= k < |s| && s[k] == '"' && Lex(s[..k]).Ok? && QuoteFree(s[k + 1..])
  {
    if Lex(s).Err? {
      LexFailure(s);
    }
    if k :| 0 <= k < |s| && s[k] == '"' && Lex(s[..k]).Ok? && QuoteFree(s[k + 1..]) {
      SplitAtQuote(s, k);
      LexUnterminated(s[..k], s[k + 1..]);
    }
  }

  lemma SplitAtQuote(s: string, k: nat)
    requires k < |s| && s[k] == '"'
    ensures s == s[..k] + "\"" + s[k + 1..]
  {
    assert s[k..] == [s[k]] + s[k + 1..];
    assert s == s[..k] + s[k..];
  }

  /** Text without a `"` always lexes. */
  lemma LexQuoteFree(s: string)
    requires QuoteFree(s)
    ensures Lex(s).Ok?
  {
    LexFailsExactly(s);
  }

  /** The failure half of `LexFailsExactly`, by induction on the text. */
  lemma {:induction false} LexFailure(s: string)
    requires Lex(s).Err?
    ensures exists k :: 0 <= k < |s| && s[k] == '"' && Lex(s[..k]).Ok? && QuoteFree(s[k + 1..])
    decreases |s|
  {
    var lexeme, length := Scan(s).0, Scan(s).1;
    var tail := s[length..];
    assert Lex(s) == Continue(lexeme, Lex(tail)) by {
      LexUnfold(s);
    }
    if lexeme == Unterminated {
      assert Lex(s[..0]).Ok? by {
        assert s[..0] == [];
      }
      assert s[0 + 1..] == s[1..];
      assert s[0] == '"' && QuoteFree(s[0 + 1..]);
    } else {
      LexFailure(tail);
      var j :| 0 <= j < |tail| && tail[j] == '"' && Lex(tail[..j]).Ok? && QuoteFree(tail[j + 1..]);
      UnterminatedAfterLexeme(s, j);
    }
  }

  /** An unclosed quote in the text after the first lexeme is one in the whole text. */
  lemma UnterminatedAfterLexeme(s: string, j: nat)
    requires s != [] && Scan(s).0 != Unterminated
    requires Scan(s).1 + j < |s| && s[Scan(s).1..][j] == '"'
    requires Lex(s[Scan(s).1..][..j]).Ok? && QuoteFree(s[Scan(s).1..][j + 1..])
    ensures Lex(s[..Scan(s).1 + j]).Ok? && s[Scan(s).1 + j] == '"' && QuoteFree(s[Scan(s).1 + j + 1..])
  {
    var length := Scan(s).1;
    var tail, k := s[length..], length + j;
    assert Lex(s[..k]).Ok? by {
      ScanPrefix(s, k);
      assert s[..k][length..] == tail[..j];
      LexUnfold(s[..k]);
    }
    assert s[k + 1..] == tail[j + 1..];
  }

  /** The first lexeme of a text is also the first lexeme of any prefix that still spans it. */
  lemma ScanPrefix(s: string, m: nat)
    requires s != [] && Scan(s).0 != Unterminated && Scan(s).1 <= m <= |s|
    ensures Scan(s[..m]) == Scan(s)
  {
    var t := s[..m];
    assert t[0] == s[0];
    if s[0] == '"' {
      var k := StringLength(s[1..]);
      assert s[1..][..k] == s[1..k + 1];
      assert t[1..] == s[1..k + 1] + "\"" + s[k + 2..m];
      StringLengthOfString(s[1..k + 1], s[k + 2..m]);
      assert t[1..k + 1] == s[1..k + 1];
    } else if !IsDelimiter(s[0]) {
      var k := AtomLength(s);
      assert t == s[..k] + s[k..m];
      AtomLengthOfAtom(s[..k], s[k..m]);
      assert t[..k] == s[..k];
    }
  }

  /** The first lexeme of a text that lexes is kept when text starting at a token boundary follows. */
  lemma ScanExtend(p: string, s: string)
    requires p != [] && Scan(p).0 != Unterminated
    requires s == [] || IsDelimiter(s[0])
    ensures Scan(p + s) == Scan(p)
  {
    assert (p + s)[0] == p[0];
    if p[0] == '"' {
      ScanExtendString(p, s);
    } else if !IsDelimiter(p[0]) {
      ScanExtendAtom(p, s);
    }
  }

  lemma ScanExtendString(p: string, s: string)
    requires p != [] && p[0] == '"' && Scan(p).0 != Unterminated
    ensures Scan(p + s) == Scan(p)
  {
    var t, k := p + s, StringLength(p[1..]);
    assert t[0] == '"' && t[1..] == p[1..] + s;
    StringLengthExtend(p[1..], s);
    assert t[1..k + 1] == p[1..k + 1];
  }

  lemma ScanExtendAtom(p: string, s: string)
    requires p != [] && !IsDelimiter(p[0])
    requires s == [] || IsDelimiter(s[0])
    ensures Scan(p + s) == Scan(p)
  {
    var t, k := p + s, AtomLength(p);
    assert t[0] == p[0];
    AtomLengthExtend(p, s);
    assert t[..k] == p[..k];
  }

  lemma {:induction false} StringLengthExtend(x: string, u: string)
    requires StringLength(x) < |x|
    ensures StringLength(x + u) == StringLength(x)
  {
    if x[0] != '"' {
      assert (x + u)[1..] == x[1..] + u;
      StringLengthExtend(x[1..], u);
    }
  }

  lemma {:induction false} AtomLengthExtend(x: string, u: string)
    requires AtomLength(x) < |x| || u == [] || IsDelimiter(u[0])
    ensures AtomLength(x + u) == AtomLength(x)
  {
    if x == [] {
      assert x + u == u;
    } else if !IsDelimiter(x[0]) {
      assert (x + u)[1..] == x[1..] + u;
      AtomLengthExtend(x[1..], u);
    }
  }

  /**
   * Text that lexes, followed by text that starts at a token boundary, lexes
   * to the first text's tokens and then the second's.
   */
  lemma {:induction false} LexAppend(p: string, s: string)
    requires Lex(p).Ok?
    requires s == [] || IsDelimiter(s[0])
    ensures Lex(s).Ok? ==> Lex(p + s) == Ok(Lex(p).value + Lex(s).value)
    ensures Lex(s).Err? ==> Lex(p + s) == Lex(s)
    decreases |p|
  {
    if p == [] {
      assert p + s == s && Lex(p) == Ok([]);
      if Lex(s).Ok? {
        assert [] + Lex(s).value == Lex(s).value;
      }
    } else {
      var lexeme, length := Scan(p).0, Scan(p).1;
      var rest := p[length..];
      assert Lex(p) == Continue(lexeme, Lex(rest)) && lexeme != Unterminated by {
        LexUnfold(p);
      }
      assert Lex(p + s) == Continue(lexeme, Lex(rest + s)) by {
        ScanExtend(p, s);
        assert (p + s)[length..] == rest + s;
        LexUnfold(p + s);
      }
      LexAppend(rest, s);
      ContinueAppend(lexeme, Lex(rest), Lex(s), Lex(rest + s));
    }
  }

  /** How the lexeme at the front of a text combines with the result for the rest. */
  function Continue(lexeme: Lexeme, rest: Result<seq<Token>>): Result<seq<Token>>
  {
    match lexeme
    case Skip => rest
    case Emit(t) => Prepend(t, rest)
    case Unterminated => Err(LexError)
  }

  lemma ContinueAppend(lexeme: Lexeme, a: Result<seq<Token>>, b: Result<seq<Token>>, c: Result<seq<Token>>)
    requires lexeme != Unterminated && a.Ok?
    requires b.Ok? ==> c == Ok(a.value + b.value)
    requires b.Err? ==> c == b
    ensures b.Ok? ==> Continue(lexeme, c) == Ok(Continue(lexeme, a).value + b.value)
    ensures b.Err? ==> Continue(lexeme, c) == b
  {
    if lexeme.Emit? && b.Ok? {
      Regroup([lexeme.token], a.value, b.value);
    }
  }

  /** One step of the lexer: the first lexeme decides how the rest of the text contributes. */
  lemma LexUnfold(s: string)
    requires s != []
    ensures Lex(s) == Continue(Scan(s).0, Lex(s[Scan(s).1..]))
  {
  }

  lemma {:induction false} StringLengthIsAbsent(x: string)
    requires forall i :: 0 <= i < |x| ==> x[i] != '"'
    ensures StringLength(x) == |x|
  {
    if x != [] {
      StringLengthIsAbsent(x[1..]);
    }
  }

  /** A run of whitespace only. */
  predicate Blank(w: string)
  {
    forall i :: 0 <= i < |w| ==> IsSpace(w[i])
  }

  /** Two neighbouring tokens that would run together without whitespace: two atoms. */
  predicate NeedsSpace(t: Token, next: Token)
  {
    t.AtomTok? && next.AtomTok?
  }

  /**
   * Whitespace to put around tokens: one blank run before the first token,
   * one between each pair and one after the last, non-empty between two atoms.
   */
  predicate Gaps(ts: seq<Token>, gaps: seq<string>)
  {
    && |gaps| == |ts| + 1
    && (forall i :: 0 <= i < |gaps| ==> Blank(gaps[i]))
    && (forall i :: 0 < i < |ts| ==> NeedsSpace(ts[i - 1], ts[i]) ==> gaps[i] != [])
  }

  /** Tokens written out with the given whitespace around them. */
  function Layout(ts: seq<Token>, gaps: seq<string>): string
    requires |gaps| == |ts| + 1
  {
    if ts == [] then gaps[0] else gaps[0] + Spelling(ts[0]) + Layout(ts[1..], gaps[1..])
  }

  /** Whitespace before the text changes nothing. */
  lemma {:induction false} LexBlank(w: string, s: string)
    requires Blank(w)
    ensures Lex(w + s) == Lex(s)
  {
    if w != [] {
      LexBlank(w[1..], s);
      assert (w + s)[0] == w[0] && (w + s)[1..] == w[1..] + s;
      assert Scan(w + s) == (Skip, 1);
    } else {
      assert w + s == s;
    }
  }

  lemma Regroup<T>(a: seq<T>, b: seq<T>, c: seq<T>)
    ensures a + b + c == a + (b + c)
  {
  }

  /** Every token but an atom is spelled starting with a delimiter. */
  lemma SpellingStart(t: Token)
    requires !t.AtomTok?
    ensures Spelling(t) != [] && IsDelimiter(Spelling(t)[0])
  {
    if t.StrTok? {
      assert Spelling(t)[0] == '"';
    }
  }

  /** A text written out from tokens starts with a delimiter unless it starts with an atom. */
  lemma LayoutStart(ts: seq<Token>, gaps: seq<string>)
    requires |gaps| == |ts| + 1 && Blank(gaps[0])
    requires ts == [] || !ts[0].AtomTok? || gaps[0] != []
    ensures Layout(ts, gaps) == [] || IsDelimiter(Layout(ts, gaps)[0])
  {
    if ts != [] {
      var first, rest := Spelling(ts[0]), Layout(ts[1..], gaps[1..]);
      assert Layout(ts, gaps) == gaps[0] + first + rest;
      if gaps[0] == [] {
        SpellingStart(ts[0]);
        assert Layout(ts, gaps)[0] == first[0];
      } else {
        assert Layout(ts, gaps)[0] == gaps[0][0];
      }
    }
  }

  lemma GapsTail(ts: seq<Token>, gaps: seq<string>)
    requires Gaps(ts, gaps) && ts != []
    ensures Gaps(ts[1..], gaps[1..])
  {
    forall i | 0 < i < |ts[1..]| && NeedsSpace(ts[1..][i - 1], ts[1..][i])
      ensures gaps[1..][i] != []
    {
      assert ts[1..][i - 1] == ts[i] && ts[1..][i] == ts[i + 1];
    }
  }

  /** After an atom comes the end, a non-atom, or some whitespace. */
  lemma SpacedAfterAtom(ts: seq<Token>, gaps: seq<string>)
    requires Gaps(ts, gaps) && ts != [] && ts[0].AtomTok?
    ensures ts[1..] == [] || !ts[1..][0].AtomTok? || gaps[1..][0] != []
  {
    if |ts| > 1 && ts[1].AtomTok? {
      assert NeedsSpace(ts[0], ts[1]);
    }
  }

  /**
   * Lexing ignores layout: however much whitespace surrounds the tokens, as
   * long as atoms next to each other are kept apart, the text lexes back to
   * the same tokens.
   */
  lemma {:induction false} LexLayout(ts: seq<Token>, gaps: seq<string>)
    requires forall i :: 0 <= i < |ts| ==> ValidToken(ts[i])
    requires Gaps(ts, gaps)
    ensures Lex(Layout(ts, gaps)) == Ok(ts)
  {
    if ts == [] {
      LexBlank(gaps[0], "");
      assert gaps[0] + "" == gaps[0];
      assert Lex("") == Ok([]);
    } else {
      var rest := Layout(ts[1..], gaps[1..]);
      GapsTail(ts, gaps);
      LexLayout(ts[1..], gaps[1..]);
      if ts[0].AtomTok? {
        SpacedAfterAtom(ts, gaps);
        LayoutStart(ts[1..], gaps[1..]);
      }
      assert Blank(gaps[0]);
      LexLayoutStep(ts, gaps, rest);
    }
  }

  /** One token of a layout: its whitespace and spelling add the token in front of the rest. */
  lemma LexLayoutStep(ts: seq<Token>, gaps: seq<string>, rest: string)
    requires ts != [] && ValidToken(ts[0]) && |gaps| == |ts| + 1 && Blank(gaps[0])
    requires rest == Layout(ts[1..], gaps[1..])
    requires ts[0].AtomTok? ==> rest == [] || IsDelimiter(rest[0])
    requires Lex(rest) == Ok(ts[1..])
    ensures Lex(Layout(ts, gaps)) == Ok(ts)
  {
    LexSpelling(ts[0], rest);
    LexAfterBlank(gaps[0], Spelling(ts[0]), rest, ts[0], ts[1..]);
    assert [ts[0]] + ts[1..] == ts;
  }

  lemma LexAfterBlank(w: string, spelling: string, rest: string, t: Token, tail: seq<Token>)
    requires Blank(w) && Lex(spelling + rest) == Prepend(t, Lex(rest)) && Lex(rest) == Ok(tail)
    ensures Lex(w + spelling + rest) == Ok([t] + tail)
  {
    LexBlank(w, spelling + rest);
    Regroup(w, spelling, rest);
  }
}
