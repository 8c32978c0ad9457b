/** The lexer of src/lex.rs.  The input is a sequence of characters; `pos` is a
    character index into it and (`line`, `column`) the 1-based position the
    lexer reports.  Each `Read…` method of class `Lexer` is proved against a
    pure `Scan…` function that states, for the input and a start index, which
    token is produced and where the lexer stops, or which error is raised (the
    source panics; here the panic message is returned as `Err`). */
module Lexing {
  import opened Wrappers
  import opened Tokens

  datatype Position = Position(line: nat, column: nat)

  datatype Loc = Loc(start: Position, end: Position)

  // ---------------------------------------------------------------------------
  // Character classes used by the dispatch in `next` and by the readers

  predicate IsBlank(c: char) { c == ' ' || c == '\t' || c == '\r' || c == '\n' }

  predicate IsQuote(c: char) { c == '"' || c == '\'' }

  /** Characters that start an operator token. */
  predicate IsOperatorStart(c: char) { IsOperatorChar(c) || c == '!' }

  /** Characters glued onto an operator token; `!` only ever starts one. */
  predicate IsOperatorChar(c: char)
  {
    c == '=' || c == '+' || c == '-' || c == '*' || c == '/' || c == '%' || c == '>' || c == '<' || c == '|' || c == '?' || c == ':' || c == '&'
  }

  predicate IsControlChar(c: char)
  {
    c == ';' || c == '(' || c == ')' || c == '{' || c == '}' || c == '.' || c == ',' || c == '[' || c == ']'
  }

  predicate IsWordStart(c: char) { c == '_' || 'a' <= c <= 'z' || 'A' <= c <= 'Z' }

  predicate IsDecimal(c: char) { '0' <= c <= '9' }

  predicate IsWordChar(c: char) { IsWordStart(c) || IsDecimal(c) }

  predicate IsNumberChar(c: char) { IsDecimal(c) || c == '_' || c == 'e' }

  predicate IsCommentChar(c: char) { c != '\r' && c != '\n' }

  predicate IsNotBacktick(c: char) { c != '`' }

  predicate IsNotSlash(c: char) { c != '/' }

  /** Characters that may follow the closing `/` of a regular expression. */
  predicate IsRegexWordChar(c: char) { c == '_' || 'a' <= c <= 'z' || IsDecimal(c) }

  predicate IsRegexFlag(c: char) { c == 'i' || c == 'g' || c == 'm' || c == 's' || c == 'u' || c == 'y' }

  // ---------------------------------------------------------------------------
  // Generic helpers

  /** The end of the longest run of characters satisfying `p` that starts at `i`. */
  function SpanEnd(s: seq<char>, i: nat, p: char -> bool): (e: nat)
    requires i <= |s|
    ensures i <= e <= |s|
    ensures forall k :: i <= k < e ==> p(s[k])
    ensures e == |s| || !p(s[e])
    decreases |s| - i
  {
    if i == |s| || !p(s[i]) then i else SpanEnd(s, i + 1, p)
  }

  /** A character that satisfies `p` and is inside the run does not end it. */
  lemma SpanEndPast(s: seq<char>, i: nat, p: char -> bool, j: nat)
    requires i <= j < |s| && p(s[j]) && j <= SpanEnd(s, i, p)
    ensures j + 1 <= SpanEnd(s, i, p)
  {
  }

  lemma SpanEndUnique(s: seq<char>, i: nat, p: char -> bool, e: nat)
    requires i <= e <= |s|
    requires forall k :: i <= k < e ==> p(s[k])
    requires e == |s| || !p(s[e])
    ensures SpanEnd(s, i, p) == e
  {
    var f := SpanEnd(s, i, p);
    if f < e {
      assert false;
    } else if e < f {
      assert false;
    }
  }

  function Count(s: seq<char>, c: char): nat
    decreases |s|
  {
    if s == [] then 0 else Count(s[..|s| - 1], c) + (if s[|s| - 1] == c then 1 else 0)
  }

  lemma CountAppend(s: seq<char>, t: seq<char>, c: char)
    ensures Count(s + t, c) == Count(s, c) + Count(t, c)
    decreases |t|
  {
    if t == [] {
      assert s + t == s;
    } else {
      assert (s + t)[..|s + t| - 1] == s + t[..|t| - 1];
      CountAppend(s, t[..|t| - 1], c);
    }
  }

  function DigitChar(d: nat): char
    requires d < 10
  {
    "0123456789"[d]
  }

  function NatToString(n: nat): string
    decreases n
  {
    if n < 10 then [DigitChar(n)] else NatToString(n / 10) + [DigitChar(n % 10)]
  }

  /** Extends a successful scan by a prefix of already produced characters. */
  function Prepend(w: string, r: Result<(string, nat), string>): Result<(string, nat), string>
  {
    match r
    case Ok((s, e)) => Ok((w + s, e))
    case Err(m) => Err(m)
  }

  lemma PrependEmpty(r: Result<(string, nat), string>)
    ensures Prepend([], r) == r
  {
    match r
    case Ok((s, e)) => assert [] + s == s;
    case Err(_) =>
  }

  lemma PrependPrepend(a: string, b: string, r: Result<(string, nat), string>)
    ensures Prepend(a, Prepend(b, r)) == Prepend(a + b, r)
  {
    match r
    case Ok((s, e)) => assert a + (b + s) == (a + b) + s;
    case Err(_) =>
  }

  /** How the loop of `read_operation` ends: with the operator, or by handing
      over to the comment or the regular-expression reader. */
  datatype OperatorExit = RunEnds | CommentFollows | RegexFollows

  /** A method result `r` with the lexer stopped at `pos` agrees with a scan. */
  predicate Agrees(r: Result<Token, string>, pos: nat, spec: Result<(Token, nat), string>)
  {
    match spec
    case Ok((t, e)) => r == Ok(t) && pos == e
    case Err(m) => r == Err(m)
  }

  // ---------------------------------------------------------------------------
  // Whitespace: how skipping blanks moves the reported position

  function StepBlank(p: Position, c: char): Position
  {
    if c == '\n' then Position(p.line + 1, 1)
    else if c == '\r' then p
    else Position(p.line, p.column + 1)
  }

  /** The position reached from `p` after skipping the blank characters `s`. */
  function AfterBlanks(p: Position, s: seq<char>): Position
    decreases |s|
  {
    if s == [] then p else StepBlank(AfterBlanks(p, s[..|s| - 1]), s[|s| - 1])
  }

  lemma AfterBlanksSnoc(p: Position, s: seq<char>, a: nat, b: nat)
    requires a <= b < |s|
    ensures AfterBlanks(p, s[a..b + 1]) == StepBlank(AfterBlanks(p, s[a..b]), s[b])
  {
    assert s[a..b + 1][..b - a] == s[a..b];
  }

  /** Skipping blanks moves one line down per line feed. */
  lemma {:induction false} AfterBlanksLine(p: Position, s: seq<char>)
    ensures AfterBlanks(p, s).line == p.line + Count(s, '\n')
    decreases |s|
  {
    if s != [] {
      AfterBlanksLine(p, s[..|s| - 1]);
    }
  }

  /** Without a line feed, every space and tab moves one column right and a
      carriage return does not move at all. */
  lemma {:induction false} AfterBlanksSameLine(p: Position, s: seq<char>)
    requires forall k :: 0 <= k < |s| ==> IsBlank(s[k])
    requires '\n' !in s
    ensures AfterBlanks(p, s).column == p.column + Count(s, ' ') + Count(s, '\t')
    decreases |s|
  {
    if s != [] {
      assert s[|s| - 1] in s;
      AfterBlanksSameLine(p, s[..|s| - 1]);
    }
  }

  /** After the last line feed the column restarts at 1 and counts the spaces
      and tabs that follow it. */
  lemma {:induction false} AfterBlanksNewLine(p: Position, a: seq<char>, b: seq<char>)
    requires forall k :: 0 <= k < |b| ==> IsBlank(b[k])
    requires '\n' !in b
    ensures AfterBlanks(p, a + "\n" + b).column == 1 + Count(b, ' ') + Count(b, '\t')
    decreases |b|
  {
    var s := a + "\n" + b;
    if b == [] {
      assert s[..|s| - 1] == a;
    } else {
      assert s[..|s| - 1] == a + "\n" + b[..|b| - 1];
      assert b[|b| - 1] in b;
      AfterBlanksNewLine(p, a, b[..|b| - 1]);
    }
  }

  // ---------------------------------------------------------------------------
  // Words and reserved words (read_word)

  /** The reserved-word table of `read_word`. */
  function KeywordOf(w: string): Option<Token>
  {
    match w
    case "var" => Some(Var)
    case "let" => Some(Let)
    case "const" => Some(Const)
    case "undefined" => Some(Undefined)
    case "null" => Some(Null)
    case "await" => Some(Await)
    case "async" => Some(Async)
    case "function" => Some(Function)
    case "with" => Some(With)
    case "delete" => Some(Delete)
    case "if" => Some(If)
    case "switch" => Some(Switch)
    case "case" => Some(Case)
    case "default" => Some(Default)
    case "break" => Some(Break)
    case "continue" => Some(Continue)
    case "for" => Some(For)
    case "while" => Some(While)
    case "return" => Some(Return)
    case "true" => Some(True)
    case "false" => Some(False)
    case "else" => Some(Else)
    case "in" => Some(In)
    case "do" => Some(Do)
    case "try" => Some(Try)
    case "catch" => Some(Catch)
    case "finally" => Some(Finally)
    case "throw" => Some(Throw)
    case "new" => Some(New)
    case "this" => Some(This)
    case "instanceof" => Some(Instanceof)
    case "typeof" => Some(Typeof)
    case "class" => Some(Class)
    case "void" => Some(Void)
    case "yield" => Some(Yield)
    case "debugger" => Some(Debugger)
    case _ => None
  }

  function ClassifyWord(w: string): Token
  {
    match KeywordOf(w)
    case Some(t) => t
    case None => Variable(w)
  }

  /** Every reserved word is read back from its printed spelling. */
  lemma KeywordRoundTrip(t: Token)
    requires IsKeyword(t)
    ensures KeywordOf(Display(t)) == Some(t)
    ensures ClassifyWord(Display(t)) == t
  {
    if t == Var || t == Let || t == Const || t == True || t == False || t == Undefined ||
        t == Null || t == Await || t == Async {
      KeywordsRead1(t);
    } else if t == Function || t == With || t == Delete || t == If || t == Else || t == Switch ||
        t == Case || t == Default || t == Break {
      KeywordsRead2(t);
    } else if t == Continue || t == For || t == In || t == Do || t == While || t == Return ||
        t == Try || t == Catch || t == Finally {
      KeywordsRead3(t);
    } else if t == Throw || t == New || t == This || t == Instanceof || t == Typeof {
      KeywordsRead4(t);
    } else {
      KeywordsRead5(t);
    }
  }

  lemma KeywordsRead1(t: Token)
    requires t == Var || t == Let || t == Const || t == True || t == False || t == Undefined ||
        t == Null || t == Await || t == Async
    ensures KeywordOf(Display(t)) == Some(t)
  {
  }

  lemma KeywordsRead2(t: Token)
    requires t == Function || t == With || t == Delete || t == If || t == Else || t == Switch ||
        t == Case || t == Default || t == Break
    ensures KeywordOf(Display(t)) == Some(t)
  {
  }

  lemma KeywordsRead3(t: Token)
    requires t == Continue || t == For || t == In || t == Do || t == While || t == Return ||
        t == Try || t == Catch || t == Finally
    ensures KeywordOf(Display(t)) == Some(t)
  {
  }

  lemma KeywordsRead4(t: Token)
    requires t == Throw || t == New || t == This || t == Instanceof || t == Typeof
    ensures KeywordOf(Display(t)) == Some(t)
  {
  }

  lemma KeywordsRead5(t: Token)
    requires t == Class || t == Void || t == Yield || t == Debugger
    ensures KeywordOf(Display(t)) == Some(t)
  {
  }

  /** The word table yields nothing but reserved words, each read from its own
      display text, so every other word is an identifier. */
  lemma KeywordOfSound(w: string)
    ensures KeywordOf(w).Some? ==> IsKeyword(KeywordOf(w).value)
    ensures KeywordOf(w).Some? ==> Display(KeywordOf(w).value) == w
    ensures KeywordOf(w).None? ==> ClassifyWord(w) == Variable(w)
  {
  }

  /** A word is the longest run of letters, digits and underscores. */
  function ScanWord(input: seq<char>, i: nat): (r: (Token, nat))
    requires i < |input| && IsWordStart(input[i])
    ensures i < r.1 <= |input|
    ensures forall k :: i <= k < r.1 ==> IsWordChar(input[k])
    ensures r.1 == |input| || !IsWordChar(input[r.1])
    ensures r.0 == ClassifyWord(input[i..r.1])
  {
    var e := SpanEnd(input, i + 1, IsWordChar);
    (ClassifyWord(input[i..e]), e)
  }

  // ---------------------------------------------------------------------------
  // Strings (read_string)

  function Unescape(c: char): char
  {
    if c == 'r' then '\r' else if c == 'n' then '\n' else '\t'
  }

  function StringLineError(line: nat): string
  {
    "string format error, unsupported \\n, line: " + NatToString(line)
  }

  /** What the string reader does with one character `c`, given whether a
      backslash is pending: emit characters and update the pending backslash,
      close the literal, or reject an unescaped line feed. */
  datatype StringStep = Emit(chars: string, escaped: bool) | Close | LineFeedError

  function StringStepOf(c: char, q: char, escaped: bool): StringStep
  {
    if IsQuote(c) then
      if c == q && !escaped then Close else Emit([c], if c == q then false else escaped)
    else if c == 'r' || c == 'n' || c == 't' then
      Emit([if escaped then Unescape(c) else c], false)
    else if c == '\n' then
      if escaped then Emit([c], false) else LineFeedError
    else if c == '\\' then
      if escaped then Emit([c], false) else Emit([], true)
    else Emit([c], false)
  }

  /** Decodes the body of a string literal quoted by `q` from index `i`, with
      `escaped` telling whether a backslash is pending.  The result is the
      decoded text and the index just past the closing quote (or the end of the
      input, where the literal silently ends). */
  function StringFrom(input: seq<char>, i: nat, q: char, escaped: bool, line: nat)
    : (r: Result<(string, nat), string>)
    requires i <= |input|
    ensures r.Ok? ==> i <= r.value.1 <= |input|
    decreases |input| - i
  {
    if i == |input| then Ok(([], i))
    else
      match StringStepOf(input[i], q, escaped)
      case Close => Ok(([], i + 1))
      case LineFeedError => Err(StringLineError(line))
      case Emit(cs, esc) => Prepend(cs, StringFrom(input, i + 1, q, esc, line))
  }

  function ScanString(input: seq<char>, i: nat, line: nat): (r: Result<(Token, nat), string>)
    requires i < |input| && IsQuote(input[i])
    ensures r.Ok? ==> i < r.value.1 <= |input| && r.value.0.String?
  {
    match StringFrom(input, i + 1, input[i], false, line)
    case Ok((w, e)) => Ok((String(w), e))
    case Err(m) => Err(m)
  }

  /** How a character has to be written inside a literal quoted by `q`. */
  function EscapeChar(c: char, q: char): string
  {
    if c == '\\' then "\\\\"
    else if c == q then ['\\', q]
    else if c == '\n' then "\\n"
    else if c == '\r' then "\\r"
    else if c == '\t' then "\\t"
    else [c]
  }

  function Escape(w: string, q: char): string
    decreases |w|
  {
    if w == [] then [] else EscapeChar(w[0], q) + Escape(w[1..], q)
  }

  /** The text `t` occurs in `input` at index `i`, one character at a time. */
  predicate HasAt(input: seq<char>, i: nat, t: seq<char>)
    decreases |t|
  {
    if t == [] then i <= |input|
    else i < |input| && input[i] == t[0] && HasAt(input, i + 1, t[1..])
  }

  lemma {:induction false} HasAtSlice(input: seq<char>, i: nat, t: seq<char>)
    requires i + |t| <= |input| && input[i..i + |t|] == t
    ensures HasAt(input, i, t)
    decreases |t|
  {
    if t != [] {
      assert input[i] == t[0];
      assert input[i + 1..i + 1 + |t[1..]|] == t[1..];
      HasAtSlice(input, i + 1, t[1..]);
    }
  }

  lemma {:induction false} HasAtAppend(input: seq<char>, i: nat, a: seq<char>, b: seq<char>)
    requires HasAt(input, i, a + b)
    ensures HasAt(input, i, a) && HasAt(input, i + |a|, b)
    decreases |a|
  {
    if a == [] {
      assert a + b == b;
      assert i <= |input|;
    } else {
      assert (a + b)[0] == a[0] && (a + b)[1..] == a[1..] + b;
      HasAtAppend(input, i + 1, a[1..], b);
    }
  }

  /** A character written as itself decodes to itself. */
  lemma StringFromPlainChar(input: seq<char>, n: nat, c: char, q: char, line: nat)
    requires IsQuote(q) && |EscapeChar(c, q)| == 1
    requires n < |input| && input[n] == c
    ensures StringFrom(input, n, q, false, line) == Prepend([c], StringFrom(input, n + 1, q, false, line))
  {
    assert StringStepOf(c, q, false) == Emit([c], false);
  }

  /** A character written as a backslash pair decodes to itself. */
  lemma StringFromEscapedChar(input: seq<char>, n: nat, c: char, q: char, line: nat)
    requires IsQuote(q) && |EscapeChar(c, q)| == 2
    requires n + 1 < |input| && input[n] == '\\' && input[n + 1] == EscapeChar(c, q)[1]
    ensures StringFrom(input, n, q, false, line) == Prepend([c], StringFrom(input, n + 2, q, false, line))
  {
    assert StringStepOf(input[n + 1], q, true) == Emit([c], false);
    assert StringFrom(input, n, q, false, line) == Prepend([], StringFrom(input, n + 1, q, true, line));
    PrependEmpty(StringFrom(input, n + 1, q, true, line));
  }

  /** One escaped character decodes to itself, in front of whatever the rest
      of the input decodes to. */
  lemma StringFromEscapeChar(input: seq<char>, n: nat, c: char, t: string, e: nat, q: char, line: nat)
    requires IsQuote(q)
    requires n + |EscapeChar(c, q)| <= e <= |input| && HasAt(input, n, EscapeChar(c, q))
    requires StringFrom(input, n + |EscapeChar(c, q)|, q, false, line) == Prepend(t, StringFrom(input, e, q, false, line))
    ensures StringFrom(input, n, q, false, line) == Prepend([c] + t, StringFrom(input, e, q, false, line))
  {
    var ec := EscapeChar(c, q);
    assert input[n] == ec[0];
    if |ec| == 2 {
      assert HasAt(input, n + 1, ec[1..]);
      assert input[n + 1] == ec[1];
      StringFromEscapedChar(input, n, c, q, line);
    } else {
      StringFromPlainChar(input, n, c, q, line);
    }
    PrependPrepend([c], t, StringFrom(input, e, q, false, line));
  }

  /** Decoding an escaped text gives the text back, whatever follows it; the
      escaped text ends at `e`. */
  lemma {:induction false} StringFromEscape(input: seq<char>, i: nat, e: nat, w: string, q: char, line: nat)
    requires IsQuote(q)
    requires e == i + |Escape(w, q)| && e <= |input| && HasAt(input, i, Escape(w, q))
    ensures StringFrom(input, i, q, false, line) == Prepend(w, StringFrom(input, e, q, false, line))
    decreases |w|, 1
  {
    if w == [] {
      StringFromNoText(input, i, e, w, q, line);
    } else {
      StringFromEscapeCons(input, i, e, w, q, line);
    }
  }

  lemma StringFromNoText(input: seq<char>, i: nat, e: nat, w: string, q: char, line: nat)
    requires w == [] && e == i + |Escape(w, q)| && e <= |input|
    ensures StringFrom(input, i, q, false, line) == Prepend(w, StringFrom(input, e, q, false, line))
  {
    assert Escape(w, q) == [];
    PrependEmpty(StringFrom(input, i, q, false, line));
  }

  /** The step of the decoding round trip: the first character, then the rest. */
  lemma {:induction false} StringFromEscapeCons(input: seq<char>, i: nat, e: nat, w: string, q: char, line: nat)
    requires IsQuote(q) && w != []
    requires e == i + |Escape(w, q)| && e <= |input| && HasAt(input, i, Escape(w, q))
    ensures StringFrom(input, i, q, false, line) == Prepend(w, StringFrom(input, e, q, false, line))
    decreases |w|, 0
  {
    var c := w[0];
    var ec := EscapeChar(c, q);
    var tl := Escape(w[1..], q);
    assert Escape(w, q) == ec + tl;
    HasAtAppend(input, i, ec, tl);
    StringFromEscape(input, i + |ec|, e, w[1..], q, line);
    StringFromEscapeChar(input, i, c, w[1..], e, q, line);
    assert [c] + w[1..] == w;
  }

  /** String literals round-trip: an escaped text between matching quotes is
      read back exactly, and the lexer stops right after the closing quote. */
  lemma StringRoundTrip(w: string, q: char, rest: seq<char>, line: nat)
    requires IsQuote(q)
    ensures var input := [q] + Escape(w, q) + [q] + rest;
      ScanString(input, 0, line) == Ok((String(w), |Escape(w, q)| + 2))
  {
    var input := [q] + Escape(w, q) + [q] + rest;
    assert input[1..1 + |Escape(w, q)|] == Escape(w, q);
    HasAtSlice(input, 1, Escape(w, q));
    StringFromEscape(input, 1, 1 + |Escape(w, q)|, w, q, line);
    var e := 1 + |Escape(w, q)|;
    assert input[e] == q;
    assert StringFrom(input, e, q, false, line) == Ok(([], e + 1));
    assert w + [] == w;
  }

  /** A literal that is never closed is not an error: it ends with the input. */
  lemma UnterminatedString(w: string, q: char, line: nat)
    requires IsQuote(q)
    ensures var input := [q] + Escape(w, q);
      ScanString(input, 0, line) == Ok((String(w), |input|))
  {
    var input := [q] + Escape(w, q);
    assert input[1..1 + |Escape(w, q)|] == Escape(w, q);
    HasAtSlice(input, 1, Escape(w, q));
    StringFromEscape(input, 1, 1 + |Escape(w, q)|, w, q, line);
    assert w + [] == w;
  }

  /** A line feed inside a literal must be escaped. */
  lemma StringRawLineFeed(input: seq<char>, i: nat, q: char, line: nat)
    requires i < |input| && input[i] == '\n'
    ensures StringFrom(input, i, q, false, line) == Err(StringLineError(line))
    ensures StringFrom(input, i, q, true, line).Ok? ==> StringFrom(input, i, q, true, line).value.0[0] == '\n'
  {
  }

  // ---------------------------------------------------------------------------
  // Comments, numbers and template strings

  /** A line comment runs up to, not including, the next line break. */
  function ScanComment(input: seq<char>, i: nat): (r: (Token, nat))
    requires i <= |input|
    ensures i <= r.1 <= |input| && r.0 == Comment(input[i..r.1])
    ensures forall k :: i <= k < r.1 ==> IsCommentChar(input[k])
    ensures r.1 == |input| || input[r.1] == '\r' || input[r.1] == '\n'
  {
    var e := SpanEnd(input, i, IsCommentChar);
    (Comment(input[i..e]), e)
  }

  /** Whether the last character of `w` other than `_` is an exponent mark. */
  function PendingExponent(w: seq<char>): bool
    decreases |w|
  {
    if w == [] then false
    else if w[|w| - 1] == '_' then PendingExponent(w[..|w| - 1])
    else w[|w| - 1] == 'e'
  }

  /** An exponent is pending exactly when an `e` is followed by underscores only. */
  lemma {:induction false} PendingExponentMeans(w: seq<char>)
    ensures PendingExponent(w) <==>
      exists k :: 0 <= k < |w| && w[k] == 'e' && forall j :: k < j < |w| ==> w[j] == '_'
    decreases |w|
  {
    if w != [] {
      var n := |w| - 1;
      var v := w[..n];
      PendingExponentMeans(v);
      if w[n] == '_' {
        forall k | 0 <= k < |v| && v[k] == 'e' && (forall j :: k < j < |v| ==> v[j] == '_')
          ensures w[k] == 'e' && forall j :: k < j < |w| ==> w[j] == '_'
        {
        }
        forall k | 0 <= k < |w| && w[k] == 'e' && (forall j :: k < j < |w| ==> w[j] == '_')
          ensures k < |v| && v[k] == 'e' && forall j :: k < j < |v| ==> v[j] == '_'
        {
        }
      } else if w[n] == 'e' {
        assert w[n] == 'e';
      } else {
        assert forall k :: 0 <= k < |w| && w[k] == 'e' ==> k < n && w[n] != '_';
      }
    }
  }

  /** A number is a digit followed by digits, underscores and exponent marks;
      it is rejected when an exponent mark has no digit after it.  A dot is not
      part of a number. */
  function ScanDigit(input: seq<char>, i: nat): (r: Result<(Token, nat), string>)
    requires i < |input| && IsDecimal(input[i])
    ensures r.Ok? ==> i < r.value.1 <= |input|
  {
    var e := SpanEnd(input, i + 1, IsNumberChar);
    if PendingExponent(input[i..e]) then Err("digit syntax error") else Ok((Digit(input[i..e]), e))
  }

  /** The number forms the lexer's own tests use. */
  lemma DigitExamples()
    ensures ScanDigit("1e3", 0) == Ok((Digit("1e3"), 3))
    ensures ScanDigit("1e", 0) == Err("digit syntax error")
    ensures ScanDigit("1.5", 0) == Ok((Digit("1"), 1))
  {
    assert SpanEnd("1e3", 1, IsNumberChar) == 3 by { SpanEndUnique("1e3", 1, IsNumberChar, 3); }
    assert "1e3"[0..3] == "1e3";
    assert SpanEnd("1e", 1, IsNumberChar) == 2 by { SpanEndUnique("1e", 1, IsNumberChar, 2); }
    assert "1e"[0..2] == "1e";
    assert SpanEnd("1.5", 1, IsNumberChar) == 1 by { SpanEndUnique("1.5", 1, IsNumberChar, 1); }
    assert "1.5"[0..1] == "1";
  }

  /** A template string runs to the next backquote, which is consumed. */
  function ScanTemplate(input: seq<char>, i: nat): (r: Result<(Token, nat), string>)
    requires i < |input| && input[i] == '`'
    ensures r.Err? <==> forall k :: i < k < |input| ==> input[k] != '`'
    ensures r.Err? ==> r.error == "template string error"
    ensures r.Ok? ==> var e := r.value.1;
      i + 2 <= e <= |input| && input[e - 1] == '`' && r.value.0 == TemplateStr(input[i + 1..e - 1])
      && forall k :: i < k < e - 1 ==> input[k] != '`'
  {
    var e := SpanEnd(input, i + 1, IsNotBacktick);
    if e == |input| then Err("template string error") else Ok((TemplateStr(input[i + 1..e]), e + 1))
  }

  // ---------------------------------------------------------------------------
  // Regular expressions (read_regex)

  /** The body characters the reader keeps: flag letters are dropped. */
  function DropFlags(s: seq<char>): seq<char>
    decreases |s|
  {
    if s == [] then []
    else DropFlags(s[..|s| - 1]) + (if IsRegexFlag(s[|s| - 1]) then [] else [s[|s| - 1]])
  }

  /** Dropping flag letters keeps every other character, e.g. backslashes. */
  lemma {:induction false} DropFlagsCount(s: seq<char>, c: char)
    requires !IsRegexFlag(c)
    ensures Count(DropFlags(s), c) == Count(s, c)
    decreases |s|
  {
    if s != [] {
      var last := s[|s| - 1];
      DropFlagsCount(s[..|s| - 1], c);
      CountAppend(DropFlags(s[..|s| - 1]), if IsRegexFlag(last) then [] else [last], c);
    }
  }

  lemma DropFlagsSnoc(input: seq<char>, a: nat, b: nat)
    requires a <= b < |input|
    ensures DropFlags(input[a..b + 1])
      == DropFlags(input[a..b]) + (if IsRegexFlag(input[b]) then [] else [input[b]])
  {
    assert input[a..b + 1][..b - a] == input[a..b];
  }

  lemma {:induction false} DropFlagsNoFlag(s: seq<char>)
    ensures forall k :: 0 <= k < |DropFlags(s)| ==> !IsRegexFlag(DropFlags(s)[k])
    decreases |s|
  {
    if s != [] {
      DropFlagsNoFlag(s[..|s| - 1]);
    }
  }

  /** The body characters after the first one: as written (`keepFlagLetters`
      false) without the flag letters, corrected all of them. */
  function RegexBody(s: seq<char>, keepFlagLetters: bool): seq<char>
  {
    if keepFlagLetters then s else DropFlags(s)
  }

  lemma RegexBodySnoc(input: seq<char>, a: nat, b: nat, keepFlagLetters: bool)
    requires a <= b < |input|
    ensures RegexBody(input[a..b + 1], keepFlagLetters)
      == RegexBody(input[a..b], keepFlagLetters)
         + (if IsRegexFlag(input[b]) && !keepFlagLetters then [] else [input[b]])
  {
    if keepFlagLetters {
      assert input[a..b + 1] == input[a..b] + [input[b]];
    } else {
      DropFlagsSnoc(input, a, b);
    }
  }

  /** One more body character read after `c` and the body so far. */
  lemma RegexBodyGrows(input: seq<char>, a: nat, b: nat, keepFlagLetters: bool, c: char, w: seq<char>)
    requires a <= b < |input|
    requires w == [c] + RegexBody(input[a..b], keepFlagLetters)
    ensures IsRegexFlag(input[b]) && !keepFlagLetters ==> w == [c] + RegexBody(input[a..b + 1], keepFlagLetters)
    ensures !(IsRegexFlag(input[b]) && !keepFlagLetters) ==>
      w + [input[b]] == [c] + RegexBody(input[a..b + 1], keepFlagLetters)
  {
    RegexBodySnoc(input, a, b, keepFlagLetters);
    var kept := RegexBody(input[a..b], keepFlagLetters);
    assert w + [input[b]] == [c] + (kept + [input[b]]);
  }

  predicate DistinctFlags(f: string)
  {
    (forall k :: 0 <= k < |f| ==> IsRegexFlag(f[k]))
    && (forall a, b :: 0 <= a < b < |f| ==> f[a] != f[b])
  }

  /** Reads the flags after the closing `/`: letters among `igmsuy`, each at
      most once, ended by any character that is not a lower-case letter, digit
      or underscore. */
  function ScanFlags(input: seq<char>, j: nat, acc: string): (r: Result<(string, nat), string>)
    requires j <= |input|
    ensures r.Ok? ==> j <= r.value.1 <= |input| && r.value.0 == acc + input[j..r.value.1]
    ensures r.Ok? && DistinctFlags(acc) ==> DistinctFlags(r.value.0)
    ensures r.Ok? ==> r.value.1 == |input| || !IsRegexWordChar(input[r.value.1])
    decreases |input| - j
  {
    if j == |input| then Ok((acc, j))
    else
      var d := input[j];
      if d == '/' then Err("expect regex flags, but found /")
      else if IsRegexWordChar(d) then
        if IsRegexFlag(d) then
          if d in acc then Err("repeated regex flags")
          else
            var r := ScanFlags(input, j + 1, acc + [d]);
            assert r.Ok? ==> input[j..r.value.1] == [d] + input[j + 1..r.value.1];
            r
        else Err("regex expect newline or semicolon")
      else Ok((acc, j))
  }

  /** A regular expression starting at `i`, just after the opening `/`: its
      body runs to the next `/`; as written the flag letters after its first
      character are left out of it, corrected the body is the whole text
      between the slashes. */
  function ScanRegex(input: seq<char>, i: nat, keepFlagLetters: bool): (r: Result<(Token, nat), string>)
    requires i < |input|
    ensures input[i] == '/' ==> r == Err("expect regex, but find //")
    ensures input[i] != '/' && SpanEnd(input, i + 1, IsNotSlash) == |input| ==> r == Err("regex syntax error")
    ensures r.Ok? ==> var b := SpanEnd(input, i + 1, IsNotSlash);
      b < |input| && b < r.value.1 <= |input|
      && r.value.0.Regex? && r.value.0.body == [input[i]] + RegexBody(input[i + 1..b], keepFlagLetters)
      && r.value.0.flags == input[b + 1..r.value.1] && DistinctFlags(r.value.0.flags)
    ensures r.Ok? && keepFlagLetters ==> r.value.0.body == input[i..SpanEnd(input, i + 1, IsNotSlash)]
  {
    if input[i] == '/' then Err("expect regex, but find //")
    else
      var b := SpanEnd(input, i + 1, IsNotSlash);
      if b == |input| then Err("regex syntax error")
      else
        match ScanFlags(input, b + 1, [])
        case Err(m) => Err(m)
        case Ok((flags, e)) => Ok((Regex([input[i]] + RegexBody(input[i + 1..b], keepFlagLetters), flags), e))
  }

  /** Backslashes in a regular expression body are kept as written. */
  lemma RegexKeepsBackslashes(input: seq<char>, i: nat, keepFlagLetters: bool)
    requires i < |input|
    requires ScanRegex(input, i, keepFlagLetters).Ok?
    ensures var b := SpanEnd(input, i + 1, IsNotSlash);
      Count(ScanRegex(input, i, keepFlagLetters).value.0.body, '\\') == Count(input[i..b], '\\')
  {
    var b := SpanEnd(input, i + 1, IsNotSlash);
    assert input[i..b] == [input[i]] + input[i + 1..b];
    RegexBodyCount(input[i], input[i + 1..b], keepFlagLetters, '\\');
  }

  lemma RegexBodyCount(first: char, s: seq<char>, keepFlagLetters: bool, c: char)
    requires !IsRegexFlag(c)
    ensures Count([first] + RegexBody(s, keepFlagLetters), c) == Count([first] + s, c)
  {
    if !keepFlagLetters {
      DropFlagsCount(s, c);
      CountAppend([first], DropFlags(s), c);
      CountAppend([first], s, c);
    }
  }

  /** Dropping flag letters never lengthens a text, and shortens one that holds a flag letter. */
  lemma {:induction false} DropFlagsShorter(s: seq<char>, k: nat)
    ensures |DropFlags(s)| <= |s|
    ensures k < |s| && IsRegexFlag(s[k]) ==> |DropFlags(s)| < |s|
    decreases |s|
  {
    if s != [] {
      var front := s[..|s| - 1];
      if k < |front| {
        assert front[k] == s[k];
      }
      DropFlagsShorter(front, k);
    }
  }

  /** As written, a body holding a flag letter after its first character is
      not the text between the slashes. */
  lemma RegexAsWrittenLosesLetters(input: seq<char>, i: nat, k: nat)
    requires i < |input| && ScanRegex(input, i, false).Ok?
    requires i < k < SpanEnd(input, i + 1, IsNotSlash) && IsRegexFlag(input[k])
    ensures ScanRegex(input, i, false).value.0.body != input[i..SpanEnd(input, i + 1, IsNotSlash)]
  {
    var b := SpanEnd(input, i + 1, IsNotSlash);
    var tail := input[i + 1..b];
    assert tail[k - i - 1] == input[k];
    DropFlagsShorter(tail, k - i - 1);
  }

  /** `/this/` read both ways: as written the body is `th`, corrected `this`. */
  lemma RegexThis()
    ensures ScanRegex("this/", 0, false) == Ok((Regex("th", ""), 5))
    ensures ScanRegex("this/", 0, true) == Ok((Regex("this", ""), 5))
  {
    var input := "this/";
    SpanEndUnique(input, 1, IsNotSlash, 4);
    assert input[1..4] == "his";
    assert ScanFlags(input, 5, []) == Ok(([], 5));
    assert DropFlags("his") == "h" by {
      assert "his"[..2] == "hi" && "hi"[..1] == "h" && "h"[..0] == [];
    }
    assert [input[0]] + DropFlags("his") == "th";
    assert [input[0]] + "his" == "this";
  }

  // ---------------------------------------------------------------------------
  // Operators (read_operation) and the dispatch of `next`

  /** An operator is the longest run of operator characters, except that a `/`
      starts a line comment when followed by `/` and a regular expression when
      followed by anything else. */
  function ScanOperator(input: seq<char>, i: nat, keepFlagLetters: bool): (r: Result<(Token, nat), string>)
    requires i < |input| && IsOperatorStart(input[i])
    ensures r.Ok? ==> i < r.value.1 <= |input|
  {
    if input[i] == '/' then
      if i + 1 == |input| then Ok((Control("/"), i + 1))
      else if input[i + 1] == '/' then Ok(ScanComment(input, i + 2))
      else ScanRegex(input, i + 1, keepFlagLetters)
    else
      var e := SpanEnd(input, i + 1, IsOperatorChar);
      Ok((Control(input[i..e]), e))
  }

  /** What `ScanOperator` produces: a maximal operator run, a bare `/` at the
      end of the input, a comment, or a regular expression. */
  lemma OperatorShape(input: seq<char>, i: nat, keepFlagLetters: bool)
    requires i < |input| && IsOperatorStart(input[i])
    ensures var r := ScanOperator(input, i, keepFlagLetters);
      (input[i] != '/' ==>
        r.Ok? && r.value.0 == Control(input[i..r.value.1])
        && (forall k :: i < k < r.value.1 ==> IsOperatorChar(input[k]))
        && (r.value.1 == |input| || !IsOperatorChar(input[r.value.1])))
      && (input[i] == '/' && i + 1 == |input| ==> r == Ok((Control("/"), i + 1)))
      && (input[i] == '/' && i + 1 < |input| && input[i + 1] == '/' ==>
            r == Ok(ScanComment(input, i + 2)))
      && (input[i] == '/' && i + 1 < |input| && input[i + 1] != '/' ==> r == ScanRegex(input, i + 1, keepFlagLetters))
  {
  }

  /** The token that starts at the non-blank index `k`. */
  function ScanToken(input: seq<char>, k: nat, line: nat, keepFlagLetters: bool): (r: Result<(Token, nat), string>)
    requires k < |input| && !IsBlank(input[k])
    ensures r.Ok? ==> k < r.value.1 <= |input| && r.value.0 != EOF
  {
    var c := input[k];
    if IsQuote(c) then ScanString(input, k, line)
    else if IsOperatorStart(c) then ScanOperator(input, k, keepFlagLetters)
    else if IsControlChar(c) then Ok((Control([c]), k + 1))
    else if IsWordStart(c) then Ok(ScanWord(input, k))
    else if IsDecimal(c) then ScanDigit(input, k)
    else if c == '`' then ScanTemplate(input, k)
    else Err("Unrecognized character " + [c])
  }

  /** Single-character control tokens, and the error for a character that
      starts no token. */
  lemma TokenDispatch(input: seq<char>, k: nat, line: nat, keepFlagLetters: bool)
    requires k < |input| && !IsBlank(input[k])
    ensures IsControlChar(input[k]) ==> ScanToken(input, k, line, keepFlagLetters) == Ok((Control([input[k]]), k + 1))
    ensures !(IsQuote(input[k]) || IsOperatorStart(input[k]) || IsControlChar(input[k])
              || IsWordStart(input[k]) || IsDecimal(input[k]) || input[k] == '`')
            ==> ScanToken(input, k, line, keepFlagLetters) == Err("Unrecognized character " + [input[k]])
  {
  }

  // ---------------------------------------------------------------------------
  // The lexer object

  /** The lexer over one input.  `keepFlagLetters` selects how a regular
      expression body is read: false as `read_regex` is written, true as
      corrected. */
  class Lexer {
    const input: seq<char>
    const keepFlagLetters: bool
    var pos: nat
    var line: nat
    var column: nat

    ghost predicate Valid()
      reads this
    {
      pos <= |input| && line >= 1 && column >= 1
    }

    constructor (input: seq<char>, keepFlagLetters: bool)
      ensures Valid()
      ensures this.input == input && this.keepFlagLetters == keepFlagLetters
      ensures pos == 0 && line == 1 && column == 1
    {
      this.input := input;
      this.keepFlagLetters := keepFlagLetters;
      pos := 0;
      line := 1;
      column := 1;
    }

    /** Skips blanks, then reads one token; at the end of the input it returns
        `EOF` without moving, so it keeps returning `EOF`.  A token never
        spans lines and its end column is its start column plus its length. */
    method Next() returns (r: Result<(Token, Loc), string>)
      requires Valid()
      modifies this
      ensures Valid()
      ensures var k := SpanEnd(input, old(pos), IsBlank);
        var st := AfterBlanks(Position(old(line), old(column)), input[old(pos)..k]);
        if k == |input| then
          r == Ok((EOF, Loc(st, st))) && pos == k && line == st.line && column == st.column
        else
          match ScanToken(input, k, st.line, keepFlagLetters)
          case Ok((t, e)) =>
            r == Ok((t, Loc(st, Position(st.line, st.column + (e - k)))))
            && pos == e && line == st.line && column == st.column + (e - k)
          case Err(m) => r == Err(m)
      ensures old(pos) == |input| ==>
        r == Ok((EOF, Loc(Position(old(line), old(column)), Position(old(line), old(column)))))
        && pos == old(pos) && line == old(line) && column == old(column)
      ensures r.Ok? && r.value.0 != EOF ==> old(pos) < pos
    {
      SkipBlanks();
      var start := Position(line, column);
      if pos == |input| {
        return Ok((EOF, Loc(start, start)));
      }
      var t := ReadToken();
      if t.Err? {
        return Err(t.error);
      }
      r := Ok((t.value, Loc(start, Position(line, column))));
    }

    /** The blank-skipping loop at the start of `next`. */
    method SkipBlanks()
      requires Valid()
      modifies this
      ensures Valid()
      ensures pos == SpanEnd(input, old(pos), IsBlank)
      ensures Position(line, column) == AfterBlanks(Position(old(line), old(column)), input[old(pos)..pos])
    {
      ghost var p0 := pos;
      ghost var at0 := Position(line, column);
      while pos < |input| && IsBlank(input[pos])
        invariant p0 <= pos <= |input| && line >= 1 && column >= 1
        invariant forall k :: p0 <= k < pos ==> IsBlank(input[k])
        invariant Position(line, column) == AfterBlanks(at0, input[p0..pos])
        decreases |input| - pos
      {
        var c := input[pos];
        AfterBlanksSnoc(at0, input, p0, pos);
        ghost var next := StepBlank(Position(line, column), c);
        if c == ' ' || c == '\t' {
          column := column + 1;
        } else if c == '\n' {
          line := line + 1;
          column := 1;
        }
        assert Position(line, column) == next;
        pos := pos + 1;
      }
      SpanEndUnique(input, p0, IsBlank, pos);
    }

    /** The dispatch of `next` on the first non-blank character. */
    method ReadToken() returns (r: Result<Token, string>)
      requires Valid() && pos < |input| && !IsBlank(input[pos])
      modifies this
      ensures Valid() && line == old(line)
      ensures r.Ok? ==> column == old(column) + (pos - old(pos))
      ensures Agrees(r, pos, ScanToken(input, old(pos), old(line), keepFlagLetters))
    {
      var c := input[pos];
      if IsQuote(c) {
        r := ReadString();
      } else if IsOperatorStart(c) {
        r := ReadOperation();
      } else if IsControlChar(c) {
        pos := pos + 1;
        column := column + 1;
        r := Ok(Control([c]));
      } else if IsWordStart(c) {
        var w := ReadWord();
        r := Ok(w);
      } else if IsDecimal(c) {
        r := ReadDigit();
      } else if c == '`' {
        r := ReadTemplateStr();
      } else {
        r := Err("Unrecognized character " + [c]);
      }
    }

    method ReadWord() returns (t: Token)
      requires Valid() && pos < |input| && IsWordStart(input[pos])
      modifies this
      ensures Valid() && line == old(line) && column == old(column) + (pos - old(pos))
      ensures (t, pos) == ScanWord(input, old(pos))
    {
      ghost var start := pos;
      var word := [input[pos]];
      while true
        invariant start <= pos < |input| && line == old(line) && column == old(column) + (pos - start)
        invariant word == input[start..pos + 1]
        invariant forall k :: start < k <= pos ==> IsWordChar(input[k])
        decreases |input| - pos
      {
        pos := pos + 1;
        column := column + 1;
        if pos == |input| || !IsWordChar(input[pos]) {
          break;
        }
        word := word + [input[pos]];
      }
      SpanEndUnique(input, start + 1, IsWordChar, pos);
      t := ClassifyWord(word);
    }

    method ReadString() returns (r: Result<Token, string>)
      requires Valid() && pos < |input| && IsQuote(input[pos])
      modifies this
      ensures Valid() && line == old(line)
      ensures r.Ok? ==> column == old(column) + (pos - old(pos))
      ensures Agrees(r, pos, ScanString(input, old(pos), old(line)))
    {
      ghost var start := pos;
      var q := input[pos];
      var word: string := [];
      var escaped := false;
      PrependEmpty(StringFrom(input, start + 1, q, false, line));
      while true
        invariant start <= pos < |input| && line == old(line) && column == old(column) + (pos - start)
        invariant StringFrom(input, start + 1, q, false, line)
          == Prepend(word, StringFrom(input, pos + 1, q, escaped, line))
        decreases |input| - pos
      {
        pos := pos + 1;
        column := column + 1;
        if pos == |input| {
          break;
        }
        var c := input[pos];
        ghost var step := StringStepOf(c, q, escaped);
        if step.Emit? {
          PrependPrepend(word, step.chars, StringFrom(input, pos + 1, q, step.escaped, line));
        }
        if c == '"' || c == '\'' {
          if c == q {
            if escaped {
              escaped := false;
            } else {
              pos := pos + 1;
              column := column + 1;
              break;
            }
          }
          word := word + [c];
        } else if c == 'r' || c == 'n' || c == 't' {
          if escaped {
            escaped := false;
            word := word + [Unescape(c)];
          } else {
            word := word + [c];
          }
        } else if c == '\n' {
          if escaped {
            escaped := false;
            word := word + [c];
          } else {
            return Err(StringLineError(line));
          }
        } else if c == '\\' {
          if escaped {
            escaped := false;
            word := word + [c];
          } else {
            escaped := true;
            assert word + [] == word;
          }
        } else {
          word := word + [c];
          escaped := false;
        }
      }
      assert word + [] == word;
      r := Ok(String(word));
    }

    method ReadOperation() returns (r: Result<Token, string>)
      requires Valid() && pos < |input| && IsOperatorStart(input[pos])
      modifies this
      ensures Valid() && line == old(line)
      ensures r.Ok? ==> column == old(column) + (pos - old(pos))
      ensures Agrees(r, pos, ScanOperator(input, old(pos), keepFlagLetters))
    {
      var p, word, exit := OperatorRun(pos);
      column := column + (p - pos);
      pos := p;
      match exit
      case RunEnds =>
        r := Ok(Control(word));
      case CommentFollows =>
        var t := ReadComment();
        r := Ok(t);
      case RegexFollows =>
        r := ReadRegex();
    }

    /** The loop of `read_operation`, from the operator's first character at
        `start`: it ends after the last operator character, after `//` (a
        comment follows) or after a `/` that another character follows (a
        regular expression follows). */
    method OperatorRun(start: nat) returns (p: nat, word: string, exit: OperatorExit)
      requires start < |input| && IsOperatorStart(input[start])
      ensures input[start] != '/' ==>
        exit == RunEnds && p == SpanEnd(input, start + 1, IsOperatorChar) && word == input[start..p]
      ensures input[start] == '/' && start + 1 == |input| ==> exit == RunEnds && p == start + 1 && word == "/"
      ensures input[start] == '/' && start + 1 < |input| && input[start + 1] == '/' ==>
        exit == CommentFollows && p == start + 2
      ensures input[start] == '/' && start + 1 < |input| && input[start + 1] != '/' ==>
        exit == RegexFollows && p == start + 1
    {
      var c := input[start];
      p := start;
      word := [c];
      while true
        invariant start <= p < |input|
        invariant word == input[start..p + 1] && word[0] == c
        invariant p + 1 <= SpanEnd(input, start + 1, IsOperatorChar)
        invariant c == '/' ==>
          (p == start && word == "/") || (p == start + 1 && word == "//" && input[start + 1] == '/')
        decreases |input| - p
      {
        p := p + 1;
        if word == "//" {
          return p, word, CommentFollows;
        }
        if p == |input| {
          break;
        }
        var d := input[p];
        if IsOperatorChar(d) {
          if word == "/" && d != '/' {
            return p, word, RegexFollows;
          }
          SpanEndPast(input, start + 1, IsOperatorChar, p);
          word := word + [d];
        } else {
          if word == "/" {
            return p, word, RegexFollows;
          }
          break;
        }
      }
      exit := RunEnds;
    }

    method ReadRegex() returns (r: Result<Token, string>)
      requires Valid() && pos < |input|
      modifies this
      ensures Valid() && line == old(line)
      ensures r.Ok? ==> column == old(column) + (pos - old(pos))
      ensures Agrees(r, pos, ScanRegex(input, old(pos), keepFlagLetters))
    {
      if input[pos] == '/' {
        return Err("expect regex, but find //");
      }
      var body := ReadRegexBody();
      if body.Err? {
        return Err(body.error);
      }
      var flags := ReadRegexFlags();
      match flags
      case Err(m) => r := Err(m);
      case Ok(f) => r := Ok(Regex(body.value, f));
    }

    /** The body phase of `read_regex`, entered with `pos` at the first body
        character and left with `pos` at the closing `/`. */
    method ReadRegexBody() returns (r: Result<string, string>)
      requires Valid() && pos < |input| && input[pos] != '/'
      modifies this
      ensures Valid() && line == old(line) && column == old(column) + (pos - old(pos))
      ensures var b := SpanEnd(input, old(pos) + 1, IsNotSlash);
        if b == |input| then r == Err("regex syntax error")
        else r == Ok([input[old(pos)]] + RegexBody(input[old(pos) + 1..b], keepFlagLetters)) && pos == b
    {
      var p, word := RegexBodyRun(pos);
      column := column + (p - pos);
      pos := p;
      if pos == |input| {
        return Err("regex syntax error");
      }
      r := Ok(word);
    }

    /** The loop of the body phase: from the first body character `start` up
        to the closing `/` (or the end of the input), collecting the body. */
    method RegexBodyRun(start: nat) returns (e: nat, word: string)
      requires start < |input| && input[start] != '/'
      ensures e == SpanEnd(input, start + 1, IsNotSlash)
      ensures word == [input[start]] + RegexBody(input[start + 1..e], keepFlagLetters)
    {
      var c := input[start];
      var keep := keepFlagLetters;
      var p := start;
      word := [c];
      while p + 1 < |input| && input[p + 1] != '/'
        invariant start <= p < |input|
        invariant p + 1 <= SpanEnd(input, start + 1, IsNotSlash)
        invariant word == [c] + RegexBody(input[start + 1..p + 1], keep)
        decreases |input| - p
      {
        var d := input[p + 1];
        RegexBodyGrows(input, start + 1, p + 1, keep, c, word);
        SpanEndPast(input, start + 1, IsNotSlash, p + 1);
        // A flag letter is a lower-case letter, so only a flag letter is dropped.
        if !(IsRegexWordChar(d) && IsRegexFlag(d)) || keep {
          word := word + [d];
        }
        p := p + 1;
      }
      e := p + 1;
    }

    /** The flag phase of `read_regex`, entered with `pos` at the closing `/`. */
    method ReadRegexFlags() returns (r: Result<string, string>)
      requires Valid() && pos < |input|
      modifies this
      ensures Valid() && line == old(line) && column == old(column) + (pos - old(pos))
      ensures match ScanFlags(input, old(pos) + 1, [])
        case Ok((f, e)) => r == Ok(f) && pos == e
        case Err(m) => r == Err(m)
    {
      var flags: string := [];
      while true
        invariant old(pos) <= pos < |input| && line == old(line) && column == old(column) + (pos - old(pos))
        invariant ScanFlags(input, old(pos) + 1, []) == ScanFlags(input, pos + 1, flags)
        decreases |input| - pos
      {
        pos := pos + 1;
        column := column + 1;
        if pos == |input| {
          break;
        }
        var d := input[pos];
        if d == '/' {
          return Err("expect regex flags, but found /");
        } else if IsRegexWordChar(d) {
          if IsRegexFlag(d) {
            if d in flags {
              return Err("repeated regex flags");
            }
            flags := flags + [d];
          } else {
            return Err("regex expect newline or semicolon");
          }
        } else {
          break;
        }
      }
      r := Ok(flags);
    }

    method ReadComment() returns (t: Token)
      requires Valid()
      modifies this
      ensures Valid() && line == old(line) && column == old(column) + (pos - old(pos))
      ensures (t, pos) == ScanComment(input, old(pos))
    {
      ghost var start := pos;
      var word := [];
      while pos < |input| && IsCommentChar(input[pos])
        invariant start <= pos <= |input| && line == old(line) && column == old(column) + (pos - start)
        invariant word == input[start..pos]
        invariant forall k :: start <= k < pos ==> IsCommentChar(input[k])
        decreases |input| - pos
      {
        word := word + [input[pos]];
        pos := pos + 1;
        column := column + 1;
      }
      SpanEndUnique(input, start, IsCommentChar, pos);
      t := Comment(word);
    }

    method ReadDigit() returns (r: Result<Token, string>)
      requires Valid() && pos < |input| && IsDecimal(input[pos])
      modifies this
      ensures Valid() && line == old(line)
      ensures r.Ok? ==> column == old(column) + (pos - old(pos))
      ensures Agrees(r, pos, ScanDigit(input, old(pos)))
    {
      ghost var start := pos;
      var word := [input[pos]];
      var exponential := false;
      while true
        invariant start <= pos < |input| && line == old(line) && column == old(column) + (pos - start)
        invariant word == input[start..pos + 1]
        invariant forall k :: start < k <= pos ==> IsNumberChar(input[k])
        invariant exponential == PendingExponent(word)
        decreases |input| - pos
      {
        pos := pos + 1;
        column := column + 1;
        if pos == |input| {
          break;
        }
        var c := input[pos];
        if c == '_' {
          word := word + [c];
        } else if IsDecimal(c) {
          word := word + [c];
          exponential := false;
        } else if c == 'e' {
          exponential := true;
          word := word + [c];
        } else {
          break;
        }
        assert word[..|word| - 1] == input[start..pos];
      }
      SpanEndUnique(input, start + 1, IsNumberChar, pos);
      if exponential {
        return Err("digit syntax error");
      }
      r := Ok(Digit(word));
    }

    method ReadTemplateStr() returns (r: Result<Token, string>)
      requires Valid() && pos < |input| && input[pos] == '`'
      modifies this
      ensures Valid() && line == old(line)
      ensures r.Ok? ==> column == old(column) + (pos - old(pos))
      ensures Agrees(r, pos, ScanTemplate(input, old(pos)))
    {
      ghost var start := pos;
      var word := [];
      while true
        invariant start <= pos < |input| && line == old(line) && column == old(column) + (pos - start)
        invariant word == input[start + 1..pos + 1]
        invariant forall k :: start < k <= pos ==> input[k] != '`'
        decreases |input| - pos
      {
        pos := pos + 1;
        column := column + 1;
        if pos == |input| {
          SpanEndUnique(input, start + 1, IsNotBacktick, pos);
          return Err("template string error");
        }
        var c := input[pos];
        if c == '`' {
          SpanEndUnique(input, start + 1, IsNotBacktick, pos);
          pos := pos + 1;
          column := column + 1;
          break;
        }
        word := word + [c];
      }
      r := Ok(TemplateStr(word));
    }
  }
}
