/** The recursive-descent parser (src/parser.rs, the `parse_expression` loop of
    src/express.rs and the builders under src/exp/).  The parser is one class
    over the token list the lexer produces: every builder consumes tokens
    through `Next` and reads the shared flags, so all of them are methods of
    that class.  Each method starts at `pos` and either fails or consumes at
    least one token; that is what makes the mutual recursion terminate. */
module Parsing {
  import opened Wrappers
  import opened Tokens
  import opened Ast
  import opened Express
  import Lexing

  /** A token with the line it sits on (a token never spans lines, so its
      start line and end line agree). */
  datatype Tok = Tok(token: Token, line: nat)

  /** How a turn of the operator loop ended: in front of a token it does not
      fold, after folding an operator, or with a form that ends the loop. */
  datatype Step = Stop | Fold | Finish

  /** `IsArrowFunction`: what the parameter builder has learnt so far about a
      parenthesised list. */
  datatype ArrowState = Impossible | Maybe | Must

  /** A token list as the lexer delivers it: it ends with the one `EOF`. */
  predicate ValidToks(toks: seq<Tok>)
  {
    |toks| > 0 && toks[|toks| - 1].token == EOF
    && forall i :: 0 <= i < |toks| - 1 ==> toks[i].token != EOF
  }

  /** The first index at or after `j` that does not hold a comment. */
  function SkipComments(toks: seq<Tok>, j: nat): (r: nat)
    requires ValidToks(toks) && j < |toks|
    ensures j <= r < |toks| && !toks[r].token.Comment?
    ensures forall k :: j <= k < r ==> toks[k].token.Comment?
    decreases |toks| - j
  {
    if toks[j].token.Comment? then SkipComments(toks, j + 1) else j
  }

  /** Where `next` moves from index `i`: to the next token that is not a
      comment, or nowhere once `EOF` is reached. */
  function NextIndex(toks: seq<Tok>, i: nat): (r: nat)
    requires ValidToks(toks) && i < |toks|
    ensures r < |toks|
    ensures toks[i].token == EOF ==> r == i
    ensures toks[i].token != EOF ==>
      i < r && !toks[r].token.Comment? && forall k :: i < k < r ==> toks[k].token.Comment?
  {
    if toks[i].token == EOF then i else SkipComments(toks, i + 1)
  }

  // ---------------------------------------------------------------------------
  // Token classes and node shapes used by the contracts

  predicate IsOneChar(s: string, c: char)
  {
    |s| == 1 && s[0] == c
  }

  /** The control word made of the one character `c`. */
  predicate IsPunct(t: Token, c: char)
  {
    t.Control? && IsOneChar(t.op, c)
  }

  predicate IsArrowToken(t: Token)
  {
    t.Control? && IsArrowOp(t.op)
  }

  predicate IsUpdateOp(s: string)
  {
    |s| == 2 && (s[0] == '+' || s[0] == '-') && s[1] == s[0]
  }

  predicate IsArrowOp(s: string)
  {
    |s| == 2 && s[0] == '=' && s[1] == '>'
  }

  /** The operators folded as `left op right` with the right side parsed by a
      recursive call: comma, assignments, `.`, binary and logical operators. */
  predicate IsInfixOp(s: string)
  {
    IsOneChar(s, ',') || IsAssignOp(s) || IsOneChar(s, '.') || IsBinaryOp(s) || IsLogicalOp(s)
  }

  /** The control words `parse_expression` accepts as the first token. */
  predicate IsPrefixOp(s: string)
  {
    IsOneChar(s, '+') || IsOneChar(s, '-') || IsOneChar(s, '!') || (|s| == 2 && s[0] == '+' && s[1] == '+')
    || IsOneChar(s, '(') || IsOneChar(s, '[') || IsOneChar(s, '{')
  }

  /** The tokens that become a leaf node by themselves. */
  predicate IsLiteralToken(t: Token)
  {
    t.True? || t.False? || t.This? || t.Null? || t.Undefined? || t.TemplateStr?
    || t.Variable? || t.Digit? || t.String?
  }

  function LiteralNode(t: Token): Node
    requires IsLiteralToken(t)
  {
    match t
    case True => BooleanLiteral(true)
    case False => BooleanLiteral(false)
    case This => ThisExpression
    case Null => NullLiteral
    case Undefined => Identity("undefined")
    case TemplateStr(s) => TemplateLiteral([TemplateElement(s)], [])
    case Variable(s) => Identity(s)
    case Digit(d) => NumericLiteral(d)
    case String(d) => StringLiteral(d)
  }

  /** Each argument that is not one of the early forms was followed by a
      token other than `,`: no comma ever came between two such arguments. */
  predicate NoCommaSplits(args: seq<Node>, followers: seq<Token>)
  {
    |followers| == |args|
    && forall i :: 0 <= i < |args| ==> !EarlyForm(args[i]) ==> !IsPunct(followers[i], ',')
  }

  lemma NoCommaSplitsSnoc(args: seq<Node>, followers: seq<Token>, a: Node, c: Token)
    requires NoCommaSplits(args, followers)
    requires !EarlyForm(a) ==> !IsPunct(c, ',')
    ensures NoCommaSplits(args + [a], followers + [c])
  {
    var args', followers' := args + [a], followers + [c];
    forall i | 0 <= i < |args'|
      ensures !EarlyForm(args'[i]) ==> !IsPunct(followers'[i], ',')
    {
      if i < |args| {
        assert args'[i] == args[i] && followers'[i] == followers[i];
      }
    }
  }

  predicate IsStopToken(t: Token)
  {
    t == EOF || (t.Control? && IsStopWord(t.op))
  }

  /** No operator the loop folds ends it outright. */
  lemma StopTokenStays(t: Token, m: nat)
    requires IsStopToken(t)
    ensures !Folds(t, m)
  {
    if t.Control? {
      assert |t.op| == 1 && !IsFoldOp(t.op);
    }
  }

  /** The error `parse_expression` reports at once when an expression would
      start with `t`, if it does. */
  function StartError(t: Token): Option<string>
  {
    if t.Control? then
      (match GetLevel(t)
       case Err(m) => Some(m)
       case Ok(_) => if IsPrefixOp(t.op) then None else Some("expect control,"))
    else if t == Function || t == Typeof || t == New || IsLiteralToken(t) then None
    else Some("unsupported parse_express start " + LexDisplay(t))
  }

  /** A closing parenthesis cannot start an expression. */
  lemma CloseParenStartError()
    ensures StartError(Control(")")) == Some("get level err )")
  {
    assert ControlLevel(")") == None;
    assert GetLevel(Control(")")) == Err("get level err " + ")");
    assert "get level err " + ")" == "get level err )";
  }

  /** The nodes the expression parser starts the operator loop with. */
  predicate IsAtom(n: Node)
  {
    n.Identity? || n.NumericLiteral? || n.StringLiteral? || n.BooleanLiteral? || n.NullLiteral?
    || n.ThisExpression? || n.TemplateLiteral? || n.NewExpression? || n.UnaryExpression?
  }

  /** The forms `parse_expression` returns as soon as it has read them:
      prefix operators, brackets and function expressions. */
  predicate StartForm(n: Node)
  {
    n.Parenthesized? || n.ArrowFunctionExpression? || n.ArrayExpression? || n.ObjectExpression?
    || n.FunctionExpression? || n.UnaryExpression? || (n.UpdateExpression? && n.prefix)
  }

  /** The nodes `parse_expression` can return; no statement is among them. */
  predicate IsExpression(n: Node)
  {
    IsAtom(n) || EarlyForm(n) || n.SequenceExpression? || n.AssignmentExpression?
    || n.BinaryExpression? || n.LogicalExpression? || n.MemberExpression? || n.CallExpression?
    || n.ConditionalExpression? || n.UpdateExpression?
  }

  /** `n` is what folding the operator `t` into `left` builds: the operator's
      node with `left` as its first operand (a comma appends to a comma list). */
  predicate Folded(left: Node, t: Token, n: Node)
  {
    if t == Instanceof then n.BinaryExpression? && n.left == left && n.operator == "instanceof"
    else if !t.Control? then false
    else if IsOneChar(t.op, ',') then
      n.SequenceExpression? && 2 <= |n.expressions|
      && n.expressions[..|n.expressions| - 1] == (if left.SequenceExpression? then left.expressions else [left])
    else if IsAssignOp(t.op) then n.AssignmentExpression? && n.left == left && n.operator == t.op
    else if IsArrowOp(t.op) then n.ArrowFunctionExpression? && n.params == [left]
    else if IsOneChar(t.op, '.') then n.MemberExpression? && n.obj == left && !n.computed
    else if IsBinaryOp(t.op) then n.BinaryExpression? && n.left == left && n.operator == t.op
    else if IsLogicalOp(t.op) then n.LogicalExpression? && n.left == left && n.operator == t.op
    else if IsUpdateOp(t.op) then n == UpdateExpression(t.op, false, left)
    else if IsOneChar(t.op, '?') then n.ConditionalExpression? && n.test == left
    else if IsOneChar(t.op, '(') then n.CallExpression? && n.callee == left
    else if IsOneChar(t.op, '[') then n.MemberExpression? && n.obj == left && n.computed
    else false
  }

  /** The tokens a statement list stops in front of. */
  predicate EndsList(t: Token)
  {
    t == EOF || IsPunct(t, '}') || t == Case || t == Default
  }

  /** The statement a leading token dispatches to; anything else is an
      expression statement. */
  predicate StatementShape(t: Token, n: Node)
  {
    if t == Var || t == Let || t == Const then n.VariableDeclaration? && n.kind == t
    else if t == For then n.ForStatement?
    else if t == Function then n.FunctionDeclaration?
    else if t == If then n.IfStatement?
    else if t == While then n.WhileStatement?
    else if t == Do then n.DoWhileStatement?
    else if t == Try then n.TryStatement?
    else if t == Switch then n.SwitchStatement?
    else if t == Return then n.ReturnStatement?
    else if t == Break then n == BreakStatement
    else if t == Continue then n == ContinueStatement
    else if t == Throw then n.ThrowStatement?
    else IsExpression(n)
  }

  /** `return` has no argument when the next token is on a later line or
      closes the statement. */
  predicate ReturnEndsAt(toks: seq<Tok>, p: nat, q: nat)
    requires p < |toks| && q < |toks|
  {
    toks[q].line != toks[p].line || toks[q].token == EOF
    || IsPunct(toks[q].token, '}') || IsPunct(toks[q].token, ';')
  }

  predicate IsDeclarator(d: Node)
  {
    d.VariableDeclarator? && d.id.Identity?
  }

  /** A parameter of a function: a name, a name with a default, or a pattern. */
  predicate IsParam(p: Node)
  {
    p.Identity? || (p.AssignmentPattern? && p.left.Identity?) || p.ObjectPattern? || p.ArrayPattern?
  }

  /** An entry of an object pattern: `name: pattern`, `name = default` or the
      shorthand `name`. */
  predicate IsPatternProperty(p: Node)
  {
    p.ObjectProperty? && p.key.Identity?
    && (p.propertyValue.ObjectPattern? || p.propertyValue.ArrayPattern? || p.propertyValue == p.key
        || (p.propertyValue.AssignmentPattern? && p.propertyValue.left == p.key))
  }

  /** A `catch` clause: an optional single name and a block. */
  predicate IsHandler(h: Node)
  {
    h.CatchClause? && h.body.BlockStatement? && (h.param.Some? ==> h.param.value.Identity?)
  }

  /** The tokens an array pattern entry may start with. */
  predicate PatternStart(t: Token)
  {
    t.Variable? || IsPunct(t, ',') || IsPunct(t, '{') || IsPunct(t, '[')
  }

  /** A key of an object literal. */
  predicate IsKeyNode(k: Node)
  {
    k.StringLiteral? || k.NumericLiteral?
  }

  predicate IsKeyToken(t: Token)
  {
    t.Variable? || t.String? || t.Digit?
  }

  /** The header `for (let x;;);`: a bare `let` declaration and three
      empty slots. */
  predicate EmptyLetHeader(toks: seq<Tok>, p: nat)
    requires ValidToks(toks) && p < |toks|
  {
    toks[p].token == For && EmptyLetParen(toks, NextIndex(toks, p))
  }

  /** The same header from its opening parenthesis on: `(let x;;);`. */
  predicate EmptyLetParen(toks: seq<Tok>, p: nat)
    requires ValidToks(toks) && p < |toks|
  {
    IsPunct(toks[p].token, '(') && LetThenTail(toks, NextIndex(toks, p))
  }

  /** From the initializer on: `let x;;);`. */
  predicate LetThenTail(toks: seq<Tok>, p: nat)
    requires ValidToks(toks) && p < |toks|
  {
    var q1 := NextIndex(toks, p);
    toks[p].token == Let && toks[q1].token.Variable? && EmptyTail(toks, NextIndex(toks, q1))
  }

  /** A `;` followed by `)`: an empty test slot with no update slot. */
  predicate SemiThenClose(toks: seq<Tok>, p: nat)
    requires ValidToks(toks) && p < |toks|
  {
    IsPunct(toks[p].token, ';') && toks[NextIndex(toks, p)].token == Control(")")
  }

  /** The rest of a `for` header after the initializer: `;;);`. */
  predicate EmptyTail(toks: seq<Tok>, p: nat)
    requires ValidToks(toks) && p < |toks|
  {
    var q1 := NextIndex(toks, p);
    var q2 := NextIndex(toks, q1);
    var q3 := NextIndex(toks, q2);
    IsPunct(toks[p].token, ';') && IsPunct(toks[q1].token, ';')
    && IsPunct(toks[q2].token, ')') && IsPunct(toks[q3].token, ';')
  }

  /** The name declared by the header `for (let x;;);`. */
  function LetHeaderName(toks: seq<Tok>, p: nat): string
    requires ValidToks(toks) && p < |toks| && EmptyLetHeader(toks, p)
  {
    toks[NextIndex(toks, NextIndex(toks, NextIndex(toks, p)))].token.name
  }

  /** The levels of the operators the loop folds, as `get_level` lists them. */
  lemma FoldLevels(op: string, l: nat)
    requires ControlLevel(op) == Some(l)
    ensures IsOneChar(op, ',') ==> l == 1
    ensures IsAssignOp(op) || IsArrowOp(op) || IsOneChar(op, '?') ==> l == 2
    ensures IsBinaryOp(op) || IsLogicalOp(op) ==> OperatorLevel(op) == l && 3 <= l
    ensures IsUpdateOp(op) ==> l == 15
    ensures IsOneChar(op, '.') || IsOneChar(op, '(') || IsOneChar(op, '[') ==> l == 17
  {
  }

  /** The node `left op right` the loop builds for an infix operator; a comma
      appends to a comma list instead of nesting. */
  function InfixNode(left: Node, t: Token, right: Node): (n: Node)
    requires t == Instanceof || (t.Control? && IsInfixOp(t.op))
    requires left.SequenceExpression? ==> left.expressions != []
    ensures Folded(left, t, n) && IsExpression(n)
  {
    if t == Instanceof then BinaryExpression(left, "instanceof", right)
    else if IsOneChar(t.op, ',') then
      var front := if left.SequenceExpression? then left.expressions else [left];
      assert (front + [right])[..|front|] == front;
      SequenceExpression(front + [right])
    else if IsAssignOp(t.op) then AssignmentExpression(left, t.op, right)
    else if IsOneChar(t.op, '.') then MemberExpression(left, right, false)
    else if IsBinaryOp(t.op) then BinaryExpression(left, t.op, right)
    else LogicalExpression(left, t.op, right)
  }

  /** Folding an infix operator of level `l` keeps the loop's invariant: with
      the right side parsed at `l` for an assignment and at `l + 1` otherwise,
      the new node binds at `l`, its operands bind as associativity demands,
      and a comma list stays flat. */
  lemma InfixBinds(left: Node, t: Token, right: Node, l: nat)
    requires t == Instanceof || (t.Control? && IsInfixOp(t.op))
    requires GetLevel(t) == Ok(l)
    requires RightBinds(left) && (left.SequenceExpression? || BindsAtLeast(left, 2))
    requires BindsAtLeast(right, if t.Control? && IsAssignOp(t.op) then l else l + 1)
    ensures KeepsLevel(InfixNode(left, t, right), l)
  {
    if t != Instanceof {
      assert ControlLevel(t.op) == Some(l);
      InfixOpBinds(left, t.op, right, l);
    }
  }

  /** What the operator loop keeps of a folded node at level `l`. */
  predicate KeepsLevel(n: Node, l: nat)
  {
    BindsAtLeast(n, l) && RightBinds(n) && (n.SequenceExpression? || BindsAtLeast(n, 2))
  }

  /** `InfixBinds` for a control operator, with its level read off the table. */
  lemma InfixOpBinds(left: Node, op: string, right: Node, l: nat)
    requires IsInfixOp(op) && ControlLevel(op) == Some(l)
    requires RightBinds(left) && (left.SequenceExpression? || BindsAtLeast(left, 2))
    requires BindsAtLeast(right, if IsAssignOp(op) then l else l + 1)
    ensures KeepsLevel(InfixNode(left, Control(op), right), l)
  {
    if IsOneChar(op, ',') {
      CommaOpBinds(left, op, right, l);
    } else if IsAssignOp(op) {
      AssignOpBinds(left, op, right, l);
    } else if IsOneChar(op, '.') {
      MemberOpBinds(left, op, right, l);
    } else {
      BinaryOpBinds(left, op, right, l);
    }
  }

  lemma CommaOpBinds(left: Node, op: string, right: Node, l: nat)
    requires IsOneChar(op, ',')
    requires IsInfixOp(op) && ControlLevel(op) == Some(l)
    requires RightBinds(left) && (left.SequenceExpression? || BindsAtLeast(left, 2))
    requires BindsAtLeast(right, l + 1)
    ensures KeepsLevel(InfixNode(left, Control(op), right), l)
  {
    FoldLevels(op, l);
    CommaBinds(left, right);
  }

  lemma AssignOpBinds(left: Node, op: string, right: Node, l: nat)
    requires IsAssignOp(op) && !IsOneChar(op, ',')
    requires IsInfixOp(op) && ControlLevel(op) == Some(l)
    requires RightBinds(left) && (left.SequenceExpression? || BindsAtLeast(left, 2))
    requires BindsAtLeast(right, l)
    ensures KeepsLevel(InfixNode(left, Control(op), right), l)
  {
    FoldLevels(op, l);
    assert InfixNode(left, Control(op), right) == AssignmentExpression(left, op, right);
  }

  lemma MemberOpBinds(left: Node, op: string, right: Node, l: nat)
    requires IsOneChar(op, '.') && !IsAssignOp(op)
    requires IsInfixOp(op) && ControlLevel(op) == Some(l)
    requires RightBinds(left) && (left.SequenceExpression? || BindsAtLeast(left, 2))
    requires BindsAtLeast(right, l + 1)
    ensures KeepsLevel(InfixNode(left, Control(op), right), l)
  {
    FoldLevels(op, l);
    assert InfixNode(left, Control(op), right) == MemberExpression(left, right, false);
  }

  lemma BinaryOpBinds(left: Node, op: string, right: Node, l: nat)
    requires !IsOneChar(op, ',') && !IsAssignOp(op) && !IsOneChar(op, '.')
    requires IsInfixOp(op) && ControlLevel(op) == Some(l)
    requires RightBinds(left) && (left.SequenceExpression? || BindsAtLeast(left, 2))
    requires BindsAtLeast(right, l + 1)
    ensures KeepsLevel(InfixNode(left, Control(op), right), l)
  {
    BinaryLevel(op, l);
    BinaryNodeBinds(left, op, right, l);
    var n := InfixNode(left, Control(op), right);
    assert n == BinaryExpression(left, op, right) || n == LogicalExpression(left, op, right);
  }

  /** A binary or logical node whose operator has level `l` keeps the level. */
  lemma BinaryNodeBinds(left: Node, op: string, right: Node, l: nat)
    requires OperatorLevel(op) == l && 3 <= l
    requires BindsAtLeast(right, l + 1)
    ensures KeepsLevel(BinaryExpression(left, op, right), l)
    ensures KeepsLevel(LogicalExpression(left, op, right), l)
  {
  }

  lemma BinaryLevel(op: string, l: nat)
    requires IsBinaryOp(op) || IsLogicalOp(op)
    requires ControlLevel(op) == Some(l)
    ensures OperatorLevel(op) == l && 3 <= l
  {
    FoldLevels(op, l);
  }

  /** Appending to a comma list keeps every element at assignment level. */
  lemma CommaBinds(left: Node, right: Node)
    requires RightBinds(left) && (left.SequenceExpression? || BindsAtLeast(left, 2))
    requires BindsAtLeast(right, 2)
    ensures var front := if left.SequenceExpression? then left.expressions else [left];
      forall i :: 0 <= i < |front + [right]| ==> BindsAtLeast((front + [right])[i], 2)
  {
    var front := if left.SequenceExpression? then left.expressions else [left];
    var es := front + [right];
    forall i | 0 <= i < |es|
      ensures BindsAtLeast(es[i], 2)
    {
      if i < |front| {
        assert es[i] == front[i];
      }
    }
  }

  /** The loop folds a comma at any minimum level up to its own. */
  lemma CommaFolds(t: Token)
    requires IsPunct(t, ',')
    ensures Folds(t, 1)
  {
    assert t.op == ",";
  }

  lemma BindsAtLeastMono(n: Node, a: nat, b: nat)
    requires a <= b && BindsAtLeast(n, b)
    ensures BindsAtLeast(n, a)
  {
  }

  // ---------------------------------------------------------------------------
  // The parser

  class Parser {
    const toks: seq<Tok>
    var pos: nat
    /** `last_loc_line`: the line of the token consumed last. */
    var lastLine: nat
    var isArrowFunction: ArrowState
    var inForInit: bool
    var regexAllowed: bool
    var comment: Option<Token>

    ghost predicate Valid()
      reads this
    {
      ValidToks(toks) && pos < |toks|
    }

    /** `parser.current`. */
    function Current(): Token
      reads this
      requires Valid()
    {
      toks[pos].token
    }

    /** `is_same_line`: the current token is on the line the previous one ended on. */
    predicate IsSameLine()
      reads this
      requires Valid()
    {
      lastLine == toks[pos].line
    }

    /** `Parser::new`: skips leading line feeds and starts with the flags
        `Maybe`, not in a `for` initializer, regex allowed. */
    constructor (toks: seq<Tok>)
      requires ValidToks(toks)
      ensures Valid() && this.toks == toks
      ensures forall k :: 0 <= k < pos ==> toks[k].token == LF
      ensures toks[pos].token != LF
      ensures lastLine == 0 && isArrowFunction == Maybe && !inForInit && regexAllowed && comment == None
    {
      var p := 0;
      while toks[p].token == LF
        invariant p < |toks|
        invariant forall k :: 0 <= k < p ==> toks[k].token == LF
        decreases |toks| - p
      {
        p := p + 1;
      }
      this.toks := toks;
      pos := p;
      lastLine := 0;
      isArrowFunction := Maybe;
      inForInit := false;
      regexAllowed := true;
      comment := None;
    }

    /** `next`: records the line of the token being left, moves past any
        comments, and clears `regex_allowed`. */
    method Next()
      requires Valid()
      modifies this
      ensures Valid() && pos == NextIndex(toks, old(pos)) && lastLine == toks[old(pos)].line
      ensures !regexAllowed && inForInit == old(inForInit) && isArrowFunction == old(isArrowFunction)
      ensures comment == old(comment)
    {
      lastLine := toks[pos].line;
      if toks[pos].token != EOF {
        var p := pos + 1;
        while toks[p].token.Comment?
          invariant pos < p < |toks|
          invariant SkipComments(toks, p) == SkipComments(toks, pos + 1)
          decreases |toks| - p
        {
          p := p + 1;
        }
        pos := p;
      }
      regexAllowed := false;
    }

    /** `expect(parser, s)`: checks the current token and consumes it. */
    method ExpectAndNext(s: string) returns (r: Result<(), string>)
      requires Valid()
      modifies this
      ensures Valid() && inForInit == old(inForInit)
      ensures r == Expect(old(Current()), s)
      ensures r.Ok? ==> pos == NextIndex(toks, old(pos)) && old(pos) < pos
      ensures r.Err? ==> pos == old(pos)
    {
      r := Expect(Current(), s);
      if r.Ok? {
        Next();
      }
    }

    // -------------------------------------------------------------------------
    // Statements

    /** `parse`: the whole program is one statement list. */
    method Parse() returns (r: Result<seq<Node>, string>)
      requires Valid()
      modifies this
      decreases |toks| - pos, 9
      ensures Valid() && inForInit == old(inForInit)
      ensures r.Ok? ==> EndsList(Current())
      ensures r.Ok? ==> forall x :: x in r.value ==> !x.EmptyStatement?
    {
      r := ParseStatementList();
    }

    /** `parse_statement_list`: statements up to EOF, `}`, `case` or
        `default`, which it does not consume; `;` and comments add nothing. */
    method ParseStatementList() returns (r: Result<seq<Node>, string>)
      requires Valid()
      modifies this
      decreases |toks| - pos, 8
      ensures Valid() && old(pos) <= pos && inForInit == old(inForInit)
      ensures r.Ok? ==> EndsList(Current())
      ensures r.Ok? ==> forall x :: x in r.value ==> !x.EmptyStatement?
      ensures EndsList(old(Current())) ==> r == Ok([]) && pos == old(pos)
    {
      var ast: seq<Node> := [];
      while true
        invariant Valid() && old(pos) <= pos && inForInit == old(inForInit)
        invariant forall x :: x in ast ==> !x.EmptyStatement?
        invariant pos == old(pos) ==> ast == []
        invariant EndsList(toks[old(pos)].token) ==> pos == old(pos)
        decreases |toks| - pos
      {
        var t := Current();
        if EndsList(t) {
          break;
        }
        if t.Comment? {
          comment := Some(t);
          Next();
        } else if IsPunct(t, ';') {
          regexAllowed := true;
          Next();
        } else {
          var s := ParseStatement();
          if s.Err? {
            return Err(s.error);
          }
          ast := ast + [s.value];
        }
      }
      return Ok(ast);
    }

    /** One statement, chosen by its leading token (the arms of the
        `parse_statement_list` match that build something). */
    method ParseStatement() returns (r: Result<Node, string>)
      requires Valid() && !EndsList(Current()) && !Current().Comment? && !IsPunct(Current(), ';')
      modifies this
      decreases |toks| - pos, 7
      ensures Valid() && old(pos) <= pos && inForInit == old(inForInit)
      ensures r.Ok? ==> old(pos) < pos && StatementShape(old(Current()), r.value)
    {
      var t := Current();
      if t == Var || t == Let || t == Const {
        ghost var stop;
        r, stop := BuildLet();
      } else if t == For {
        ghost var semi;
        r, semi := BuildFor();
      } else if t == Function {
        r := BuildFunction(true);
      } else if t == If {
        ghost var elsePos;
        r, elsePos := BuildIf();
      } else if t == While {
        r := BuildWhile();
      } else if t == Do {
        ghost var close;
        r, close := BuildDoWhile();
      } else if t == Try {
        ghost var afterBlock;
        r, afterBlock := BuildTry();
      } else if t == Switch {
        ghost var close;
        r, close := BuildSwitch();
      } else if t == Return {
        r := ParseReturn();
      } else if t == Break {
        Next();
        r := Ok(BreakStatement);
      } else if t == Continue {
        Next();
        r := Ok(ContinueStatement);
      } else if t == Throw {
        r := ParseThrow();
      } else {
        r := ParseExpression(0);
      }
    }

    /** `return`, with an argument only when one follows on the same line. */
    method ParseReturn() returns (r: Result<Node, string>)
      requires Valid() && Current() == Return
      modifies this
      decreases |toks| - pos, 1
      ensures Valid() && old(pos) < pos && inForInit == old(inForInit)
      ensures r.Ok? ==> r.value.ReturnStatement?
      ensures ReturnEndsAt(toks, old(pos), NextIndex(toks, old(pos))) ==>
        r == Ok(ReturnStatement(None)) && pos == NextIndex(toks, old(pos))
      ensures !ReturnEndsAt(toks, old(pos), NextIndex(toks, old(pos))) && r.Ok? ==>
        r.value.returnArgument.Some?
    {
      regexAllowed := true;
      Next();
      if !IsSameLine() || Current() == EOF {
        return Ok(ReturnStatement(None));
      }
      if IsPunct(Current(), '}') || IsPunct(Current(), ';') {
        return Ok(ReturnStatement(None));
      }
      var a := ParseExpression(0);
      if a.Err? {
        return Err(a.error);
      }
      return Ok(ReturnStatement(Some(a.value)));
    }

    /** `throw`, whose argument must follow on the same line. */
    method ParseThrow() returns (r: Result<Node, string>)
      requires Valid() && Current() == Throw
      modifies this
      decreases |toks| - pos, 1
      ensures Valid() && old(pos) < pos && inForInit == old(inForInit)
      ensures r.Ok? ==> r.value.ThrowStatement?
      ensures var q := NextIndex(toks, old(pos));
        (toks[q].line != toks[old(pos)].line || toks[q].token == EOF) ==> r == Err("expression expected")
      ensures var q := NextIndex(toks, old(pos));
        toks[q].line == toks[old(pos)].line && toks[q].token != EOF
        && (IsPunct(toks[q].token, '}') || IsPunct(toks[q].token, ';')) ==>
        r == Err("Unexpected token")
    {
      regexAllowed := true;
      Next();
      if !IsSameLine() || Current() == EOF {
        return Err("expression expected");
      }
      if IsPunct(Current(), '}') || IsPunct(Current(), ';') {
        return Err("Unexpected token");
      }
      var a := ParseExpression(0);
      if a.Err? {
        return Err(a.error);
      }
      return Ok(ThrowStatement(a.value));
    }

    /** `parse_block`: `{`, a statement list, `}`. */
    method ParseBlock() returns (r: Result<Node, string>)
      requires Valid()
      modifies this
      decreases |toks| - pos, 1
      ensures Valid() && old(pos) <= pos && inForInit == old(inForInit)
      ensures !IsPunct(old(Current()), '{') ==> r == Err("handle_block expect {") && pos == old(pos)
      ensures r.Ok? ==> old(pos) < pos && r.value.BlockStatement?
      ensures IsPunct(old(Current()), '{') && IsPunct(toks[NextIndex(toks, old(pos))].token, '}') ==>
        r == Ok(BlockStatement([])) && pos == NextIndex(toks, NextIndex(toks, old(pos)))
    {
      if !IsPunct(Current(), '{') {
        return Err("handle_block expect {");
      }
      regexAllowed := true;
      Next();
      var body := ParseStatementList();
      if body.Err? {
        return Err(body.error);
      }
      var e := ExpectAndNext("}");
      if e.Err? {
        return Err(e.error);
      }
      return Ok(BlockStatement(body.value));
    }

    /** `build_maybe_empty_body`: a block, or `;` for an empty body. */
    method BuildMaybeEmptyBody() returns (r: Result<Node, string>)
      requires Valid()
      modifies this
      decreases |toks| - pos, 2
      ensures Valid() && old(pos) <= pos && inForInit == old(inForInit)
      ensures r.Ok? ==> old(pos) < pos && IsBlockOrEmpty(r.value)
      ensures IsPunct(old(Current()), '{') && r.Ok? ==> r.value.BlockStatement?
      ensures IsPunct(old(Current()), ';') ==> r == Ok(EmptyStatement) && pos == NextIndex(toks, old(pos))
      ensures !IsPunct(old(Current()), '{') && !IsPunct(old(Current()), ';') ==> r == Err("for body error")
    {
      if IsPunct(Current(), '{') {
        r := ParseBlock();
      } else if IsPunct(Current(), ';') {
        Next();
        r := Ok(EmptyStatement);
      } else {
        r := Err("for body error");
      }
    }

    /** `build_let`: a keyword, one or more declarators separated by commas,
        and a trailing `;` consumed only outside a `for` initializer.  `stop`
        is where the declarator list ended. */
    method BuildLet() returns (r: Result<Node, string>, ghost stop: nat)
      requires Valid()
      modifies this
      decreases |toks| - pos, 1
      ensures Valid() && old(pos) <= pos && inForInit == old(inForInit)
      ensures ExpectKeys(old(Current()), [Var, Let, Const]).Err? ==>
        r == Err(ExpectKeys(old(Current()), [Var, Let, Const]).error)
      ensures r.Ok? ==> (old(pos) < pos && r.value.VariableDeclaration? && r.value.kind == old(Current())
        && 1 <= |r.value.declarations| && forall x :: x in r.value.declarations ==> IsDeclarator(x))
      ensures r.Ok? ==> (old(pos) < stop <= pos && stop < |toks| && !IsPunct(toks[stop].token, ',')
        && pos == (if !inForInit && IsPunct(toks[stop].token, ';') then NextIndex(toks, stop) else stop))
      ensures var q1 := NextIndex(toks, old(pos)); var q2 := NextIndex(toks, q1);
        old(Current()) in [Var, Let, Const] && toks[q1].token.Variable?
        && !IsPunct(toks[q2].token, '=') && !IsPunct(toks[q2].token, ',') ==>
        r == Ok(VariableDeclaration(old(Current()), [VariableDeclarator(Identity(toks[q1].token.name), None)]))
        && stop == q2
    {
      var kind := ExpectKeys(Current(), [Var, Let, Const]);
      if kind.Err? {
        return Err(kind.error), pos;
      }
      Next();
      var d := BuildDeclarator();
      if d.Err? {
        return Err(d.error), pos;
      }
      var decls := MoreDeclarators([d.value]);
      if decls.Err? {
        return Err(decls.error), pos;
      }
      stop := pos;
      if !inForInit && IsPunct(Current(), ';') {
        Next();
      }
      r := Ok(VariableDeclaration(kind.value, decls.value));
    }

    /** The `, declarator` repetitions of `build_let`, appended to `decls`. */
    method MoreDeclarators(decls: seq<Node>) returns (r: Result<seq<Node>, string>)
      requires Valid() && forall x :: x in decls ==> IsDeclarator(x)
      modifies this
      decreases |toks| - pos, 1
      ensures Valid() && old(pos) <= pos && inForInit == old(inForInit)
      ensures r.Ok? ==> (!IsPunct(Current(), ',') && |decls| <= |r.value| && r.value[..|decls|] == decls
        && forall x :: x in r.value ==> IsDeclarator(x))
      ensures !IsPunct(old(Current()), ',') ==> r == Ok(decls) && pos == old(pos)
    {
      var all := decls;
      while IsPunct(Current(), ',')
        invariant Valid() && old(pos) <= pos && inForInit == old(inForInit)
        invariant |decls| <= |all| && all[..|decls|] == decls
        invariant forall x :: x in all ==> IsDeclarator(x)
        invariant pos == old(pos) ==> all == decls
        invariant !IsPunct(toks[old(pos)].token, ',') ==> pos == old(pos)
        decreases |toks| - pos
      {
        regexAllowed := true;
        Next();
        var d := BuildDeclarator();
        if d.Err? {
          return Err(d.error);
        }
        all := all + [d.value];
      }
      return Ok(all);
    }

    /** `build_declarator`: a name, optionally `=` and an initializer parsed
        at level 1, the comma's own level. */
    method BuildDeclarator() returns (r: Result<Node, string>)
      requires Valid()
      modifies this
      decreases |toks| - pos, 1
      ensures Valid() && old(pos) <= pos && inForInit == old(inForInit)
      ensures !old(Current()).Variable? ==> r == Err("expect Variable, find " + Display(old(Current())))
      ensures r.Ok? ==> old(pos) < pos && r.value.VariableDeclarator? && r.value.id == Identity(old(Current()).name)
      ensures old(Current()).Variable? && !IsPunct(toks[NextIndex(toks, old(pos))].token, '=') ==>
        r == Ok(VariableDeclarator(Identity(old(Current()).name), None)) && pos == NextIndex(toks, old(pos))
      ensures r.Ok? && r.value.init.Some? && !EarlyForm(r.value.init.value) ==> !IsPunct(Current(), ',')
    {
      var t := Current();
      if !t.Variable? {
        return Err("expect Variable, find " + Display(t));
      }
      var id := Identity(t.name);
      Next();
      if !IsPunct(Current(), '=') {
        return Ok(VariableDeclarator(id, None));
      }
      r := DeclaratorInit(id);
    }

    /** The `= init` part of a declarator: the initializer is an expression
        at level 1. */
    method DeclaratorInit(id: Node) returns (r: Result<Node, string>)
      requires Valid() && IsPunct(Current(), '=')
      modifies this
      decreases |toks| - pos, 0
      ensures Valid() && old(pos) < pos && inForInit == old(inForInit)
      ensures r.Ok? ==> r.value.VariableDeclarator? && r.value.id == id && r.value.init.Some?
      ensures r.Ok? && !EarlyForm(r.value.init.value) ==> !IsPunct(Current(), ',')
    {
      regexAllowed := true;
      Next();
      var init := ParseExpression(1);
      if init.Err? {
        return Err(init.error);
      }
      return Ok(VariableDeclarator(id, Some(init.value)));
    }

    /** `build_for`, with the initializer parsed as a `for` initializer: a
        `let` declaration leaves its `;` to the header (see `ForInit`). */
    method BuildFor() returns (r: Result<Node, string>, ghost semi: nat)
      requires Valid()
      modifies this
      decreases |toks| - pos, 1
      ensures Valid() && old(pos) <= pos && inForInit == old(inForInit)
      ensures old(Current()) != For ==> r == Err("expect keyword " + LexDisplay(For))
      ensures r.Ok? ==> old(pos) < pos && r.value.ForStatement? && IsBlockOrEmpty(r.value.body)
      ensures r.Ok? && r.value.initializer.VariableDeclaration? ==>
        r.value.initializer.kind == Let && semi < |toks| && IsPunct(toks[semi].token, ';')
      ensures EmptyLetHeader(toks, old(pos)) ==>
        r == Ok(ForStatement(VariableDeclaration(Let, [VariableDeclarator(Identity(LetHeaderName(toks, old(pos))), None)]),
                             EmptyStatement, EmptyStatement, EmptyStatement))
    {
      semi := 0;
      var k := ExpectKeyword(Current(), For);
      if k.Err? {
        return Err(k.error), semi;
      }
      Next();
      r, semi := ForHead();
    }

    /** The `for` header from `(` on, and the body. */
    method ForHead() returns (r: Result<Node, string>, ghost semi: nat)
      requires Valid()
      modifies this
      decreases |toks| - pos, 9
      ensures Valid() && old(pos) <= pos && inForInit == old(inForInit)
      ensures r.Ok? ==> old(pos) < pos && r.value.ForStatement? && IsBlockOrEmpty(r.value.body)
      ensures r.Ok? && r.value.initializer.VariableDeclaration? ==>
        r.value.initializer.kind == Let && semi < |toks| && IsPunct(toks[semi].token, ';')
      ensures EmptyLetParen(toks, old(pos)) ==>
        r == Ok(ForStatement(VariableDeclaration(Let, [VariableDeclarator(Identity(toks[NextIndex(toks, NextIndex(toks, old(pos)))].token.name), None)]),
                             EmptyStatement, EmptyStatement, EmptyStatement))
    {
      semi := 0;
      var e := ExpectAndNext("(");
      if e.Err? {
        return Err(e.error), semi;
      }
      r, semi := ForSlots();
    }

    /** The initializer, the rest of the header and the body. */
    method ForSlots() returns (r: Result<Node, string>, ghost semi: nat)
      requires Valid()
      modifies this
      decreases |toks| - pos, 8
      ensures Valid() && old(pos) <= pos && inForInit == old(inForInit)
      ensures r.Ok? ==> old(pos) < pos && r.value.ForStatement? && IsBlockOrEmpty(r.value.body)
      ensures r.Ok? && r.value.initializer.VariableDeclaration? ==>
        r.value.initializer.kind == Let && semi < |toks| && IsPunct(toks[semi].token, ';')
      ensures LetThenTail(toks, old(pos)) ==>
        r == Ok(ForStatement(VariableDeclaration(Let, [VariableDeclarator(Identity(toks[NextIndex(toks, old(pos))].token.name), None)]),
                             EmptyStatement, EmptyStatement, EmptyStatement))
    {
      var init;
      init, semi := ForInit();
      if init.Err? {
        return Err(init.error), semi;
      }
      r := ForRest(init.value);
    }

    /** The initializer slot of a `for` header, with `in_for_init` set while
        the declaration is read and restored afterwards. */
    method ForInit() returns (r: Result<Node, string>, ghost semi: nat)
      requires Valid()
      modifies this
      decreases |toks| - pos, 7
      ensures Valid() && old(pos) <= pos && inForInit == old(inForInit)
      ensures IsPunct(old(Current()), ';') ==> r == Ok(EmptyStatement) && pos == old(pos)
      ensures r.Ok? && r.value.VariableDeclaration? ==>
        old(Current()) == Let && r.value.kind == Let && semi == pos && !IsPunct(toks[semi].token, ',')
      ensures r.Ok? ==> r.value.EmptyStatement? || r.value.VariableDeclaration? || IsExpression(r.value)
      ensures LetThenTail(toks, old(pos)) ==>
        r == Ok(VariableDeclaration(Let, [VariableDeclarator(Identity(toks[NextIndex(toks, old(pos))].token.name), None)]))
        && EmptyTail(toks, pos)
    {
      semi := 0;
      if Current() == Let {
        var saved := inForInit;
        inForInit := true;
        r, semi := BuildLet();
        inForInit := saved;
      } else if IsPunct(Current(), ';') {
        r := Ok(EmptyStatement);
      } else {
        r := ParseExpression(0);
      }
    }

    /** `build_for` as written: `in_for_init` is never set, so the `let`
        declaration consumes the `;` the header then asks for. */
    method BuildForAsWritten() returns (r: Result<Node, string>, ghost semi: nat)
      requires Valid()
      modifies this
      decreases |toks| - pos, 1
      ensures Valid() && old(pos) <= pos && inForInit == old(inForInit)
      ensures old(Current()) != For ==> r == Err("expect keyword " + LexDisplay(For))
      ensures r.Ok? ==> old(pos) < pos && r.value.ForStatement? && IsBlockOrEmpty(r.value.body)
      ensures r.Ok? && r.value.initializer.VariableDeclaration? && !inForInit ==>
        semi < |toks| && IsPunct(toks[semi].token, ';') && IsPunct(toks[NextIndex(toks, semi)].token, ';')
      ensures EmptyLetHeader(toks, old(pos)) && !inForInit ==> r == Err("get level err )")
    {
      semi := 0;
      var k := ExpectKeyword(Current(), For);
      if k.Err? {
        return Err(k.error), semi;
      }
      Next();
      r, semi := ForHeadAsWritten();
    }

    /** The `for` header from `(` on as `build_for` reads it. */
    method ForHeadAsWritten() returns (r: Result<Node, string>, ghost semi: nat)
      requires Valid()
      modifies this
      decreases |toks| - pos, 9
      ensures Valid() && old(pos) <= pos && inForInit == old(inForInit)
      ensures r.Ok? ==> old(pos) < pos && r.value.ForStatement? && IsBlockOrEmpty(r.value.body)
      ensures r.Ok? && r.value.initializer.VariableDeclaration? && !inForInit ==>
        semi < |toks| && IsPunct(toks[semi].token, ';') && IsPunct(toks[NextIndex(toks, semi)].token, ';')
      ensures EmptyLetParen(toks, old(pos)) && !inForInit ==> r == Err("get level err )")
    {
      semi := 0;
      var e := ExpectAndNext("(");
      if e.Err? {
        return Err(e.error), semi;
      }
      r, semi := ForSlotsAsWritten();
    }

    /** The initializer, the rest of the header and the body, as written. */
    method ForSlotsAsWritten() returns (r: Result<Node, string>, ghost semi: nat)
      requires Valid()
      modifies this
      decreases |toks| - pos, 8
      ensures Valid() && old(pos) <= pos && inForInit == old(inForInit)
      ensures r.Ok? ==> old(pos) < pos && r.value.ForStatement? && IsBlockOrEmpty(r.value.body)
      ensures r.Ok? && r.value.initializer.VariableDeclaration? && !inForInit ==>
        semi < |toks| && IsPunct(toks[semi].token, ';') && IsPunct(toks[NextIndex(toks, semi)].token, ';')
      ensures LetThenTail(toks, old(pos)) && !inForInit ==> r == Err("get level err )")
    {
      var init;
      init, semi := ForInitAsWritten();
      if init.Err? {
        return Err(init.error), semi;
      }
      r := ForRest(init.value);
    }

    /** The initializer slot as `build_for` reads it: a `let` declaration
        outside `in_for_init` consumes the `;` after it. */
    method ForInitAsWritten() returns (r: Result<Node, string>, ghost semi: nat)
      requires Valid()
      modifies this
      decreases |toks| - pos, 7
      ensures Valid() && old(pos) <= pos && inForInit == old(inForInit)
      ensures IsPunct(old(Current()), ';') ==> r == Ok(EmptyStatement) && pos == old(pos)
      ensures r.Ok? && r.value.VariableDeclaration? && !inForInit ==>
        semi < |toks| && (IsPunct(toks[semi].token, ';') ==> pos == NextIndex(toks, semi))
        && (!IsPunct(toks[semi].token, ';') ==> pos == semi)
      ensures LetThenTail(toks, old(pos)) && !inForInit ==> r.Ok? && SemiThenClose(toks, pos)
    {
      semi := 0;
      if Current() == Let {
        r, semi := LetInitAsWritten();
      } else if IsPunct(Current(), ';') {
        r := Ok(EmptyStatement);
      } else {
        r := ParseExpression(0);
      }
    }

    /** A `let` initializer as written: the declaration takes the `;` after
        it, so `let x;;);` leaves `;)` for the rest of the header. */
    method LetInitAsWritten() returns (r: Result<Node, string>, ghost semi: nat)
      requires Valid() && Current() == Let
      modifies this
      decreases |toks| - pos, 6
      ensures Valid() && old(pos) <= pos && inForInit == old(inForInit)
      ensures r.Ok? && r.value.VariableDeclaration? && !inForInit ==>
        semi < |toks| && (IsPunct(toks[semi].token, ';') ==> pos == NextIndex(toks, semi))
        && (!IsPunct(toks[semi].token, ';') ==> pos == semi)
      ensures LetThenTail(toks, old(pos)) && !inForInit ==> r.Ok? && SemiThenClose(toks, pos)
    {
      ghost var p0 := pos;
      r, semi := BuildLet();
      if LetThenTail(toks, p0) && !inForInit {
        ghost var q2 := NextIndex(toks, NextIndex(toks, p0));
        assert semi == q2 && IsPunct(toks[q2].token, ';') && pos == NextIndex(toks, q2);
      }
    }

    /** The header after the initializer: `; test ; update )` and the body;
        an empty test or update is an `EmptyStatement`. */
    method ForRest(init: Node) returns (r: Result<Node, string>)
      requires Valid()
      modifies this
      decreases |toks| - pos, 1
      ensures Valid() && old(pos) <= pos && inForInit == old(inForInit)
      ensures !IsPunct(old(Current()), ';') ==> r == Err(Expect(old(Current()), ";").error)
      ensures r.Ok? ==> (old(pos) < pos && r.value.ForStatement? && r.value.initializer == init
        && IsBlockOrEmpty(r.value.body))
      ensures EmptyTail(toks, old(pos)) ==>
        r == Ok(ForStatement(init, EmptyStatement, EmptyStatement, EmptyStatement)) && pos == NextIndex(toks, NextIndex(toks, NextIndex(toks, NextIndex(toks, old(pos)))))
      ensures var q := NextIndex(toks, old(pos));
        IsPunct(old(Current()), ';') && !IsPunct(toks[q].token, ';') && StartError(toks[q].token).Some? ==>
        r == Err(StartError(toks[q].token).value)
      ensures SemiThenClose(toks, old(pos)) ==> r == Err("get level err )")
    {
      var e := ExpectAndNext(";");
      if e.Err? {
        return Err(e.error);
      }
      CloseParenStartError();
      var test := ForSlot(';');
      if test.Err? {
        return Err(test.error);
      }
      r := ForTail(init, test.value);
    }

    /** The header from the `;` after the test slot: the update slot, `)` and
        the body. */
    method ForTail(init: Node, test: Node) returns (r: Result<Node, string>)
      requires Valid()
      modifies this
      decreases |toks| - pos, 1
      ensures Valid() && old(pos) <= pos && inForInit == old(inForInit)
      ensures r.Ok? ==> (old(pos) < pos && r.value.ForStatement? && r.value.initializer == init
        && r.value.test == test && IsBlockOrEmpty(r.value.body))
      ensures var q1 := NextIndex(toks, old(pos));
        var q2 := NextIndex(toks, q1);
        IsPunct(old(Current()), ';') && IsPunct(toks[q1].token, ')') && IsPunct(toks[q2].token, ';') ==>
        r == Ok(ForStatement(init, test, EmptyStatement, EmptyStatement)) && pos == NextIndex(toks, q2)
    {
      var e := ExpectAndNext(";");
      if e.Err? {
        return Err(e.error);
      }
      var update := ForSlot(')');
      if update.Err? {
        return Err(update.error);
      }
      r := ForBody(init, test, update.value);
    }

    /** The `)` that closes a `for` header, and the loop's body. */
    method ForBody(init: Node, test: Node, update: Node) returns (r: Result<Node, string>)
      requires Valid()
      modifies this
      decreases |toks| - pos, 3
      ensures Valid() && old(pos) <= pos && inForInit == old(inForInit)
      ensures r.Ok? ==> (old(pos) < pos && r.value.ForStatement? && r.value.initializer == init
        && r.value.test == test && r.value.update == update && IsBlockOrEmpty(r.value.body))
      ensures IsPunct(old(Current()), ')') && IsPunct(toks[NextIndex(toks, old(pos))].token, ';') ==>
        r == Ok(ForStatement(init, test, update, EmptyStatement)) && pos == NextIndex(toks, NextIndex(toks, old(pos)))
    {
      if !IsPunct(Current(), ')') {
        return Err(Expect(Current(), ")").error);
      }
      Next();
      ghost var q := pos;
      var body := BuildMaybeEmptyBody();
      if body.Err? {
        return Err(body.error);
      }
      r := Ok(ForStatement(init, test, update, body.value));
      assert IsPunct(toks[q].token, ';') ==> body.value == EmptyStatement && pos == NextIndex(toks, q);
    }

    /** The test or update slot of a `for` header: empty when its closing
        `;` or `)` follows at once, an expression otherwise. */
    method ForSlot(closer: char) returns (r: Result<Node, string>)
      requires Valid()
      modifies this
      decreases |toks| - pos, 7
      ensures Valid() && old(pos) <= pos && inForInit == old(inForInit)
      ensures IsPunct(old(Current()), closer) ==> r == Ok(EmptyStatement) && pos == old(pos)
      ensures !IsPunct(old(Current()), closer) && StartError(old(Current())).Some? ==>
        r == Err(StartError(old(Current())).value)
      ensures !IsPunct(old(Current()), closer) && r.Ok? ==> old(pos) < pos && IsExpression(r.value)
    {
      if IsPunct(Current(), closer) {
        return Ok(EmptyStatement);
      }
      r := ParseExpression(0);
    }

    /** `( test )`, the parenthesised condition of `while`, `do … while`,
        `if` and `switch`; `close` is the closing parenthesis. */
    method ParenHead() returns (r: Result<Node, string>, ghost close: nat)
      requires Valid()
      modifies this
      decreases |toks| - pos, 7
      ensures Valid() && old(pos) <= pos && inForInit == old(inForInit)
      ensures !IsPunct(old(Current()), '(') ==> r == Err(Expect(old(Current()), "(").error)
      ensures r.Ok? ==> (old(pos) < pos && IsExpression(r.value) && close < |toks|
        && IsPunct(toks[close].token, ')') && pos == NextIndex(toks, close))
    {
      close := 0;
      var e := ExpectAndNext("(");
      if e.Err? {
        return Err(e.error), close;
      }
      r := ParseExpression(0);
      if r.Err? {
        return r, close;
      }
      close := pos;
      e := ExpectAndNext(")");
      if e.Err? {
        return Err(e.error), close;
      }
    }

    /** `build_while`: `while ( test )` and a block or `;`. */
    method BuildWhile() returns (r: Result<Node, string>)
      requires Valid()
      modifies this
      decreases |toks| - pos, 1
      ensures Valid() && old(pos) <= pos && inForInit == old(inForInit)
      ensures old(Current()) != While ==> r == Err("expect keyword " + LexDisplay(While))
      ensures old(Current()) == While && !IsPunct(toks[NextIndex(toks, old(pos))].token, '(') ==>
        r == Err(Expect(toks[NextIndex(toks, old(pos))].token, "(").error)
      ensures r.Ok? ==> (old(pos) < pos && r.value.WhileStatement? && IsBlockOrEmpty(r.value.body)
        && IsExpression(r.value.test))
    {
      var k := ExpectKeyword(Current(), While);
      if k.Err? {
        return Err(k.error);
      }
      Next();
      regexAllowed := true;
      ghost var close;
      var test;
      test, close := ParenHead();
      if test.Err? {
        return Err(test.error);
      }
      var body := BuildMaybeEmptyBody();
      if body.Err? {
        return Err(body.error);
      }
      return Ok(WhileStatement(test.value, body.value));
    }

    /** `build_do_while`: `do`, a block, `while ( test )`; `close` is the
        closing parenthesis, the last token consumed. */
    method BuildDoWhile() returns (r: Result<Node, string>, ghost close: nat)
      requires Valid()
      modifies this
      decreases |toks| - pos, 1
      ensures Valid() && old(pos) <= pos && inForInit == old(inForInit)
      ensures old(Current()) != Do ==> r == Err("expect keyword " + LexDisplay(Do))
      ensures r.Ok? ==> (old(pos) < pos && r.value.DoWhileStatement? && r.value.body.BlockStatement?
        && IsExpression(r.value.test))
      ensures r.Ok? ==> close < |toks| && IsPunct(toks[close].token, ')') && pos == NextIndex(toks, close)
    {
      close := 0;
      var k := ExpectKeyword(Current(), Do);
      if k.Err? {
        return Err(k.error), close;
      }
      Next();
      var body := ParseBlock();
      if body.Err? {
        return Err(body.error), close;
      }
      var test;
      test, close := WhileHead();
      if test.Err? {
        return Err(test.error), close;
      }
      return Ok(DoWhileStatement(body.value, test.value)), close;
    }

    /** `while ( test )`, the tail of a `do` statement. */
    method WhileHead() returns (r: Result<Node, string>, ghost close: nat)
      requires Valid()
      modifies this
      decreases |toks| - pos, 8
      ensures Valid() && old(pos) <= pos && inForInit == old(inForInit)
      ensures old(Current()) != While ==> r == Err("expect keyword " + LexDisplay(While))
      ensures r.Ok? ==> (old(pos) < pos && IsExpression(r.value) && close < |toks|
        && IsPunct(toks[close].token, ')') && pos == NextIndex(toks, close))
    {
      close := 0;
      var k := ExpectKeyword(Current(), While);
      if k.Err? {
        return Err(k.error), close;
      }
      Next();
      regexAllowed := true;
      r, close := ParenHead();
    }

    /** `build_if`: `if ( test )`, a block or `;`, and an optional `else`;
        `elsePos` is where the `else` was. */
    method BuildIf() returns (r: Result<Node, string>, ghost elsePos: nat)
      requires Valid()
      modifies this
      decreases |toks| - pos, 1
      ensures Valid() && old(pos) <= pos && inForInit == old(inForInit)
      ensures old(Current()) != If ==> r == Err("expect keyword " + LexDisplay(If))
      ensures r.Ok? ==> (old(pos) < pos && r.value.IfStatement? && IsBlockOrEmpty(r.value.consequent)
        && IsExpression(r.value.test))
      ensures r.Ok? && r.value.elseBranch.None? ==> Current() != Else
      ensures r.Ok? && r.value.elseBranch.Some? ==>
        elsePos < |toks| && toks[elsePos].token == Else
        && (r.value.elseBranch.value.BlockStatement?
            || (r.value.elseBranch.value == EmptyStatement && pos == NextIndex(toks, elsePos)
                && !IsPunct(Current(), '{')))
    {
      elsePos := 0;
      var k := ExpectKeyword(Current(), If);
      if k.Err? {
        return Err(k.error), elsePos;
      }
      Next();
      ghost var close;
      var test;
      test, close := ParenHead();
      if test.Err? {
        return Err(test.error), elsePos;
      }
      var consequent: Node;
      if IsPunct(Current(), '{') {
        var b := ParseBlock();
        if b.Err? {
          return Err(b.error), elsePos;
        }
        consequent := b.value;
      } else if IsPunct(Current(), ';') {
        consequent := EmptyStatement;
        Next();
      } else {
        return Err("if syntax error"), elsePos;
      }
      var alternate;
      alternate, elsePos := ElseBranch();
      if alternate.Err? {
        return Err(alternate.error), elsePos;
      }
      return Ok(IfStatement(test.value, consequent, alternate.value)), elsePos;
    }

    /** The optional `else` of an `if`: a block, or nothing at all, which
        stands for an empty statement and leaves the next token in place. */
    method ElseBranch() returns (r: Result<Option<Node>, string>, ghost elsePos: nat)
      requires Valid()
      modifies this
      decreases |toks| - pos, 0
      ensures Valid() && old(pos) <= pos && inForInit == old(inForInit)
      ensures old(Current()) != Else ==> r == Ok(None) && pos == old(pos)
      ensures old(Current()) == Else ==> elsePos == old(pos) && (r.Ok? ==> r.value.Some?)
      ensures r.Ok? && r.value.Some? ==>
        old(Current()) == Else
        && (r.value.value.BlockStatement?
            || (r.value.value == EmptyStatement && pos == NextIndex(toks, elsePos)
                && !IsPunct(Current(), '{')))
    {
      elsePos := pos;
      if Current() != Else {
        return Ok(None), elsePos;
      }
      Next();
      if IsPunct(Current(), '{') {
        var b := ParseBlock();
        if b.Err? {
          return Err(b.error), elsePos;
        }
        return Ok(Some(b.value)), elsePos;
      }
      return Ok(Some(EmptyStatement)), elsePos;
    }

    /** `build_switch`: the discriminant, then `case`/`default` clauses in
        source order until some other token, which must be `}`; `close` is
        that `}`. */
    method BuildSwitch() returns (r: Result<Node, string>, ghost close: nat)
      requires Valid()
      modifies this
      decreases |toks| - pos, 1
      ensures Valid() && old(pos) <= pos && inForInit == old(inForInit)
      ensures old(Current()) != Switch ==> r == Err("expect keyword " + LexDisplay(Switch))
      ensures r.Ok? ==> (old(pos) < pos && r.value.SwitchStatement? && IsExpression(r.value.discriminant)
        && forall x :: x in r.value.cases ==> x.SwitchCase?)
      ensures r.Ok? ==> close < |toks| && IsPunct(toks[close].token, '}') && pos == NextIndex(toks, close)
    {
      close := 0;
      var k := ExpectKeyword(Current(), Switch);
      if k.Err? {
        return Err(k.error), close;
      }
      Next();
      var discriminant;
      discriminant, close := ParenHead();
      if discriminant.Err? {
        return Err(discriminant.error), close;
      }
      var e := ExpectAndNext("{");
      if e.Err? {
        return Err(e.error), close;
      }
      var cases: seq<Node> := [];
      while Current() == Case || Current() == Default
        invariant Valid() && old(pos) < pos && inForInit == old(inForInit)
        invariant forall x :: x in cases ==> x.SwitchCase?
        decreases |toks| - pos
      {
        var c := SwitchClause();
        if c.Err? {
          return Err(c.error), close;
        }
        cases := cases + [c.value];
      }
      close := pos;
      e := ExpectAndNext("}");
      if e.Err? {
        return Err(e.error), close;
      }
      return Ok(SwitchStatement(discriminant.value, cases)), close;
    }

    /** One `case e:` or `default:` clause of a switch; the consequent is a
        single block when it starts with `{`, else a statement list. */
    method SwitchClause() returns (r: Result<Node, string>)
      requires Valid() && (Current() == Case || Current() == Default)
      modifies this
      decreases |toks| - pos, 1
      ensures Valid() && old(pos) < pos && inForInit == old(inForInit)
      ensures r.Ok? ==> (r.value.SwitchCase?
        && (r.value.caseTest.None? <==> old(Current()) == Default)
        && (r.value.caseTest.Some? ==> IsExpression(r.value.caseTest.value)))
    {
      var test: Option<Node>;
      if Current() == Case {
        Next();
        var t := ParseExpression(0);
        if t.Err? {
          return Err(t.error);
        }
        test := Some(t.value);
      } else {
        test := None;
        Next();
      }
      var e := ExpectAndNext(":");
      if e.Err? {
        return Err(e.error);
      }
      var consequent: seq<Node>;
      if IsPunct(Current(), '{') {
        var b := ParseBlock();
        if b.Err? {
          return Err(b.error);
        }
        consequent := [b.value];
      } else {
        var l := ParseStatementList();
        if l.Err? {
          return Err(l.error);
        }
        consequent := l.value;
      }
      return Ok(SwitchCase(test, consequent));
    }

    /** `build_try`: a block, then `catch` and/or `finally`; `afterBlock` is
        the token that followed the protected block. */
    method BuildTry() returns (r: Result<Node, string>, ghost afterBlock: nat)
      requires Valid()
      modifies this
      decreases |toks| - pos, 1
      ensures Valid() && old(pos) <= pos && inForInit == old(inForInit)
      ensures old(Current()) != Try ==> r == Err("expect keyword " + LexDisplay(Try))
      ensures r.Ok? ==> (old(pos) < pos && r.value.TryStatement? && r.value.block.BlockStatement?
        && (r.value.handler.Some? || r.value.finalizer.Some?)
        && (r.value.finalizer.Some? ==> r.value.finalizer.value.BlockStatement?)
        && (r.value.handler.Some? ==> IsHandler(r.value.handler.value)))
      ensures r.Ok? ==> (afterBlock < |toks|
        && (toks[afterBlock].token == Catch || toks[afterBlock].token == Finally)
        && (r.value.handler.None? <==> toks[afterBlock].token == Finally))
    {
      afterBlock := 0;
      var k := ExpectKeyword(Current(), Try);
      if k.Err? {
        return Err(k.error), afterBlock;
      }
      Next();
      var block := ParseBlock();
      if block.Err? {
        return Err(block.error), afterBlock;
      }
      afterBlock := pos;
      var handler: Option<Node> := None;
      var finalizer: Option<Node> := None;
      if Current() == Catch {
        var h := CatchClauseFrom();
        if h.Err? {
          return Err(h.error), afterBlock;
        }
        handler := Some(h.value);
        if Current() == Finally {
          Next();
          var f := ParseBlock();
          if f.Err? {
            return Err(f.error), afterBlock;
          }
          finalizer := Some(f.value);
        }
      } else if Current() == Finally {
        Next();
        var f := ParseBlock();
        if f.Err? {
          return Err(f.error), afterBlock;
        }
        finalizer := Some(f.value);
      } else {
        return Err("expect catch or finally"), afterBlock;
      }
      return Ok(TryStatement(block.value, handler, finalizer)), afterBlock;
    }

    /** The `catch` clause: `catch()` and `catch {` have no parameter,
        `catch(x)` names one; patterns and a second parameter are errors. */
    method CatchClauseFrom() returns (r: Result<Node, string>)
      requires Valid() && Current() == Catch
      modifies this
      decreases |toks| - pos, 1
      ensures Valid() && old(pos) < pos && inForInit == old(inForInit)
      ensures r.Ok? ==> IsHandler(r.value)
      ensures var q := NextIndex(toks, old(pos));
        !IsPunct(toks[q].token, '(') && !IsPunct(toks[q].token, '{') ==> r == Err("catch syntax error")
      ensures var q1 := NextIndex(toks, old(pos)); var q2 := NextIndex(toks, q1);
        IsPunct(toks[q1].token, '(') ==>
          (IsPunct(toks[q2].token, '{') ==> r == Err("catch({}) unsupported now"))
          && (!IsPunct(toks[q2].token, ')') && !IsPunct(toks[q2].token, '{') && !toks[q2].token.Variable?
              ==> r == Err("catch param error"))
          && (toks[q2].token.Variable? && IsPunct(toks[NextIndex(toks, q2)].token, ',')
              ==> r == Err("catch support only one param"))
          && (r.Ok? ==> (r.value.param.None? <==> IsPunct(toks[q2].token, ')')))
      ensures IsPunct(toks[NextIndex(toks, old(pos))].token, '{') && r.Ok? ==> r.value.param.None?
    {
      Next();
      if IsPunct(Current(), '(') {
        Next();
        var param: Option<Node>;
        if IsPunct(Current(), ')') {
          param := None;
          Next();
        } else if IsPunct(Current(), '{') {
          return Err("catch({}) unsupported now");
        } else if Current().Variable? {
          param := Some(Identity(Current().name));
          Next();
          if IsPunct(Current(), ')') {
            Next();
          } else if IsPunct(Current(), ',') {
            return Err("catch support only one param");
          }
        } else {
          return Err("catch param error");
        }
        var body := ParseBlock();
        if body.Err? {
          return Err(body.error);
        }
        return Ok(CatchClause(param, body.value));
      } else if IsPunct(Current(), '{') {
        var body := ParseBlock();
        if body.Err? {
          return Err(body.error);
        }
        return Ok(CatchClause(None, body.value));
      }
      return Err("catch syntax error");
    }

    // -------------------------------------------------------------------------
    // Functions and their parameters (src/exp/function_exp.rs)

    /** `build_function`: `function`, a name (required for a declaration),
        the parameters and a block body. */
    method BuildFunction(isDeclaration: bool) returns (r: Result<Node, string>)
      requires Valid()
      modifies this
      decreases |toks| - pos, 1
      ensures Valid() && old(pos) <= pos && inForInit == old(inForInit)
      ensures old(Current()) != Function ==> r == Err("expect keyword " + LexDisplay(Function))
      ensures old(Current()) == Function && isDeclaration && !toks[NextIndex(toks, old(pos))].token.Variable? ==>
        r == Err("Expected function name")
      ensures r.Ok? && isDeclaration ==> (old(pos) < pos && r.value.FunctionDeclaration?
        && r.value.id == Identity(toks[NextIndex(toks, old(pos))].token.name)
        && r.value.body.BlockStatement? && forall x :: x in r.value.params ==> IsParam(x))
      ensures r.Ok? && !isDeclaration ==> (old(pos) < pos && r.value.FunctionExpression?
        && (r.value.fnName.Some? <==> toks[NextIndex(toks, old(pos))].token.Variable?)
        && r.value.body.BlockStatement? && forall x :: x in r.value.params ==> IsParam(x))
    {
      var k := ExpectKeyword(Current(), Function);
      if k.Err? {
        return Err(k.error);
      }
      Next();
      var id: Option<Node> := None;
      if Current().Variable? {
        id := Some(Identity(Current().name));
        Next();
      } else if isDeclaration {
        return Err("Expected function name");
      }
      var params := HandleFunctionParams();
      if params.Err? {
        return Err(params.error);
      }
      var body := ParseBlock();
      if body.Err? {
        return Err(body.error);
      }
      if isDeclaration {
        return Ok(FunctionDeclaration(id.value, params.value, body.value));
      }
      return Ok(FunctionExpression(id, params.value, body.value));
    }

    /** `handle_function_params`: `(`, names with optional defaults and
        patterns separated by commas, `)`.  A token that is none of these
        stops the model with an error. */
    method HandleFunctionParams() returns (r: Result<seq<Node>, string>)
      requires Valid()
      modifies this
      decreases |toks| - pos, 1
      ensures Valid() && old(pos) <= pos && inForInit == old(inForInit)
      ensures !IsPunct(old(Current()), '(') ==> r == Err(Expect(old(Current()), "(").error)
      ensures r.Ok? ==> old(pos) < pos && forall x :: x in r.value ==> IsParam(x)
      ensures IsPunct(old(Current()), '(') && IsPunct(toks[NextIndex(toks, old(pos))].token, ')') ==>
        r == Ok([]) && pos == NextIndex(toks, NextIndex(toks, old(pos)))
    {
      var e := Expect(Current(), "(");
      if e.Err? {
        return Err(e.error);
      }
      Next();
      var params: seq<Node> := [];
      ghost var first := pos;
      while !IsPunct(Current(), ')')
        invariant Valid() && old(pos) < first <= pos && inForInit == old(inForInit)
        invariant forall x :: x in params ==> IsParam(x)
        invariant pos == first ==> params == []
        invariant first < pos ==> !IsPunct(toks[first].token, ')')
        decreases |toks| - pos
      {
        var t := Current();
        if IsPunct(t, ',') {
          Next();
        } else if t.Variable? {
          var n := NameWithDefault();
          if n.Err? {
            return Err(n.error);
          }
          params := params + [n.value];
        } else if IsPunct(t, '{') {
          var o := HandleObject();
          if o.Err? {
            return Err(o.error);
          }
          params := params + [o.value];
        } else if IsPunct(t, '[') {
          var a := HandleArray();
          if a.Err? {
            return Err(a.error);
          }
          params := params + [a.value];
        } else {
          return Err("function parameter list does not advance");
        }
      }
      Next();
      return Ok(params);
    }

    /** A name in a parameter list or an array pattern, with an optional
        default `= e` parsed at level 2. */
    method NameWithDefault() returns (r: Result<Node, string>)
      requires Valid() && Current().Variable?
      modifies this
      decreases |toks| - pos, 0
      ensures Valid() && old(pos) < pos && inForInit == old(inForInit)
      ensures r.Ok? ==> IsParam(r.value) && !r.value.ObjectPattern? && !r.value.ArrayPattern?
      ensures !IsPunct(toks[NextIndex(toks, old(pos))].token, '=') ==>
        r == Ok(Identity(old(Current()).name)) && pos == NextIndex(toks, old(pos))
    {
      var name := Identity(Current().name);
      Next();
      if IsPunct(Current(), '=') {
        Next();
        var d := ParseExpression(2);
        if d.Err? {
          return Err(d.error);
        }
        return Ok(AssignmentPattern(name, d.value));
      }
      return Ok(name);
    }

    /** `handle_object`: an object pattern `{ name: pattern, name = e, name, }`. */
    method HandleObject() returns (r: Result<Node, string>)
      requires Valid()
      modifies this
      decreases |toks| - pos, 1
      ensures Valid() && old(pos) <= pos && inForInit == old(inForInit)
      ensures !IsPunct(old(Current()), '{') ==> r == Err("function handle_object expect {")
      ensures r.Ok? ==> (old(pos) < pos && r.value.ObjectPattern?
        && forall x :: x in r.value.properties ==> IsPatternProperty(x))
      ensures var q1 := NextIndex(toks, old(pos)); var q2 := NextIndex(toks, q1);
        IsPunct(old(Current()), '{') && toks[q1].token.Variable? && IsPunct(toks[q2].token, '}') ==>
        r == Err("handle_object syntax error")
      ensures var q1 := NextIndex(toks, old(pos));
        IsPunct(old(Current()), '{') && !toks[q1].token.Variable? && !IsPunct(toks[q1].token, '}') ==>
        r == Err("handle_object expect variable")
    {
      if !IsPunct(Current(), '{') {
        return Err("function handle_object expect {");
      }
      Next();
      var properties: seq<Node> := [];
      ghost var first := pos;
      while !IsPunct(Current(), '}')
        invariant Valid() && old(pos) < first <= pos && inForInit == old(inForInit)
        invariant forall x :: x in properties ==> IsPatternProperty(x)
        invariant first < pos ==>
          toks[first].token.Variable? && !IsPunct(toks[NextIndex(toks, first)].token, '}')
        decreases |toks| - pos
      {
        var t := Current();
        if !t.Variable? {
          return Err("handle_object expect variable");
        }
        Next();
        var p := PatternEntry(Identity(t.name));
        if p.Err? {
          return Err(p.error);
        }
        properties := properties + [p.value];
      }
      Next();
      return Ok(ObjectPattern(properties));
    }

    /** What follows a name in an object pattern: `: {…}` or `: […]`, a
        default `= e`, or `,` for the name bound to itself. */
    method PatternEntry(name: Node) returns (r: Result<Node, string>)
      requires Valid() && name.Identity?
      modifies this
      decreases |toks| - pos, 0
      ensures Valid() && old(pos) <= pos && inForInit == old(inForInit)
      ensures r.Ok? ==> old(pos) < pos && IsPatternProperty(r.value) && r.value.key == name
      ensures !IsPunct(old(Current()), ':') && !IsPunct(old(Current()), '=') && !IsPunct(old(Current()), ',') ==>
        r == Err("handle_object syntax error")
      ensures IsPunct(old(Current()), ',') ==> r == Ok(ObjectProperty(name, name))
    {
      if IsPunct(Current(), ':') {
        Next();
        if IsPunct(Current(), '{') {
          var o := HandleObject();
          if o.Err? {
            return Err(o.error);
          }
          return Ok(ObjectProperty(name, o.value));
        } else if IsPunct(Current(), '[') {
          var a := HandleArray();
          if a.Err? {
            return Err(a.error);
          }
          return Ok(ObjectProperty(name, a.value));
        }
        return Err("handle_object expect { or [ after :");
      } else if IsPunct(Current(), '=') {
        Next();
        var d := ParseExpression(2);
        if d.Err? {
          return Err(d.error);
        }
        return Ok(ObjectProperty(name, AssignmentPattern(name, d.value)));
      } else if IsPunct(Current(), ',') {
        Next();
        return Ok(ObjectProperty(name, name));
      }
      return Err("handle_object syntax error");
    }

    /** `handle_array`: an array pattern of names with optional defaults and
        nested patterns; commas are skipped. */
    method HandleArray() returns (r: Result<Node, string>)
      requires Valid()
      modifies this
      decreases |toks| - pos, 1
      ensures Valid() && old(pos) <= pos && inForInit == old(inForInit)
      ensures !IsPunct(old(Current()), '[') ==> r == Err("function handle_array expect [")
      ensures r.Ok? ==> (old(pos) < pos && r.value.ArrayPattern?
        && forall x :: x in r.value.elements ==> IsParam(x))
      ensures var q1 := NextIndex(toks, old(pos)); var t := toks[q1].token;
        IsPunct(old(Current()), '[') && !t.Variable?
        && !IsPunct(t, ']') && !IsPunct(t, ',') && !IsPunct(t, '{') && !IsPunct(t, '[') ==>
        r == Err("handle_array syntax error")
    {
      if !IsPunct(Current(), '[') {
        return Err("function handle_array expect [");
      }
      Next();
      var elements: seq<Node> := [];
      ghost var first := pos;
      while !IsPunct(Current(), ']')
        invariant Valid() && old(pos) < first <= pos && inForInit == old(inForInit)
        invariant forall x :: x in elements ==> IsParam(x)
        invariant first < pos ==> PatternStart(toks[first].token)
        decreases |toks| - pos
      {
        var t := Current();
        if IsPunct(t, ',') {
          Next();
        } else if t.Variable? {
          var n := NameWithDefault();
          if n.Err? {
            return Err(n.error);
          }
          elements := elements + [n.value];
        } else if IsPunct(t, '{') {
          var o := HandleObject();
          if o.Err? {
            return Err(o.error);
          }
          elements := elements + [o.value];
        } else if IsPunct(t, '[') {
          var a := HandleArray();
          if a.Err? {
            return Err(a.error);
          }
          elements := elements + [a.value];
        } else {
          return Err("handle_array syntax error");
        }
      }
      Next();
      return Ok(ArrayPattern(elements));
    }

    // -------------------------------------------------------------------------
    // Object and array literals (src/exp/object_exp.rs, src/exp/array_exp.rs)

    /** `build_object`: `{`, then keys with `,` (shorthand), `(` (a method) or
        `:` (a value at level 2), up to `}`.  A key followed by anything else
        adds nothing. */
    method BuildObject() returns (r: Result<Node, string>)
      requires Valid()
      modifies this
      decreases |toks| - pos, 1
      ensures Valid() && old(pos) <= pos && inForInit == old(inForInit)
      ensures !IsPunct(old(Current()), '{') ==> r == Err(Expect(old(Current()), "{").error)
      ensures r.Ok? ==> (old(pos) < pos && r.value.ObjectExpression?
        && forall x :: x in r.value.properties ==> ObjectMember(x))
      ensures var t := toks[NextIndex(toks, old(pos))].token;
        IsPunct(old(Current()), '{') && !IsKeyToken(t) && !IsPunct(t, '}') && !IsPunct(t, ',') ==>
        r == Err("object property type error")
      ensures IsPunct(old(Current()), '{') && IsPunct(toks[NextIndex(toks, old(pos))].token, '}') ==>
        r == Ok(ObjectExpression([])) && pos == NextIndex(toks, NextIndex(toks, old(pos)))
    {
      var e := ExpectAndNext("{");
      if e.Err? {
        return Err(e.error);
      }
      var properties: seq<Node> := [];
      ghost var first := pos;
      while !IsPunct(Current(), '}')
        invariant Valid() && old(pos) < first <= pos && inForInit == old(inForInit)
        invariant forall x :: x in properties ==> ObjectMember(x)
        invariant pos == first ==> properties == []
        invariant first < pos ==> IsKeyToken(toks[first].token) || IsPunct(toks[first].token, ',')
        decreases |toks| - pos
      {
        var t := Current();
        if IsPunct(t, ',') {
          Next();
        } else {
          if !IsKeyToken(t) {
            return Err("object property type error");
          }
          Next();
          var p := ObjectEntry(KeyNode(t));
          if p.Err? {
            return Err(p.error);
          }
          if p.value.Some? {
            properties := properties + [p.value.value];
          }
        }
      }
      Next();
      return Ok(ObjectExpression(properties));
    }

    /** What follows a key in an object literal: `,` (the shorthand `key`,
        the comma left for the caller), `(` (a method: parameters and a
        block) or `:` (a value at level 2); anything else adds nothing. */
    method ObjectEntry(key: Node) returns (r: Result<Option<Node>, string>)
      requires Valid() && IsKeyNode(key)
      modifies this
      decreases |toks| - pos, 2
      ensures Valid() && old(pos) <= pos && inForInit == old(inForInit)
      ensures r.Ok? && r.value.Some? ==> ObjectMember(r.value.value) && r.value.value.key == key
      ensures IsPunct(old(Current()), ',') ==> r == Ok(Some(ObjectProperty(key, key))) && pos == old(pos)
      ensures !IsPunct(old(Current()), ',') && !IsPunct(old(Current()), '(') && !IsPunct(old(Current()), ':') ==>
        r == Ok(None) && pos == old(pos)
    {
      if IsPunct(Current(), ',') {
        return Ok(Some(ObjectProperty(key, key)));
      } else if IsPunct(Current(), '(') {
        var params := HandleFunctionParams();
        if params.Err? {
          return Err(params.error);
        }
        var body := ParseBlock();
        if body.Err? {
          return Err(body.error);
        }
        return Ok(Some(ObjectMethod(key, params.value, body.value)));
      } else if IsPunct(Current(), ':') {
        Next();
        var v := ParseExpression(2);
        if v.Err? {
          return Err(v.error);
        }
        return Ok(Some(ObjectProperty(key, v.value)));
      }
      return Ok(None);
    }

    /** `build_array`: `[`, elements parsed at level 2, `]`; commas are
        skipped, so holes and a trailing comma add nothing. */
    method BuildArray() returns (r: Result<Node, string>)
      requires Valid()
      modifies this
      decreases |toks| - pos, 1
      ensures Valid() && old(pos) <= pos && inForInit == old(inForInit)
      ensures !IsPunct(old(Current()), '[') ==> r == Err(Expect(old(Current()), "[").error)
      ensures r.Ok? ==> (old(pos) < pos && r.value.ArrayExpression?
        && forall x :: x in r.value.elements ==> BindsAtLeast(x, 2))
      ensures IsPunct(old(Current()), '[') && IsPunct(toks[NextIndex(toks, old(pos))].token, ']') ==>
        r == Ok(ArrayExpression([])) && pos == NextIndex(toks, NextIndex(toks, old(pos)))
    {
      var e := ExpectAndNext("[");
      if e.Err? {
        return Err(e.error);
      }
      var elements: seq<Node> := [];
      ghost var first := pos;
      while !IsPunct(Current(), ']')
        invariant Valid() && old(pos) < first <= pos && inForInit == old(inForInit)
        invariant forall x :: x in elements ==> BindsAtLeast(x, 2)
        invariant pos == first ==> elements == []
        invariant first < pos ==> !IsPunct(toks[first].token, ']')
        decreases |toks| - pos
      {
        if IsPunct(Current(), ',') {
          Next();
        } else {
          var item := ParseExpression(2);
          if item.Err? {
            return Err(item.error);
          }
          elements := elements + [item.value];
        }
      }
      Next();
      return Ok(ArrayExpression(elements));
    }

    // -------------------------------------------------------------------------
    // Parenthesised lists that may be arrow parameters (src/exp/arrow_function_exp.rs)

    /** `build_possible_arrow_function`: a parenthesised list that becomes
        arrow parameters when `=>` follows, and otherwise a parenthesised
        expression or comma list. */
    method BuildPossibleArrow() returns (r: Result<Node, string>)
      requires Valid()
      modifies this
      decreases |toks| - pos, 1
      ensures Valid() && old(pos) <= pos && inForInit == old(inForInit)
      ensures !IsPunct(old(Current()), '(') ==> r == Err(Expect(old(Current()), "(").error)
      ensures r.Ok? ==> old(pos) < pos && (r.value.Parenthesized? || r.value.ArrowFunctionExpression?)
      ensures r.Ok? && r.value.Parenthesized? ==> isArrowFunction != Must
      ensures r.Ok? && r.value.ArrowFunctionExpression? ==>
        r.value.body.BlockStatement? || BindsAtLeast(r.value.body, 2)
      ensures var q1 := NextIndex(toks, old(pos)); var q2 := NextIndex(toks, q1);
        IsPunct(old(Current()), '(') && IsPunct(toks[q1].token, ')') ==>
          (!IsArrowToken(toks[q2].token) ==> r == Err("syntax error, ()"))
          && (IsArrowToken(toks[q2].token) && r.Ok? ==> r.value.ArrowFunctionExpression? && r.value.params == [])
    {
      regexAllowed := true;
      var e := ExpectAndNext("(");
      if e.Err? {
        return Err(e.error);
      }
      isArrowFunction := Maybe;
      var params: seq<Node> := [];
      ghost var first := pos;
      while !IsPunct(Current(), ')')
        invariant Valid() && old(pos) < first <= pos && inForInit == old(inForInit)
        invariant pos == first ==> params == [] && isArrowFunction == Maybe
        invariant first < pos ==> !IsPunct(toks[first].token, ')')
        decreases |toks| - pos
      {
        if IsPunct(Current(), ',') {
          regexAllowed := true;
          Next();
        } else {
          var x := PossibleParam();
          if x.Err? {
            return Err(x.error);
          }
          params := params + [x.value];
        }
      }
      Next();
      r := ArrowTail(params);
    }

    /** One entry of a possible parameter list: a pattern, a parenthesised
        expression (which rules out an arrow) or an expression at assignment
        level, which rules out an arrow unless it is a name or a `=` default. */
    method PossibleParam() returns (r: Result<Node, string>)
      requires Valid() && !IsPunct(Current(), ')') && !IsPunct(Current(), ',')
      modifies this
      decreases |toks| - pos, 8
      ensures Valid() && old(pos) <= pos && inForInit == old(inForInit)
      ensures r.Ok? ==> old(pos) < pos
    {
      var t := Current();
      if IsPunct(t, '{') {
        r := BuildPossibleObject();
      } else if IsPunct(t, '(') {
        isArrowFunction := Impossible;
        r := ParseExpression(0);
      } else if IsPunct(t, '[') {
        r := BuildPossibleArray();
      } else {
        r := ParseExpression(2);
        if r.Err? {
          return;
        }
        if r.value.Identity? {
        } else if r.value.AssignmentExpression? {
          if r.value.operator != "=" {
            isArrowFunction := Impossible;
          }
        } else {
          isArrowFunction := Impossible;
        }
      }
    }

    /** After the closing parenthesis of a possible parameter list: without
        `=>` it was a parenthesised expression (an error when a pattern made
        an arrow certain, or when the parentheses were empty); with `=>` the
        body follows, a block or an expression at assignment level. */
    method ArrowTail(params: seq<Node>) returns (r: Result<Node, string>)
      requires Valid()
      modifies this
      decreases |toks| - pos, 0
      ensures Valid() && old(pos) <= pos && inForInit == old(inForInit)
      ensures !IsArrowToken(old(Current())) ==> pos == old(pos) && isArrowFunction == old(isArrowFunction)
      ensures !IsArrowToken(old(Current())) ==>
        (old(isArrowFunction) == Must ==> r == Err("syntax error"))
        && (old(isArrowFunction) != Must && params == [] ==> r == Err("syntax error, ()"))
        && (old(isArrowFunction) != Must && |params| == 1 ==> r == Ok(SetParenthesized(params[0])))
        && (old(isArrowFunction) != Must && |params| > 1 ==> r == Ok(Parenthesized(SequenceExpression(params))))
      ensures IsArrowToken(old(Current())) ==>
        (old(isArrowFunction) == Impossible ==> r == Err("syntax error"))
        && (r.Ok? ==> (old(pos) < pos && r.value.ArrowFunctionExpression? && r.value.params == params
          && (r.value.body.BlockStatement? || BindsAtLeast(r.value.body, 2))))
    {
      if !IsArrowToken(Current()) {
        if isArrowFunction == Must {
          return Err("syntax error");
        } else if |params| == 0 {
          return Err("syntax error, ()");
        } else if |params| == 1 {
          return Ok(SetParenthesized(params[0]));
        }
        return Ok(Parenthesized(SequenceExpression(params)));
      }
      if isArrowFunction == Impossible {
        return Err("syntax error");
      }
      regexAllowed := true;
      Next();
      var body: Result<Node, string>;
      if IsPunct(Current(), '{') {
        body := ParseBlock();
      } else {
        body := ParseExpression(2);
      }
      if body.Err? {
        return Err(body.error);
      }
      return Ok(ArrowFunctionExpression(params, body.value));
    }

    /** `build_possible_object`: an object literal inside a possible
        parameter list; `key: v` and string or number keys rule out an arrow,
        `key = d` demands one. */
    method BuildPossibleObject() returns (r: Result<Node, string>)
      requires Valid()
      modifies this
      decreases |toks| - pos, 1
      ensures Valid() && old(pos) <= pos && inForInit == old(inForInit)
      ensures !IsPunct(old(Current()), '{') ==> r == Err(Expect(old(Current()), "{").error)
      ensures r.Ok? ==> (old(pos) < pos && r.value.ObjectExpression?
        && forall x :: x in r.value.properties ==> PossibleProperty(x))
      ensures var t := toks[NextIndex(toks, old(pos))].token;
        IsPunct(old(Current()), '{') && !IsKeyToken(t) && !IsPunct(t, '}') && !IsPunct(t, ',') ==>
        r == Err("object property type error")
    {
      var e := ExpectAndNext("{");
      if e.Err? {
        return Err(e.error);
      }
      var properties: seq<Node> := [];
      ghost var first := pos;
      while !IsPunct(Current(), '}')
        invariant Valid() && old(pos) < first <= pos && inForInit == old(inForInit)
        invariant forall x :: x in properties ==> PossibleProperty(x)
        invariant first < pos ==> IsKeyToken(toks[first].token) || IsPunct(toks[first].token, ',')
        decreases |toks| - pos
      {
        var t := Current();
        if IsPunct(t, ',') {
          regexAllowed := true;
          Next();
        } else {
          if !IsKeyToken(t) {
            return Err("object property type error");
          }
          if !t.Variable? {
            isArrowFunction := Impossible;
          }
          Next();
          var p := PossibleEntry(KeyNode(t));
          if p.Err? {
            return Err(p.error);
          }
          if p.value.Some? {
            properties := properties + [p.value.value];
          }
        }
      }
      Next();
      return Ok(ObjectExpression(properties));
    }

    /** What follows a key in a possible object: `: value` (a nested
        pattern, or an expression, which rules out an arrow), `= default`
        (which makes an arrow certain), or nothing kept at all. */
    method PossibleEntry(key: Node) returns (r: Result<Option<Node>, string>)
      requires Valid() && IsKeyNode(key)
      modifies this
      decreases |toks| - pos, 0
      ensures Valid() && old(pos) <= pos && inForInit == old(inForInit)
      ensures r.Ok? && r.value.Some? ==> old(pos) < pos && PossibleProperty(r.value.value)
      ensures !IsPunct(old(Current()), ':') && !IsPunct(old(Current()), '=') ==>
        r == Ok(None) && pos == old(pos) && isArrowFunction == old(isArrowFunction)
    {
      if IsPunct(Current(), ':') {
        regexAllowed := true;
        Next();
        var v: Result<Node, string>;
        if IsPunct(Current(), '{') {
          v := BuildPossibleObject();
        } else if IsPunct(Current(), '[') {
          v := BuildPossibleArray();
        } else {
          isArrowFunction := Impossible;
          v := ParseExpression(2);
        }
        if v.Err? {
          return Err(v.error);
        }
        return Ok(Some(ObjectProperty(key, v.value)));
      } else if IsPunct(Current(), '=') {
        isArrowFunction := Must;
        regexAllowed := true;
        Next();
        var d := ParseExpression(2);
        if d.Err? {
          return Err(d.error);
        }
        return Ok(Some(AssignmentPattern(key, d.value)));
      }
      return Ok(None);
    }

    /** `build_possible_array`: an array literal inside a possible parameter
        list (the opening `[` is skipped unchecked, as its callers stand on it). */
    method BuildPossibleArray() returns (r: Result<Node, string>)
      requires Valid()
      modifies this
      decreases |toks| - pos, 7
      ensures Valid() && old(pos) <= pos && inForInit == old(inForInit)
      ensures r.Ok? ==> old(pos) < pos && r.value.ArrayExpression?
      ensures IsPunct(toks[NextIndex(toks, old(pos))].token, ']') && old(Current()) != EOF ==>
        r == Ok(ArrayExpression([])) && pos == NextIndex(toks, NextIndex(toks, old(pos)))
    {
      regexAllowed := true;
      Next();
      var elements: seq<Node> := [];
      ghost var first := pos;
      while !IsPunct(Current(), ']')
        invariant Valid() && old(pos) <= first <= pos && inForInit == old(inForInit)
        invariant pos == first ==> elements == []
        invariant first < pos ==> !IsPunct(toks[first].token, ']')
        invariant first == old(pos) ==> toks[first].token == EOF
        decreases |toks| - pos
      {
        var t := Current();
        var x: Result<Node, string>;
        if IsPunct(t, ',') {
          regexAllowed := true;
          Next();
          continue;
        } else if IsPunct(t, '{') {
          x := BuildPossibleObject();
        } else if IsPunct(t, '[') {
          x := BuildPossibleArray();
        } else {
          x := ParseExpression(2);
        }
        if x.Err? {
          return Err(x.error);
        }
        elements := elements + [x.value];
      }
      Next();
      return Ok(ArrayExpression(elements));
    }

    // -------------------------------------------------------------------------
    // Expressions: precedence climbing (src/express.rs)

    /** `parse_expression(min_level)`.  The result binds at least as tightly
        as `minLevel` and its operands bind as associativity demands; unless
        it is one of the forms returned before the operator loop, the loop
        stopped because the next token cannot be folded at `minLevel` (and a
        name or number right after it stands on a later line). */
    method ParseExpression(minLevel: nat) returns (r: Result<Node, string>)
      requires Valid()
      modifies this
      decreases |toks| - pos, 6
      ensures Valid() && old(pos) <= pos && inForInit == old(inForInit)
      ensures r.Ok? ==> (old(pos) < pos && IsExpression(r.value)
        && BindsAtLeast(r.value, minLevel) && RightBinds(r.value))
      ensures r.Ok? && !EarlyForm(r.value) ==> !Folds(Current(), minLevel)
      ensures r.Ok? && !EarlyForm(r.value) && (Current().Variable? || Current().Digit?) ==> !IsSameLine()
      ensures StartError(old(Current())).Some? ==> r == Err(StartError(old(Current())).value)
      ensures IsPunct(old(Current()), '(') && r.Ok? ==>
        r.value.Parenthesized? || r.value.ArrowFunctionExpression?
      ensures IsLiteralToken(old(Current())) && IsStopToken(toks[NextIndex(toks, old(pos))].token) ==>
        r == Ok(LiteralNode(old(Current()))) && pos == NextIndex(toks, old(pos))
    {
      var start, early := ParseStart();
      if start.Err? || early {
        return start;
      }
      r := OperatorLoop(start.value, minLevel);
    }

    /** The operator loop of `parse_expression`, from the operand `left`:
        it ends in front of a token it does not fold, or at once after one of
        the forms it returns early. */
    method OperatorLoop(left: Node, minLevel: nat) returns (r: Result<Node, string>)
      requires Valid() && IsExpression(left) && BindsAtLeast(left, minLevel) && RightBinds(left)
      requires left.SequenceExpression? || BindsAtLeast(left, 2)
      modifies this
      decreases |toks| - pos, 6
      ensures Valid() && old(pos) <= pos && inForInit == old(inForInit)
      ensures r.Ok? ==> IsExpression(r.value) && BindsAtLeast(r.value, minLevel) && RightBinds(r.value)
      ensures r.Ok? && !EarlyForm(r.value) ==> !Folds(Current(), minLevel)
      ensures r.Ok? && !EarlyForm(r.value) && (Current().Variable? || Current().Digit?) ==> !IsSameLine()
      ensures IsStopToken(old(Current())) ==> r == Ok(left) && pos == old(pos)
    {
      if IsStopToken(Current()) {
        StopTokenStays(Current(), minLevel);
        return Ok(left);
      }
      var e := left;
      while true
        invariant Valid() && old(pos) <= pos && inForInit == old(inForInit)
        invariant IsExpression(e) && BindsAtLeast(e, minLevel) && RightBinds(e)
        invariant e.SequenceExpression? || BindsAtLeast(e, 2)
        decreases |toks| - pos
      {
        var next, step := OperatorStep(e, minLevel);
        if next.Err? || step == Finish {
          return next;
        }
        if step == Stop {
          break;
        }
        e := next.value;
      }
      return Ok(e);
    }

    /** One turn of the operator loop of `parse_expression`: it stops in
        front of a token that ends the expression or binds more loosely than
        `minLevel`, and otherwise folds the operator into `left`. */
    method OperatorStep(left: Node, minLevel: nat) returns (r: Result<Node, string>, step: Step)
      requires Valid() && IsExpression(left) && BindsAtLeast(left, minLevel) && RightBinds(left)
      requires left.SequenceExpression? || BindsAtLeast(left, 2)
      modifies this
      decreases |toks| - pos, 5
      ensures Valid() && old(pos) <= pos && inForInit == old(inForInit)
      ensures step == Stop ==> (r == Ok(left) && pos == old(pos) && !Folds(Current(), minLevel)
        && ((Current().Variable? || Current().Digit?) ==> !IsSameLine()))
      ensures IsStopToken(old(Current())) ==> r == Ok(left) && step == Stop
      ensures (old(Current()).Variable? || old(Current()).Digit?) && IsSameLine() ==> r == Err("syntax error:")
      ensures r.Ok? && step != Stop ==> (old(pos) < pos && Folded(left, old(Current()), r.value)
        && IsExpression(r.value) && BindsAtLeast(r.value, minLevel) && RightBinds(r.value)
        && (r.value.SequenceExpression? || BindsAtLeast(r.value, 2)))
      ensures r.Ok? && step == Finish ==> EarlyForm(r.value)
    {
      var t := Current();
      if IsStopToken(t) {
        StopTokenStays(t, minLevel);
        return Ok(left), Stop;
      }
      if t.Variable? || t.Digit? {
        if !IsSameLine() {
          return Ok(left), Stop;
        }
        return Err("syntax error:"), Fold;
      }
      if !(t.Control? || t == Instanceof || t == In || t == Void) {
        return Ok(left), Stop;
      }
      r, step := ControlStep(left, minLevel);
    }

    /** The turn of the operator loop in front of a control word or one of the
        keywords `instanceof`, `in` and `void`, which `get_level` ranks. */
    method ControlStep(left: Node, minLevel: nat) returns (r: Result<Node, string>, step: Step)
      requires Valid() && IsExpression(left) && BindsAtLeast(left, minLevel) && RightBinds(left)
      requires left.SequenceExpression? || BindsAtLeast(left, 2)
      requires Current().Control? || Current() == Instanceof || Current() == In || Current() == Void
      modifies this
      decreases |toks| - pos, 4
      ensures Valid() && old(pos) <= pos && inForInit == old(inForInit)
      ensures step == Stop ==> r == Ok(left) && pos == old(pos) && !Folds(Current(), minLevel)
      ensures r.Ok? && step != Stop ==> (old(pos) < pos && Folded(left, old(Current()), r.value)
        && IsExpression(r.value) && BindsAtLeast(r.value, minLevel) && RightBinds(r.value)
        && (r.value.SequenceExpression? || BindsAtLeast(r.value, 2)))
      ensures r.Ok? && step == Finish ==> EarlyForm(r.value)
    {
      var t := Current();
      var l := GetLevel(t);
      if l.Err? {
        return Err(l.error), Fold;
      }
      if l.value < minLevel {
        return Ok(left), Stop;
      }
      if !(t.Control? || t == Instanceof) {
        return Ok(left), Stop;
      }
      r, step := FoldStep(left, minLevel, l.value);
    }

    /** The folding turn of the operator loop, for an operator at level `l`
        that binds at least as tightly as `minLevel`. */
    method FoldStep(left: Node, minLevel: nat, l: nat) returns (r: Result<Node, string>, step: Step)
      requires Valid() && (Current().Control? || Current() == Instanceof) && GetLevel(Current()) == Ok(l)
      requires RightBinds(left) && (left.SequenceExpression? || BindsAtLeast(left, 2)) && minLevel <= l
      modifies this
      decreases |toks| - pos, 3
      ensures Valid() && old(pos) <= pos && inForInit == old(inForInit) && step != Stop
      ensures r.Ok? ==> (old(pos) < pos && Folded(left, old(Current()), r.value)
        && IsExpression(r.value) && BindsAtLeast(r.value, minLevel) && RightBinds(r.value)
        && (r.value.SequenceExpression? || BindsAtLeast(r.value, 2)))
      ensures r.Ok? && step == Finish ==> EarlyForm(r.value)
    {
      var done;
      r, done := FoldOperator(left, l);
      if r.Ok? {
        BindsAtLeastMono(r.value, minLevel, l);
      }
      step := if done then Finish else Fold;
    }

    /** The operand `parse_expression` starts from.  `early` marks the forms
        it returns at once (prefix operators, brackets, function expressions). */
    method ParseStart() returns (r: Result<Node, string>, early: bool)
      requires Valid()
      modifies this
      decreases |toks| - pos, 5
      ensures Valid() && old(pos) <= pos && inForInit == old(inForInit)
      ensures r.Ok? ==> old(pos) < pos
      ensures r.Ok? && early ==> StartForm(r.value)
      ensures r.Ok? && !early ==> IsAtom(r.value)
      ensures StartError(old(Current())).Some? ==> r == Err(StartError(old(Current())).value)
      ensures IsPunct(old(Current()), '(') && r.Ok? ==>
        early && (r.value.Parenthesized? || r.value.ArrowFunctionExpression?)
      ensures IsLiteralToken(old(Current())) ==>
        !early && r == Ok(LiteralNode(old(Current()))) && pos == NextIndex(toks, old(pos))
    {
      var t := Current();
      if t.Control? {
        var l := GetLevel(t);
        if l.Err? {
          return Err(l.error), false;
        }
        r := ParsePrefix(l.value);
        return r, true;
      }
      if t == Function {
        r := BuildFunction(false);
        return r, true;
      }
      if t == Typeof {
        Next();
        var a := ParseExpression(14);
        if a.Err? {
          return Err(a.error), false;
        }
        return Ok(UnaryExpression("typeof", true, a.value)), false;
      }
      if t == New {
        r := ParseNew();
        return r, false;
      }
      if IsLiteralToken(t) {
        Next();
        return Ok(LiteralNode(t)), false;
      }
      return Err("unsupported parse_express start " + LexDisplay(t)), false;
    }

    /** The control words an expression may start with: prefix `++` and
        `+ - !` (their operand parsed one level tighter), `(`, `[` and `{`. */
    method ParsePrefix(l: nat) returns (r: Result<Node, string>)
      requires Valid() && Current().Control? && GetLevel(Current()) == Ok(l)
      modifies this
      decreases |toks| - pos, 4
      ensures Valid() && old(pos) <= pos && inForInit == old(inForInit)
      ensures r.Ok? ==> old(pos) < pos && StartForm(r.value) && !r.value.FunctionExpression?
      ensures r.Ok? && (r.value.UnaryExpression? || r.value.UpdateExpression?) ==>
        r.value.prefix && r.value.operator == old(Current()).op && BindsAtLeast(r.value.argument, l + 1)
      ensures !IsPrefixOp(old(Current()).op) ==> r == Err("expect control,")
      ensures IsOneChar(old(Current()).op, '(') && r.Ok? ==>
        r.value.Parenthesized? || r.value.ArrowFunctionExpression?
    {
      var op := Current().op;
      if |op| == 2 && op[0] == '+' && op[1] == '+' {
        Next();
        var a := ParseExpression(l + 1);
        if a.Err? {
          return Err(a.error);
        }
        return Ok(UpdateExpression(op, true, a.value));
      } else if IsOneChar(op, '+') || IsOneChar(op, '-') || IsOneChar(op, '!') {
        Next();
        var a := ParseExpression(l + 1);
        if a.Err? {
          return Err(a.error);
        }
        return Ok(UnaryExpression(op, true, a.value));
      } else if IsOneChar(op, '(') {
        r := BuildPossibleArrow();
      } else if IsOneChar(op, '[') {
        r := BuildArray();
      } else if IsOneChar(op, '{') {
        r := BuildObject();
      } else {
        r := Err("expect control,");
      }
    }

    /** `new callee(args)`: the callee is parsed at level 18, so it takes no
        member access or call, and the arguments at level 2, so commas
        separate them. */
    method ParseNew() returns (r: Result<Node, string>)
      requires Valid() && Current() == New
      modifies this
      decreases |toks| - pos, 1
      ensures Valid() && old(pos) < pos && inForInit == old(inForInit)
      ensures r.Ok? ==> (r.value.NewExpression? && BindsAtLeast(r.value.callee, 18)
        && forall x :: x in r.value.arguments ==> BindsAtLeast(x, 2))
    {
      Next();
      var callee := ParseExpression(18);
      if callee.Err? {
        return Err(callee.error);
      }
      var arguments: seq<Node> := [];
      if IsPunct(Current(), '(') {
        Next();
        while !IsPunct(Current(), ')')
          invariant Valid() && old(pos) < pos && inForInit == old(inForInit)
          invariant forall x :: x in arguments ==> BindsAtLeast(x, 2)
          decreases |toks| - pos
        {
          if IsPunct(Current(), ',') {
            Next();
          }
          var a := ParseExpression(2);
          if a.Err? {
            return Err(a.error);
          }
          arguments := arguments + [a.value];
        }
        // the `expect(")")` of the source holds here: the loop only ends on `)`
        Next();
      }
      return Ok(NewExpression(callee.value, arguments));
    }

    /** One step of the operator loop: folds the current operator (of level
        `l`) into `left`.  Postfix updates and conditionals end the loop
        (`done`). */
    method FoldOperator(left: Node, l: nat) returns (r: Result<Node, string>, done: bool)
      requires Valid() && (Current().Control? || Current() == Instanceof) && GetLevel(Current()) == Ok(l)
      requires RightBinds(left) && (left.SequenceExpression? || BindsAtLeast(left, 2))
      modifies this
      decreases |toks| - pos, 2
      ensures Valid() && old(pos) <= pos && inForInit == old(inForInit)
      ensures r.Ok? ==> (old(pos) < pos && Folded(left, old(Current()), r.value) && IsExpression(r.value)
        && BindsAtLeast(r.value, l) && RightBinds(r.value)
        && (r.value.SequenceExpression? || BindsAtLeast(r.value, 2)))
      ensures r.Ok? && done ==> EarlyForm(r.value)
      ensures old(Current()).Control? && !IsFoldOp(old(Current()).op) ==>
        r == Err("unsupported operator " + DebugToken(old(Current())))
    {
      var t := Current();
      done := false;
      if t.Control? {
        FoldLevels(t.op, l);
      }
      if t == Instanceof || IsInfixOp(t.op) {
        r := FoldInfix(left, l);
      } else if IsArrowOp(t.op) {
        r := FoldArrow(left);
      } else if IsUpdateOp(t.op) {
        Next();
        r := Ok(UpdateExpression(t.op, false, left));
        done := true;
      } else if IsOneChar(t.op, '?') {
        r := FoldConditional(left, l);
        done := true;
      } else if IsOneChar(t.op, '(') {
        r := FoldCall(left);
      } else if IsOneChar(t.op, '[') {
        r := FoldIndex(left);
      } else {
        r := Err("unsupported operator " + DebugToken(t));
      }
    }

    /** `left op right` for the comma, assignments, `.`, binary and logical
        operators and `instanceof`.  Assignments parse their right side at
        their own level (right associative), the rest one level tighter
        (left associative); a comma appends to a comma list. */
    method FoldInfix(left: Node, l: nat) returns (r: Result<Node, string>)
      requires Valid() && GetLevel(Current()) == Ok(l)
      requires Current() == Instanceof || (Current().Control? && IsInfixOp(Current().op))
      requires RightBinds(left) && (left.SequenceExpression? || BindsAtLeast(left, 2))
      modifies this
      decreases |toks| - pos, 1
      ensures Valid() && old(pos) <= pos && inForInit == old(inForInit)
      ensures r.Ok? ==> old(pos) < pos && Folded(left, old(Current()), r.value) && KeepsLevel(r.value, l)
    {
      var t := Current();
      Next();
      var assign := t.Control? && IsAssignOp(t.op);
      var right := ParseOperand(if assign then l else l + 1);
      if right.Err? {
        return Err(right.error);
      }
      InfixBinds(left, t, right.value, l);
      r := Ok(InfixNode(left, t, right.value));
    }

    /** The right operand of an infix operator: an expression at `level`. */
    method ParseOperand(level: nat) returns (r: Result<Node, string>)
      requires Valid()
      modifies this
      decreases |toks| - pos, 7
      ensures Valid() && old(pos) <= pos && inForInit == old(inForInit)
      ensures r.Ok? ==> old(pos) < pos && BindsAtLeast(r.value, level)
    {
      r := ParseExpression(level);
    }

    /** `param => body`: the body is a block or an expression at level 2. */
    method FoldArrow(left: Node) returns (r: Result<Node, string>)
      requires Valid() && Current().Control? && IsArrowOp(Current().op)
      modifies this
      decreases |toks| - pos, 1
      ensures Valid() && old(pos) < pos && inForInit == old(inForInit)
      ensures r.Ok? ==> (r.value.ArrowFunctionExpression? && r.value.params == [left]
        && (r.value.body.BlockStatement? || BindsAtLeast(r.value.body, 2)))
    {
      Next();
      var body: Result<Node, string>;
      if IsPunct(Current(), '{') {
        body := ParseBlock();
      } else {
        body := ParseExpression(2);
      }
      if body.Err? {
        return Err(body.error);
      }
      return Ok(ArrowFunctionExpression([left], body.value));
    }

    /** `test ? consequent : alternate`, with the branches at levels `l` and
        `l + 1`; a missing `:` is an error. */
    method FoldConditional(left: Node, l: nat) returns (r: Result<Node, string>)
      requires Valid() && IsPunct(Current(), '?') && GetLevel(Current()) == Ok(l)
      modifies this
      decreases |toks| - pos, 1
      ensures Valid() && old(pos) < pos && inForInit == old(inForInit)
      ensures r.Ok? ==> (r.value.ConditionalExpression? && r.value.test == left
        && BindsAtLeast(r.value.consequent, 2) && BindsAtLeast(r.value.alternate, 3))
      ensures var q1 := NextIndex(toks, old(pos)); var q2 := NextIndex(toks, q1);
        IsLiteralToken(toks[q1].token) && IsStopToken(toks[q2].token) && !IsPunct(toks[q2].token, ':') ==>
        r == Err("expect :")
    {
      FoldLevels(Current().op, l);
      Next();
      var consequent := ParseExpression(l);
      if consequent.Err? {
        return Err(consequent.error);
      }
      if !IsPunct(Current(), ':') {
        return Err("expect :");
      }
      Next();
      var alternate := ParseExpression(l + 1);
      if alternate.Err? {
        return Err(alternate.error);
      }
      return Ok(ConditionalExpression(left, consequent.value, alternate.value));
    }

    /** `callee(args)` with each argument parsed at level 2, as `new` and
        array literals parse theirs, so that a comma separates arguments:
        no argument is a comma list. */
    method FoldCall(left: Node) returns (r: Result<Node, string>)
      requires Valid() && IsPunct(Current(), '(')
      modifies this
      decreases |toks| - pos, 1
      ensures Valid() && old(pos) < pos && inForInit == old(inForInit)
      ensures r.Ok? ==> (r.value.CallExpression? && r.value.callee == left
        && forall x :: x in r.value.arguments ==> BindsAtLeast(x, 2) && RightBinds(x))
      ensures IsPunct(toks[NextIndex(toks, old(pos))].token, ')') ==>
        r == Ok(CallExpression(left, [])) && pos == NextIndex(toks, NextIndex(toks, old(pos)))
    {
      Next();
      var arguments: seq<Node> := [];
      ghost var first := pos;
      while true
        invariant Valid() && old(pos) < first <= pos && inForInit == old(inForInit)
        invariant forall x :: x in arguments ==> BindsAtLeast(x, 2) && RightBinds(x)
        invariant pos == first ==> arguments == []
        invariant IsPunct(toks[first].token, ')') ==> pos == first
        decreases |toks| - pos
      {
        if IsPunct(Current(), ')') {
          Next();
          break;
        }
        var a, c := ParseArgument();
        if a.Err? {
          return Err(a.error);
        }
        arguments := arguments + [a.value];
        if IsPunct(c, ')') {
          break;
        }
      }
      return Ok(CallExpression(left, arguments));
    }

    /** One call argument, an expression at level 2, and the `,` or `)` after
        it, which is consumed; `follower` is the token that followed it. */
    method ParseArgument() returns (r: Result<Node, string>, follower: Token)
      requires Valid()
      modifies this
      decreases |toks| - pos, 7
      ensures Valid() && old(pos) <= pos && inForInit == old(inForInit)
      ensures r.Ok? ==> old(pos) < pos && BindsAtLeast(r.value, 2) && RightBinds(r.value)
    {
      follower := EOF;
      r := ParseExpression(2);
      if r.Err? {
        return;
      }
      follower := Current();
      if IsPunct(follower, ',') || IsPunct(follower, ')') {
        Next();
      }
    }

    /** The call loop as written: arguments are parsed at level 1, the
        comma's own level, so a comma after a complete argument is folded
        into it and never separates two arguments; `followers` are the
        tokens that followed each argument. */
    method FoldCallAsWritten(left: Node) returns (r: Result<Node, string>, ghost followers: seq<Token>)
      requires Valid() && IsPunct(Current(), '(')
      modifies this
      decreases |toks| - pos, 7
      ensures Valid() && old(pos) < pos && inForInit == old(inForInit)
      ensures r.Ok? ==> (r.value.CallExpression? && r.value.callee == left
        && NoCommaSplits(r.value.arguments, followers))
    {
      Next();
      var arguments: seq<Node> := [];
      followers := [];
      while true
        invariant Valid() && old(pos) < pos && inForInit == old(inForInit)
        invariant NoCommaSplits(arguments, followers)
        decreases |toks| - pos
      {
        if IsPunct(Current(), ')') {
          Next();
          break;
        }
        var a, c := ArgumentAsWritten();
        if a.Err? {
          return Err(a.error), followers;
        }
        NoCommaSplitsSnoc(arguments, followers, a.value, c);
        arguments := arguments + [a.value];
        followers := followers + [c];
        if IsPunct(c, ')') {
          break;
        }
      }
      return Ok(CallExpression(left, arguments)), followers;
    }

    /** One argument at level 1 and the token after it, which is consumed
        when it is `,` or `)`. */
    method ArgumentAsWritten() returns (r: Result<Node, string>, follower: Token)
      requires Valid()
      modifies this
      decreases |toks| - pos, 7
      ensures Valid() && old(pos) <= pos && inForInit == old(inForInit)
      ensures r.Ok? ==> old(pos) < pos && (!EarlyForm(r.value) ==> !IsPunct(follower, ','))
    {
      follower := EOF;
      r := ParseExpression(1);
      if r.Err? {
        return;
      }
      follower := Current();
      if IsPunct(follower, ',') || IsPunct(follower, ')') {
        Next();
      }
      if IsPunct(follower, ',') {
        CommaFolds(follower);
      }
    }

    /** `object[property]`, the property parsed at level 0 and closed by `]`. */
    method FoldIndex(left: Node) returns (r: Result<Node, string>)
      requires Valid() && IsPunct(Current(), '[')
      modifies this
      decreases |toks| - pos, 1
      ensures Valid() && old(pos) < pos && inForInit == old(inForInit)
      ensures r.Ok? ==> (r.value.MemberExpression? && r.value.obj == left && r.value.computed
        && IsExpression(r.value.property))
    {
      Next();
      var property := ParseExpression(0);
      if property.Err? {
        return Err(property.error);
      }
      var e := ExpectAndNext("]");
      if e.Err? {
        return Err(e.error);
      }
      return Ok(MemberExpression(left, property.value, true));
    }
  }

  /** An entry of an object literal: a property or a method under a string
      or number key. */
  predicate ObjectMember(p: Node)
  {
    (p.ObjectProperty? && IsKeyNode(p.key))
    || (p.ObjectMethod? && IsKeyNode(p.key) && p.body.BlockStatement?
        && forall x :: x in p.params ==> IsParam(x))
  }

  /** An entry of an object inside a possible parameter list: `key: value`
      or `key = default`. */
  predicate PossibleProperty(p: Node)
  {
    (p.ObjectProperty? && IsKeyNode(p.key)) || (p.AssignmentPattern? && IsKeyNode(p.left))
  }

  /** The key node for a key token: names and strings become string literals. */
  function KeyNode(t: Token): (k: Node)
    requires IsKeyToken(t)
    ensures IsKeyNode(k)
    ensures k.NumericLiteral? <==> t.Digit?
  {
    match t
    case Variable(s) => StringLiteral(s)
    case String(s) => StringLiteral(s)
    case Digit(d) => NumericLiteral(d)
  }

  // ---------------------------------------------------------------------------
  // Driving the lexer and the parser

  /** The token stream `Parser` reads through `Lex::next`: every token the
      lexer returns, with the line it starts on, up to and including the one
      `EOF`; a lexer error ends the run. */
  method Tokenize(input: seq<char>) returns (r: Result<seq<Tok>, string>)
    ensures r.Ok? ==> ValidToks(r.value)
    ensures r.Ok? ==> forall x :: x in r.value ==> x.line >= 1
  {
    var lex := new Lexing.Lexer(input, true);
    var toks: seq<Tok> := [];
    while true
      invariant lex.Valid() && lex.input == input
      invariant forall i :: 0 <= i < |toks| ==> toks[i].token != EOF && toks[i].line >= 1
      decreases |input| - lex.pos
    {
      var n := lex.Next();
      if n.Err? {
        return Err(n.error);
      }
      var (t, loc) := n.value;
      toks := toks + [Tok(t, loc.start.line)];
      if t == EOF {
        return Ok(toks);
      }
    }
  }

  /** `Parser::new` followed by `parse`: the statement list of the whole
      input; `stop` is the token the list ended in front of. */
  method ParseProgram(input: seq<char>) returns (r: Result<seq<Node>, string>, ghost stop: Token)
    ensures r.Ok? ==> EndsList(stop)
    ensures r.Ok? ==> forall x :: x in r.value ==> !x.EmptyStatement?
  {
    stop := EOF;
    var toks := Tokenize(input);
    if toks.Err? {
      return Err(toks.error), stop;
    }
    var p := new Parser(toks.value);
    r := p.Parse();
    stop := p.Current();
  }

  /** The tokens of `for (let i;;);` on one line. */
  function ForLetTokens(): seq<Tok>
  {
    [Tok(For, 1), Tok(Control("("), 1), Tok(Let, 1), Tok(Variable("i"), 1), Tok(Control(";"), 1),
     Tok(Control(";"), 1), Tok(Control(")"), 1), Tok(Control(";"), 1), Tok(EOF, 1)]
  }

  lemma ForLetValid()
    ensures ValidToks(ForLetTokens())
  {
    var toks := ForLetTokens();
    forall i | 0 <= i < |toks| - 1
      ensures toks[i].token != EOF
    {
    }
  }

  lemma ForLetHeader()
    ensures ValidToks(ForLetTokens()) && EmptyLetHeader(ForLetTokens(), 0)
    ensures LetHeaderName(ForLetTokens(), 0) == "i"
  {
    ForLetValid();
    var toks := ForLetTokens();
    forall i | 0 <= i < 7
      ensures NextIndex(toks, i) == i + 1
    {
      NextIndexPlain(toks, i);
    }
  }

  /** Without comments in the way, `next` moves one token on. */
  lemma NextIndexPlain(toks: seq<Tok>, i: nat)
    requires ValidToks(toks) && i + 1 < |toks| && !toks[i + 1].token.Comment?
    ensures NextIndex(toks, i) == i + 1
  {
  }

  /** The header `for (let i;;);` read both ways: as written the `let`
      declaration consumes the first `;`, so the test slot starts at `)`;
      with `in_for_init` set it is a loop with three empty slots. */
  method ForLetScenario() returns (asWritten: Result<Node, string>, corrected: Result<Node, string>)
    ensures asWritten == Err("get level err )")
    ensures corrected == Ok(ForStatement(VariableDeclaration(Let, [VariableDeclarator(Identity("i"), None)]),
                                         EmptyStatement, EmptyStatement, EmptyStatement))
  {
    ForLetHeader();
    var a := new Parser(ForLetTokens());
    ghost var semi;
    asWritten, semi := a.BuildForAsWritten();
    var b := new Parser(ForLetTokens());
    corrected, semi := b.BuildFor();
  }
}
