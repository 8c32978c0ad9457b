/** The pure helpers of the expression parser (src/express.rs): the operator
    precedence table, the token tests and `expect…` checks, and the
    predicates that state what precedence climbing guarantees about the
    trees `parse_expression` returns. */
module Express {
  import opened Wrappers
  import opened Tokens
  import opened Ast

  // ---------------------------------------------------------------------------
  // The precedence table (get_level)

  /** The level of a control operator's text, if the table lists it; the
      table is read by length and then character by character. */
  function ControlLevel(s: string): Option<nat>
  {
    if |s| == 1 then Level1(s[0])
    else if |s| == 2 then Level2(s[0], s[1])
    else if |s| == 3 then Level3(s[0], s[1], s[2])
    else None
  }

  function Level1(c: char): Option<nat>
  {
    if c == '.' || c == '[' || c == '(' || c == '{' then Some(17)
    else if c == '!' || c == '~' then Some(14)
    else if c == '*' || c == '/' || c == '%' then Some(12)
    else if c == '+' || c == '-' then Some(11)
    else if c == '>' || c == '<' then Some(9)
    else if c == '&' then Some(7)
    else if c == '^' then Some(6)
    else if c == '|' then Some(5)
    else if c == '?' || c == '=' then Some(2)
    else if c == ',' then Some(1)
    else None
  }

  function Level2(a: char, b: char): Option<nat>
  {
    if a == '?' && b == '.' then Some(17)
    else if (a == '+' || a == '-') && b == a then Some(15)
    else if a == '*' && b == '*' then Some(13)
    else if (a == '<' || a == '>') && b == a then Some(10)
    else if (a == '>' || a == '<') && b == '=' then Some(9)
    else if (a == '=' || a == '!') && b == '=' then Some(8)
    else if a == '&' && b == '&' then Some(4)
    else if (a == '?' || a == '|') && b == a then Some(3)
    else if IsCompoundHead(a) && b == '=' then Some(2)
    else if a == '=' && b == '>' then Some(2)
    else None
  }

  /** The first characters of the two-character compound assignments. */
  predicate IsCompoundHead(a: char)
  {
    a == '+' || a == '-' || a == '*' || a == '/' || a == '%' || a == '|' || a == '&'
  }

  function Level3(a: char, b: char, c: char): Option<nat>
  {
    if (a == '!' || a == '=') && b == '=' && c == '=' then Some(8)
    else if (a == '>' || a == '<') && b == a && c == '=' then Some(2)
    else None
  }

  function GetLevel(t: Token): (r: Result<nat, string>)
    ensures r.Ok? ==> 1 <= r.value <= 17
    ensures r.Err? ==> r.error == "get level err " + LexDisplay(t)
  {
    if t.Control? then
      (match ControlLevel(t.op)
       case Some(l) => Ok(l)
       case None => Err("get level err " + LexDisplay(t)))
    else if t.Instanceof? || t.In? then Ok(9)
    else if t.Typeof? || t.Void? || t.Delete? || t.Await? then Ok(14)
    else if t.New? then Ok(17)
    else Err("get level err " + LexDisplay(t))
  }

  /** The table has an entry exactly for control operators it lists and for
      seven keywords; every other token is an error. */
  lemma GetLevelDomain(t: Token)
    ensures GetLevel(t).Ok? <==>
      (t.Control? && ControlLevel(t.op).Some?)
      || t == Instanceof || t == In || t == Typeof || t == Void || t == Delete || t == Await || t == New
    ensures t.Control? && ControlLevel(t.op).Some? ==> GetLevel(t) == Ok(ControlLevel(t.op).value)
  {
  }

  // ---------------------------------------------------------------------------
  // Token tests and checks

  predicate IsCtrlWord(t: Token, s: string)
  {
    match t
    case Control(c) => c == s
    case _ => false
  }

  predicate IsCtrl(t: Token)
  {
    match t
    case Control(_) => true
    case _ => false
  }

  /** `expect`: checks that the token is the control word `s`. */
  function Expect(t: Token, s: string): (r: Result<(), string>)
    ensures r.Ok? <==> t == Control(s)
    ensures t.Control? && t.op != s ==> r == Err("expect() expect: " + s)
    ensures !t.Control? ==> r == Err("expect() expect:  " + s)
  {
    match t
    case Control(next) => if next != s then Err("expect() expect: " + s) else Ok(())
    case _ => Err("expect() expect:  " + s)
  }

  function ExpectKeyword(t: Token, k: Token): (r: Result<(), string>)
    ensures r.Ok? <==> t == k
    ensures r.Err? ==> r.error == "expect keyword " + LexDisplay(k)
  {
    if t == k then Ok(()) else Err("expect keyword " + LexDisplay(k))
  }

  /** A string as Rust's `Debug` prints it: between double quotes, with a
      quote, a backslash and the line-break and tab characters escaped. */
  function DebugString(s: string): (r: string)
    ensures |r| >= |s| + 2 && r[0] == '"' && r[|r| - 1] == '"'
  {
    "\"" + DebugEscape(s) + "\""
  }

  function DebugEscape(s: string): (r: string)
    ensures |r| >= |s|
    decreases |s|
  {
    if s == [] then ""
    else
      var c := s[0];
      (if c == '"' then "\\\"" else if c == '\\' then "\\\\" else if c == '\n' then "\\n"
       else if c == '\r' then "\\r" else if c == '\t' then "\\t" else [c])
      + DebugEscape(s[1..])
  }

  /** The characters `Debug` escapes in a string. */
  predicate DebugEscaped(c: char)
  {
    c == '"' || c == '\\' || c == '\n' || c == '\r' || c == '\t'
  }

  /** A string with nothing to escape is printed as it is: `Var`, `;` and
      every plain name appear unchanged between the quotes. */
  lemma {:induction false} DebugEscapePlain(s: string)
    requires forall i :: 0 <= i < |s| ==> !DebugEscaped(s[i])
    ensures DebugEscape(s) == s
    ensures DebugString(s) == "\"" + s + "\""
    decreases |s|
  {
    if s != [] {
      DebugEscapePlain(s[1..]);
      assert s == [s[0]] + s[1..];
    }
  }

  /** The derived `Debug` spelling of a token, as the `expect_keys` and
      `unsupported operator` messages show it: the variant name, followed for
      a token with a payload by the payload strings in parentheses. */
  function DebugToken(t: Token): string
  {
    match t
    case LF => "LF"
    case CR => "CR"
    case EOF => "EOF"
    case Variable(s) => "Variable(" + DebugString(s) + ")"
    case Digit(s) => "Digit(" + DebugString(s) + ")"
    case String(s) => "String(" + DebugString(s) + ")"
    case Control(s) => "Control(" + DebugString(s) + ")"
    case Comment(s) => "Comment(" + DebugString(s) + ")"
    case TemplateStr(s) => "TemplateStr(" + DebugString(s) + ")"
    case Regex(b, f) => "Regex(" + DebugString(b) + ", " + DebugString(f) + ")"
    case _ => LexDisplay(t)
  }

  function DebugList(list: seq<Token>): string
    decreases |list|
  {
    if list == [] then ""
    else if |list| == 1 then DebugToken(list[0])
    else DebugToken(list[0]) + ", " + DebugList(list[1..])
  }

  /** `expect_keys`: the first entry of `list` equal to the token, which is the
      token itself; an error when the token is not listed. */
  function ExpectKeys(t: Token, list: seq<Token>): (r: Result<Token, string>)
    ensures r.Ok? <==> t in list
    ensures r.Ok? ==> r.value == t
    ensures r.Err? ==> r.error == "expect [" + DebugList(list) + "]"
  {
    if t in list then Ok(t) else Err("expect [" + DebugList(list) + "]")
  }

  // ---------------------------------------------------------------------------
  // What precedence climbing guarantees

  /** The tokens that end the operator loop outright. */
  predicate IsStopWord(s: string)
  {
    |s| == 1 && (s[0] == ';' || s[0] == ':' || s[0] == ')' || s[0] == ']' || s[0] == '}')
  }

  predicate IsAssignOp(s: string)
  {
    (|s| == 1 && s[0] == '=')
    || (|s| == 2 && IsCompoundHead(s[0]) && s[1] == '=')
    || (|s| == 3 && (s[0] == '>' || s[0] == '<') && s[1] == s[0] && s[2] == '=')
  }

  predicate IsBinaryOp(s: string)
  {
    (|s| == 1 && (s[0] == '+' || s[0] == '-' || s[0] == '*' || s[0] == '/' || s[0] == '%'
                  || s[0] == '>' || s[0] == '<'))
    || (|s| == 2 && (s[0] == '>' || s[0] == '<' || s[0] == '=' || s[0] == '!') && s[1] == '=')
    || (|s| == 3 && (s[0] == '=' || s[0] == '!') && s[1] == '=' && s[2] == '=')
  }

  predicate IsLogicalOp(s: string)
  {
    |s| == 2 && (s[0] == '&' || s[0] == '|') && s[1] == s[0]
  }

  /** The control operators the loop knows how to fold into `left`. */
  predicate IsFoldOp(s: string)
  {
    IsAssignOp(s) || IsBinaryOp(s) || IsLogicalOp(s)
    || (|s| == 1 && (s[0] == ',' || s[0] == '.' || s[0] == '?' || s[0] == '(' || s[0] == '['))
    || (|s| == 2 && (((s[0] == '+' || s[0] == '-') && s[1] == s[0]) || (s[0] == '=' && s[1] == '>')))
  }

  /** The loop would fold token `t` into the expression when the minimum
      level is `m`. */
  predicate Folds(t: Token, m: nat)
  {
    (t.Control? && IsFoldOp(t.op) && GetLevel(t).Ok? && m <= GetLevel(t).value)
    || (t == Instanceof && m <= 9)
  }

  /** The level an operator node was folded at. */
  function OperatorLevel(op: string): nat
  {
    if op == "instanceof" then 9
    else match ControlLevel(op)
      case Some(l) => l
      case None => 0
  }

  /** A node the operator loop builds binds at least as tightly as `m`: its
      operator's level is at least `m`.  Nodes the loop does not build
      (atoms, and the forms returned before the loop) carry no claim. */
  predicate BindsAtLeast(n: Node, m: nat)
  {
    match n
    case SequenceExpression(_) => m <= 1
    case AssignmentExpression(_, _, _) => m <= 2
    case ConditionalExpression(_, _, _) => m <= 2
    case BinaryExpression(_, op, _) => m <= OperatorLevel(op)
    case LogicalExpression(_, op, _) => m <= OperatorLevel(op)
    case MemberExpression(_, _, _) => m <= 17
    case CallExpression(_, _) => m <= 17
    case UpdateExpression(_, prefix, _) => prefix || m <= 15
    case _ => true
  }

  /** The operands of the top node bind as the recursive calls demand: left
      associativity for binary, logical and `.` (right side at level + 1),
      right associativity for assignments (right side at the same level), a
      flat comma list, and `?:` with its branches at levels 2 and 3. */
  predicate RightBinds(n: Node)
  {
    match n
    case BinaryExpression(_, op, right) => BindsAtLeast(right, OperatorLevel(op) + 1)
    case LogicalExpression(_, op, right) => BindsAtLeast(right, OperatorLevel(op) + 1)
    case AssignmentExpression(_, _, right) => BindsAtLeast(right, 2)
    case MemberExpression(_, property, computed) => !computed ==> BindsAtLeast(property, 18)
    case ConditionalExpression(_, consequent, alternate) => BindsAtLeast(consequent, 2) && BindsAtLeast(alternate, 3)
    case SequenceExpression(es) => 2 <= |es| && forall i :: 0 <= i < |es| ==> BindsAtLeast(es[i], 2)
    case _ => true
  }

  /** The results `parse_expression` returns without running the operator
      loop after them: prefix operators, parenthesised expressions and arrow
      functions, array and object literals, function expressions, postfix
      updates and conditionals (and, conservatively, every unary node). */
  predicate EarlyForm(n: Node)
  {
    n.Parenthesized? || n.ArrowFunctionExpression? || n.ArrayExpression? || n.ObjectExpression?
    || n.FunctionExpression? || n.UpdateExpression? || n.ConditionalExpression? || n.UnaryExpression?
  }

  /** Left associativity in practice: in `a - b - c` the right operand of the
      top `-` can never be another `-` or `+`, so the tree is `(a - b) - c`. */
  lemma AdditiveLeftAssociative(n: Node)
    requires n.BinaryExpression? && (n.operator == "-" || n.operator == "+") && RightBinds(n)
    ensures !(n.right.BinaryExpression? && (n.right.operator == "-" || n.right.operator == "+"))
  {
    assert OperatorLevel("-") == 11 && OperatorLevel("+") == 11;
  }

  /** Right associativity in practice: the right side of an assignment may be
      another assignment (`a = b = c` is `a = (b = c)`), but never a comma list. */
  lemma AssignmentRightAssociative(n: Node, a: Node, b: Node)
    requires n == AssignmentExpression(a, "=", b)
    ensures b.AssignmentExpression? ==> RightBinds(n)
    ensures b.SequenceExpression? ==> !RightBinds(n)
  {
  }

  /** A comma list never holds a comma list: sequences come out flat. */
  lemma SequenceIsFlat(n: Node, i: nat)
    requires n.SequenceExpression? && RightBinds(n) && i < |n.expressions|
    ensures !n.expressions[i].SequenceExpression?
  {
    assert BindsAtLeast(n.expressions[i], 2);
  }
}
