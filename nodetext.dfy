/** The one-line text of a Babel node that src/a.js builds for messages
    (`getNodeStr`), and the printer wrapper `getNodeCode`, which prints a node
    without its leading comments and puts them back afterwards. */
module NodeText {
  import opened Wrappers
  import opened Babel

  // ---------------------------------------------------------------------------
  // getNodeStr

  /** `getNodeStr` on a node: one case per node type it knows, and
      `___type___` for the rest. */
  function NodeStr(n: BNode): string
    decreases n
  {
    match n
    case ExpressionStatement(e) => NodeStr(e)
    case FunctionDeclaration(id, ps, b) => "function " + id + "(" + Join(ps, ",") + ")" + NodeStr(b)
    case FunctionExpression(id, ps, b) =>
      "function " + (if id.Some? then id.value else "") + "(" + Join(ps, ",") + ")" + NodeStr(b)
    case ArrowFunctionExpression(ps, b) => "(" + Join(ps, ",") + ")=>" + NodeStr(b)
    case CallExpression(c, args) => NodeStr(c) + "(" + Join(args, ",") + ")"
    case Identifier(name) => name
    case StringLiteral(s) => "\"" + s + "\""
    case BooleanLiteral(b) => "\"" + (if b then "true" else "false") + "\""
    case NumericLiteral(s) => s
    case ThisExpression => "this"
    case NullLiteral => "null"
    case BlockStatement(ss) =>
      " { " + Join(if |ss| <= 2 then ss else ss[..2], ",") + (if |ss| > 2 then " ,... } " else " } ")
    case RegExpLiteral(p, f) => "/" + p + "/" + f
    case VariableDeclaration(k, ds) => k + " " + Join(ds, ", ")
    case VariableDeclarator(t, i) => NodeStr(t) + (if i.Some? then " = " + NodeStrOf(i) else "")
    case LogicalExpression(l, op, r) => NodeStr(l) + " " + op + " " + NodeStr(r)
    case AssignmentExpression(l, op, r) => NodeStr(l) + " " + op + " " + NodeStr(r)
    case BinaryExpression(l, op, r) => NodeStr(l) + " " + op + " " + NodeStr(r)
    case MemberExpression(o, p, computed) =>
      if computed then NodeStr(o) + "[" + NodeStr(p) + "]" else NodeStr(o) + "." + NodeStr(p)
    case TryStatement(_, h, f) =>
      "try {}" + (if h.Some? then " catch() {}" else "") + (if f.Some? then "finally(){}" else "")
    case ThrowStatement(a) => "throw " + NodeStr(a)
    case ContinueStatement => "continue"
    case BreakStatement => "break"
    case NewExpression(c, args) => "new " + NodeStr(c) + "(" + Join(args, ", ") + ")"
    case ReturnStatement(a) => "return " + NodeStrOf(a)
    case SequenceExpression(es) => Join(es, ",")
    case ArrayExpression(es) => "[" + Join(if |es| <= 1 then es else es[..1], ",") + "]"
    case IfStatement(t, c, a) =>
      "if (" + NodeStr(t) + ")" + NodeStr(c) + (if a.Some? then "else " + NodeStrOf(a) else "")
    case ConditionalExpression(t, c, a) => NodeStr(t) + " ? " + NodeStr(c) + " : " + NodeStr(a)
    case UnaryExpression(op, a) => op + " " + NodeStr(a)
    case UpdateExpression(op, a) => op + NodeStr(a)
    case ObjectExpression(ps) => "{" + Join(ps, ",") + "}"
    case ObjectProperty(k, v) => NodeStr(k) + ": " + NodeStr(v)
    case ForStatement(i, t, u, b) =>
      "for(" + NodeStrOf(i) + ";" + NodeStrOf(t) + ";" + NodeStrOf(u) + ")" + NodeStr(b)
    case ForInStatement(l, r, b) => "for(" + NodeStr(l) + " in " + NodeStr(r) + ")" + NodeStr(b)
    case WhileStatement(t, b) => "while(" + NodeStr(t) + ")" + NodeStr(b)
    case LabeledStatement(l, b) => l + ":" + NodeStr(b)
    case SwitchStatement(d, _) => "switch(" + NodeStr(d) + "){}"
    case DoWhileStatement(b, t) => "do" + NodeStr(b) + "while(" + NodeStr(t) + ")"
    case Other(t, _) => "___" + t + "___"
  }

  /** `getNodeStr` on a field that may be null: a missing node gives the empty text. */
  function NodeStrOf(o: Option<BNode>): string
    decreases o
  {
    if o.Some? then NodeStr(o.value) else ""
  }

  /** `map(getNodeStr).join(sep)`; an array turned into a string joins with `,`. */
  function Join(ns: seq<BNode>, sep: string): string
    decreases ns
  {
    if ns == [] then ""
    else if |ns| == 1 then NodeStr(ns[0])
    else NodeStr(ns[0]) + sep + Join(ns[1..], sep)
  }

  /** Joining two non-empty lists is joining each and putting the separator between. */
  lemma {:induction false} JoinAppend(a: seq<BNode>, b: seq<BNode>, sep: string)
    requires a != [] && b != []
    ensures Join(a + b, sep) == Join(a, sep) + sep + Join(b, sep)
    decreases |a|
  {
    if |a| == 1 {
      assert (a + b)[1..] == b;
    } else {
      assert (a + b)[1..] == a[1..] + b;
      JoinAppend(a[1..], b, sep);
    }
  }

  /** A comma list nested at the head of another prints as the flat list. */
  lemma NestedSequenceFlat(a: seq<BNode>, b: seq<BNode>)
    requires a != [] && b != []
    ensures NodeStr(SequenceExpression([SequenceExpression(a)] + b)) == NodeStr(SequenceExpression(a + b))
  {
    JoinAppend(a, b, ",");
    var nested := [SequenceExpression(a)] + b;
    assert nested[0] == SequenceExpression(a) && nested[1..] == b;
    assert Join(nested, ",") == Join(a, ",") + "," + Join(b, ",");
  }

  /** A block shows its first two statements and marks that there are more:
      statements after the third change nothing. */
  lemma BlockShowsTwo(b: seq<BNode>, more: seq<BNode>)
    requires |b| >= 3
    ensures NodeStr(BlockStatement(b + more)) == NodeStr(BlockStatement(b))
  {
    assert (b + more)[..2] == b[..2];
  }

  /** A long block is its first two statements followed by the `,...` mark. */
  lemma LongBlockMark(b: seq<BNode>)
    requires |b| > 2
    ensures NodeStr(BlockStatement(b)) == " { " + NodeStr(b[0]) + "," + NodeStr(b[1]) + " ,... } "
  {
    var two := b[..2];
    assert two[0] == b[0] && two[1..] == [b[1]];
    assert Join(two, ",") == NodeStr(b[0]) + "," + Join([b[1]], ",");
  }

  /** An array literal shows its first element only. */
  lemma ArrayShowsFirst(e: seq<BNode>, more: seq<BNode>)
    requires |e| >= 1
    ensures NodeStr(ArrayExpression(e + more)) == "[" + NodeStr(e[0]) + "]"
  {
    assert (e + more)[..1] == [e[0]];
  }

  // ---------------------------------------------------------------------------
  // getNodeCode

  /** A node object, with its mutable `leadingComments` slot. */
  class NodeObject {
    const node: BNode
    var leadingComments: seq<string>

    constructor(node: BNode, leadingComments: seq<string>)
      ensures this.node == node && this.leadingComments == leadingComments
    {
      this.node := node;
      this.leadingComments := leadingComments;
    }
  }

  /** The limit `getNodeCode` uses when the caller gives none. */
  const DefaultLimit := 100

  /** `substring(0, limit)`: the first `limit` characters, all of them when the
      text is shorter, none for a negative limit. */
  function Truncate(code: string, limit: int): (r: string)
    ensures |r| == if limit < 0 then 0 else if limit < |code| then limit else |code|
    ensures r == code[..|r|]
  {
    if limit <= 0 then "" else if limit < |code| then code[..limit] else code
  }

  /** What `getNodeCode` gives for a node: the printer's text of the node seen
      with no leading comments, cut to `limit`; a printer failure passes through. */
  function PrintedCode(node: BNode, limit: int, printer: (BNode, seq<string>) -> Result<string, string>)
    : Result<Option<string>, string>
  {
    match printer(node, [])
    case Ok(code) => Ok(Some(Truncate(code, limit)))
    case Err(e) => Err(e)
  }

  /** `getNodeCode`: nothing for a missing node; otherwise the node's comments
      are emptied for the printer and restored afterwards, also when the
      printer fails.  The printer (`recast.print`) is the parameter `printer`. */
  method GetNodeCode(n: NodeObject?, limit: int, printer: (BNode, seq<string>) -> Result<string, string>)
    returns (r: Result<Option<string>, string>)
    modifies n
    ensures n == null ==> r == Ok(None)
    ensures n != null ==> r == PrintedCode(n.node, limit, printer)
    ensures n != null ==> n.leadingComments == old(n.leadingComments)
  {
    if n == null {
      return Ok(None);
    }
    var before := n.leadingComments;
    n.leadingComments := [];
    var printed := printer(n.node, n.leadingComments);
    n.leadingComments := before;
    match printed
    case Ok(code) =>
      r := Ok(Some(Truncate(code, limit)));
    case Err(e) =>
      r := Err(e);
  }

  /** `getNodeCode` called without a limit, which then defaults to 100: the
      text returned is never longer than that. */
  method GetNodeCodeDefault(n: NodeObject?, printer: (BNode, seq<string>) -> Result<string, string>)
    returns (r: Result<Option<string>, string>)
    modifies n
    ensures n == null ==> r == Ok(None)
    ensures n != null ==> r == PrintedCode(n.node, DefaultLimit, printer)
    ensures r.Ok? && r.value.Some? ==> |r.value.value| <= DefaultLimit
    ensures n != null ==> n.leadingComments == old(n.leadingComments)
  {
    r := GetNodeCode(n, DefaultLimit, printer);
  }
}
