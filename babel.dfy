/** The Babel syntax tree the evaluator helpers of src/a.js walk.  Each
    constructor is a node `type` that `getNodeStr` handles by name; `Other`
    stands for every other node type, with its child nodes.  Nullable Babel
    fields are `Option`s.  The order of `Children` is the order in which
    Babel's `traverse` visits a node's children (its visitor keys). */
module Babel {
  import opened Wrappers

  datatype BNode =
    | ExpressionStatement(expression: BNode)
    | FunctionDeclaration(id: string, params: seq<BNode>, body: BNode)
    | FunctionExpression(fnId: Option<string>, params: seq<BNode>, body: BNode)
    | ArrowFunctionExpression(params: seq<BNode>, body: BNode)
    | CallExpression(callee: BNode, arguments: seq<BNode>)
    | Identifier(name: string)
    | StringLiteral(text: string)
    | BooleanLiteral(truth: bool)
      /** A number literal, held as the text the host prints for its value. */
    | NumericLiteral(numeral: string)
    | ThisExpression
    | NullLiteral
    | BlockStatement(statements: seq<BNode>)
    | RegExpLiteral(pattern: string, flags: string)
    | VariableDeclaration(kind: string, declarations: seq<BNode>)
    | VariableDeclarator(target: BNode, init: Option<BNode>)
    | LogicalExpression(left: BNode, operator: string, right: BNode)
    | AssignmentExpression(left: BNode, operator: string, right: BNode)
    | BinaryExpression(left: BNode, operator: string, right: BNode)
    | MemberExpression(obj: BNode, property: BNode, computed: bool)
    | TryStatement(block: BNode, handler: Option<BNode>, finalizer: Option<BNode>)
    | ThrowStatement(argument: BNode)
    | ContinueStatement
    | BreakStatement
    | NewExpression(callee: BNode, arguments: seq<BNode>)
    | ReturnStatement(returned: Option<BNode>)
    | SequenceExpression(expressions: seq<BNode>)
    | ArrayExpression(elements: seq<BNode>)
    | IfStatement(test: BNode, consequent: BNode, alternate: Option<BNode>)
    | ConditionalExpression(test: BNode, consequent: BNode, otherwise: BNode)
    | UnaryExpression(operator: string, argument: BNode)
    | UpdateExpression(operator: string, argument: BNode)
    | ObjectExpression(properties: seq<BNode>)
    | ObjectProperty(key: BNode, value: BNode)
    | ForStatement(init: Option<BNode>, forTest: Option<BNode>, update: Option<BNode>, body: BNode)
    | ForInStatement(left: BNode, right: BNode, body: BNode)
    | WhileStatement(test: BNode, body: BNode)
    | LabeledStatement(labelName: string, body: BNode)
    | SwitchStatement(discriminant: BNode, cases: seq<BNode>)
    | DoWhileStatement(body: BNode, test: BNode)
    | Other(typeName: UnlistedType, children: seq<BNode>)

  /** The node types that have a constructor of their own above. */
  predicate IsListedType(t: string)
  {
    t in {
      "ExpressionStatement", "FunctionDeclaration", "FunctionExpression",
      "ArrowFunctionExpression", "CallExpression", "Identifier", "StringLiteral",
      "BooleanLiteral", "NumericLiteral", "ThisExpression", "NullLiteral",
      "BlockStatement", "RegExpLiteral", "VariableDeclaration", "VariableDeclarator",
      "LogicalExpression", "AssignmentExpression", "BinaryExpression", "MemberExpression",
      "TryStatement", "ThrowStatement", "ContinueStatement", "BreakStatement",
      "NewExpression", "ReturnStatement", "SequenceExpression", "ArrayExpression",
      "IfStatement", "ConditionalExpression", "UnaryExpression", "UpdateExpression",
      "ObjectExpression", "ObjectProperty", "ForStatement", "ForInStatement",
      "WhileStatement", "LabeledStatement", "SwitchStatement", "DoWhileStatement"}
  }

  /** A node type `Other` may carry: one without a constructor of its own, so
      no node has two spellings. */
  type UnlistedType = t: string | !IsListedType(t) witness "Program"

  /** The node's Babel `type` string. */
  function TypeName(n: BNode): string
  {
    match n
    case ExpressionStatement(_) => "ExpressionStatement"
    case FunctionDeclaration(_, _, _) => "FunctionDeclaration"
    case FunctionExpression(_, _, _) => "FunctionExpression"
    case ArrowFunctionExpression(_, _) => "ArrowFunctionExpression"
    case CallExpression(_, _) => "CallExpression"
    case Identifier(_) => "Identifier"
    case StringLiteral(_) => "StringLiteral"
    case BooleanLiteral(_) => "BooleanLiteral"
    case NumericLiteral(_) => "NumericLiteral"
    case ThisExpression => "ThisExpression"
    case NullLiteral => "NullLiteral"
    case BlockStatement(_) => "BlockStatement"
    case RegExpLiteral(_, _) => "RegExpLiteral"
    case VariableDeclaration(_, _) => "VariableDeclaration"
    case VariableDeclarator(_, _) => "VariableDeclarator"
    case LogicalExpression(_, _, _) => "LogicalExpression"
    case AssignmentExpression(_, _, _) => "AssignmentExpression"
    case BinaryExpression(_, _, _) => "BinaryExpression"
    case MemberExpression(_, _, _) => "MemberExpression"
    case TryStatement(_, _, _) => "TryStatement"
    case ThrowStatement(_) => "ThrowStatement"
    case ContinueStatement => "ContinueStatement"
    case BreakStatement => "BreakStatement"
    case NewExpression(_, _) => "NewExpression"
    case ReturnStatement(_) => "ReturnStatement"
    case SequenceExpression(_) => "SequenceExpression"
    case ArrayExpression(_) => "ArrayExpression"
    case IfStatement(_, _, _) => "IfStatement"
    case ConditionalExpression(_, _, _) => "ConditionalExpression"
    case UnaryExpression(_, _) => "UnaryExpression"
    case UpdateExpression(_, _) => "UpdateExpression"
    case ObjectExpression(_) => "ObjectExpression"
    case ObjectProperty(_, _) => "ObjectProperty"
    case ForStatement(_, _, _, _) => "ForStatement"
    case ForInStatement(_, _, _) => "ForInStatement"
    case WhileStatement(_, _) => "WhileStatement"
    case LabeledStatement(_, _) => "LabeledStatement"
    case SwitchStatement(_, _) => "SwitchStatement"
    case DoWhileStatement(_, _) => "DoWhileStatement"
    case Other(t, _) => t
  }

  function Opt(o: Option<BNode>): seq<BNode>
  {
    if o.Some? then [o.value] else []
  }

  /** The child nodes `traverse` visits, in visiting order.  Names held as
      strings (function ids, labels) are identifiers without children of
      their own, so leaving them out changes no walk over the tree. */
  function Children(n: BNode): (r: seq<BNode>)
    ensures forall i :: 0 <= i < |r| ==> r[i] < n
  {
    match n
    case ExpressionStatement(e) => [e]
    case FunctionDeclaration(_, ps, b) => ps + [b]
    case FunctionExpression(_, ps, b) => ps + [b]
    case ArrowFunctionExpression(ps, b) => ps + [b]
    case CallExpression(c, args) => [c] + args
    case BlockStatement(ss) => ss
    case VariableDeclaration(_, ds) => ds
    case VariableDeclarator(t, i) => [t] + Opt(i)
    case LogicalExpression(l, _, r) => [l, r]
    case AssignmentExpression(l, _, r) => [l, r]
    case BinaryExpression(l, _, r) => [l, r]
    case MemberExpression(o, p, _) => [o, p]
    case TryStatement(b, h, f) => [b] + Opt(h) + Opt(f)
    case ThrowStatement(a) => [a]
    case NewExpression(c, args) => [c] + args
    case ReturnStatement(a) => Opt(a)
    case SequenceExpression(es) => es
    case ArrayExpression(es) => es
    case IfStatement(t, c, a) => [t, c] + Opt(a)
    case ConditionalExpression(t, c, a) => [t, c, a]
    case UnaryExpression(_, a) => [a]
    case UpdateExpression(_, a) => [a]
    case ObjectExpression(ps) => ps
    case ObjectProperty(k, v) => [k, v]
    case ForStatement(i, t, u, b) => Opt(i) + Opt(t) + Opt(u) + [b]
    case ForInStatement(l, r, b) => [l, r, b]
    case WhileStatement(t, b) => [t, b]
    case LabeledStatement(_, b) => [b]
    case SwitchStatement(d, cs) => [d] + cs
    case DoWhileStatement(b, t) => [b, t]
    case Other(_, cs) => cs
    case _ => []
  }
}
