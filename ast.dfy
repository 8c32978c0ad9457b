/** The syntax tree the parser builds (src/node.rs and the builders under
    src/exp/).  One datatype covers every node the builders construct,
    including the ones only the newer builders use (array and object patterns,
    object methods, switch cases, `new`, templates).  Field names follow the
    source except where two constructors would otherwise share a field name
    with different types. */
module Ast {
  import opened Wrappers
  import opened Tokens

  datatype Node =
    | EmptyStatement
    | Identity(name: string)
    | NumericLiteral(value: string)
    | StringLiteral(value: string)
    | BooleanLiteral(truth: bool)
    | NullLiteral
    | ThisExpression
    | TemplateLiteral(quasis: seq<Node>, expressions: seq<Node>)
    | TemplateElement(value: string)
    | ObjectExpression(properties: seq<Node>)
    | ObjectProperty(key: Node, propertyValue: Node)
    | ObjectMethod(key: Node, params: seq<Node>, body: Node)
    | ObjectPattern(properties: seq<Node>)
    | ArrayExpression(elements: seq<Node>)
    | ArrayPattern(elements: seq<Node>)
    | SequenceExpression(expressions: seq<Node>)
      /** The `parenthesized` mark the arrow-function builder sets on a
          parenthesised expression that turned out not to be a parameter list. */
    | Parenthesized(inner: Node)
    | VariableDeclaration(kind: Token, declarations: seq<Node>)
    | VariableDeclarator(id: Node, init: Option<Node>)
    | AssignmentExpression(left: Node, operator: string, right: Node)
    | AssignmentPattern(left: Node, right: Node)
    | BinaryExpression(left: Node, operator: string, right: Node)
    | LogicalExpression(left: Node, operator: string, right: Node)
    | UnaryExpression(operator: string, prefix: bool, argument: Node)
    | UpdateExpression(operator: string, prefix: bool, argument: Node)
    | MemberExpression(obj: Node, property: Node, computed: bool)
    | ConditionalExpression(test: Node, consequent: Node, alternate: Node)
    | CallExpression(callee: Node, arguments: seq<Node>)
    | NewExpression(callee: Node, arguments: seq<Node>)
    | ArrowFunctionExpression(params: seq<Node>, body: Node)
    | FunctionDeclaration(id: Node, params: seq<Node>, body: Node)
    | FunctionExpression(fnName: Option<Node>, params: seq<Node>, body: Node)
    | BlockStatement(statements: seq<Node>)
    | IfStatement(test: Node, consequent: Node, elseBranch: Option<Node>)
    | ForStatement(initializer: Node, test: Node, update: Node, body: Node)
    | WhileStatement(test: Node, body: Node)
    | DoWhileStatement(body: Node, test: Node)
    | SwitchStatement(discriminant: Node, cases: seq<Node>)
    | SwitchCase(caseTest: Option<Node>, caseBody: seq<Node>)
    | TryStatement(block: Node, handler: Option<Node>, finalizer: Option<Node>)
    | CatchClause(param: Option<Node>, body: Node)
    | ReturnStatement(returnArgument: Option<Node>)
    | BreakStatement
    | ContinueStatement
    | ThrowStatement(argument: Node)

  /** `set_parenthesized(true)`: marking an already marked node changes nothing. */
  function SetParenthesized(n: Node): (r: Node)
    ensures r.Parenthesized?
    ensures n.Parenthesized? ==> r == n
    ensures !n.Parenthesized? ==> r.inner == n
  {
    if n.Parenthesized? then n else Parenthesized(n)
  }

  /** The body a block-or-semicolon slot may hold. */
  predicate IsBlockOrEmpty(n: Node)
  {
    n.BlockStatement? || n.EmptyStatement?
  }
}
