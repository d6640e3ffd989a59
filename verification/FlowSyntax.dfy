/**
 * The syntax tree that pkg/jsanalysis/flow.go walks, and the pure helpers that only look at it.
 * Offsets are those of the parsed text; the analyzer subtracts its shift.
 */
module FlowSyntax {
  import opened Prelude

  datatype Pos = Pos(start: int, end: int)

  datatype BinaryOp = LogicalAnd | LogicalOr | Coalesce | OtherBinary(code: int)

  datatype Expr =
    | NoExpr                                    // an absent expression
    | Identifier(at: Pos, name: string)
    | StringLiteral(at: Pos, text: string)
    | BooleanLiteral(at: Pos, truth: bool)
    | Literal(at: Pos)                          // number, null, regular expression, this
    | Dot(at: Pos, left: Expr, member: string)
    | Bracket(at: Pos, left: Expr, key: Expr)
    | Assign(at: Pos, compound: bool, left: Expr, right: Expr)
    | Binary(at: Pos, op: BinaryOp, left: Expr, right: Expr)
    | Template(at: Pos, parts: seq<Expr>)
    | Sequence(at: Pos, parts: seq<Expr>)
    | Conditional(at: Pos, test: Expr, consequent: Expr, alternate: Expr)
    | New(at: Pos, callee: Expr, args: seq<Expr>)
    | Call(at: Pos, callee: Expr, args: seq<Expr>)
    | FunctionExpr(at: Pos, params: seq<Target>, body: Body)   // function literal or arrow function
    | Await(at: Pos, operand: Expr)
    | Unary(at: Pos, update: bool, operand: Expr)              // `update`: ++ and --
    | Opaque(at: Pos)                           // object and array literals, classes, ...

  /** A parameter or declared name: a plain identifier or a destructuring pattern. */
  datatype Target = Named(name: string) | Pattern

  datatype Body = BlockBody(list: seq<Stmt>) | ExpressionBody(value: Expr)

  datatype Binding = Binding(target: Target, initializer: Expr)

  datatype Stmt =
    | NoStmt                                    // an absent statement
    | ExprStmt(value: Expr)
    | Export(decl: Stmt)
    | VarDecl(bindings: seq<Binding>)
    | LexicalDecl(bindings: seq<Binding>)
    | Return(value: Expr)
    | Block(list: seq<Stmt>)
    | If(test: Expr, consequent: Stmt, alternate: Stmt)
    | While(test: Expr, body: Stmt)
    | FunctionDecl(name: Option<string>, params: seq<Target>, list: seq<Stmt>)
    | OtherStmt

  /** A potential browser input, with offsets in the script. */
  datatype Source = Source(kind: string, key: string, start: int, end: int)

  /** A source-to-sink hypothesis. */
  datatype Flow = Flow(source: Source, sink: string, start: int, end: int)

  /** Where a node lies. */
  function Node(e: Expr): Pos {
    if e.NoExpr? then Pos(0, 0) else e.at
  }

  /** The object and the literal name of a property access. */
  function Member(e: Expr): Option<(Expr, string)> {
    match e
    case Dot(_, left, name) => Some((left, name))
    case Bracket(_, left, StringLiteral(_, text)) => Some((left, text))
    case _ => None
  }

  /** A property access that runs no code of the program: names and literal keys only. */
  predicate PlainReference(e: Expr) {
    match e
    case Identifier(_, _) => true
    case Dot(_, left, _) => PlainReference(left)
    case Bracket(_, left, key) => key.StringLiteral? && PlainReference(left)
    case _ => false
  }

  /** The dotted path of an access chain whose root is not among the `bound` names. */
  function GlobalPath(e: Expr, bound: set<string>, depth: nat := 0): string
    decreases e
  {
    if depth > 16 then ""
    else match e
      case Identifier(_, name) => if name in bound then "" else name
      case Dot(_, left, name) =>
        var prefix := GlobalPath(left, bound, depth + 1);
        if prefix == "" then "" else prefix + "." + name
      case Bracket(_, left, StringLiteral(_, text)) =>
        var prefix := GlobalPath(left, bound, depth + 1);
        if prefix == "" then "" else prefix + "." + text
      case _ => ""
  }

  /** The first argument, when it is a string literal. */
  function LiteralKey(args: seq<Expr>): Option<string> {
    if args != [] && args[0].StringLiteral? then Some(args[0].text) else None
  }

  /** The kind of source a global path names. */
  function SourceKind(path: string): Option<string> {
    if path in {"location.hash", "window.location.hash", "document.location.hash"} then Some("fragment")
    else if path in {"location.search", "window.location.search", "document.location.search"} then Some("query")
    else if path == "window.name" then Some("window.name")
    else if path == "document.referrer" then Some("referrer")
    else None
  }

  /** Properties whose assignment is a sink. */
  predicate SinkProperty(name: string) {
    name == "innerHTML" || name == "outerHTML" || name == "srcdoc"
  }

  /** Functions all of whose arguments reach a sink. */
  predicate SinkFunction(path: string) {
    path in {"eval", "window.eval", "Function", "window.Function", "document.write", "document.writeln"}
  }

  /** Functions whose first argument reaches a sink. */
  predicate TimerFunction(path: string) {
    path in {"setTimeout", "setInterval", "window.setTimeout", "window.setInterval"}
  }

  /** The path of a storage object without a leading `window.`. */
  function TrimWindow(path: string): string {
    if "window." <= path then path[7..] else path
  }

  predicate StorageObject(path: string) {
    path == "localStorage" || path == "sessionStorage"
  }
}
