/**
 * The syntax tree the parser builds and the values it holds. Nodes are
 * immutable values; the variable and assignment nodes carry an id, which
 * stands for the node identity the resolver keys its map on.
 */
module Ast {
  import opened Wrappers
  import opened Tokens

  /** A runtime value: Number, Bool, Nil, String or a user-defined function. */
  datatype Value =
    | NumberValue(number: real)
    | BoolValue(truth: bool)
    | NilValue
    | StringValue(text: string)
    | FunctionValue(decl: FunctionDecl)

  datatype Expr =
    | LiteralExpr(literal: Value)
    | GroupExpr(inner: Expr)
    | VarExpr(id: nat, name: Token)
    | AssignExpr(id: nat, name: Token, value: Expr)
    | BinaryExpr(left: Expr, op: Token, right: Expr)
    | ConditionalExpr(condition: Expr, thenExpr: Expr, elseExpr: Expr)
    | UnaryExpr(op: Token, operand: Expr)
    | CallExpr(callee: Expr, paren: Token, args: seq<Expr>)

  /** A function declaration: its name, parameter names and the statements of its body block. */
  datatype FunctionDecl = FunctionDecl(name: Token, params: seq<Token>, body: seq<Stmt>)

  datatype CaseClause = CaseClause(condition: Expr, body: Stmt)

  datatype Stmt =
    | ExprStmt(expr: Expr)
    | PrintStmt(expr: Expr)
    | VarStmt(name: Token, initializer: Expr)
    | BlockStmt(stmts: seq<Stmt>)
    | IfStmt(condition: Expr, thenBranch: Stmt, elseBranch: Option<Stmt>)
    | SwitchStmt(subject: Expr, cases: seq<CaseClause>, defaultClause: Option<Stmt>)
      // The increment is run after a `continue`; the parser never sets it.
    | WhileStmt(condition: Expr, body: Stmt, increment: Option<Stmt>)
      // The increment of a for-loop is an expression statement, kept as its expression.
    | ForStmt(forInit: Option<Stmt>, condition: Expr, forIncrement: Option<Expr>, body: Stmt)
    | DoWhileStmt(body: Stmt, condition: Expr)
    | BreakStmt(keyword: Token)
    | ContinueStmt(keyword: Token)
    | ReturnStmt(keyword: Token, value: Expr)
    | FunctionStmt(decl: FunctionDecl)

  const NilLiteral: Expr := LiteralExpr(NilValue)
  const TrueLiteral: Expr := LiteralExpr(BoolValue(true))
  const FalseLiteral: Expr := LiteralExpr(BoolValue(false))

  /** The VarStmt constructor: an omitted initializer becomes the nil literal, a given one is kept. */
  function NewVarStmt(name: Token, initializer: Option<Expr>): (s: Stmt)
    ensures s.VarStmt? && s.name == name
    ensures initializer.None? ==> s.initializer == NilLiteral
    ensures initializer.Some? ==> s.initializer == initializer.value
  {
    VarStmt(name, if initializer.Some? then initializer.value else NilLiteral)
  }

  /** The WhileStmt constructor of the parser, which leaves the increment out. */
  function NewWhileStmt(condition: Expr, body: Stmt): (s: Stmt)
    ensures s.WhileStmt? && s.condition == condition && s.body == body && s.increment.None?
  {
    WhileStmt(condition, body, None)
  }
}

/** Operations on runtime values: type names, equality, text. */
module Values {
  import opened Tokens
  import opened Ast

  /** The name of a value's type, as runtime error messages show it. */
  function TypeName(v: Value): string
  {
    match v
    case NumberValue(_) => "Number"
    case BoolValue(_) => "Bool"
    case NilValue => "Nil"
    case StringValue(_) => "String"
    case FunctionValue(_) => "Function"
  }

  function Abs(x: real): real
  {
    if x < 0.0 then -x else x
  }

  const Epsilon: real := 0.000000001

  /**
   * Value equality: values of different types are never equal, numbers are
   * equal when they differ by less than the tolerance, and the other kinds
   * compare exactly.
   */
  function ValuesEqual(a: Value, b: Value): (r: bool)
    ensures r ==> TypeName(a) == TypeName(b)
    ensures a == b ==> r
    ensures !a.NumberValue? ==> (r <==> a == b)
    ensures a.NumberValue? && b.NumberValue? ==> (r <==> -Epsilon < a.number - b.number < Epsilon)
  {
    match (a, b)
    case (NumberValue(x), NumberValue(y)) => Abs(x - y) < Epsilon
    case (BoolValue(p), BoolValue(q)) => p == q
    case (NilValue, NilValue) => true
    case (StringValue(s), StringValue(t)) => s == t
    case (FunctionValue(f), FunctionValue(g)) => f == g
    case _ => false
  }

  lemma EqualityNeedsSameType(a: Value, b: Value)
    requires ValuesEqual(a, b)
    ensures TypeName(a) == TypeName(b)
  {
  }

  lemma EqualityIsSymmetric(a: Value, b: Value)
    ensures ValuesEqual(a, b) <==> ValuesEqual(b, a)
  {
  }

  lemma EqualityIsReflexive(a: Value)
    ensures ValuesEqual(a, a)
  {
  }

  /** The text a value prints as; numberText stands for the invariant-culture formatting of a double. */
  function ValueText(v: Value, numberText: real -> string): (r: string)
    ensures v.NumberValue? ==> r == numberText(v.number)
    ensures v.BoolValue? ==> r in {"true", "false"} && (r == "true" <==> v.truth)
    ensures v.NilValue? ==> r == "nil"
    ensures v.StringValue? ==> |r| == |v.text| + 2 && r[0] == r[|r| - 1] == '"' && r[1..|r| - 1] == v.text
    ensures v.FunctionValue? ==> |r| == |v.decl.name.lexeme| + 5 && r[..4] == "<fn " && r[|r| - 1] == '>' && r[4..|r| - 1] == v.decl.name.lexeme
  {
    match v
    case NumberValue(x) => numberText(x)
    case BoolValue(b) => if b then "true" else "false"
    case NilValue => "nil"
    case StringValue(s) => "\"" + s + "\""
    case FunctionValue(decl) => "<fn " + decl.name.lexeme + ">"
  }
}
