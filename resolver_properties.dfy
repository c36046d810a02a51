/** What the resolver's pass guarantees, and the distances it records for small programs. */
module ResolverProperties {
  import opened Wrappers
  import opened Tokens
  import opened Ast
  import opened Environments
  import opened Resolving

  // ---------------------------------------------------------------------------
  // Distances.

  /** With no local scope open nothing is recorded: a top-level name is a global. */
  lemma {:induction false} GlobalsAreNotRecorded(e: Expr, p: Pass)
    requires p.scopes == []
    ensures ResolveExpr(e, p).distances == p.distances
    decreases e, 1
  {
    match e
    case LiteralExpr(_) =>
    case GroupExpr(inner) => GlobalsAreNotRecorded(inner, p);
    case VarExpr(_, _) =>
    case AssignExpr(_, _, value) => GlobalsAreNotRecorded(value, p);
    case BinaryExpr(left, _, right) =>
      GlobalsAreNotRecorded(left, p);
      GlobalsAreNotRecorded(right, ResolveExpr(left, p));
    case ConditionalExpr(condition, thenExpr, elseExpr) =>
      GlobalsAreNotRecorded(condition, p);
      var q := ResolveExpr(condition, p);
      GlobalsAreNotRecorded(thenExpr, q);
      GlobalsAreNotRecorded(elseExpr, ResolveExpr(thenExpr, q));
    case UnaryExpr(_, operand) => GlobalsAreNotRecorded(operand, p);
    case CallExpr(callee, _, args) =>
      GlobalsAreNotRecorded(callee, p);
      GlobalArgumentsAreNotRecorded(args, ResolveExpr(callee, p));
  }

  lemma {:induction false} GlobalArgumentsAreNotRecorded(es: seq<Expr>, p: Pass)
    requires p.scopes == []
    ensures ResolveExprs(es, p).distances == p.distances
    decreases es, 0
  {
    if es != [] {
      GlobalsAreNotRecorded(es[0], p);
      GlobalArgumentsAreNotRecorded(es[1..], ResolveExpr(es[0], p));
    }
  }

  /**
   * A variable read records the hops from the innermost scope to the first
   * scope holding its name, and records nothing when no scope holds it.
   */
  lemma ReadRecordsNearestScope(id: nat, name: Token, p: Pass)
    ensures var r := ResolveExpr(VarExpr(id, name), p);
      && ((forall j :: 0 <= j < |p.scopes| ==> name.lexeme !in p.scopes[j]) ==> r.distances == p.distances)
      && (forall d :: 0 <= d < |p.scopes| && name.lexeme in p.scopes[d] && (forall j :: 0 <= j < d ==> name.lexeme !in p.scopes[j])
            ==> r.distances == p.distances[id := d])
  {
    var r := ResolveExpr(VarExpr(id, name), p);
    forall d | 0 <= d < |p.scopes| && name.lexeme in p.scopes[d] && (forall j :: 0 <= j < d ==> name.lexeme !in p.scopes[j])
      ensures r.distances == p.distances[id := d]
    {
      var found := FindDepth(p.scopes, name.lexeme);
      assert found.Some?;
      assert found.value == d;
    }
  }

  // ---------------------------------------------------------------------------
  // Errors.

  /** A name declared again in the same local scope is reported; it is still declared, and defined once its initializer is done. */
  lemma RedeclarationReported(name: Token, initializer: Expr, p: Pass)
    requires p.scopes != [] && name.lexeme in p.scopes[0]
    ensures var r := ResolveStmt(VarStmt(name, initializer), p);
      && |r.errors| > |p.errors| && r.errors[|p.errors|] == ErrorLine(name, AlreadyDefinedMessage(name))
      && name.lexeme in r.scopes[0] && r.scopes[0][name.lexeme]
  {
    var declared := Declare(p, name);
    assert declared.errors == p.errors + [ErrorLine(name, AlreadyDefinedMessage(name))];
    var q := ResolveExpr(initializer, declared);
    assert declared.errors <= q.errors;
  }

  /** Reading a local in its own initializer is reported, and the read still resolves to the innermost scope. */
  lemma OwnInitializerReported(id: nat, name: Token, read: Token, p: Pass)
    requires p.scopes != [] && name.lexeme !in p.scopes[0] && read.lexeme == name.lexeme
    ensures var r := ResolveStmt(VarStmt(name, VarExpr(id, read)), p);
      && r.errors == p.errors + [ErrorLine(read, OwnInitializerMessage(read))]
      && r.distances == p.distances[id := 0]
  {
    var declared := Declare(p, name);
    assert InOwnInitializer(declared, read);
  }

  /** At top level a variable may read a global of its own name: nothing is tracked there. */
  lemma TopLevelSelfReferenceAccepted(id: nat, name: Token, read: Token, p: Pass)
    requires p.scopes == []
    ensures ResolveStmt(VarStmt(name, VarExpr(id, read)), p) == p
  {
  }

  /** `return` is reported exactly outside function code. */
  lemma ReturnReportedOnlyAtTopLevel(keyword: Token, p: Pass)
    ensures ResolveStmt(ReturnStmt(keyword, NilLiteral), p).errors
      == if p.functionType == NotInFunction then p.errors + [ErrorLine(keyword, ReturnMessage)] else p.errors
  {
  }

  /** `break` and `continue` are reported exactly at loop depth 0. */
  lemma JumpsReportedOnlyOutsideLoops(keyword: Token, p: Pass)
    ensures ResolveStmt(BreakStmt(keyword), p).errors
      == if p.loopDepth == 0 then p.errors + [ErrorLine(keyword, BreakMessage)] else p.errors
    ensures ResolveStmt(ContinueStmt(keyword), p).errors
      == if p.loopDepth == 0 then p.errors + [ErrorLine(keyword, ContinueMessage)] else p.errors
  {
  }

  /** Every loop form lets its body break and continue, whatever the depth outside it. */
  lemma WhileBodyMayBreak(keyword: Token, p: Pass)
    ensures ResolveStmt(WhileStmt(TrueLiteral, BreakStmt(keyword), None), p) == p
  {
    var inner := p.(loopDepth := p.loopDepth + 1);
    assert ResolveStmt(BreakStmt(keyword), inner) == inner;
  }

  lemma DoWhileBodyMayContinue(keyword: Token, p: Pass)
    ensures ResolveStmt(DoWhileStmt(ContinueStmt(keyword), TrueLiteral), p) == p
  {
    var inner := p.(loopDepth := p.loopDepth + 1);
    assert ResolveStmt(ContinueStmt(keyword), inner) == inner;
  }

  lemma ForBodyMayBreak(keyword: Token, p: Pass)
    ensures ResolveStmt(ForStmt(None, TrueLiteral, None, BreakStmt(keyword)), p) == p
  {
    var scoped := BeginScope(p).(loopDepth := p.loopDepth + 1);
    assert ResolveForClauses(ForStmt(None, TrueLiteral, None, BreakStmt(keyword)), scoped) == scoped;
    assert ResolveStmt(BreakStmt(keyword), scoped) == scoped;
  }

  /** A return in a function body is accepted, and the pass is back at top level after the function. */
  lemma ReturnInsideFunctionAccepted(name: Token, keyword: Token, p: Pass)
    requires p.functionType == NotInFunction && p.scopes == []
    ensures var r := ResolveStmt(FunctionStmt(FunctionDecl(name, [], [ReturnStmt(keyword, NilLiteral)])), p);
      r.errors == p.errors && r.functionType == NotInFunction
  {
    var q := BeginScope(Initialize(p.(functionType := InFunction), name));
    assert InitializeAll(q, []) == q;
    assert ResolveStmt(ReturnStmt(keyword, NilLiteral), q) == q;
    assert ResolveStmts([ReturnStmt(keyword, NilLiteral)], q) == q;
  }

  /** A parameter read in the function body resolves to the function's own scope. */
  lemma ParameterResolvesToFunctionScope(name: Token, param: Token, id: nat, p: Pass)
    requires p.scopes == []
    ensures ResolveStmt(FunctionStmt(FunctionDecl(name, [param], [PrintStmt(VarExpr(id, param))])), p).distances
      == p.distances[id := 0]
  {
    var q := BeginScope(Initialize(p.(functionType := InFunction), name));
    var bound := InitializeAll(q, [param]);
    assert bound == Initialize(q, param) by {
      assert [param][1..] == [];
      assert InitializeAll(Initialize(q, param), []) == Initialize(q, param);
    }
    assert bound.scopes[0] == map[param.lexeme := true];
    var body := ResolveStmt(PrintStmt(VarExpr(id, param)), bound);
    assert body.distances == p.distances[id := 0];
    assert ResolveStmts([PrintStmt(VarExpr(id, param))], bound) == body;
  }

  // ---------------------------------------------------------------------------
  // Small programs.

  /** `for (var i = 0; i < 5; i = i + 1) body`, with the reads and the assignment of `i` numbered 1 to 3. */
  function CountingLoop(i: Token, less: Token, plus: Token, body: Stmt): Stmt
  {
    ForStmt(
      Some(VarStmt(i, LiteralExpr(NumberValue(0.0)))),
      BinaryExpr(VarExpr(1, i), less, LiteralExpr(NumberValue(5.0))),
      Some(AssignExpr(2, i, BinaryExpr(VarExpr(3, i), plus, LiteralExpr(NumberValue(1.0))))),
      body)
  }

  /** The clauses of a counting loop all resolve `i` in the loop's own scope. */
  lemma CountingLoopClauses(i: Token, less: Token, plus: Token, body: Stmt, p: Pass)
    requires p.scopes == [] && p.distances == map[]
    ensures var scoped := BeginScope(p).(loopDepth := p.loopDepth + 1);
      ResolveForClauses(CountingLoop(i, less, plus, body), scoped)
        == scoped.(scopes := [map[i.lexeme := true]], distances := map[1 := 0, 3 := 0, 2 := 0])
  {
    var scoped := BeginScope(p).(loopDepth := p.loopDepth + 1);
    var declared := scoped.(scopes := [map[i.lexeme := true]]);
    assert Declare(scoped, i) == scoped.(scopes := [map[i.lexeme := false]]);
    assert map[i.lexeme := false][i.lexeme := true] == map[i.lexeme := true];
    assert ResolveStmt(VarStmt(i, LiteralExpr(NumberValue(0.0))), scoped) == declared;
    var condition := declared.(distances := map[1 := 0]);
    assert ResolveExpr(BinaryExpr(VarExpr(1, i), less, LiteralExpr(NumberValue(5.0))), declared) == condition;
    var read := condition.(distances := map[1 := 0, 3 := 0]);
    assert ResolveExpr(BinaryExpr(VarExpr(3, i), plus, LiteralExpr(NumberValue(1.0))), condition) == read;
  }

  /** An unbraced body shares the clauses' scope, so `i` is at distance 0 everywhere. */
  lemma CountingLoopUnbracedBody(i: Token, less: Token, plus: Token, p: Pass)
    requires p.scopes == [] && p.distances == map[]
    ensures ResolveStmt(CountingLoop(i, less, plus, ExprStmt(VarExpr(4, i))), p).distances
      == map[1 := 0, 2 := 0, 3 := 0, 4 := 0]
  {
    var loop := CountingLoop(i, less, plus, ExprStmt(VarExpr(4, i)));
    CountingLoopClauses(i, less, plus, ExprStmt(VarExpr(4, i)), p);
    var clauses := ResolveForClauses(loop, BeginScope(p).(loopDepth := p.loopDepth + 1));
    assert ResolveStmt(ExprStmt(VarExpr(4, i)), clauses).distances == map[1 := 0, 3 := 0, 2 := 0, 4 := 0];
  }

  /** A braced body is one scope further in, so `i` read there is at distance 1. */
  lemma CountingLoopBracedBody(i: Token, less: Token, plus: Token, p: Pass)
    requires p.scopes == [] && p.distances == map[]
    ensures ResolveStmt(CountingLoop(i, less, plus, BlockStmt([ExprStmt(VarExpr(4, i))])), p).distances
      == map[1 := 0, 2 := 0, 3 := 0, 4 := 1]
  {
    var body := BlockStmt([ExprStmt(VarExpr(4, i))]);
    var loop := CountingLoop(i, less, plus, body);
    CountingLoopClauses(i, less, plus, body, p);
    var clauses := ResolveForClauses(loop, BeginScope(p).(loopDepth := p.loopDepth + 1));
    BlockReadsOneScopeOut(i, clauses);
  }

  /** A block that reads a name declared just outside it records distance 1. */
  lemma BlockReadsOneScopeOut(i: Token, p: Pass)
    requires |p.scopes| == 1 && i.lexeme in p.scopes[0]
    ensures ResolveStmt(BlockStmt([ExprStmt(VarExpr(4, i))]), p).distances == p.distances[4 := 1]
  {
    var inner := BeginScope(p);
    assert FindDepth(inner.scopes, i.lexeme) == Some(1);
    var read := ResolveStmt(ExprStmt(VarExpr(4, i)), inner);
    assert read.distances == p.distances[4 := 1];
    assert ResolveStmts([ExprStmt(VarExpr(4, i))], inner) == read;
  }
}
