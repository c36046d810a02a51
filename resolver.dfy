/**
 * The resolver's pass as functions over its state: the stack of local
 * scopes (innermost first; each name maps to whether its declaration has
 * finished), the distances recorded so far keyed by node id, the loop depth,
 * the kind of code being resolved, and the error lines written.
 */
module Resolving {
  import opened Wrappers
  import opened Tokens
  import opened Ast
  import opened Text
  import opened Environments

  datatype FunctionType = NotInFunction | InFunction

  datatype Pass = Pass(
    scopes: seq<map<string, bool>>,
    distances: map<nat, nat>,
    loopDepth: nat,
    functionType: FunctionType,
    errors: seq<string>)

  /** A pass before anything is resolved: no local scope, top-level code, outside any loop. */
  const Start: Pass := Pass([], map[], 0, NotInFunction, [])

  function ErrorLine(token: Token, message: string): string
  {
    "[Line " + IntText(token.line) + "] Error: " + message
  }

  function ReportError(p: Pass, token: Token, message: string): Pass
  {
    p.(errors := p.errors + [ErrorLine(token, message)])
  }

  function AlreadyDefinedMessage(name: Token): string
  {
    "Variable '" + name.lexeme + "' already defined in this scope."
  }

  function OwnInitializerMessage(name: Token): string
  {
    "Can't read local variable '" + name.lexeme + "' in its own initializer."
  }

  const BreakMessage := "Must be inside a loop to break."
  const ContinueMessage := "Must be inside a loop to continue."
  const ReturnMessage := "Can't return from top-level code."

  /**
   * A statement leaves the scope stack as deep as it found it, with every
   * scope but the innermost untouched, and restores the loop depth and the
   * function type.
   */
  predicate Balanced(p: Pass, r: Pass)
  {
    && |r.scopes| == |p.scopes| && r.loopDepth == p.loopDepth && r.functionType == p.functionType
    && p.errors <= r.errors
    && (|p.scopes| > 0 ==> r.scopes[1..] == p.scopes[1..] && p.scopes[0].Keys <= r.scopes[0].Keys)
  }

  /** Push an empty innermost scope; EndScope undoes it. */
  function BeginScope(p: Pass): (r: Pass)
    ensures |r.scopes| == |p.scopes| + 1 && r.scopes[0] == map[] && r.scopes[1..] == p.scopes
    ensures EndScope(r) == p
  {
    p.(scopes := [map[]] + p.scopes)
  }

  /** Pop the innermost scope; nothing else changes. */
  function EndScope(p: Pass): (r: Pass)
    requires |p.scopes| > 0
    ensures r.scopes == p.scopes[1..]
    ensures r.(scopes := p.scopes) == p
  {
    p.(scopes := p.scopes[1..])
  }

  /** Mark the name declared but not ready in the innermost scope; a repeat there is an error. Globals are not tracked. */
  function Declare(p: Pass, name: Token): (r: Pass)
    ensures Balanced(p, r)
  {
    if p.scopes == [] then p
    else
      var q := if name.lexeme in p.scopes[0] then ReportError(p, name, AlreadyDefinedMessage(name)) else p;
      q.(scopes := [q.scopes[0][name.lexeme := false]] + q.scopes[1..])
  }

  /** Mark the name ready in the innermost scope, when there is one. */
  function Define(p: Pass, name: Token): (r: Pass)
    ensures Balanced(p, r)
  {
    if p.scopes == [] then p
    else p.(scopes := [p.scopes[0][name.lexeme := true]] + p.scopes[1..])
  }

  function Initialize(p: Pass, name: Token): (r: Pass)
    ensures Balanced(p, r)
  {
    Define(Declare(p, name), name)
  }

  function InitializeAll(p: Pass, names: seq<Token>): (r: Pass)
    ensures Balanced(p, r)
    decreases |names|
  {
    if names == [] then p else InitializeAll(Initialize(p, names[0]), names[1..])
  }

  /** The hops to the nearest local scope holding the name, recorded under the node's id; nothing for a global. */
  function ResolveLocal(p: Pass, id: nat, name: Token): (r: Pass)
    ensures forall i :: 0 <= i < |p.scopes| && name.lexeme in p.scopes[i] && (forall j :: 0 <= j < i ==> name.lexeme !in p.scopes[j]) ==>
      r.distances == p.distances[id := i]
    ensures (forall j :: 0 <= j < |p.scopes| ==> name.lexeme !in p.scopes[j]) ==> r == p
    ensures r.(distances := p.distances) == p
  {
    match FindDepth(p.scopes, name.lexeme)
    case None => p
    case Some(distance) => p.(distances := p.distances[id := distance])
  }

  /** Outside every loop, report the message at the keyword; inside one, change nothing. */
  function CheckLoopDepth(p: Pass, keyword: Token, message: string): (r: Pass)
    ensures p.loopDepth == 0 ==> r.errors == p.errors + [ErrorLine(keyword, message)]
    ensures p.loopDepth > 0 ==> r == p
    ensures r.(errors := p.errors) == p
  {
    if p.loopDepth == 0 then ReportError(p, keyword, message) else p
  }

  /** Whether the innermost scope holds the name and its declaration has not finished. */
  predicate InOwnInitializer(p: Pass, name: Token)
  {
    p.scopes != [] && name.lexeme in p.scopes[0] && !p.scopes[0][name.lexeme]
  }

  /** An expression changes only the distances and the errors. */
  predicate OnlyDistancesAndErrors(p: Pass, r: Pass)
  {
    && r.scopes == p.scopes && r.loopDepth == p.loopDepth && r.functionType == p.functionType
    && p.errors <= r.errors
  }

  function ResolveExpr(e: Expr, p: Pass): (r: Pass)
    ensures OnlyDistancesAndErrors(p, r)
    decreases e, 1
  {
    match e
    case LiteralExpr(_) => p
    case GroupExpr(inner) => ResolveExpr(inner, p)
    case VarExpr(id, name) =>
      var q := if InOwnInitializer(p, name) then ReportError(p, name, OwnInitializerMessage(name)) else p;
      ResolveLocal(q, id, name)
    case AssignExpr(id, name, value) => ResolveLocal(ResolveExpr(value, p), id, name)
    case BinaryExpr(left, _, right) => ResolveExpr(right, ResolveExpr(left, p))
    case ConditionalExpr(condition, thenExpr, elseExpr) =>
      ResolveExpr(elseExpr, ResolveExpr(thenExpr, ResolveExpr(condition, p)))
    case UnaryExpr(_, operand) => ResolveExpr(operand, p)
    case CallExpr(callee, _, args) => ResolveExprs(args, ResolveExpr(callee, p))
  }

  function ResolveExprs(es: seq<Expr>, p: Pass): (r: Pass)
    ensures OnlyDistancesAndErrors(p, r)
    decreases es, 0
  {
    if es == [] then p else ResolveExprs(es[1..], ResolveExpr(es[0], p))
  }

  function ResolveStmt(s: Stmt, p: Pass): (r: Pass)
    ensures Balanced(p, r)
    decreases s, 2
  {
    match s
    case BlockStmt(stmts) => EndScope(ResolveStmts(stmts, BeginScope(p)))
    case BreakStmt(keyword) => CheckLoopDepth(p, keyword, BreakMessage)
    case ContinueStmt(keyword) => CheckLoopDepth(p, keyword, ContinueMessage)
    case DoWhileStmt(body, condition) =>
      var q := ResolveStmt(body, ResolveExpr(condition, p.(loopDepth := p.loopDepth + 1)));
      q.(loopDepth := q.loopDepth - 1)
    case ExprStmt(e) => ResolveExpr(e, p)
    case ForStmt(_, _, _, _) => ResolveFor(s, p)
    case FunctionStmt(_) => ResolveFunction(s, p)
    case IfStmt(condition, thenBranch, elseBranch) =>
      var q := ResolveStmt(thenBranch, ResolveExpr(condition, p));
      if elseBranch.Some? then ResolveStmt(elseBranch.value, q) else q
    case PrintStmt(e) => ResolveExpr(e, p)
    case ReturnStmt(keyword, value) =>
      ResolveExpr(value, if p.functionType == NotInFunction then ReportError(p, keyword, ReturnMessage) else p)
    case SwitchStmt(subject, _, defaultClause) =>
      var q := ResolveCases(s, 0, ResolveExpr(subject, p));
      if defaultClause.Some? then ResolveStmt(defaultClause.value, q) else q
    case VarStmt(name, initializer) => Define(ResolveExpr(initializer, Declare(p, name)), name)
    case WhileStmt(condition, body, _) =>
      var q := ResolveStmt(body, ResolveExpr(condition, p.(loopDepth := p.loopDepth + 1)));
      q.(loopDepth := q.loopDepth - 1)
  }

  /** One scope for the clauses and the body, inside the loop depth. */
  function ResolveFor(s: Stmt, p: Pass): (r: Pass)
    requires s.ForStmt?
    ensures Balanced(p, r)
    decreases s, 1
  {
    var q := ResolveStmt(s.body, ResolveForClauses(s, BeginScope(p).(loopDepth := p.loopDepth + 1)));
    EndScope(q.(loopDepth := q.loopDepth - 1))
  }

  /** The initializer, the condition and the increment, in that order. */
  function ResolveForClauses(s: Stmt, p: Pass): (r: Pass)
    requires s.ForStmt?
    ensures Balanced(p, r)
    decreases s, 0
  {
    var q := if s.forInit.Some? then ResolveStmt(s.forInit.value, p) else p;
    var q := ResolveExpr(s.condition, q);
    if s.forIncrement.Some? then ResolveExpr(s.forIncrement.value, q) else q
  }

  /** The name in the enclosing scope, then one scope for the parameters and the body, as function code. */
  function ResolveFunction(s: Stmt, p: Pass): (r: Pass)
    requires s.FunctionStmt?
    ensures Balanced(p, r)
    decreases s, 0
  {
    var enclosingType := p.functionType;
    var q := Initialize(p.(functionType := InFunction), s.decl.name);
    var q := InitializeAll(BeginScope(q), s.decl.params);
    var q := ResolveStmts(s.decl.body, q);
    EndScope(q).(functionType := enclosingType)
  }

  /** The cases from `i` on: each condition, then its statement. */
  function ResolveCases(s: Stmt, i: nat, p: Pass): (r: Pass)
    requires s.SwitchStmt? && i <= |s.cases|
    ensures Balanced(p, r)
    decreases s, 0, |s.cases| - i
  {
    if i == |s.cases| then p
    else
      assert s.cases[i] in s.cases;
      ResolveCases(s, i + 1, ResolveStmt(s.cases[i].body, ResolveExpr(s.cases[i].condition, p)))
  }

  function ResolveStmts(stmts: seq<Stmt>, p: Pass): (r: Pass)
    ensures Balanced(p, r)
    decreases stmts, 0
  {
    if stmts == [] then p else ResolveStmts(stmts[1..], ResolveStmt(stmts[0], p))
  }
}

/** The resolver object: a stack of scope maps, the distance map, and the counters it saves and restores. */
module ScopeResolver {
  import opened Tokens
  import opened Ast
  import opened Environments
  import opened Resolving

  class Resolver {
    var scopes: seq<map<string, bool>>
    var resolution: map<nat, nat>
    var loopDepth: nat
    var currentFunctionType: FunctionType
    var hadError: bool
    var errors: seq<string>

    /** HadError is set exactly when an error line has been written. */
    ghost predicate Valid()
      reads this
    {
      hadError <==> |errors| > 0
    }

    function State(): Pass
      reads this
    {
      Pass(scopes, resolution, loopDepth, currentFunctionType, errors)
    }

    constructor()
      ensures Valid() && State() == Start
    {
      scopes := [];
      resolution := map[];
      loopDepth := 0;
      currentFunctionType := NotInFunction;
      hadError := false;
      errors := [];
    }

    /** Every statement in order; the distances recorded so far are the result. */
    method Resolve(stmts: seq<Stmt>) returns (distances: map<nat, nat>)
      requires Valid()
      modifies this
      ensures Valid() && State() == ResolveStmts(stmts, old(State())) && distances == resolution
      decreases stmts, 0
    {
      var i := 0;
      while i < |stmts|
        invariant i <= |stmts| && Valid()
        invariant ResolveStmts(stmts[i..], State()) == ResolveStmts(stmts, old(State()))
      {
        assert stmts[i..][1..] == stmts[i + 1..];
        ResolveStmt(stmts[i]);
        i := i + 1;
      }
      return resolution;
    }

    method BeginScope()
      modifies this
      ensures State() == Resolving.BeginScope(old(State())) && hadError == old(hadError)
    {
      scopes := [map[]] + scopes;
    }

    method EndScope()
      requires |scopes| > 0
      modifies this
      ensures State() == Resolving.EndScope(old(State())) && hadError == old(hadError)
    {
      scopes := scopes[1..];
    }

    method Declare(name: Token)
      requires Valid()
      modifies this
      ensures Valid() && State() == Resolving.Declare(old(State()), name)
    {
      if scopes == [] {
        return;
      }
      if name.lexeme in scopes[0] {
        Error(name, AlreadyDefinedMessage(name));
      }
      scopes := [scopes[0][name.lexeme := false]] + scopes[1..];
    }

    method Define(name: Token)
      requires Valid()
      modifies this
      ensures Valid() && State() == Resolving.Define(old(State()), name)
    {
      if scopes != [] {
        scopes := [scopes[0][name.lexeme := true]] + scopes[1..];
      }
    }

    method Initialize(name: Token)
      requires Valid()
      modifies this
      ensures Valid() && State() == Resolving.Initialize(old(State()), name)
    {
      Declare(name);
      Define(name);
    }

    method ResolveStmt(s: Stmt)
      requires Valid()
      modifies this
      ensures Valid() && State() == Resolving.ResolveStmt(s, old(State()))
      decreases s, 2
    {
      match s
      case BlockStmt(_) =>
        ResolveBlock(s);
      case BreakStmt(keyword) =>
        CheckLoopDepth(keyword, BreakMessage);
      case ContinueStmt(keyword) =>
        CheckLoopDepth(keyword, ContinueMessage);
      case DoWhileStmt(_, _) =>
        ResolveDoWhileStmt(s);
      case ExprStmt(e) =>
        ResolveExpr(e);
      case ForStmt(_, _, _, _) =>
        ResolveForStmt(s);
      case FunctionStmt(_) =>
        ResolveFunctionStmt(s);
      case IfStmt(_, _, _) =>
        ResolveIfStmt(s);
      case PrintStmt(e) =>
        ResolveExpr(e);
      case ReturnStmt(_, _) =>
        ResolveReturnStmt(s);
      case SwitchStmt(_, _, _) =>
        ResolveSwitchStmt(s);
      case VarStmt(_, _) =>
        ResolveVarStmt(s);
      case WhileStmt(_, _, _) =>
        ResolveWhileStmt(s);
    }

    method ResolveBlock(s: Stmt)
      requires s.BlockStmt? && Valid()
      modifies this
      ensures Valid() && State() == Resolving.ResolveStmt(s, old(State()))
      decreases s, 0
    {
      BeginScope();
      ghost var begun := State();
      var i := 0;
      while i < |s.stmts|
        invariant i <= |s.stmts| && Valid()
        invariant ResolveStmts(s.stmts[i..], State()) == ResolveStmts(s.stmts, begun)
      {
        assert s.stmts[i..][1..] == s.stmts[i + 1..];
        ResolveStmt(s.stmts[i]);
        i := i + 1;
      }
      EndScope();
    }

    method ResolveDoWhileStmt(s: Stmt)
      requires s.DoWhileStmt? && Valid()
      modifies this
      ensures Valid() && State() == Resolving.ResolveStmt(s, old(State()))
      decreases s, 0
    {
      loopDepth := loopDepth + 1;
      ResolveExpr(s.condition);
      ResolveStmt(s.body);
      loopDepth := loopDepth - 1;
    }

    method ResolveForStmt(s: Stmt)
      requires s.ForStmt? && Valid()
      modifies this
      ensures Valid() && State() == ResolveFor(s, old(State()))
      decreases s, 1
    {
      BeginScope();
      loopDepth := loopDepth + 1;
      ResolveForClauses(s);
      ResolveStmt(s.body);
      loopDepth := loopDepth - 1;
      EndScope();
    }

    method ResolveForClauses(s: Stmt)
      requires s.ForStmt? && Valid()
      modifies this
      ensures Valid() && State() == Resolving.ResolveForClauses(s, old(State()))
      decreases s, 0
    {
      if s.forInit.Some? {
        ResolveStmt(s.forInit.value);
      }
      ResolveExpr(s.condition);
      if s.forIncrement.Some? {
        ResolveExpr(s.forIncrement.value);
      }
    }

    method ResolveFunctionStmt(s: Stmt)
      requires s.FunctionStmt? && Valid()
      modifies this
      ensures Valid() && State() == ResolveFunction(s, old(State()))
      decreases s, 0
    {
      var enclosingType := currentFunctionType;
      currentFunctionType := InFunction;
      Initialize(s.decl.name);
      BeginScope();
      var params := s.decl.params;
      ghost var begun := State();
      var i := 0;
      while i < |params|
        invariant i <= |params| && Valid()
        invariant InitializeAll(State(), params[i..]) == InitializeAll(begun, params)
      {
        assert params[i..][1..] == params[i + 1..];
        Initialize(params[i]);
        i := i + 1;
      }
      var _ := Resolve(s.decl.body);
      EndScope();
      currentFunctionType := enclosingType;
    }

    method ResolveIfStmt(s: Stmt)
      requires s.IfStmt? && Valid()
      modifies this
      ensures Valid() && State() == Resolving.ResolveStmt(s, old(State()))
      decreases s, 0
    {
      ResolveExpr(s.condition);
      ResolveStmt(s.thenBranch);
      if s.elseBranch.Some? {
        ResolveStmt(s.elseBranch.value);
      }
    }

    method ResolveReturnStmt(s: Stmt)
      requires s.ReturnStmt? && Valid()
      modifies this
      ensures Valid() && State() == Resolving.ResolveStmt(s, old(State()))
    {
      if currentFunctionType == NotInFunction {
        Error(s.keyword, ReturnMessage);
      }
      ResolveExpr(s.value);
    }

    method ResolveSwitchStmt(s: Stmt)
      requires s.SwitchStmt? && Valid()
      modifies this
      ensures Valid() && State() == Resolving.ResolveStmt(s, old(State()))
      decreases s, 0
    {
      ResolveExpr(s.subject);
      ghost var begun := State();
      var i := 0;
      while i < |s.cases|
        invariant i <= |s.cases| && Valid()
        invariant ResolveCases(s, i, State()) == ResolveCases(s, 0, begun)
      {
        assert s.cases[i] in s.cases;
        ResolveExpr(s.cases[i].condition);
        ResolveStmt(s.cases[i].body);
        i := i + 1;
      }
      if s.defaultClause.Some? {
        ResolveStmt(s.defaultClause.value);
      }
    }

    /** Declared before the initializer and defined after it, so the initializer cannot read the name. */
    method ResolveVarStmt(s: Stmt)
      requires s.VarStmt? && Valid()
      modifies this
      ensures Valid() && State() == Resolving.ResolveStmt(s, old(State()))
    {
      Declare(s.name);
      ResolveExpr(s.initializer);
      Define(s.name);
    }

    method ResolveWhileStmt(s: Stmt)
      requires s.WhileStmt? && Valid()
      modifies this
      ensures Valid() && State() == Resolving.ResolveStmt(s, old(State()))
      decreases s, 0
    {
      loopDepth := loopDepth + 1;
      ResolveExpr(s.condition);
      ResolveStmt(s.body);
      loopDepth := loopDepth - 1;
    }

    method ResolveExpr(e: Expr)
      requires Valid()
      modifies this
      ensures Valid() && State() == Resolving.ResolveExpr(e, old(State()))
      decreases e, 1
    {
      match e
      case AssignExpr(_, _, _) =>
        ResolveAssignExpr(e);
      case BinaryExpr(left, _, right) =>
        ResolveExpr(left);
        ResolveExpr(right);
      case CallExpr(_, _, _) =>
        ResolveCallExpr(e);
      case ConditionalExpr(condition, thenExpr, elseExpr) =>
        ResolveExpr(condition);
        ResolveExpr(thenExpr);
        ResolveExpr(elseExpr);
      case GroupExpr(inner) =>
        ResolveExpr(inner);
      case LiteralExpr(_) =>
      case UnaryExpr(_, operand) =>
        ResolveExpr(operand);
      case VarExpr(_, _) =>
        ResolveVarExpr(e);
    }

    method ResolveAssignExpr(e: Expr)
      requires e.AssignExpr? && Valid()
      modifies this
      ensures Valid() && State() == Resolving.ResolveExpr(e, old(State()))
      decreases e, 0
    {
      ResolveExpr(e.value);
      ResolveLocal(e.id, e.name);
    }

    method ResolveCallExpr(e: Expr)
      requires e.CallExpr? && Valid()
      modifies this
      ensures Valid() && State() == Resolving.ResolveExpr(e, old(State()))
      decreases e, 0
    {
      ResolveExpr(e.callee);
      ghost var begun := State();
      var i := 0;
      while i < |e.args|
        invariant i <= |e.args| && Valid()
        invariant ResolveExprs(e.args[i..], State()) == ResolveExprs(e.args, begun)
      {
        assert e.args[i..][1..] == e.args[i + 1..];
        assert e.args[i] in e.args;
        ResolveExpr(e.args[i]);
        i := i + 1;
      }
    }

    method ResolveVarExpr(e: Expr)
      requires e.VarExpr? && Valid()
      modifies this
      ensures Valid() && State() == Resolving.ResolveExpr(e, old(State()))
    {
      var name := e.name;
      if scopes != [] && name.lexeme in scopes[0] && !scopes[0][name.lexeme] {
        Error(name, OwnInitializerMessage(name));
      }
      ResolveLocal(e.id, name);
    }

    /** Walk the scopes from the innermost outwards, counting hops, and record the first that holds the name. */
    method ResolveLocal(id: nat, name: Token)
      requires Valid()
      modifies this
      ensures Valid() && State() == Resolving.ResolveLocal(old(State()), id, name)
    {
      var distance := 0;
      while distance < |scopes|
        invariant distance <= |scopes| && State() == old(State()) && Valid()
        invariant forall j :: 0 <= j < distance ==> name.lexeme !in scopes[j]
      {
        if name.lexeme in scopes[distance] {
          resolution := resolution[id := distance];
          return;
        }
        distance := distance + 1;
      }
    }

    method CheckLoopDepth(keyword: Token, message: string)
      requires Valid()
      modifies this
      ensures Valid() && State() == Resolving.CheckLoopDepth(old(State()), keyword, message)
    {
      if loopDepth == 0 {
        Error(keyword, message);
      }
    }

    method Error(token: Token, message: string)
      modifies this
      ensures Valid() && State() == ReportError(old(State()), token, message)
    {
      hadError := true;
      errors := errors + [ErrorLine(token, message)];
    }
  }
}
