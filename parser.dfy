/**
 * The parser object: it holds the current and previous token and the error
 * flag, pulls tokens from the scanner one at a time, and unwinds a failed
 * rule by returning None where the source throws a ParseException. Every
 * method is proved to compute exactly the rule of ParseRules or
 * ParseStatements of the same name.
 */
module Parsing {
  import opened Wrappers
  import opened Tokens
  import opened Ast
  import opened Text
  import Keywords
  import R = ParseRules
  import S = ParseStatements

  class Parser {
    /** The stream the scanner yields, up to and including its Eof; pos is how far it has been read. */
    const tokens: seq<Token>
    var pos: nat
    var current: Token
    var prev: Option<Token>
    var hadError: bool
    /** The lines written to the error writer. */
    var errors: seq<string>
    /** The exception other than a ParseException that is on its way out of the parser, if any. */
    var escaped: Option<R.Escape>

    ghost predicate Valid()
      reads this
    {
      && R.WellFormed(tokens)
      && pos < |tokens|
      && current == tokens[pos]
      && (hadError <==> |errors| > 0)
    }

    function State(): R.PState
      reads this
    {
      R.PState(tokens, pos, prev, errors, escaped)
    }

    /** The constructor reads the first token, with no previous one. */
    constructor (tokens: seq<Token>)
      requires R.WellFormed(tokens)
      ensures Valid() && State() == R.Start(tokens)
    {
      this.tokens := tokens;
      pos := 0;
      current := tokens[0];
      prev := None;
      hadError := false;
      errors := [];
      escaped := None;
      new;
      if current.kind == TokenKind.Error {
        Error(current, R.Lexeme(current.lexeme));
        Synchronize();
      }
    }

    /**
     * The whole program: declarations until Eof, synchronizing after each
     * ParseException. The loop as written need not end, so it is given a
     * bound on its passes and returns None when they run out. Any other
     * exception leaves the loop: the statements so far are returned with
     * escaped set, which stands for Parse throwing it.
     */
    method Parse(passes: nat) returns (program: Option<seq<Stmt>>)
      requires Valid() && escaped.None?
      modifies this
      ensures Valid()
      ensures program.Some? <==> S.ParseAsWritten([], old(State()), passes).Some?
      ensures program.Some? ==> S.Parsed(program.value, State()) == S.ParseAsWritten([], old(State()), passes).value
    {
      ghost var expected := S.ParseAsWritten([], State(), passes);
      var statements: seq<Stmt> := [];
      var fuel := passes;
      while current.kind != Eof
        invariant Valid() && escaped.None? && S.ParseAsWritten(statements, State(), fuel) == expected
        decreases fuel
      {
        if fuel == 0 {
          S.AsWrittenOutOfPasses(statements, State());
          return None;
        }
        statements, fuel := LoopPass(statements, fuel, expected);
        if escaped.Some? {
          S.AsWrittenEscapes(statements, State(), fuel);
          return Some(statements);
        }
      }
      S.AsWrittenAtEof(statements, State(), fuel);
      Advance();
      return Some(statements);
    }

    /** A pass of the loop of Parse, which leaves the rest of the loop with the same outcome. */
    method LoopPass(statements: seq<Stmt>, fuel: nat, ghost expected: Option<S.Parsed>) returns (next: seq<Stmt>, rest: nat)
      requires Valid() && escaped.None? && current.kind != Eof && fuel > 0 && S.ParseAsWritten(statements, State(), fuel) == expected
      modifies this
      ensures Valid() && rest < fuel && S.ParseAsWritten(next, State(), rest) == expected
    {
      ghost var step := S.Declaration(State());
      next := DeclarationPass(statements);
      rest := fuel - 1;
      S.SamePasses(statements, old(State()), fuel, rest + 1);
      match step
      case Ok(d, s) => S.AsWrittenDeclared(statements, old(State()), rest, d, s);
      case Fail(s) => S.AsWrittenFailed(statements, old(State()), rest, s);
    }

    /** One pass of the loop of Parse: a declaration appended, or Synchronize after a ParseException; any other exception is not caught. */
    method DeclarationPass(statements: seq<Stmt>) returns (next: seq<Stmt>)
      requires Valid() && current.kind != Eof
      modifies this
      ensures Valid() && next == S.Pass(statements, old(State())).program && State() == S.Pass(statements, old(State())).st
    {
      var declaration := Declaration();
      if declaration.Some? {
        next := statements + [declaration.value];
      } else {
        if escaped.None? {
          Synchronize();
        }
        next := statements;
      }
    }

    method Declaration() returns (r: Option<Stmt>)
      requires Valid()
      modifies this
      ensures Valid() && R.Outcome(r, State()) == S.Declaration(old(State()))
      decreases |tokens| - pos, 34
    {
      if current.kind == Var {
        Advance();
        r := VarDecl();
      } else if current.kind == Function {
        Advance();
        r := FunctionDecl();
      } else {
        r := Statement();
      }
    }

    method VarDecl() returns (r: Option<Stmt>)
      requires Valid()
      modifies this
      ensures Valid() && R.Outcome(r, State()) == S.VarDeclaration(old(State()))
      decreases |tokens| - pos, 30
    {
      var name := Consume(Identifier, R.VariableName);
      if name.None? { return None; }
      ghost var s1 := State();
      var initializer: Option<Expr> := None;
      if current.kind == Equal {
        Advance();
        var e := Expression();
        if e.None? { return None; }
        initializer := Some(e.value);
      }
      assert R.Outcome(Some(initializer), State()) == S.VarInitializer(s1);
      var semicolon := Consume(SemiColon, R.SemicolonAfterVar);
      if semicolon.None? { return None; }
      return Some(NewVarStmt(name.value, initializer));
    }

    method FunctionDecl() returns (r: Option<Stmt>)
      requires Valid()
      modifies this
      ensures Valid() && R.Outcome(r, State()) == S.FunctionDeclaration(old(State()))
      decreases |tokens| - pos, 30
    {
      var name := Consume(Identifier, R.FunctionName);
      if name.None? { return None; }
      var paren := Consume(LeftParen, R.ParenAfterFunctionName);
      if paren.None? { return None; }
      var parameters := FunctionParameters();
      if parameters.None? { return None; }
      ghost var s3 := State();
      paren := Consume(RightParen, R.ParenAfterParameters);
      if paren.None? { return None; }
      var brace := Consume(LeftBrace, R.BraceBeforeBody);
      if brace.None? { return None; }
      var body := Block();
      if body.None? { return None; }
      r := Some(FunctionStmt(Ast.FunctionDecl.FunctionDecl(name.value, parameters.value, body.value)));
      assert R.Outcome(r, State()) == S.FunctionBody(name.value, parameters.value, s3);
    }

    /** The parameter names; a 256th name is reported but parsing goes on. */
    method FunctionParameters() returns (r: Option<seq<Token>>)
      requires Valid()
      modifies this
      ensures Valid() && R.Outcome(r, State()) == S.FunctionParameters(old(State()))
    {
      if current.kind == RightParen { return Some([]); }
      var parameters: seq<Token> := [];
      while true
        invariant Valid() && S.Parameters(parameters, State()) == S.FunctionParameters(old(State()))
        decreases |tokens| - pos
      {
        if |parameters| >= R.MaxParameters {
          Error(current, R.ParameterLimit);
        }
        var parameter := Consume(Identifier, R.ParameterName);
        if parameter.None? { return None; }
        parameters := parameters + [parameter.value];
        if current.kind != Comma { return Some(parameters); }
        Advance();
      }
    }

    method Statement() returns (r: Option<Stmt>)
      requires Valid()
      modifies this
      ensures Valid() && R.Outcome(r, State()) == S.Statement(old(State()))
      decreases |tokens| - pos, 32
    {
      var kind := current.kind;
      if kind == Print {
        Advance();
        r := PrintStmt();
      } else if kind == LeftBrace {
        Advance();
        var stmts := Block();
        r := if stmts.Some? then Some(BlockStmt(stmts.value)) else None;
      } else if kind == If {
        Advance();
        r := IfStmt();
      } else if kind == Switch {
        Advance();
        r := SwitchStmt();
      } else if kind == While {
        Advance();
        r := WhileStmt();
      } else {
        r := StatementFromFor();
      }
    }

    /** The rest of the choice in Statement, from 'for' on. */
    method StatementFromFor() returns (r: Option<Stmt>)
      requires Valid()
      modifies this
      ensures Valid() && R.Outcome(r, State()) == S.StatementFromFor(old(State()))
      decreases |tokens| - pos, 31
    {
      var kind := current.kind;
      if kind == For {
        Advance();
        r := ForStmt();
      } else if kind == Do {
        Advance();
        r := DoWhileStmt();
      } else if kind == Break {
        Advance();
        r := BreakStmt();
      } else if kind == Continue {
        Advance();
        r := ContinueStmt();
      } else if kind == Return {
        Advance();
        r := ReturnStmt();
      } else {
        r := ExprStmt();
      }
    }

    method PrintStmt() returns (r: Option<Stmt>)
      requires Valid()
      modifies this
      ensures Valid() && R.Outcome(r, State()) == S.PrintStatement(old(State()))
      decreases |tokens| - pos, 30
    {
      var e := Expression();
      if e.None? { return None; }
      var semicolon := Consume(SemiColon, R.SemicolonAfterPrint);
      if semicolon.None? { return None; }
      return Some(Stmt.PrintStmt(e.value));
    }

    /** The statements of a block, after its '{'. */
    method Block() returns (r: Option<seq<Stmt>>)
      requires Valid()
      modifies this
      ensures Valid() && R.Outcome(r, State()) == S.Block(old(State()))
      decreases |tokens| - pos, 36
    {
      var statements: seq<Stmt> := [];
      while current.kind != RightBrace && current.kind != Eof
        invariant Valid() && S.BlockFrom(statements, State()) == S.Block(old(State()))
        decreases |tokens| - pos
      {
        var declaration := Declaration();
        if declaration.None? { return None; }
        statements := statements + [declaration.value];
      }
      var brace := Consume(RightBrace, R.BraceAfterBlock);
      if brace.None? { return None; }
      return Some(statements);
    }

    method IfStmt() returns (r: Option<Stmt>)
      requires Valid()
      modifies this
      ensures Valid() && R.Outcome(r, State()) == S.IfStatement(old(State()))
      decreases |tokens| - pos, 30
    {
      var paren := Consume(LeftParen, R.ParenAfterIf);
      if paren.None? { return None; }
      var condition := Expression();
      if condition.None? { return None; }
      paren := Consume(RightParen, R.ParenAfterIfCondition);
      if paren.None? { return None; }
      var thenBranch := Statement();
      if thenBranch.None? { return None; }
      ghost var s4 := State();
      var elseBranch: Option<Stmt> := None;
      if current.kind == Else {
        Advance();
        var e := Statement();
        if e.None? { return None; }
        elseBranch := Some(e.value);
      }
      assert R.Outcome(Some(elseBranch), State()) == S.OptionalClause(s4, Else);
      return Some(Stmt.IfStmt(condition.value, thenBranch.value, elseBranch));
    }

    method SwitchStmt() returns (r: Option<Stmt>)
      requires Valid()
      modifies this
      ensures Valid() && R.Outcome(r, State()) == S.SwitchStatement(old(State()))
      decreases |tokens| - pos, 30
    {
      var paren := Consume(LeftParen, R.ParenAfterSwitch);
      if paren.None? { return None; }
      var subject := Expression();
      if subject.None? { return None; }
      paren := Consume(RightParen, R.ParenAfterSwitchSubject);
      if paren.None? { return None; }
      var brace := Consume(LeftBrace, R.BraceBeforeSwitchBody);
      if brace.None? { return None; }
      r := SwitchBody(subject.value);
    }

    /** The body of a switch after its '{': the case clauses, an optional default clause and '}'. */
    method SwitchBody(subject: Expr) returns (r: Option<Stmt>)
      requires Valid()
      modifies this
      ensures Valid() && R.Outcome(r, State()) == S.SwitchBody(subject, [], old(State()))
      decreases |tokens| - pos, 30
    {
      var cases: seq<Ast.CaseClause> := [];
      while current.kind == Case
        invariant Valid() && S.SwitchBody(subject, cases, State()) == S.SwitchBody(subject, [], old(State()))
        decreases |tokens| - pos
      {
        Advance();
        var clause := CaseClause();
        if clause.None? { return None; }
        cases := cases + [clause.value];
      }
      ghost var s := State();
      var defaultClause: Option<Stmt> := None;
      if current.kind == Default {
        Advance();
        var d := DefaultCase();
        if d.None? { return None; }
        defaultClause := Some(d.value);
      }
      assert R.Outcome(Some(defaultClause), State()) == S.OptionalClause(s, Default);
      var brace := Consume(RightBrace, R.BraceAfterSwitchBody);
      if brace.None? { return None; }
      return Some(Stmt.SwitchStmt(subject, cases, defaultClause));
    }

    method CaseClause() returns (r: Option<Ast.CaseClause>)
      requires Valid()
      modifies this
      ensures Valid() && R.Outcome(r, State()) == S.SwitchCase(old(State()))
      decreases |tokens| - pos, 30
    {
      var condition := Expression();
      if condition.None? { return None; }
      var colon := Consume(Colon, R.ColonAfterCase);
      if colon.None? { return None; }
      var body := Statement();
      if body.None? { return None; }
      return Some(Ast.CaseClause.CaseClause(condition.value, body.value));
    }

    method DefaultCase() returns (r: Option<Stmt>)
      requires Valid()
      modifies this
      ensures Valid() && R.Outcome(r, State()) == S.DefaultCase(old(State()))
      decreases |tokens| - pos, 30
    {
      var colon := Consume(Colon, R.ColonAfterDefault);
      if colon.None? { return None; }
      r := Statement();
    }

    method WhileStmt() returns (r: Option<Stmt>)
      requires Valid()
      modifies this
      ensures Valid() && R.Outcome(r, State()) == S.WhileStatement(old(State()))
      decreases |tokens| - pos, 30
    {
      var paren := Consume(LeftParen, R.ParenAfterWhile);
      if paren.None? { return None; }
      var condition := Expression();
      if condition.None? { return None; }
      paren := Consume(RightParen, R.ParenAfterWhileCondition);
      if paren.None? { return None; }
      var body := Statement();
      if body.None? { return None; }
      return Some(NewWhileStmt(condition.value, body.value));
    }

    method ForStmt() returns (r: Option<Stmt>)
      requires Valid()
      modifies this
      ensures Valid() && R.Outcome(r, State()) == S.ForStatement(old(State()))
      decreases |tokens| - pos, 30
    {
      var paren := Consume(LeftParen, R.ParenAfterFor);
      if paren.None? { return None; }
      var initializer := ForInitializer();
      if initializer.None? { return None; }
      var condition := ForCondition();
      if condition.None? { return None; }
      ghost var s3 := State();
      var increment := ForIncrement();
      if increment.None? { return None; }
      paren := Consume(RightParen, R.ParenAfterForClauses);
      if paren.None? { return None; }
      var body := Statement();
      if body.None? { return None; }
      r := Some(Stmt.ForStmt(initializer.value, condition.value, increment.value, body.value));
      assert R.Outcome(r, State()) == S.ForTail(initializer.value, condition.value, s3);
    }

    /** The initializer clause of a for-loop: none after a bare ';', a declaration or an expression statement. */
    method ForInitializer() returns (r: Option<Option<Stmt>>)
      requires Valid()
      modifies this
      ensures Valid() && R.Outcome(r, State()) == S.ForInitializer(old(State()))
    {
      if current.kind == SemiColon {
        Advance();
        return Some(None);
      } else if current.kind == Var {
        Advance();
        var d := VarDecl();
        if d.None? { return None; }
        return Some(Some(d.value));
      } else {
        var e := ExprStmt();
        if e.None? { return None; }
        return Some(Some(e.value));
      }
    }

    /** The condition clause of a for-loop with its ';': the true literal when it is omitted. */
    method ForCondition() returns (r: Option<Expr>)
      requires Valid()
      modifies this
      ensures Valid() && R.Outcome(r, State()) == S.ForCondition(old(State()))
    {
      var condition: Expr := TrueLiteral;
      if current.kind != SemiColon {
        var c := Expression();
        if c.None? { return None; }
        condition := c.value;
      }
      var semicolon := Consume(SemiColon, R.SemicolonAfterForCondition);
      if semicolon.None? { return None; }
      return Some(condition);
    }

    /** The increment clause of a for-loop: none when ')' comes next. */
    method ForIncrement() returns (r: Option<Option<Expr>>)
      requires Valid()
      modifies this
      ensures Valid() && R.Outcome(r, State()) == S.ForIncrement(old(State()))
    {
      if current.kind == RightParen { return Some(None); }
      var e := Expression();
      if e.None? { return None; }
      return Some(Some(e.value));
    }

    method DoWhileStmt() returns (r: Option<Stmt>)
      requires Valid()
      modifies this
      ensures Valid() && R.Outcome(r, State()) == S.DoWhileStatement(old(State()))
      decreases |tokens| - pos, 33
    {
      var body := Statement();
      if body.None? { return None; }
      var keyword := Consume(While, R.WhileAfterDo);
      if keyword.None? { return None; }
      var paren := Consume(LeftParen, R.ParenAfterWhile);
      if paren.None? { return None; }
      var condition := Expression();
      if condition.None? { return None; }
      ghost var s4 := State();
      paren := Consume(RightParen, R.ParenAfterWhileCondition);
      if paren.None? { return None; }
      var semicolon := Consume(SemiColon, R.SemicolonAfterDoWhile);
      if semicolon.None? { return None; }
      r := Some(Stmt.DoWhileStmt(body.value, condition.value));
      assert R.Outcome(r, State()) == S.DoWhileTail(body.value, condition.value, s4);
    }

    method BreakStmt() returns (r: Option<Stmt>)
      requires Valid() && prev.Some?
      modifies this
      ensures Valid() && R.Outcome(r, State()) == S.Jump(old(State()), true)
    {
      var keyword := prev.value;
      var semicolon := Consume(SemiColon, R.SemicolonAfterBreak);
      if semicolon.None? { return None; }
      return Some(Stmt.BreakStmt(keyword));
    }

    method ContinueStmt() returns (r: Option<Stmt>)
      requires Valid() && prev.Some?
      modifies this
      ensures Valid() && R.Outcome(r, State()) == S.Jump(old(State()), false)
    {
      var keyword := prev.value;
      var semicolon := Consume(SemiColon, R.SemicolonAfterContinue);
      if semicolon.None? { return None; }
      return Some(Stmt.ContinueStmt(keyword));
    }

    method ReturnStmt() returns (r: Option<Stmt>)
      requires Valid() && prev.Some?
      modifies this
      ensures Valid() && R.Outcome(r, State()) == S.ReturnStatement(old(State()))
      decreases |tokens| - pos, 30
    {
      var keyword := prev.value;
      var value: Expr := NilLiteral;
      if current.kind != SemiColon {
        var e := Expression();
        if e.None? { return None; }
        value := e.value;
      }
      var semicolon := Consume(SemiColon, R.SemicolonAfterReturn);
      if semicolon.None? { return None; }
      return Some(Stmt.ReturnStmt(keyword, value));
    }

    method ExprStmt() returns (r: Option<Stmt>)
      requires Valid()
      modifies this
      ensures Valid() && R.Outcome(r, State()) == S.ExpressionStatement(old(State()))
      decreases |tokens| - pos, 30
    {
      var e := Expression();
      if e.None? { return None; }
      var semicolon := Consume(SemiColon, R.SemicolonAfterExpression);
      if semicolon.None? { return None; }
      return Some(Stmt.ExprStmt(e.value));
    }

    // ---------------------------------------------------------- expressions

    method Expression() returns (r: Option<Expr>)
      requires Valid()
      modifies this
      ensures Valid() && R.Outcome(r, State()) == R.Expression(old(State()))
      decreases |tokens| - pos, 21
    {
      r := LeftAssociativeBinaryOperator(R.CommaLevel);
    }

    /** The operand rule of a level: Comma, LogicOr, ..., Factor each pass theirs to LeftAssociativeBinaryOperator. */
    method Operand(level: R.Level) returns (r: Option<Expr>)
      requires Valid()
      modifies this
      ensures Valid() && R.Outcome(r, State()) == R.Operand(level, old(State()))
      decreases |tokens| - pos, R.OperandRank(level)
    {
      match level
      case CommaLevel => r := Assignment();
      case FactorLevel => r := Unary();
      case _ => r := LeftAssociativeBinaryOperator(R.Tighter(level));
    }

    method LeftAssociativeBinaryOperator(level: R.Level) returns (r: Option<Expr>)
      requires Valid()
      modifies this
      ensures Valid() && R.Outcome(r, State()) == R.Binary(level, old(State()))
      decreases |tokens| - pos, R.OperandRank(level) + 1
    {
      var left := Operand(level);
      if left.None? { return None; }
      var expr := left.value;
      while current.kind in R.Operators(level)
        invariant Valid() && R.BinaryTail(level, expr, State()) == R.Binary(level, old(State()))
        decreases |tokens| - pos
      {
        Advance();
        var op := prev.value;
        var right := Operand(level);
        if right.None? { return None; }
        expr := BinaryExpr(expr, op, right.value);
      }
      return Some(expr);
    }

    method Assignment() returns (r: Option<Expr>)
      requires Valid()
      modifies this
      ensures Valid() && R.Outcome(r, State()) == R.Assignment(old(State()))
      decreases |tokens| - pos, 18
    {
      var expr := Conditional();
      if expr.None? || current.kind != Equal { return expr; }
      var assignmentTarget := prev.value;
      Advance();
      var value := Assignment();
      if value.None? { return None; }
      if !expr.value.VarExpr? {
        Error(assignmentTarget, R.InvalidAssignmentTarget);
        return None;
      }
      return Some(AssignExpr(expr.value.id, expr.value.name, value.value));
    }

    method Conditional() returns (r: Option<Expr>)
      requires Valid()
      modifies this
      ensures Valid() && R.Outcome(r, State()) == R.Conditional(old(State()))
      decreases |tokens| - pos, 17
    {
      var expr := LeftAssociativeBinaryOperator(R.OrLevel);
      if expr.None? || current.kind != Question { return expr; }
      Advance();
      var thenExpr := Expression();
      if thenExpr.None? { return None; }
      var colon := Consume(Colon, R.ColonAfterThen);
      if colon.None? { return None; }
      var elseExpr := Conditional();
      if elseExpr.None? { return None; }
      return Some(ConditionalExpr(expr.value, thenExpr.value, elseExpr.value));
    }

    method Unary() returns (r: Option<Expr>)
      requires Valid()
      modifies this
      ensures Valid() && R.Outcome(r, State()) == R.Unary(old(State()))
      decreases |tokens| - pos, 4
    {
      if current.kind == Minus || current.kind == Bang {
        Advance();
        var op := prev.value;
        var operand := Unary();
        if operand.None? { return None; }
        return Some(UnaryExpr(op, operand.value));
      }
      r := Call();
    }

    method Call() returns (r: Option<Expr>)
      requires Valid()
      modifies this
      ensures Valid() && R.Outcome(r, State()) == R.Call(old(State()))
      decreases |tokens| - pos, 3
    {
      var callee := Primary();
      if callee.None? { return None; }
      var expr := callee.value;
      while current.kind == LeftParen
        invariant Valid() && R.CallTail(expr, State()) == R.Call(old(State()))
        decreases |tokens| - pos
      {
        Advance();
        var call := FinishCall(expr);
        if call.None? { return None; }
        expr := call.value;
      }
      return Some(expr);
    }

    /** The arguments of a call, after its '('; a 256th argument is reported but parsing goes on. */
    method FinishCall(callee: Expr) returns (r: Option<Expr>)
      requires Valid()
      modifies this
      ensures Valid() && R.Outcome(r, State()) == R.FinishCall(callee, old(State()))
      decreases |tokens| - pos, 20
    {
      if current.kind == RightParen {
        Advance();
        return Some(CallExpr(callee, prev.value, []));
      }
      var arguments: seq<Expr> := [];
      while true
        invariant Valid() && R.Arguments(callee, arguments, State()) == R.FinishCall(callee, old(State()))
        decreases |tokens| - pos
      {
        if |arguments| >= R.MaxArguments {
          Error(current, R.ArgumentLimit);
        }
        var argument := Assignment();
        if argument.None? { return None; }
        arguments := arguments + [argument.value];
        if current.kind != Comma {
          var paren := Consume(RightParen, R.ParenAfterArguments);
          if paren.None? { return None; }
          return Some(CallExpr(callee, paren.value, arguments));
        }
        Advance();
      }
    }

    method Primary() returns (r: Option<Expr>)
      requires Valid()
      modifies this
      ensures Valid() && R.Outcome(r, State()) == R.Primary(old(State()))
      decreases |tokens| - pos, 1
    {
      var token := current;
      if R.IsLiteralKind(token.kind) {
        Advance();
        var value := R.LiteralFrom(token.kind, prev.value);
        if value.Failure? {
          escaped := Some(value.error);
          return None;
        }
        return Some(LiteralExpr(value.value));
      }
      if token.kind == LeftParen {
        Advance();
        r := Grouping();
        return;
      }
      if token.kind == Identifier {
        var at := pos;
        Advance();
        return Some(VarExpr(at, prev.value));
      }
      Error(token, R.ExpectedExpression);
      return None;
    }

    method Grouping() returns (r: Option<Expr>)
      requires Valid()
      modifies this
      ensures Valid() && R.Outcome(r, State()) == R.Grouping(old(State()))
      decreases |tokens| - pos, 22
    {
      var inner := Expression();
      if inner.None? { return None; }
      var paren := Consume(RightParen, R.ParenAfterGroup);
      if paren.None? { return None; }
      return Some(GroupExpr(inner.value));
    }

    // -------------------------------------------------------- token movement

    /** The current token, advancing, when it has the expected kind; otherwise the error, without advancing. */
    method Consume(kind: TokenKind, message: R.Message) returns (token: Option<Token>)
      requires Valid() && kind != Eof
      modifies this
      ensures Valid() && R.Outcome(token, State()) == R.Consume(old(State()), kind, message)
    {
      var t := current;
      if t.kind != kind {
        Error(t, message);
        return None;
      }
      Advance();
      return Some(t);
    }

    method Advance()
      requires Valid()
      modifies this
      ensures Valid() && State() == R.Advance(old(State()))
    {
      ghost var before := State();
      prev := Some(current);
      current := NextToken();
      ghost var moved := before.(prev := Some(R.Current(before)), pos := R.NextPos(before));
      assert State() == moved;
      if current.kind == TokenKind.Error {
        Error(current, R.Lexeme(current.lexeme));
        assert State() == R.Report(moved, R.Current(moved), R.Lexeme(R.Current(moved).lexeme));
        Synchronize();
      }
    }

    /** Write the error line for token and set the error flag. */
    method Error(token: Token, message: R.Message)
      requires Valid()
      modifies this
      ensures Valid() && State() == R.Report(old(State()), token, message)
    {
      hadError := true;
      errors := errors + [R.ErrorLine(token, message)];
    }

    /** Skip tokens until a statement boundary. */
    method Synchronize()
      requires Valid()
      modifies this
      ensures Valid() && State() == R.Synchronize(old(State()))
    {
      while current.kind != Eof
        invariant Valid() && R.Synchronize(State()) == R.Synchronize(old(State()))
        decreases |tokens| - pos
      {
        if prev.Some? && R.EndsStatement(prev.value.kind) { return; }
        if Keywords.IsStatementStarter(current.kind) { return; }
        ghost var next := R.PState(tokens, pos + 1, Some(current), errors, escaped);
        assert R.Synchronize(next) == R.Synchronize(State());
        prev := Some(current);
        current := NextToken();
        assert State() == next;
      }
    }

    /** The scanner's NextToken: the next token of the stream, and Eof again once Eof is reached. */
    method NextToken() returns (token: Token)
      requires R.WellFormed(tokens) && pos < |tokens| && current == tokens[pos]
      modifies this
      ensures pos == R.NextPos(old(State())) && token == tokens[pos]
      ensures current == old(current) && prev == old(prev) && hadError == old(hadError) && errors == old(errors) && escaped == old(escaped)
    {
      if current.kind != Eof {
        pos := pos + 1;
      }
      token := tokens[pos];
    }
  }
}
