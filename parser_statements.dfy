/**
 * The statement and declaration rules of the parser, and the top-level
 * loop that collects declarations and recovers from errors.
 */
module ParseStatements {
  import opened Wrappers
  import opened Tokens
  import opened Ast
  import opened Text
  import opened ParseRules

  /** Declaration: a variable declaration, a function declaration or a statement. */
  function Declaration(st: PState): (r: Step<Stmt>)
    requires ValidState(st)
    ensures Progress(st, r)
    decreases Remaining(st), 34
  {
    if Current(st).kind == Var then VarDeclaration(Advance(st))
    else if Current(st).kind == Function then FunctionDeclaration(Advance(st))
    else Statement(st)
  }

  /** VarDecl, after 'var': the name, an optional initializer after '=', and ';'. */
  function VarDeclaration(st: PState): (r: Step<Stmt>)
    requires ValidState(st)
    ensures Progress(st, r)
    ensures r.Ok? ==> r.value.VarStmt?
    decreases Remaining(st), 30
  {
    match Consume(st, Identifier, VariableName)
    case Fail(s) => Fail(s)
    case Ok(name, s1) =>
      match VarInitializer(s1)
      case Fail(s) => Fail(s)
      case Ok(initializer, s2) =>
        match Consume(s2, SemiColon, SemicolonAfterVar)
        case Fail(s) => Fail(s)
        case Ok(_, s3) => Ok(NewVarStmt(name, initializer), s3)
  }

  /** The initializer of a variable declaration: an expression after '=', or none. */
  function VarInitializer(st: PState): (r: Step<Option<Expr>>)
    requires ValidState(st)
    ensures Later(st, r.st)
    ensures Current(st).kind != Equal ==> r == Ok(None, st)
    decreases Remaining(st), 30
  {
    if Current(st).kind != Equal then Ok(None, st)
    else
      match Expression(Advance(st))
      case Fail(s) => Fail(s)
      case Ok(e, s) => Ok(Some(e), s)
  }

  /** FunctionDecl, after 'fun': the name, '(' parameters ')', '{' and the body block. */
  function FunctionDeclaration(st: PState): (r: Step<Stmt>)
    requires ValidState(st)
    ensures Progress(st, r)
    ensures r.Ok? ==> r.value.FunctionStmt?
    decreases Remaining(st), 30
  {
    match Consume(st, Identifier, FunctionName)
    case Fail(s) => Fail(s)
    case Ok(name, s1) =>
      match Consume(s1, LeftParen, ParenAfterFunctionName)
      case Fail(s) => Fail(s)
      case Ok(_, s2) =>
        match FunctionParameters(s2)
        case Fail(s) => Fail(s)
        case Ok(params, s3) => FunctionBody(name, params, s3)
  }

  /** The rest of FunctionDecl once the parameters are read: ')', '{' and the body block. */
  function FunctionBody(name: Token, params: seq<Token>, st: PState): (r: Step<Stmt>)
    requires ValidState(st)
    ensures Progress(st, r)
    ensures r.Ok? ==> r.value.FunctionStmt? && r.value.decl.name == name && r.value.decl.params == params
    decreases Remaining(st), 30
  {
    match Consume(st, RightParen, ParenAfterParameters)
    case Fail(s) => Fail(s)
    case Ok(_, s1) =>
      match Consume(s1, LeftBrace, BraceBeforeBody)
      case Fail(s) => Fail(s)
      case Ok(_, s2) =>
        match Block(s2)
        case Fail(s) => Fail(s)
        case Ok(body, s3) => Ok(FunctionStmt(FunctionDecl(name, params, body)), s3)
  }

  /** FunctionParameters: none when ')' comes next, otherwise the comma-separated names. */
  function FunctionParameters(st: PState): (r: Step<seq<Token>>)
    requires ValidState(st)
    ensures Later(st, r.st)
    ensures r.Ok? && |r.value| > 0 ==> r.st.pos > st.pos
    decreases Remaining(st), 30
  {
    if Current(st).kind == RightParen then Ok([], st) else Parameters([], st)
  }

  /** The do-while loop of FunctionParameters with the names read so far; too many are reported without throwing. */
  function Parameters(params: seq<Token>, st: PState): (r: Step<seq<Token>>)
    requires ValidState(st)
    ensures Progress(st, r)
    decreases Remaining(st), 30
  {
    var s0 := CheckLimit(st, |params|, ParameterLimit);
    match Consume(s0, Identifier, ParameterName)
    case Fail(s) => Fail(s)
    case Ok(param, s1) =>
      assert Later(st, s1) && s1.pos > st.pos;
      MoreParameters(params + [param], s1)
  }

  /** After a name: another round of the loop when ',' follows, otherwise the names read. */
  function MoreParameters(params: seq<Token>, st: PState): (r: Step<seq<Token>>)
    requires ValidState(st)
    ensures Later(st, r.st)
    decreases Remaining(st), 29
  {
    if Current(st).kind == Comma then Parameters(params, Advance(st)) else Ok(params, st)
  }

  /** Statement: the statement its first keyword selects, or an expression statement. */
  function Statement(st: PState): (r: Step<Stmt>)
    requires ValidState(st)
    ensures Progress(st, r)
    decreases Remaining(st), 32
  {
    var kind := Current(st).kind;
    if kind == Print then PrintStatement(Advance(st))
    else if kind == LeftBrace then
      match Block(Advance(st))
      case Fail(s) => Fail(s)
      case Ok(stmts, s) => Ok(BlockStmt(stmts), s)
    else if kind == If then IfStatement(Advance(st))
    else if kind == Switch then SwitchStatement(Advance(st))
    else if kind == While then WhileStatement(Advance(st))
    else StatementFromFor(st)
  }

  /** The rest of the choice in Statement, from 'for' on: for, do, break, continue, return, or an expression statement. */
  function StatementFromFor(st: PState): (r: Step<Stmt>)
    requires ValidState(st)
    ensures Progress(st, r)
    decreases Remaining(st), 31
  {
    var kind := Current(st).kind;
    if kind == For then ForStatement(Advance(st))
    else if kind == Do then DoWhileStatement(Advance(st))
    else if kind == Break then Jump(Advance(st), true)
    else if kind == Continue then Jump(Advance(st), false)
    else if kind == Return then ReturnStatement(Advance(st))
    else ExpressionStatement(st)
  }

  /** PrintStmt, after 'print': an expression and ';'. */
  function PrintStatement(st: PState): (r: Step<Stmt>)
    requires ValidState(st)
    ensures Progress(st, r)
    ensures r.Ok? ==> r.value.PrintStmt?
    decreases Remaining(st), 30
  {
    match Expression(st)
    case Fail(s) => Fail(s)
    case Ok(e, s1) =>
      match Consume(s1, SemiColon, SemicolonAfterPrint)
      case Fail(s) => Fail(s)
      case Ok(_, s2) => Ok(PrintStmt(e), s2)
  }

  /** Block, after '{': declarations up to '}' or the end of input, then '}'. */
  function Block(st: PState): (r: Step<seq<Stmt>>)
    requires ValidState(st)
    ensures Progress(st, r)
    decreases Remaining(st), 36
  {
    BlockFrom([], st)
  }

  /** The loop of Block with the statements read so far. */
  function BlockFrom(stmts: seq<Stmt>, st: PState): (r: Step<seq<Stmt>>)
    requires ValidState(st)
    ensures Progress(st, r)
    decreases Remaining(st), 35
  {
    if Current(st).kind != RightBrace && Current(st).kind != Eof then
      match Declaration(st)
      case Fail(s) => Fail(s)
      case Ok(d, s) =>
        BlockFrom(stmts + [d], s)
    else
      match Consume(st, RightBrace, BraceAfterBlock)
      case Fail(s) => Fail(s)
      case Ok(_, s) => Ok(stmts, s)
  }

  /** IfStmt, after 'if': '(' condition ')', the then-statement and an optional else-statement. */
  function IfStatement(st: PState): (r: Step<Stmt>)
    requires ValidState(st)
    ensures Progress(st, r)
    ensures r.Ok? ==> r.value.IfStmt?
    decreases Remaining(st), 30
  {
    match Consume(st, LeftParen, ParenAfterIf)
    case Fail(s) => Fail(s)
    case Ok(_, s1) =>
      match Expression(s1)
      case Fail(s) => Fail(s)
      case Ok(condition, s2) =>
        match Consume(s2, RightParen, ParenAfterIfCondition)
        case Fail(s) => Fail(s)
        case Ok(_, s3) =>
          match Statement(s3)
          case Fail(s) => Fail(s)
          case Ok(thenBranch, s4) =>
            match OptionalClause(s4, Else)
            case Fail(s) => Fail(s)
            case Ok(elseBranch, s5) => Ok(IfStmt(condition, thenBranch, elseBranch), s5)
  }

  /** A statement introduced by an optional keyword (else, default with its ':'), or none when the keyword is absent. */
  function OptionalClause(st: PState, keyword: TokenKind): (r: Step<Option<Stmt>>)
    requires ValidState(st) && keyword in {Else, Default}
    ensures Later(st, r.st)
    ensures Current(st).kind != keyword ==> r == Ok(None, st)
    ensures r.Ok? && r.value.Some? ==> r.st.pos > st.pos
    decreases Remaining(st), 29
  {
    if Current(st).kind != keyword then Ok(None, st)
    else if keyword == Else then
      match Statement(Advance(st))
      case Fail(s) => Fail(s)
      case Ok(s1, s) => Ok(Some(s1), s)
    else
      match DefaultCase(Advance(st))
      case Fail(s) => Fail(s)
      case Ok(s1, s) => Ok(Some(s1), s)
  }

  /** SwitchStmt, after 'switch': '(' subject ')' '{', case clauses, an optional default clause and '}'. */
  function SwitchStatement(st: PState): (r: Step<Stmt>)
    requires ValidState(st)
    ensures Progress(st, r)
    ensures r.Ok? ==> r.value.SwitchStmt?
    decreases Remaining(st), 30
  {
    match Consume(st, LeftParen, ParenAfterSwitch)
    case Fail(s) => Fail(s)
    case Ok(_, s1) =>
      match Expression(s1)
      case Fail(s) => Fail(s)
      case Ok(subject, s2) =>
        match Consume(s2, RightParen, ParenAfterSwitchSubject)
        case Fail(s) => Fail(s)
        case Ok(_, s3) =>
          match Consume(s3, LeftBrace, BraceBeforeSwitchBody)
          case Fail(s) => Fail(s)
          case Ok(_, s4) => SwitchBody(subject, [], s4)
  }

  /** The loop over case clauses of SwitchStmt with the clauses read so far, then the default clause and '}'. */
  function SwitchBody(subject: Expr, cases: seq<CaseClause>, st: PState): (r: Step<Stmt>)
    requires ValidState(st)
    ensures Progress(st, r)
    ensures r.Ok? ==> r.value.SwitchStmt? && r.value.subject == subject
    decreases Remaining(st), 30
  {
    if Current(st).kind == Case then
      match SwitchCase(Advance(st))
      case Fail(s) => Fail(s)
      case Ok(c, s) => SwitchBody(subject, cases + [c], s)
    else
      match OptionalClause(st, Default)
      case Fail(s) => Fail(s)
      case Ok(defaultClause, s1) =>
        match Consume(s1, RightBrace, BraceAfterSwitchBody)
        case Fail(s) => Fail(s)
        case Ok(_, s2) => Ok(SwitchStmt(subject, cases, defaultClause), s2)
  }

  /** CaseClause, after 'case': an expression, ':' and a statement. */
  function SwitchCase(st: PState): (r: Step<CaseClause>)
    requires ValidState(st)
    ensures Progress(st, r)
    decreases Remaining(st), 30
  {
    match Expression(st)
    case Fail(s) => Fail(s)
    case Ok(condition, s1) =>
      match Consume(s1, Colon, ColonAfterCase)
      case Fail(s) => Fail(s)
      case Ok(_, s2) =>
        match Statement(s2)
        case Fail(s) => Fail(s)
        case Ok(body, s3) => Ok(CaseClause(condition, body), s3)
  }

  /** DefaultCase, after 'default': ':' and a statement. */
  function DefaultCase(st: PState): (r: Step<Stmt>)
    requires ValidState(st)
    ensures Progress(st, r)
    decreases Remaining(st), 30
  {
    match Consume(st, Colon, ColonAfterDefault)
    case Fail(s) => Fail(s)
    case Ok(_, s1) => Statement(s1)
  }

  /** WhileStmt, after 'while': '(' condition ')' and the body; the increment is left out. */
  function WhileStatement(st: PState): (r: Step<Stmt>)
    requires ValidState(st)
    ensures Progress(st, r)
    ensures r.Ok? ==> r.value.WhileStmt? && r.value.increment.None?
    decreases Remaining(st), 30
  {
    match Consume(st, LeftParen, ParenAfterWhile)
    case Fail(s) => Fail(s)
    case Ok(_, s1) =>
      match Expression(s1)
      case Fail(s) => Fail(s)
      case Ok(condition, s2) =>
        match Consume(s2, RightParen, ParenAfterWhileCondition)
        case Fail(s) => Fail(s)
        case Ok(_, s3) =>
          match Statement(s3)
          case Fail(s) => Fail(s)
          case Ok(body, s4) => Ok(NewWhileStmt(condition, body), s4)
  }

  /** ForStmt, after 'for': '(' and the initializer, then the rest of the clauses and the body. */
  function ForStatement(st: PState): (r: Step<Stmt>)
    requires ValidState(st)
    ensures Progress(st, r)
    ensures r.Ok? ==> r.value.ForStmt?
    decreases Remaining(st), 30
  {
    match Consume(st, LeftParen, ParenAfterFor)
    case Fail(s) => Fail(s)
    case Ok(_, s1) =>
      match ForInitializer(s1)
      case Fail(s) => Fail(s)
      case Ok(initializer, s2) =>
        match ForCondition(s2)
        case Fail(s) => Fail(s)
        case Ok(condition, s3) => ForTail(initializer, condition, s3)
  }

  /** The initializer clause: none after a bare ';', a variable declaration, or an expression statement. */
  function ForInitializer(st: PState): (r: Step<Option<Stmt>>)
    requires ValidState(st)
    ensures Progress(st, r)
    decreases Remaining(st), 30
  {
    if Current(st).kind == SemiColon then Ok(None, Advance(st))
    else if Current(st).kind == Var then
      match VarDeclaration(Advance(st))
      case Fail(s) => Fail(s)
      case Ok(d, s) => Ok(Some(d), s)
    else
      match ExpressionStatement(st)
      case Fail(s) => Fail(s)
      case Ok(e, s) => Ok(Some(e), s)
  }

  /** The condition clause and its ';': the true literal when the condition is omitted. */
  function ForCondition(st: PState): (r: Step<Expr>)
    requires ValidState(st)
    ensures Progress(st, r)
    ensures Current(st).kind == SemiColon ==> r == Ok(TrueLiteral, Advance(st))
    decreases Remaining(st), 30
  {
    match if Current(st).kind == SemiColon then Ok(TrueLiteral, st) else Expression(st)
    case Fail(s) => Fail(s)
    case Ok(condition, s1) =>
      match Consume(s1, SemiColon, SemicolonAfterForCondition)
      case Fail(s) => Fail(s)
      case Ok(_, s2) => Ok(condition, s2)
  }

  /** The increment clause (none when ')' follows), ')' and the body. */
  function ForTail(initializer: Option<Stmt>, condition: Expr, st: PState): (r: Step<Stmt>)
    requires ValidState(st)
    ensures Progress(st, r)
    ensures r.Ok? ==> r.value.ForStmt? && r.value.forInit == initializer && r.value.condition == condition
    decreases Remaining(st), 30
  {
    match ForIncrement(st)
    case Fail(s) => Fail(s)
    case Ok(increment, s1) =>
      match Consume(s1, RightParen, ParenAfterForClauses)
      case Fail(s) => Fail(s)
      case Ok(_, s2) =>
        assert Later(st, s2) && s2.pos > st.pos;
        match Statement(s2)
        case Fail(s) => Fail(s)
        case Ok(body, s3) => Ok(ForStmt(initializer, condition, increment, body), s3)
  }

  /** The increment expression of a for-loop, or none when ')' comes next. */
  function ForIncrement(st: PState): (r: Step<Option<Expr>>)
    requires ValidState(st)
    ensures Later(st, r.st)
    ensures Current(st).kind == RightParen ==> r == Ok(None, st)
    decreases Remaining(st), 30
  {
    if Current(st).kind == RightParen then Ok(None, st)
    else
      match Expression(st)
      case Fail(s) => Fail(s)
      case Ok(e, s) => Ok(Some(e), s)
  }

  /** DoWhileStmt, after 'do': the body, 'while' '(' condition ')' and ';'. */
  function DoWhileStatement(st: PState): (r: Step<Stmt>)
    requires ValidState(st)
    ensures Progress(st, r)
    ensures r.Ok? ==> r.value.DoWhileStmt?
    decreases Remaining(st), 33
  {
    match Statement(st)
    case Fail(s) => Fail(s)
    case Ok(body, s1) => DoWhileCondition(body, s1)
  }

  /** After the body of a do-while statement: 'while' '(' and the condition, then the tail. */
  function DoWhileCondition(body: Stmt, st: PState): (r: Step<Stmt>)
    requires ValidState(st)
    ensures Progress(st, r)
    ensures r.Ok? ==> r.value.DoWhileStmt? && r.value.body == body
    decreases Remaining(st), 32
  {
    match Consume(st, While, WhileAfterDo)
    case Fail(s) => Fail(s)
    case Ok(_, s1) =>
      match Consume(s1, LeftParen, ParenAfterWhile)
      case Fail(s) => Fail(s)
      case Ok(_, s2) =>
        match Expression(s2)
        case Fail(s) => Fail(s)
        case Ok(condition, s3) => DoWhileTail(body, condition, s3)
  }

  /** The closing ')' and ';' of a do-while statement. */
  function DoWhileTail(body: Stmt, condition: Expr, st: PState): (r: Step<Stmt>)
    requires ValidState(st)
    ensures Progress(st, r)
    ensures r.Ok? ==> r.value == DoWhileStmt(body, condition)
  {
    match Consume(st, RightParen, ParenAfterWhileCondition)
    case Fail(s) => Fail(s)
    case Ok(_, s1) =>
      match Consume(s1, SemiColon, SemicolonAfterDoWhile)
      case Fail(s) => Fail(s)
      case Ok(_, s2) => Ok(DoWhileStmt(body, condition), s2)
  }

  /** BreakStmt or ContinueStmt, after the keyword: the keyword is the previous token, then ';'. */
  function Jump(st: PState, isBreak: bool): (r: Step<Stmt>)
    requires ValidState(st) && st.prev.Some?
    ensures Progress(st, r)
    ensures r.Ok? ==> r.value == (if isBreak then BreakStmt(st.prev.value) else ContinueStmt(st.prev.value))
  {
    var keyword := st.prev.value;
    match Consume(st, SemiColon, if isBreak then SemicolonAfterBreak else SemicolonAfterContinue)
    case Fail(s) => Fail(s)
    case Ok(_, s) => Ok(if isBreak then BreakStmt(keyword) else ContinueStmt(keyword), s)
  }

  /** ReturnStmt, after 'return': the value (nil when ';' comes at once) and ';'. */
  function ReturnStatement(st: PState): (r: Step<Stmt>)
    requires ValidState(st) && st.prev.Some?
    ensures Progress(st, r)
    ensures r.Ok? ==> r.value.ReturnStmt? && r.value.keyword == st.prev.value
    ensures r.Ok? && Current(st).kind == SemiColon ==> r.value.value == NilLiteral
    decreases Remaining(st), 30
  {
    var keyword := st.prev.value;
    match ReturnValue(st)
    case Fail(s) => Fail(s)
    case Ok(value, s1) =>
      match Consume(s1, SemiColon, SemicolonAfterReturn)
      case Fail(s) => Fail(s)
      case Ok(_, s2) => Ok(ReturnStmt(keyword, value), s2)
  }

  /** The value of a return statement: the nil literal when ';' comes at once, otherwise an expression. */
  function ReturnValue(st: PState): (r: Step<Expr>)
    requires ValidState(st)
    ensures Later(st, r.st)
    ensures Current(st).kind == SemiColon ==> r == Ok(NilLiteral, st)
    decreases Remaining(st), 30
  {
    if Current(st).kind == SemiColon then Ok(NilLiteral, st) else Expression(st)
  }

  /** ExprStmt: an expression and ';'. */
  function ExpressionStatement(st: PState): (r: Step<Stmt>)
    requires ValidState(st)
    ensures Progress(st, r)
    ensures r.Ok? ==> r.value.ExprStmt?
    decreases Remaining(st), 30
  {
    match Expression(st)
    case Fail(s) => Fail(s)
    case Ok(e, s1) =>
      match Consume(s1, SemiColon, SemicolonAfterExpression)
      case Fail(s) => Fail(s)
      case Ok(_, s2) => Ok(ExprStmt(e), s2)
  }

  // ------------------------------------------------------------ the program

  /** What Parse returns, with the state it leaves. */
  datatype Parsed = Parsed(program: seq<Stmt>, st: PState)

  /**
   * Where the catch of Parse's loop leaves the parser after a failed pass:
   * where Synchronize stops, after a ParseException. Any other exception is
   * not caught, and the state stays as it was thrown.
   */
  function AfterCatch(s: PState): (r: PState)
    requires ValidState(s)
    ensures Later(s, r) && r.errors == s.errors && r.escaped == s.escaped
    ensures s.escaped.Some? ==> r == s
    ensures s.escaped.None? ==> AtBoundary(r)
  {
    if s.escaped.Some? then s else SynchronizeKeepsEscaped(s); Synchronize(s)
  }

  /**
   * The loop of Parse as the source writes it, for at most fuel passes: it
   * ends when Match(Eof) succeeds; each pass adds a declaration, or after a
   * ParseException synchronizes. An exception that is not a ParseException
   * ends it, leaving Parse through the catch: its result is then the state
   * at the throw, whose escaped field names the exception. None when the
   * passes run out.
   */
  function ParseAsWritten(program: seq<Stmt>, st: PState, fuel: nat): (r: Option<Parsed>)
    requires ValidState(st)
    ensures r.Some? ==> Later(st, r.value.st) && (r.value.st.escaped.None? ==> Current(r.value.st).kind == Eof)
    ensures r.Some? ==> |program| <= |r.value.program|
    decreases fuel
  {
    if st.escaped.Some? then Some(Parsed(program, st))
    else if Current(st).kind == Eof then Some(Parsed(program, Advance(st)))
    else if fuel == 0 then None
    else
      match Declaration(st)
      case Ok(d, s) => ParseAsWritten(program + [d], s, fuel - 1)
      case Fail(s) => ParseAsWritten(program, AfterCatch(s), fuel - 1)
  }

  /** The loop of Parse as written ends at Eof, having advanced past it. */
  lemma AsWrittenAtEof(program: seq<Stmt>, st: PState, fuel: nat)
    requires ValidState(st) && st.escaped.None? && Current(st).kind == Eof
    ensures ParseAsWritten(program, st, fuel) == Some(Parsed(program, Advance(st)))
  {
  }

  /** Once an exception other than a ParseException is thrown, the loop of Parse as written ends with it. */
  lemma AsWrittenEscapes(program: seq<Stmt>, st: PState, fuel: nat)
    requires ValidState(st) && st.escaped.Some?
    ensures ParseAsWritten(program, st, fuel) == Some(Parsed(program, st))
  {
  }

  /** Before Eof with no passes left, the loop of Parse as written gives up. */
  lemma AsWrittenOutOfPasses(program: seq<Stmt>, st: PState)
    requires ValidState(st) && st.escaped.None? && Current(st).kind != Eof
    ensures ParseAsWritten(program, st, 0) == None
  {
  }

  /** One pass of the loop of Parse as written, from a state before Eof with a pass left. */
  lemma AsWrittenPass(program: seq<Stmt>, st: PState, fuel: nat)
    requires ValidState(st) && st.escaped.None? && Current(st).kind != Eof && fuel > 0
    ensures Declaration(st).Ok? ==> ParseAsWritten(program, st, fuel) == ParseAsWritten(program + [Declaration(st).value], Declaration(st).st, fuel - 1)
    ensures Declaration(st).Fail? ==> ParseAsWritten(program, st, fuel) == ParseAsWritten(program, AfterCatch(Declaration(st).st), fuel - 1)
  {
  }

  /** One pass of the loop of Parse as written: a declaration appended, or Synchronize after a ParseException. */
  function Pass(program: seq<Stmt>, st: PState): (r: Parsed)
    requires ValidState(st) && Current(st).kind != Eof
    ensures Later(st, r.st)
    ensures |program| <= |r.program| <= |program| + 1 && r.program[..|program|] == program
  {
    match Declaration(st)
    case Ok(d, s) => Parsed(program + [d], s)
    case Fail(s) => Parsed(program, AfterCatch(s))
  }

  /** A pass of the loop of Parse as written whose declaration parses goes on with it appended. */
  lemma AsWrittenDeclared(program: seq<Stmt>, st: PState, rest: nat, d: Stmt, s: PState)
    requires ValidState(st) && st.escaped.None? && Current(st).kind != Eof && Declaration(st) == Ok(d, s)
    ensures ParseAsWritten(program, st, rest + 1) == ParseAsWritten(program + [d], s, rest)
  {
  }

  /** A pass of the loop of Parse as written that ends in an exception goes on from where the catch leaves it. */
  lemma AsWrittenFailed(program: seq<Stmt>, st: PState, rest: nat, s: PState)
    requires ValidState(st) && st.escaped.None? && Current(st).kind != Eof && Declaration(st) == Fail(s)
    ensures ParseAsWritten(program, st, rest + 1) == ParseAsWritten(program, AfterCatch(s), rest)
  {
  }

  /** The loop of Parse as written depends on the number of passes, not on how it is written. */
  lemma SamePasses(program: seq<Stmt>, st: PState, fuel: nat, passes: nat)
    requires ValidState(st) && fuel == passes
    ensures ParseAsWritten(program, st, fuel) == ParseAsWritten(program, st, passes)
  {
  }

  /**
   * The recovery Parse needs after a ParseException in a pass that began at
   * start: synchronize, as the source does. Only when that leaves the parser
   * where the pass began, so that the next pass would fail in the same place
   * again, is the token skipped first and the parser synchronized once more.
   */
  function Recover(start: PState, failed: PState): (r: PState)
    requires ValidState(start) && ValidState(failed) && Later(start, failed)
    ensures Later(failed, r) && r.errors == failed.errors
    ensures Current(start).kind != Eof ==> r.pos > start.pos
    ensures Synchronize(failed).pos > start.pos ==> r == Synchronize(failed)
    ensures Synchronize(failed).pos == start.pos && Current(start).kind != Eof ==> r.pos > Synchronize(failed).pos
  {
    var synced := Synchronize(failed);
    if synced.pos > start.pos then synced
    else Synchronize(synced.(prev := Some(Current(synced)), pos := NextPos(synced)))
  }

  /**
   * The loop of Parse with that recovery: every pass that does not end the
   * loop consumes a token, so it ends, at Eof or with an exception that is
   * not a ParseException, as the loop as written does.
   */
  function ParseFrom(program: seq<Stmt>, st: PState): (r: Parsed)
    requires ValidState(st)
    ensures Later(st, r.st) && (r.st.escaped.None? ==> Current(r.st).kind == Eof)
    ensures |program| <= |r.program|
    decreases Remaining(st)
  {
    if st.escaped.Some? then Parsed(program, st)
    else if Current(st).kind == Eof then Parsed(program, Advance(st))
    else
      match Declaration(st)
      case Ok(d, s) => ParseFrom(program + [d], s)
      case Fail(s) => if s.escaped.Some? then Parsed(program, s) else ParseFrom(program, Recover(st, s))
  }

  /** Parse on a fresh parser over the stream. */
  function Parse(tokens: seq<Token>): (r: Parsed)
    requires WellFormed(tokens)
    ensures ValidState(r.st) && r.st.tokens == tokens && (r.st.escaped.None? ==> Current(r.st).kind == Eof)
  {
    ParseFrom([], Start(tokens))
  }
}
