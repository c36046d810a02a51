/**
 * The recursive-descent parser as functions of its state. The state is the
 * token stream the scanner hands out, the index of the current token, the
 * previous token (none before the first advance) and the error lines written
 * so far, and the exception other than a ParseException that is on its way
 * out of the parser, if any. Each grammar rule maps a state to the node it
 * builds and the state after it, or to a failure that stands for the
 * exception it throws, carrying the state at the throw.
 */
module ParseRules {
  import opened Wrappers
  import opened Tokens
  import opened Ast
  import opened Text
  import Keywords

  const MaxArguments: nat := 255
  const MaxParameters: nat := MaxArguments

  /**
   * The messages of the parse errors: one for each check of the grammar, the
   * two limits, and the lexeme of an Error token, which Advance reports as
   * its own message.
   */
  datatype Message =
    | ExpectedExpression | InvalidAssignmentTarget | ColonAfterThen | ParenAfterArguments
    | ParenAfterGroup | VariableName | SemicolonAfterVar | FunctionName
    | ParenAfterFunctionName | ParenAfterParameters | BraceBeforeBody | ParameterName
    | SemicolonAfterPrint | BraceAfterBlock | ParenAfterIf | ParenAfterIfCondition
    | ParenAfterSwitch | ParenAfterSwitchSubject | BraceBeforeSwitchBody | BraceAfterSwitchBody
    | ColonAfterCase | ColonAfterDefault | ParenAfterWhile | ParenAfterWhileCondition
    | ParenAfterFor | SemicolonAfterForCondition | ParenAfterForClauses | WhileAfterDo
    | SemicolonAfterDoWhile | SemicolonAfterBreak | SemicolonAfterContinue | SemicolonAfterReturn
    | SemicolonAfterExpression | ArgumentLimit | ParameterLimit
    | Lexeme(text: string)

  /** The text of a message, as the parser writes it. */
  function MessageText(m: Message): string
  {
    match m
    case ExpectedExpression => "Expected expression."
    case InvalidAssignmentTarget => "Invalid assignment target."
    case ColonAfterThen => "Expect ':' after truthy branch of conditional."
    case ParenAfterArguments => "Expect ')' after arguments."
    case ParenAfterGroup => "Expected ')' after previous expression."
    case VariableName => "Expected variable name."
    case SemicolonAfterVar => "Expect ';' after variable declaration."
    case FunctionName => "Expect function name."
    case ParenAfterFunctionName => "Expect '(' after function name."
    case ParenAfterParameters => "Expect ')' after parameters."
    case BraceBeforeBody => "Expect '{' before function body."
    case ParameterName => "Expect parameter name."
    case SemicolonAfterPrint => "Expect ';' after print expression."
    case BraceAfterBlock => "Expect '}' at end of block."
    case ParenAfterIf => "Expect '(' after 'if'."
    case ParenAfterIfCondition => "Expect ')' after 'if' condition."
    case ParenAfterSwitch => "Expect '(' after 'switch'."
    case ParenAfterSwitchSubject => "Expect ')' after 'switch' expression."
    case BraceBeforeSwitchBody => "Expect '{' at start of 'switch' body."
    case BraceAfterSwitchBody => "Expect '}' at end of 'switch' body."
    case ColonAfterCase => "Expect ':' after 'case' expression."
    case ColonAfterDefault => "Expect ':' after 'default'."
    case ParenAfterWhile => "Expect '(' after 'while'."
    case ParenAfterWhileCondition => "Expect ')' after 'while' condition."
    case ParenAfterFor => "Expect '(' after 'for'."
    case SemicolonAfterForCondition => "Expect ';' after 'for' condition."
    case ParenAfterForClauses => "Expect ')' after 'for' clauses."
    case WhileAfterDo => "Expect 'while' after 'do' body."
    case SemicolonAfterDoWhile => "Expect ';' after 'do-while' condition."
    case SemicolonAfterBreak => "Expect ';' after 'break'."
    case SemicolonAfterContinue => "Expect ';' after 'continue'."
    case SemicolonAfterReturn => "Expect ';' at end of 'return' statement."
    case SemicolonAfterExpression => "Expect ';' after previous expression."
    case ArgumentLimit => "Exceeded maximum of " + NatText(MaxArguments) + " arguments."
    case ParameterLimit => "Exceeded maximum of " + NatText(MaxParameters) + " parameters."
    case Lexeme(text) => text
  }

  /** A literal token as the scanner makes it: a number is a non-empty run of digits, a string keeps its quotes. */
  predicate LiteralWellFormed(t: Token)
  {
    && (t.kind == TokenKind.Number ==> |t.lexeme| > 0 && AllDigits(t.lexeme))
    && (t.kind == TokenKind.String ==> |t.lexeme| >= 2)
  }

  /** A token stream as the scanner yields it: exactly one Eof, at the end, and well-formed literals. */
  predicate WellFormed(tokens: seq<Token>)
  {
    && |tokens| > 0
    && tokens[|tokens| - 1].kind == Eof
    && (forall i :: 0 <= i < |tokens| - 1 ==> tokens[i].kind != Eof)
    && (forall i :: 0 <= i < |tokens| ==> LiteralWellFormed(tokens[i]))
  }

  /**
   * An exception that no rule of the parser catches: the FormatException of
   * double.Parse on a number literal's text, or the ArgumentOutOfRangeException
   * of slicing the quotes off a string literal's text.
   */
  datatype Escape = NumberFormat(text: string) | QuotesOutOfRange(text: string)

  datatype PState = PState(tokens: seq<Token>, pos: nat, prev: Option<Token>, errors: seq<string>, escaped: Option<Escape>)

  predicate ValidState(st: PState)
  {
    WellFormed(st.tokens) && st.pos < |st.tokens|
  }

  function Current(st: PState): Token
    requires ValidState(st)
  {
    st.tokens[st.pos]
  }

  function Remaining(st: PState): nat
    requires st.pos < |st.tokens|
  {
    |st.tokens| - st.pos
  }

  /** What every step of the parser keeps: the same stream, no going back, no error line taken back, a previous token kept. */
  predicate Later(st: PState, r: PState)
  {
    && r.tokens == st.tokens
    && st.pos <= r.pos < |r.tokens|
    && |st.errors| <= |r.errors|
    && (st.prev.Some? ==> r.prev.Some?)
  }

  /** A rule's result: the node and the state after it, or the state at the ParseException. */
  datatype Step<T> = Ok(value: T, st: PState) | Fail(st: PState)

  /** The rule result of a method that returns Some node, or None for a ParseException, in state st. */
  function Outcome<T>(r: Option<T>, st: PState): (step: Step<T>)
    ensures step.st == st && (step.Ok? <==> r.Some?)
    ensures r.Some? ==> step.value == r.value
  {
    if r.Some? then Ok(r.value, st) else Fail(st)
  }

  /** Later, and a success has consumed at least one token and so has a previous token. */
  predicate Progress<T>(st: PState, r: Step<T>)
  {
    Later(st, r.st) && (r.Ok? ==> r.st.pos > st.pos && r.st.prev.Some?)
  }

  // ---------------------------------------------------------------- errors

  /** Where an error is: nothing for an Error token, " at end" for Eof, the quoted lexeme otherwise. */
  function Location(t: Token): (s: string)
    ensures t.kind == Error ==> s == ""
    ensures t.kind == Eof ==> s == " at end"
    ensures t.kind !in {Error, Eof} ==> s == " at '" + t.lexeme + "'"
  {
    if t.kind == Error then ""
    else if t.kind == Eof then " at end"
    else " at '" + t.lexeme + "'"
  }

  /** The line the parser writes for an error at token t. */
  function ErrorLine(t: Token, message: Message): (s: string)
    ensures |s| > 6 && s[..6] == "[Line "
    ensures var tail := "] Error" + Location(t) + ": " + MessageText(message);
      |tail| <= |s| && s[|s| - |tail|..] == tail
  {
    var head := "[Line " + IntText(t.line) + ", Col " + IntText(t.column);
    var tail := "] Error" + Location(t) + ": " + MessageText(message);
    assert (head + tail)[..6] == head[..6] == "[Line ";
    assert (head + tail)[|head|..] == tail;
    head + tail
  }

  /** Error: one more line written, nothing else changed. */
  function Report(st: PState, t: Token, message: Message): (r: PState)
    ensures r.errors == st.errors + [ErrorLine(t, message)]
    ensures r.(errors := st.errors) == st
  {
    st.(errors := st.errors + [ErrorLine(t, message)])
  }

  /**
   * The check at the top of the argument and parameter loops: once count has
   * reached the maximum, an error is reported at the current token, without
   * throwing.
   */
  function CheckLimit(st: PState, count: nat, message: Message): (r: PState)
    requires ValidState(st)
    ensures ValidState(r) && Later(st, r) && r.pos == st.pos && r.prev == st.prev && r.escaped == st.escaped
    ensures count < MaxArguments ==> r == st
    ensures count >= MaxArguments ==> r.errors == st.errors + [ErrorLine(Current(st), message)]
  {
    if count >= MaxArguments then Report(st, Current(st), message) else st
  }

  // ------------------------------------------------------- token movement

  /** The scanner's next token: the following one, or Eof again once Eof is reached. */
  function NextPos(st: PState): (p: nat)
    requires ValidState(st)
    ensures p < |st.tokens|
    ensures Current(st).kind != Eof <==> p == st.pos + 1
    ensures Current(st).kind == Eof <==> p == st.pos
  {
    if Current(st).kind == Eof then st.pos else st.pos + 1
  }

  /** The kinds after which error recovery stops: ';' and '}'. */
  predicate EndsStatement(kind: TokenKind)
  {
    kind == SemiColon || kind == RightBrace
  }

  /** Where Synchronize stops: at Eof, after ';' or '}', or before a token that starts a statement. */
  predicate AtBoundary(st: PState)
    requires ValidState(st)
  {
    || Current(st).kind == Eof
    || (st.prev.Some? && EndsStatement(st.prev.value.kind))
    || Keywords.IsStatementStarter(Current(st).kind)
  }

  /**
   * Synchronize: skip tokens until the previous one ends a statement (';' or
   * '}'), the current one starts a statement, or Eof. Skipped tokens are not
   * checked for errors.
   */
  function Synchronize(st: PState): (r: PState)
    requires ValidState(st)
    ensures Later(st, r) && r.errors == st.errors
    ensures AtBoundary(r)
    decreases Remaining(st)
  {
    if AtBoundary(st) then st
    else
      var next := st.(prev := Some(Current(st)), pos := st.pos + 1);
      assert st.pos != |st.tokens| - 1;
      Synchronize(next)
  }

  /** Whether Synchronize stops at position p of the stream, arriving there from the token before it. */
  predicate BoundaryAt(tokens: seq<Token>, p: nat)
    requires 0 < p < |tokens|
  {
    tokens[p].kind == Eof || EndsStatement(tokens[p - 1].kind) || Keywords.IsStatementStarter(tokens[p].kind)
  }

  /** The first position from p on at which Synchronize would stop; the Eof at the end is one. */
  function FirstBoundary(tokens: seq<Token>, p: nat): (b: nat)
    requires WellFormed(tokens) && 0 < p < |tokens|
    ensures p <= b < |tokens| && BoundaryAt(tokens, b)
    ensures forall q :: p <= q < b ==> !BoundaryAt(tokens, q)
    decreases |tokens| - p
  {
    if BoundaryAt(tokens, p) then p else FirstBoundary(tokens, p + 1)
  }

  /**
   * Synchronize stops at the first boundary: it stays where it is at a
   * boundary, and otherwise it moves to the first later position that is
   * one, with the token before it as the previous one.
   */
  lemma SynchronizeStopsFirst(st: PState)
    requires ValidState(st)
    ensures AtBoundary(st) ==> Synchronize(st) == st
    ensures !AtBoundary(st) ==> st.pos + 1 < |st.tokens| && Synchronize(st).pos == FirstBoundary(st.tokens, st.pos + 1)
    ensures !AtBoundary(st) ==> Synchronize(st).prev == Some(st.tokens[Synchronize(st).pos - 1])
  {
    if AtBoundary(st) {
      SynchronizeAtBoundary(st);
    } else {
      SynchronizeMovesOn(st);
    }
  }

  /** SynchronizeStopsFirst off a boundary, by its two halves. */
  lemma SynchronizeMovesOn(st: PState)
    requires ValidState(st) && !AtBoundary(st)
    ensures st.pos + 1 < |st.tokens| && Synchronize(st).pos == FirstBoundary(st.tokens, st.pos + 1)
    ensures Synchronize(st).prev == Some(st.tokens[Synchronize(st).pos - 1])
  {
    SynchronizeReachesFirst(st);
    SynchronizeKeepsPrevious(st);
  }

  /** Off a boundary Synchronize ends at the first later boundary, by induction on the tokens left. */
  lemma {:induction false} SynchronizeReachesFirst(st: PState)
    requires ValidState(st) && !AtBoundary(st)
    ensures st.pos + 1 < |st.tokens| && Synchronize(st).pos == FirstBoundary(st.tokens, st.pos + 1)
    decreases Remaining(st)
  {
    var next := SynchronizeStep(st);
    if AtBoundary(next) {
      SynchronizeAtBoundary(next);
    } else {
      SynchronizeReachesFirst(next);
    }
  }

  /** Off a boundary Synchronize moves, and the token before where it ends is its previous one. */
  lemma {:induction false} SynchronizeKeepsPrevious(st: PState)
    requires ValidState(st) && !AtBoundary(st)
    ensures Synchronize(st).pos > st.pos && PreviousIsBefore(Synchronize(st))
    decreases Remaining(st)
  {
    var next := SynchronizeStep(st);
    if AtBoundary(next) {
      SynchronizeAtBoundary(next);
    } else {
      SynchronizeKeepsPrevious(next);
    }
  }

  /** The previous token of st is the one just before its position. */
  predicate PreviousIsBefore(st: PState)
  {
    0 < st.pos <= |st.tokens| && st.prev == Some(st.tokens[st.pos - 1])
  }

  /** At a boundary Synchronize stays where it is. */
  lemma SynchronizeAtBoundary(st: PState)
    requires ValidState(st) && AtBoundary(st)
    ensures Synchronize(st) == st
  {
  }

  /** Off a boundary Synchronize is the same from the next position, with the current token as the previous one. */
  lemma SynchronizeStep(st: PState) returns (next: PState)
    requires ValidState(st) && !AtBoundary(st)
    ensures ValidState(next) && next.tokens == st.tokens && next.pos == st.pos + 1 && PreviousIsBefore(next)
    ensures Synchronize(next) == Synchronize(st)
    ensures st.pos + 1 < |st.tokens| && (AtBoundary(next) <==> BoundaryAt(st.tokens, st.pos + 1))
  {
    next := st.(prev := Some(Current(st)), pos := st.pos + 1);
  }

  /** Synchronize only moves along the stream: the exception on its way out, if any, stays as it was. */
  lemma {:induction false} SynchronizeKeepsEscaped(st: PState)
    requires ValidState(st)
    ensures Synchronize(st).escaped == st.escaped
    decreases Remaining(st)
  {
    if !AtBoundary(st) {
      SynchronizeKeepsEscaped(st.(prev := Some(Current(st)), pos := st.pos + 1));
    }
  }

  /**
   * Advance: the current token becomes the previous one and the next token
   * becomes current; an Error token is reported with its lexeme as the
   * message and then synchronized past.
   */
  function Advance(st: PState): (r: PState)
    requires ValidState(st)
    ensures Later(st, r) && r.prev.Some?
    ensures Current(st).kind != Eof ==> r.pos > st.pos
  {
    var moved := st.(prev := Some(Current(st)), pos := NextPos(st));
    if Current(moved).kind == Error then
      Synchronize(Report(moved, Current(moved), Lexeme(Current(moved).lexeme)))
    else moved
  }

  /**
   * The state after the constructor: the first token is current and there is
   * no previous token; a first Error token is reported and synchronized past.
   */
  function Start(tokens: seq<Token>): (st: PState)
    requires WellFormed(tokens)
    ensures ValidState(st) && st.tokens == tokens && st.escaped.None?
  {
    var st0 := PState(tokens, 0, None, [], None);
    if tokens[0].kind == Error then
      var reported := Report(st0, tokens[0], Lexeme(tokens[0].lexeme));
      SynchronizeKeepsEscaped(reported);
      Synchronize(reported)
    else st0
  }

  /** Consume: the current token, advancing, when it has the expected kind; otherwise the error, without advancing. */
  function Consume(st: PState, kind: TokenKind, message: Message): (r: Step<Token>)
    requires ValidState(st) && kind != Eof
    ensures Progress(st, r)
    ensures r.Ok? <==> Current(st).kind == kind
    ensures r.Ok? ==> r.value == Current(st) && r.st == Advance(st)
    ensures r.Fail? ==> r.st.pos == st.pos && r.st.prev == st.prev && r.st.errors == st.errors + [ErrorLine(Current(st), message)]
  {
    if Current(st).kind == kind then Ok(Current(st), Advance(st))
    else Fail(Report(st, Current(st), message))
  }

  // ------------------------------------------------------------ expressions

  /** The levels of left-associative binary operators, loosest first. */
  datatype Level = CommaLevel | OrLevel | AndLevel | EqualityLevel | ComparisonLevel | TermLevel | FactorLevel

  function Operators(level: Level): (kinds: set<TokenKind>)
    ensures Eof !in kinds
  {
    match level
    case CommaLevel => {Comma}
    case OrLevel => {Or}
    case AndLevel => {And}
    case EqualityLevel => {EqualEqual, BangEqual}
    case ComparisonLevel => {Less, LessEqual, Greater, GreaterEqual}
    case TermLevel => {Plus, Minus, Percent}
    case FactorLevel => {Star, Slash}
  }

  /** The level whose operands a level's operands are made of, for all but the comma and factor levels. */
  function Tighter(level: Level): Level
    requires level !in {CommaLevel, FactorLevel}
  {
    match level
    case OrLevel => AndLevel
    case AndLevel => EqualityLevel
    case EqualityLevel => ComparisonLevel
    case ComparisonLevel => TermLevel
    case TermLevel => FactorLevel
  }

  /**
   * The second component of the termination measure of the operand rule of a
   * level; a rule that calls another without consuming a token has the higher
   * rank.
   */
  function OperandRank(level: Level): nat
  {
    match level
    case FactorLevel => 5
    case TermLevel => 7
    case ComparisonLevel => 9
    case EqualityLevel => 11
    case AndLevel => 13
    case OrLevel => 15
    case CommaLevel => 19
  }

  function Expression(st: PState): (r: Step<Expr>)
    requires ValidState(st)
    ensures Progress(st, r)
    decreases Remaining(st), 21
  {
    Binary(CommaLevel, st)
  }

  /** LeftAssociativeBinaryOperator: one operand, then the operators of the level with their right operands. */
  function Binary(level: Level, st: PState): (r: Step<Expr>)
    requires ValidState(st)
    ensures Progress(st, r)
    decreases Remaining(st), OperandRank(level) + 1
  {
    match Operand(level, st)
    case Fail(s) => Fail(s)
    case Ok(left, s) => BinaryTail(level, left, s)
  }

  /** The loop of LeftAssociativeBinaryOperator with the expression built so far. */
  function BinaryTail(level: Level, left: Expr, st: PState): (r: Step<Expr>)
    requires ValidState(st)
    ensures Later(st, r.st)
    decreases Remaining(st), OperandRank(level)
  {
    if Current(st).kind in Operators(level) then
      var s1 := Advance(st);
      match Operand(level, s1)
      case Fail(s) => Fail(s)
      case Ok(right, s) => BinaryTail(level, BinaryExpr(left, s1.prev.value, right), s)
    else Ok(left, st)
  }

  /** The rule a level passes to LeftAssociativeBinaryOperator. */
  function Operand(level: Level, st: PState): (r: Step<Expr>)
    requires ValidState(st)
    ensures Progress(st, r)
    decreases Remaining(st), OperandRank(level)
  {
    match level
    case CommaLevel => Assignment(st)
    case FactorLevel => Unary(st)
    case _ => Binary(Tighter(level), st)
  }

  /** Assignment: a conditional, and when '=' follows, the value (itself an assignment) stored into it if it is a variable. */
  function Assignment(st: PState): (r: Step<Expr>)
    requires ValidState(st)
    ensures Progress(st, r)
    decreases Remaining(st), 18
  {
    match Conditional(st)
    case Fail(s) => Fail(s)
    case Ok(target, s1) =>
      if Current(s1).kind != Equal then Ok(target, s1)
      else
        var at := s1.prev.value;
        match Assignment(Advance(s1))
        case Fail(s) => Fail(s)
        case Ok(value, s2) =>
          if target.VarExpr? then Ok(AssignExpr(target.id, target.name, value), s2)
          else Fail(Report(s2, at, InvalidAssignmentTarget))
  }

  /** Conditional: a logical or, and when '?' follows, the then-expression, ':' and the else-conditional. */
  function Conditional(st: PState): (r: Step<Expr>)
    requires ValidState(st)
    ensures Progress(st, r)
    decreases Remaining(st), 17
  {
    match Binary(OrLevel, st)
    case Fail(s) => Fail(s)
    case Ok(condition, s1) =>
      if Current(s1).kind != Question then Ok(condition, s1)
      else
        match Expression(Advance(s1))
        case Fail(s) => Fail(s)
        case Ok(thenExpr, s2) =>
          match Consume(s2, Colon, ColonAfterThen)
          case Fail(s) => Fail(s)
          case Ok(_, s3) =>
            match Conditional(s3)
            case Fail(s) => Fail(s)
            case Ok(elseExpr, s4) => Ok(ConditionalExpr(condition, thenExpr, elseExpr), s4)
  }

  /** Unary: '-' or '!' applied to a unary, or a call. */
  function Unary(st: PState): (r: Step<Expr>)
    requires ValidState(st)
    ensures Progress(st, r)
    decreases Remaining(st), 4
  {
    if Current(st).kind == Minus || Current(st).kind == Bang then
      var s1 := Advance(st);
      match Unary(s1)
      case Fail(s) => Fail(s)
      case Ok(operand, s) => Ok(UnaryExpr(s1.prev.value, operand), s)
    else Call(st)
  }

  /** Call: a primary followed by any number of argument lists. */
  function Call(st: PState): (r: Step<Expr>)
    requires ValidState(st)
    ensures Progress(st, r)
    decreases Remaining(st), 3
  {
    match Primary(st)
    case Fail(s) => Fail(s)
    case Ok(callee, s) => CallTail(callee, s)
  }

  /** The loop of Call with the callee built so far. */
  function CallTail(callee: Expr, st: PState): (r: Step<Expr>)
    requires ValidState(st)
    ensures Later(st, r.st)
    decreases Remaining(st), 2
  {
    if Current(st).kind == LeftParen then
      match FinishCall(callee, Advance(st))
      case Fail(s) => Fail(s)
      case Ok(call, s) => CallTail(call, s)
    else Ok(callee, st)
  }

  /** FinishCall, after '(': an empty argument list, or the arguments and their closing ')'. */
  function FinishCall(callee: Expr, st: PState): (r: Step<Expr>)
    requires ValidState(st)
    ensures Progress(st, r)
    ensures r.Ok? ==> r.value.CallExpr? && r.value.callee == callee
    decreases Remaining(st), 20
  {
    if Current(st).kind == RightParen then
      var s := Advance(st);
      Ok(CallExpr(callee, s.prev.value, []), s)
    else Arguments(callee, [], st)
  }

  /** The do-while loop of FinishCall with the arguments parsed so far; too many arguments are reported without throwing. */
  function Arguments(callee: Expr, args: seq<Expr>, st: PState): (r: Step<Expr>)
    requires ValidState(st)
    ensures Progress(st, r)
    ensures r.Ok? ==> r.value.CallExpr? && r.value.callee == callee
    decreases Remaining(st), 19
  {
    var s0 := CheckLimit(st, |args|, ArgumentLimit);
    match Assignment(s0)
    case Fail(s) => Fail(s)
    case Ok(arg, s1) =>
      if Current(s1).kind == Comma then Arguments(callee, args + [arg], Advance(s1))
      else
        match Consume(s1, RightParen, ParenAfterArguments)
        case Fail(s) => Fail(s)
        case Ok(paren, s2) => Ok(CallExpr(callee, paren, args + [arg]), s2)
  }

  /** The kinds of the tokens that are literals on their own. */
  predicate IsLiteralKind(kind: TokenKind)
  {
    kind == TokenKind.Number || kind == TokenKind.String || kind == False || kind == True || kind == Nil
  }

  /** The value of a literal token: a number's digits, a string without its quotes, false, true or nil. */
  function LiteralValue(t: Token): (v: Value)
    requires LiteralWellFormed(t) && IsLiteralKind(t.kind)
    ensures t.kind == TokenKind.Number ==> v == NumberValue(DigitsValue(t.lexeme) as real)
    ensures t.kind == TokenKind.String ==> v == StringValue(t.lexeme[1..|t.lexeme| - 1])
    ensures t.kind == False ==> LiteralExpr(v) == FalseLiteral
    ensures t.kind == True ==> LiteralExpr(v) == TrueLiteral
    ensures t.kind == Nil ==> LiteralExpr(v) == NilLiteral
  {
    match t.kind
    case Number => NumberValue(DigitsValue(t.lexeme) as real)
    case String => StringValue(t.lexeme[1..|t.lexeme| - 1])
    case False => BoolValue(false)
    case True => BoolValue(true)
    case Nil => NilValue
  }

  /**
   * double.Parse on a lexeme, as far as this model knows it: the value of a
   * run of digits; any other text is a FormatException.
   */
  function ParseNumber(lexeme: string): (r: Result<real, Escape>)
    ensures r.Success? <==> |lexeme| > 0 && AllDigits(lexeme)
    ensures r.Success? ==> r.value == DigitsValue(lexeme) as real
    ensures r.Failure? ==> r.error == NumberFormat(lexeme)
  {
    if |lexeme| > 0 && AllDigits(lexeme) then Success(DigitsValue(lexeme) as real) else Failure(NumberFormat(lexeme))
  }

  /**
   * The value Primary builds for a literal of the given kind once it has
   * matched it, read from the previous token as the parser does: a number
   * parsed from its text, a string with its first and last characters cut
   * off (which throws when there are fewer than two), or a constant.
   */
  function LiteralFrom(kind: TokenKind, prev: Token): (r: Result<Value, Escape>)
    requires IsLiteralKind(kind)
    ensures prev.kind == kind && LiteralWellFormed(prev) ==> r == Success(LiteralValue(prev))
    ensures kind == TokenKind.Number ==> (r.Success? <==> |prev.lexeme| > 0 && AllDigits(prev.lexeme))
    ensures kind == TokenKind.Number && r.Success? ==> r.value == NumberValue(DigitsValue(prev.lexeme) as real)
    ensures kind == TokenKind.Number && r.Failure? ==> r.error == NumberFormat(prev.lexeme)
    ensures kind == TokenKind.String ==> (r.Success? <==> |prev.lexeme| >= 2)
    ensures kind == TokenKind.String && r.Success? ==> r.value == StringValue(prev.lexeme[1..|prev.lexeme| - 1])
    ensures kind == TokenKind.String && r.Failure? ==> r.error == QuotesOutOfRange(prev.lexeme)
    ensures kind == False ==> r == Success(BoolValue(false))
    ensures kind == True ==> r == Success(BoolValue(true))
    ensures kind == Nil ==> r == Success(NilValue)
  {
    match kind
    case Number =>
      (match ParseNumber(prev.lexeme) case Success(x) => Success(NumberValue(x)) case Failure(e) => Failure(e))
    case String =>
      if |prev.lexeme| >= 2 then Success(StringValue(prev.lexeme[1..|prev.lexeme| - 1])) else Failure(QuotesOutOfRange(prev.lexeme))
    case False => Success(BoolValue(false))
    case True => Success(BoolValue(true))
    case Nil => Success(NilValue)
  }

  /**
   * A literal, once Primary has matched it: its value is read from the
   * previous token after Advance, which is the literal itself unless an Error
   * token followed it and Synchronize moved on. A text that does not parse
   * throws an exception that nothing in the parser catches.
   */
  function Literal(st: PState): (r: Step<Expr>)
    requires ValidState(st) && IsLiteralKind(Current(st).kind)
    ensures Progress(st, r)
    ensures var s := Advance(st); r.st.tokens == s.tokens && r.st.pos == s.pos && r.st.prev == s.prev && r.st.errors == s.errors
    ensures var s := Advance(st); var v := LiteralFrom(Current(st).kind, s.prev.value);
      && (r.Ok? <==> v.Success?)
      && (r.Ok? ==> r.value == LiteralExpr(v.value) && r.st == s)
      && (r.Fail? ==> r.st.escaped == Some(v.error))
  {
    var s := Advance(st);
    match LiteralFrom(Current(st).kind, s.prev.value)
    case Success(v) => Ok(LiteralExpr(v), s)
    case Failure(e) => Fail(s.(escaped := Some(e)))
  }

  /** Primary: a literal, a parenthesised expression or a variable; anything else is "Expected expression." at the current token. */
  function Primary(st: PState): (r: Step<Expr>)
    requires ValidState(st)
    ensures Progress(st, r)
    decreases Remaining(st), 1
  {
    var t := Current(st);
    if IsLiteralKind(t.kind) then Literal(st)
    else if t.kind == LeftParen then Grouping(Advance(st))
    else if t.kind == Identifier then
      var s := Advance(st);
      Ok(VarExpr(st.pos, s.prev.value), s)
    else Fail(Report(st, t, ExpectedExpression))
  }

  /** Grouping, after '(': an expression and its ')'. */
  function Grouping(st: PState): (r: Step<Expr>)
    requires ValidState(st)
    ensures Progress(st, r)
    ensures r.Ok? ==> r.value.GroupExpr?
    decreases Remaining(st), 22
  {
    match Expression(st)
    case Fail(s) => Fail(s)
    case Ok(inner, s1) =>
      match Consume(s1, RightParen, ParenAfterGroup)
      case Fail(s) => Fail(s)
      case Ok(_, s2) => Ok(GroupExpr(inner), s2)
  }
}
