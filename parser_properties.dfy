/**
 * Properties of the parser model: how the precedence ladder fails and passes
 * single operands through, how binary chains and conditionals nest, the
 * error line format, and the non-termination of the recovery loop as the
 * source writes it next to the recovery the model uses instead.
 */
module ParserProperties {
  import opened Wrappers
  import opened Tokens
  import opened Ast
  import opened Text
  import opened ParseRules
  import opened ParseStatements

  // ------------------------------------------------------- failing at once

  /** A token no rule of the expression ladder can start with. */
  predicate StartsNoExpression(kind: TokenKind)
  {
    !IsLiteralKind(kind) && kind != LeftParen && kind != Identifier && kind != Minus && kind != Bang
  }

  /** The error every rule of the ladder ends in at such a token: "Expected expression." there, nothing consumed. */
  function Rejected(st: PState): PState
    requires ValidState(st)
  {
    Report(st, Current(st), ExpectedExpression)
  }

  /** At a token that starts no expression, the operand rule and the binary rule of every level fail without moving. */
  lemma {:induction false} OperandRejects(level: Level, st: PState)
    requires ValidState(st) && StartsNoExpression(Current(st).kind)
    ensures Operand(level, st) == Fail(Rejected(st))
    ensures Binary(level, st) == Fail(Rejected(st))
    decreases OperandRank(level)
  {
    match level
    case CommaLevel =>
      AssignmentRejects(st);
      FailsUp(level, st, Rejected(st));
    case FactorLevel =>
      FactorRejects(st);
      FailsUp(level, st, Rejected(st));
    case _ =>
      OperandRejects(Tighter(level), st);
      FailsUp(level, st, Rejected(st));
  }

  /**
   * A level fails as its operand does: the operand of the comma level is an
   * assignment, that of the factor level a unary, and that of every other
   * level the next tighter level.
   */
  lemma FailsUp(level: Level, st: PState, failed: PState)
    requires ValidState(st)
    requires level == CommaLevel ==> Assignment(st) == Fail(failed)
    requires level == FactorLevel ==> Unary(st) == Fail(failed)
    requires level != CommaLevel && level != FactorLevel ==> Binary(Tighter(level), st) == Fail(failed)
    ensures Operand(level, st) == Fail(failed) && Binary(level, st) == Fail(failed)
  {
  }

  /** The factor level's operand, a unary, fails without moving at a token that starts no expression. */
  lemma FactorRejects(st: PState)
    requires ValidState(st) && StartsNoExpression(Current(st).kind)
    ensures Operand(FactorLevel, st) == Fail(Rejected(st))
  {
    var r := Fail(Rejected(st));
    assert Primary(st) == r;
    assert Call(st) == r;
    assert Unary(st) == r;
  }

  /** At a token that starts no expression, Assignment and Conditional fail without moving. */
  lemma {:induction false} AssignmentRejects(st: PState)
    requires ValidState(st) && StartsNoExpression(Current(st).kind)
    ensures Conditional(st) == Fail(Rejected(st))
    ensures Assignment(st) == Fail(Rejected(st))
    decreases 16
  {
    OperandRejects(OrLevel, st);
    assert Conditional(st) == Fail(Rejected(st));
  }

  /** Expression fails with "Expected expression." at the current token exactly when that token starts no expression. */
  lemma ExpressionRejects(st: PState)
    requires ValidState(st)
    ensures StartsNoExpression(Current(st).kind) <==> Expression(st) == Fail(Rejected(st))
  {
    if StartsNoExpression(Current(st).kind) {
      OperandRejects(CommaLevel, st);
      assert Expression(st) == Binary(CommaLevel, st);
    } else {
      ExpressionConsumesStart(st);
    }
  }

  /** Whatever becomes of an expression whose first token can start one, that token has been consumed. */
  lemma ExpressionConsumesStart(st: PState)
    requires ValidState(st) && !StartsNoExpression(Current(st).kind)
    ensures Expression(st).st.pos > st.pos
  {
    OperandConsumesStart(CommaLevel, st);
    assert Expression(st) == Binary(CommaLevel, st);
  }

  /** The operand of every level consumes a token that can start an expression before it can fail. */
  lemma {:induction false} OperandConsumesStart(level: Level, st: PState)
    requires ValidState(st) && !StartsNoExpression(Current(st).kind)
    ensures Operand(level, st).st.pos > st.pos && Binary(level, st).st.pos > st.pos
    decreases OperandRank(level)
  {
    match level
    case CommaLevel =>
      AssignmentConsumesStart(st);
      assert Operand(level, st) == Assignment(st);
    case FactorLevel =>
      UnaryConsumesStart(st);
      assert Operand(level, st) == Unary(st);
    case _ =>
      OperandConsumesStart(Tighter(level), st);
      assert Operand(level, st) == Binary(Tighter(level), st);
  }

  /** Assignment consumes its first token before it can fail. */
  lemma {:induction false} AssignmentConsumesStart(st: PState)
    requires ValidState(st) && !StartsNoExpression(Current(st).kind)
    ensures Assignment(st).st.pos > st.pos
    decreases 16
  {
    OperandConsumesStart(OrLevel, st);
    ConditionalKeepsMove(st);
    AssignmentKeepsMove(st);
  }

  /** Assignment ends no earlier than its conditional operand. */
  lemma AssignmentKeepsMove(st: PState)
    requires ValidState(st)
    ensures Assignment(st).st.pos >= Conditional(st).st.pos
  {
    var c := Conditional(st);
    if c.Ok? && Current(c.st).kind == Equal {
      assert Assignment(Advance(c.st)).st.pos >= c.st.pos;
    }
  }

  /** Conditional ends no earlier than its logical-or operand. */
  lemma ConditionalKeepsMove(st: PState)
    requires ValidState(st)
    ensures Conditional(st).st.pos >= Binary(OrLevel, st).st.pos
  {
    var b := Binary(OrLevel, st);
    if b.Ok? && Current(b.st).kind == Question {
      assert Expression(Advance(b.st)).st.pos >= b.st.pos;
    }
  }

  /** Unary consumes its first token before it can fail. */
  lemma UnaryConsumesStart(st: PState)
    requires ValidState(st) && !StartsNoExpression(Current(st).kind)
    ensures Unary(st).st.pos > st.pos
  {
    var t := Current(st);
    assert t.kind != Eof;
    var s1 := Advance(st);
    if t.kind == Minus || t.kind == Bang {
      assert Unary(st).st.pos >= Unary(s1).st.pos;
    } else {
      assert Primary(st).st.pos >= s1.pos;
      assert Call(st).st.pos >= Primary(st).st.pos;
    }
  }

  /** The statement keywords Declaration and Statement dispatch on. */
  predicate StartsStatement(kind: TokenKind)
  {
    kind == Var || kind == Function || kind == Print || kind == LeftBrace || kind == If || kind == Switch
    || kind == While || kind == For || kind == Do || kind == Break || kind == Continue || kind == Return
  }

  /** A declaration at a token that starts no statement is an expression statement. */
  lemma ExpressionDeclaration(st: PState)
    requires ValidState(st) && !StartsStatement(Current(st).kind)
    ensures Declaration(st) == ExpressionStatement(st)
  {
    assert StatementFromFor(st) == ExpressionStatement(st);
    assert Statement(st) == ExpressionStatement(st);
  }

  /** A declaration at a token that starts neither a statement nor an expression fails without moving. */
  lemma DeclarationRejects(st: PState)
    requires ValidState(st) && StartsNoExpression(Current(st).kind) && !StartsStatement(Current(st).kind)
    ensures Declaration(st) == Fail(Rejected(st))
  {
    ExpressionDeclaration(st);
    ExpressionRejects(st);
  }

  // ----------------------------------------------- passing an operand up

  /** The kinds a primary consisting of one token starts with: a literal or a variable. */
  predicate IsAtom(kind: TokenKind)
  {
    IsLiteralKind(kind) || kind == Identifier
  }

  /** The expression a one-token primary builds. */
  function Atom(st: PState): Expr
    requires ValidState(st) && IsAtom(Current(st).kind)
  {
    var t := Current(st);
    assert LiteralWellFormed(st.tokens[st.pos]);
    if IsLiteralKind(t.kind) then LiteralExpr(LiteralValue(t)) else VarExpr(st.pos, t)
  }

  /** A token after which a binary level, or a call, continues its operand: '(' or a binary operator. */
  predicate Continues(kind: TokenKind)
  {
    || kind == LeftParen || kind == Comma || kind == Or || kind == And || kind == EqualEqual || kind == BangEqual
    || kind == Less || kind == LessEqual || kind == Greater || kind == GreaterEqual
    || kind == Plus || kind == Minus || kind == Percent || kind == Star || kind == Slash
  }

  /** Continues lists '(' and exactly the operators of the binary levels. */
  lemma ContinuesExactly(kind: TokenKind)
    ensures Continues(kind) <==> kind == LeftParen || exists level: Level :: kind in Operators(level)
  {
    if Continues(kind) && kind != LeftParen {
      var level :=
        if kind == Comma then CommaLevel
        else if kind == Or then OrLevel
        else if kind == And then AndLevel
        else if kind == EqualEqual || kind == BangEqual then EqualityLevel
        else if kind == Plus || kind == Minus || kind == Percent then TermLevel
        else if kind == Star || kind == Slash then FactorLevel
        else ComparisonLevel;
      assert kind in Operators(level);
    }
  }

  /** The token after the current one. */
  function Next(st: PState): Token
    requires ValidState(st) && Current(st).kind != Eof
  {
    st.tokens[st.pos + 1]
  }

  /** A token after a one-token primary that ends the factor level there: no Error token, no call and no factor operator. */
  predicate EndsFactor(kind: TokenKind)
  {
    kind != Error && kind != LeftParen && kind != Star && kind != Slash
  }

  /** A one-token primary followed by a token that ends the factor level is the whole operand of that level. */
  lemma AtomFactor(st: PState)
    requires ValidState(st) && IsAtom(Current(st).kind) && EndsFactor(Next(st).kind)
    ensures Binary(FactorLevel, st) == Ok(Atom(st), Advance(st))
  {
    assert LiteralWellFormed(st.tokens[st.pos]);
    var s := Advance(st);
    assert s == st.(prev := Some(Current(st)), pos := st.pos + 1);
    assert Current(s).kind !in Operators(FactorLevel);
    var r := Ok(Atom(st), s);
    assert Primary(st) == r;
    assert CallTail(Atom(st), s) == r;
    assert Call(st) == r;
    assert Unary(st) == r;
    assert Operand(FactorLevel, st) == r;
    assert BinaryTail(FactorLevel, Atom(st), s) == r;
  }

  /**
   * A result of a tighter level is the result of a looser one when the token
   * after it is an operator of no level in between.
   */
  lemma {:induction false} BinaryLifts(base: Level, level: Level, st: PState)
    requires ValidState(st) && base != CommaLevel && level != CommaLevel
    requires OperandRank(base) <= OperandRank(level) && Binary(base, st).Ok?
    requires forall l :: OperandRank(base) < OperandRank(l) <= OperandRank(level) ==> Current(Binary(base, st).st).kind !in Operators(l)
    ensures Binary(level, st) == Binary(base, st)
    decreases OperandRank(level)
  {
    if level != base {
      BinaryLifts(base, Tighter(level), st);
      BinaryLiftStep(level, st, Binary(base, st));
    }
  }

  /** A result of the next tighter level is the result of this one when no operator of this level follows. */
  lemma BinaryLiftStep(level: Level, st: PState, r: Step<Expr>)
    requires ValidState(st) && level != CommaLevel && level != FactorLevel
    requires Binary(Tighter(level), st) == r && r.Ok? && Current(r.st).kind !in Operators(level)
    ensures Binary(level, st) == r
  {
    assert Operand(level, st) == r;
    assert BinaryTail(level, r.value, r.st) == r;
  }

  /** An or-level result not followed by '?', '=' or ',' is the whole expression. */
  lemma ExpressionOfOr(st: PState)
    requires ValidState(st) && Binary(OrLevel, st).Ok?
    requires var k := Current(Binary(OrLevel, st).st).kind; k != Question && k != Equal && k != Comma
    ensures Expression(st) == Binary(OrLevel, st)
  {
    var r := Binary(OrLevel, st);
    assert Conditional(st) == r;
    ExpressionOfConditional(st);
  }

  /** A conditional not followed by '=' or ',' is the whole expression. */
  lemma ExpressionOfConditional(st: PState)
    requires ValidState(st) && Conditional(st).Ok?
    requires var k := Current(Conditional(st).st).kind; k != Equal && k != Comma
    ensures Expression(st) == Conditional(st)
  {
    var r := Conditional(st);
    assert Assignment(st) == r;
    assert Operand(CommaLevel, st) == r;
    assert BinaryTail(CommaLevel, r.value, r.st) == r;
    assert Binary(CommaLevel, st) == r;
  }

  /** A one-token operand followed by a token that is no Error token and continues nothing is the or-level result. */
  lemma AtomOr(st: PState)
    requires ValidState(st) && IsAtom(Current(st).kind) && Next(st).kind != Error && !Continues(Next(st).kind)
    ensures Binary(OrLevel, st) == Ok(Atom(st), Advance(st))
  {
    AtomFactor(st);
    ContinuesExactly(Next(st).kind);
    assert Current(Binary(FactorLevel, st).st) == Next(st);
    BinaryLifts(FactorLevel, OrLevel, st);
  }

  /** A one-token operand followed by a token that is no Error token, continues nothing, and is not '?' or '=', is the whole expression. */
  lemma AtomExpression(st: PState)
    requires ValidState(st) && IsAtom(Current(st).kind) && Next(st).kind != Error
    requires !Continues(Next(st).kind) && Next(st).kind != Question && Next(st).kind != Equal
    ensures Expression(st) == Ok(Atom(st), Advance(st))
  {
    AtomOr(st);
    assert Advance(st).pos == st.pos + 1;
    ExpressionOfOr(st);
  }

  // ------------------------------------------------------- associativity

  /** The state one plain step on: the current token becomes the previous one. */
  function Moved(st: PState): (r: PState)
    requires ValidState(st) && Current(st).kind != Eof
    ensures ValidState(r) && r.pos == st.pos + 1
  {
    st.(prev := Some(Current(st)), pos := st.pos + 1)
  }

  /**
   * One pass of the loop of the term level, at an operator followed by a
   * one-token operand: the expression built so far becomes the left operand,
   * so a chain of operators nests to the left.
   */
  lemma TermTailStep(left: Expr, st: PState)
    requires ValidState(st) && Current(st).kind in Operators(TermLevel) && IsAtom(Next(st).kind)
    requires EndsFactor(st.tokens[st.pos + 2].kind)
    ensures BinaryTail(TermLevel, left, st)
         == BinaryTail(TermLevel, BinaryExpr(left, Current(st), Atom(Moved(st))), Moved(Moved(st)))
  {
    var s1 := Moved(st);
    AdvancePlain(st);
    AtomFactor(s1);
    AdvancePlain(s1);
    assert Operand(TermLevel, s1) == Ok(Atom(s1), Moved(s1));
  }

  /** The first operand of the term level, a one-token operand before an operator of that level, with the loop still to run. */
  lemma TermFirstOperand(st: PState)
    requires ValidState(st) && IsAtom(Current(st).kind) && Next(st).kind in Operators(TermLevel)
    ensures Binary(TermLevel, st) == BinaryTail(TermLevel, Atom(st), Moved(st))
  {
    AdvancePlain(st);
    AtomFactor(st);
    assert Operand(TermLevel, st) == Ok(Atom(st), Moved(st));
  }

  /** The loop of a level stops, with the expression built so far, at a token that is no operator of the level. */
  lemma TailEnds(level: Level, left: Expr, st: PState)
    requires ValidState(st) && Current(st).kind !in Operators(level)
    ensures BinaryTail(level, left, st) == Ok(left, st)
  {
  }

  /** e is left, or a binary expression whose left operand, followed down, reaches left. */
  predicate LeftSpine(e: Expr, left: Expr)
  {
    e == left || (e.BinaryExpr? && LeftSpine(e.left, left))
  }

  /** The loop of a level only ever builds on top of the expression it starts with: that expression stays at the bottom of the left operands. */
  lemma {:induction false} TailKeepsLeft(level: Level, left: Expr, st: PState)
    requires ValidState(st) && BinaryTail(level, left, st).Ok?
    ensures LeftSpine(BinaryTail(level, left, st).value, left)
    ensures Current(st).kind in Operators(level) ==> BinaryTail(level, left, st).value.BinaryExpr?
    decreases Remaining(st)
  {
    if Current(st).kind in Operators(level) {
      var s1 := Advance(st);
      var right := Operand(level, s1);
      var joined := BinaryExpr(left, s1.prev.value, right.value);
      TailKeepsLeft(level, joined, right.st);
      SpineExtends(BinaryTail(level, joined, right.st).value, joined, left);
    }
  }

  /** A left spine down to a binary expression goes on down to that expression's left operand. */
  lemma {:induction false} SpineExtends(e: Expr, joined: Expr, left: Expr)
    requires joined.BinaryExpr? && joined.left == left && LeftSpine(e, joined)
    ensures LeftSpine(e, left)
  {
    if e != joined {
      SpineExtends(e.left, joined, left);
    }
  }

  /**
   * Left associativity, for operands of any length: when an operator of the
   * level follows the first operand, the first two operands are joined
   * first, and whatever the rest of the chain builds is built on top of that.
   */
  lemma LeftNested(level: Level, st: PState)
    requires ValidState(st) && Binary(level, st).Ok?
    requires Operand(level, st).Ok? && Current(Operand(level, st).st).kind in Operators(level)
    ensures var first := Operand(level, st); var s1 := Advance(first.st);
      && Operand(level, s1).Ok?
      && LeftSpine(Binary(level, st).value, BinaryExpr(first.value, s1.prev.value, Operand(level, s1).value))
  {
    var first := Operand(level, st);
    var s1 := Advance(first.st);
    var right := Operand(level, s1);
    TailKeepsLeft(level, BinaryExpr(first.value, s1.prev.value, right.value), right.st);
  }

  /**
   * The else-branch of a conditional whose condition and then-branch are one
   * token each is a whole conditional again, so a chain of conditionals
   * nests to the right.
   */
  lemma ConditionalNestsRight(st: PState, thenAt: PState, elseAt: PState)
    requires ValidState(st) && IsAtom(Current(st).kind) && Next(st).kind == Question
    requires thenAt == Moved(Moved(st)) && IsAtom(Current(thenAt).kind) && Next(thenAt).kind == Colon
    requires elseAt == Moved(Moved(thenAt)) && Current(elseAt).kind != Error && Conditional(elseAt).Ok?
    ensures Conditional(st) == Ok(ConditionalExpr(Atom(st), Atom(thenAt), Conditional(elseAt).value), Conditional(elseAt).st)
  {
    ConditionPart(st);
    ThenPart(thenAt);
  }

  /** The condition part of ConditionalNestsRight: the operand and the '?' after it. */
  lemma ConditionPart(st: PState)
    requires ValidState(st) && IsAtom(Current(st).kind) && Next(st).kind == Question
    requires Current(Moved(Moved(st))).kind != Error
    ensures Binary(OrLevel, st) == Ok(Atom(st), Moved(st)) && Current(Moved(st)).kind == Question
    ensures Advance(Moved(st)) == Moved(Moved(st))
  {
    AtomOrMoves(st);
    AdvanceMoved(Moved(st));
  }

  /** The then-branch part of ConditionalNestsRight: the operand and the ':' after it. */
  lemma ThenPart(st: PState)
    requires ValidState(st) && IsAtom(Current(st).kind) && Next(st).kind == Colon
    requires Current(Moved(Moved(st))).kind != Error
    ensures Expression(st) == Ok(Atom(st), Moved(st))
    ensures Consume(Moved(st), Colon, ColonAfterThen) == Ok(Next(st), Moved(Moved(st)))
  {
    AtomExpressionMoves(st);
    ConsumeExpected(Moved(st), Colon, ColonAfterThen);
  }

  /** AtomOr, with the state after the operand written out. */
  lemma AtomOrMoves(st: PState)
    requires ValidState(st) && IsAtom(Current(st).kind) && Next(st).kind != Error && !Continues(Next(st).kind)
    ensures Binary(OrLevel, st) == Ok(Atom(st), Moved(st))
  {
    AdvancePlain(st);
    AtomOr(st);
  }

  /** AtomExpression, with the state after the operand written out. */
  lemma AtomExpressionMoves(st: PState)
    requires ValidState(st) && IsAtom(Current(st).kind) && Next(st).kind != Error
    requires !Continues(Next(st).kind) && Next(st).kind != Question && Next(st).kind != Equal
    ensures Expression(st) == Ok(Atom(st), Moved(st))
  {
    AdvancePlain(st);
    AtomExpression(st);
  }

  /** A one-token operand followed by a token that continues nothing and is not '?' is the whole conditional. */
  lemma AtomConditional(st: PState)
    requires ValidState(st) && IsAtom(Current(st).kind) && Next(st).kind != Error
    requires !Continues(Next(st).kind) && Next(st).kind != Question
    ensures Conditional(st) == Ok(Atom(st), Moved(st))
  {
    AtomOrMoves(st);
  }

  /** A one-token operand followed by a token that continues nothing and is not '?' or '=' is the whole assignment. */
  lemma AtomAssignment(st: PState)
    requires ValidState(st) && IsAtom(Current(st).kind) && Next(st).kind != Error
    requires !Continues(Next(st).kind) && Next(st).kind != Question && Next(st).kind != Equal
    ensures Assignment(st) == Ok(Atom(st), Moved(st))
  {
    AtomConditional(st);
  }

  /** The steps of Assignment before its check of the target, at "x = v" with one-token x and v. */
  lemma AssignmentParts(st: PState)
    requires ValidState(st) && IsAtom(Current(st).kind) && Next(st).kind == Equal
    requires var s2 := Moved(Moved(st)); IsAtom(Current(s2).kind) && Next(s2).kind != Error
    requires var s2 := Moved(Moved(st)); !Continues(Next(s2).kind) && Next(s2).kind != Question && Next(s2).kind != Equal
    ensures Conditional(st) == Ok(Atom(st), Moved(st)) && Current(Moved(st)).kind == Equal
    ensures Advance(Moved(st)) == Moved(Moved(st))
    ensures Assignment(Moved(Moved(st))) == Ok(Atom(Moved(Moved(st))), Moved(Moved(Moved(st))))
  {
    AtomConditional(st);
    AssignedValue(Moved(st));
  }

  /** At the '=' of "x = v" with one-token v: the '=' is one plain step and v is the whole assignment after it. */
  lemma AssignedValue(s1: PState)
    requires ValidState(s1) && Current(s1).kind == Equal
    requires var s2 := Moved(s1); IsAtom(Current(s2).kind) && Next(s2).kind != Error
    requires var s2 := Moved(s1); !Continues(Next(s2).kind) && Next(s2).kind != Question && Next(s2).kind != Equal
    ensures Advance(s1) == Moved(s1)
    ensures Assignment(Moved(s1)) == Ok(Atom(Moved(s1)), Moved(Moved(s1)))
  {
    var s2 := Moved(s1);
    assert s1.tokens[s1.pos + 1] == Current(s2);
    AdvancePlain(s1);
    AtomAssignment(s2);
  }

  /**
   * "x = v" with a variable x stores v into it; the target keeps the position
   * and the token of the variable.
   */
  lemma AssignsVariable(st: PState)
    requires ValidState(st) && Current(st).kind == Identifier && Next(st).kind == Equal
    requires var s2 := Moved(Moved(st)); IsAtom(Current(s2).kind) && Next(s2).kind != Error
    requires var s2 := Moved(Moved(st)); !Continues(Next(s2).kind) && Next(s2).kind != Question && Next(s2).kind != Equal
    ensures Assignment(st) == Ok(AssignExpr(st.pos, Current(st), Atom(Moved(Moved(st)))), Moved(Moved(Moved(st))))
  {
    AssignmentParts(st);
  }

  /**
   * "x = v" with a literal x is the error "Invalid assignment target." at
   * the literal, written after v has been parsed.
   */
  lemma RejectsLiteralTarget(st: PState)
    requires ValidState(st) && IsLiteralKind(Current(st).kind) && Next(st).kind == Equal
    requires var s2 := Moved(Moved(st)); IsAtom(Current(s2).kind) && Next(s2).kind != Error
    requires var s2 := Moved(Moved(st)); !Continues(Next(s2).kind) && Next(s2).kind != Question && Next(s2).kind != Equal
    ensures Assignment(st) == Fail(Report(Moved(Moved(Moved(st))), Current(st), InvalidAssignmentTarget))
  {
    AssignmentParts(st);
  }

  // ------------------------------------------------------ the recovery loop

  // The tokens of "1; )".
  const One := Token(TokenKind.Number, "1", 1, 1)
  const Semicolon := Token(SemiColon, ";", 1, 2)
  const Stray := Token(RightParen, ")", 1, 4)
  const StuckEnd := Token(Eof, "", 1, 5)
  const StuckTokens: seq<Token> := [One, Semicolon, Stray, StuckEnd]

  /** The number 1 as its literal. */
  const OneLiteral := LiteralExpr(NumberValue(1.0))

  lemma StuckTokensWellFormed()
    ensures WellFormed(StuckTokens)
  {
    assert AllDigits(One.lexeme) by {
      assert IsDigit(One.lexeme[0]);
    }
    assert LiteralWellFormed(StuckTokens[0]);
  }

  /**
   * One token of a literal or a variable, then ';', then a token that is no
   * Error token: the declaration is the expression statement of that operand
   * and ends after the ';'.
   */
  lemma AtomStatement(st: PState)
    requires ValidState(st) && IsAtom(Current(st).kind) && Next(st).kind == SemiColon
    requires st.tokens[st.pos + 2].kind != Error
    ensures Declaration(st) == Ok(ExprStmt(Atom(st)), PState(st.tokens, st.pos + 2, Some(Next(st)), st.errors, st.escaped))
  {
    ExpressionDeclaration(st);
    AtomExpressionStatement(st);
  }

  /** The expression statement part of AtomStatement. */
  lemma AtomExpressionStatement(st: PState)
    requires ValidState(st) && IsAtom(Current(st).kind) && Next(st).kind == SemiColon
    requires st.tokens[st.pos + 2].kind != Error
    ensures ExpressionStatement(st) == Ok(ExprStmt(Atom(st)), PState(st.tokens, st.pos + 2, Some(Next(st)), st.errors, st.escaped))
  {
    AdvancePlain(st);
    AtomExpression(st);
    ConsumeExpected(st.(prev := Some(Current(st)), pos := st.pos + 1), SemiColon, SemicolonAfterExpression);
  }

  /** "1;" is the expression statement of the literal 1, and leaves ';' as the previous token and ')' as the current one. */
  lemma StuckFirstDeclaration()
    ensures WellFormed(StuckTokens) && Start(StuckTokens) == PState(StuckTokens, 0, None, [], None)
    ensures Declaration(Start(StuckTokens)) == Ok(ExprStmt(OneLiteral), PState(StuckTokens, 2, Some(Semicolon), [], None))
  {
    StuckTokensWellFormed();
    var st0 := PState(StuckTokens, 0, None, [], None);
    assert DigitsValue(One.lexeme) == 1 by {
      assert One.lexeme[..0] == [];
    }
    assert Atom(st0) == OneLiteral;
    AtomStatement(st0);
  }

  /**
   * Where the loop of Parse as written gets stuck: after ';' or '}', at a
   * token other than Eof that starts neither a statement nor an expression.
   */
  predicate Stuck(st: PState)
  {
    && ValidState(st) && st.escaped.None?
    && st.prev.Some? && (st.prev.value.kind == SemiColon || st.prev.value.kind == RightBrace)
    && Current(st).kind != Eof && StartsNoExpression(Current(st).kind) && !StartsStatement(Current(st).kind)
  }

  /**
   * Stuck, the loop of Parse as written does not end: the declaration fails
   * without consuming anything, and Synchronize returns at once because of
   * the previous token, whatever errors were written before.
   */
  lemma {:induction false} StuckForever(program: seq<Stmt>, st: PState, fuel: nat)
    requires Stuck(st)
    ensures ParseAsWritten(program, st, fuel) == None
    decreases fuel, 1
  {
    if fuel == 0 {
      StuckOutOfFuel(program, st, fuel);
    } else {
      StuckMore(program, st, fuel);
    }
  }

  /** StuckForever with passes left: one pass leads back to a stuck state. */
  lemma {:induction false} StuckMore(program: seq<Stmt>, st: PState, fuel: nat)
    requires Stuck(st) && fuel > 0
    ensures ParseAsWritten(program, st, fuel) == None
    decreases fuel, 0
  {
    var rest: nat :| fuel == rest + 1;
    var next := StuckPass(program, st, rest);
    StuckForever(program, next, rest);
  }

  /** With no passes left, the loop of Parse as written gives up on a stuck state. */
  lemma StuckOutOfFuel(program: seq<Stmt>, st: PState, fuel: nat)
    requires Stuck(st) && fuel == 0
    ensures ParseAsWritten(program, st, fuel) == None
  {
  }

  /**
   * A pass of the loop of Parse as written from a stuck state: the next pass
   * starts stuck too, at the state the failed declaration left.
   */
  lemma StuckPass(program: seq<Stmt>, st: PState, rest: nat) returns (next: PState)
    requires Stuck(st)
    ensures Stuck(next)
    ensures ParseAsWritten(program, st, rest + 1) == ParseAsWritten(program, next, rest)
  {
    StuckStep(st);
    next := Rejected(st);
  }

  /**
   * One pass of that loop: the declaration fails without moving and
   * Synchronize leaves the state as it is, so the next pass starts stuck in
   * the same place with one more error written.
   */
  lemma StuckStep(st: PState)
    requires Stuck(st)
    ensures Stuck(Rejected(st))
    ensures Declaration(st) == Fail(Rejected(st)) && Synchronize(Rejected(st)) == Rejected(st)
  {
    DeclarationRejects(st);
    assert AtBoundary(Rejected(st));
  }

  /** A pass of the loop of Parse as written whose declaration succeeds appends it and goes on from where it stops. */
  lemma DeclaredPass(program: seq<Stmt>, st: PState, fuel: nat, d: Stmt, next: PState)
    requires ValidState(st) && st.escaped.None? && Current(st).kind != Eof && fuel > 0
    requires Declaration(st) == Ok(d, next)
    ensures ValidState(next)
    ensures ParseAsWritten(program, st, fuel) == ParseAsWritten(program + [d], next, fuel - 1)
  {
  }

  /** After "1;" the parser stands stuck at ')'. */
  lemma StuckAtStray()
    ensures WellFormed(StuckTokens) && Stuck(PState(StuckTokens, 2, Some(Semicolon), [], None))
  {
    StuckTokensWellFormed();
    assert Current(PState(StuckTokens, 2, Some(Semicolon), [], None)) == Stray;
  }

  /** On "1; )" the loop of Parse as written runs out of every bound on its passes: it does not end. */
  lemma ParseAsWrittenNeverEnds(fuel: nat)
    ensures WellFormed(StuckTokens)
    ensures ParseAsWritten([], Start(StuckTokens), fuel) == None
  {
    StuckFirstDeclaration();
    StuckAtStray();
    if fuel > 0 {
      var s2 := PState(StuckTokens, 2, Some(Semicolon), [], None);
      DeclaredPass([], Start(StuckTokens), fuel, ExprStmt(OneLiteral), s2);
      assert [] + [ExprStmt(OneLiteral)] == [ExprStmt(OneLiteral)];
      StuckForever([ExprStmt(OneLiteral)], s2, fuel - 1);
    }
  }

  /** The error line for ')' in "1; )". */
  const StrayError := "[Line 1, Col 4] Error at ')': Expected expression."

  lemma StrayErrorLine()
    ensures ErrorLine(Stray, ExpectedExpression) == StrayError
  {
    assert IntText(1) == "1" by {
      assert NatText(1) == [DigitChar(1)];
    }
    assert IntText(4) == "4" by {
      assert NatText(4) == [DigitChar(4)];
    }
    assert Location(Stray) == " at ')'";
    assert MessageText(ExpectedExpression) == "Expected expression.";
    StrayErrorPieces(IntText(1), IntText(4), Location(Stray), MessageText(ExpectedExpression));
  }

  /** The pieces of the error line for ')' in "1; )", put together. */
  lemma StrayErrorPieces(line: string, column: string, location: string, message: string)
    requires line == "1" && column == "4" && location == " at ')'" && message == "Expected expression."
    ensures "[Line " + line + ", Col " + column + "] Error" + location + ": " + message == StrayError
  {
    var text := "[Line " + line + ", Col " + column + "] Error" + location + ": " + message;
    assert |text| == |StrayError|;
    assert forall i :: 0 <= i < |text| ==> text[i] == StrayError[i];
  }

  /**
   * The messages CheckLimit reports at the 256th argument or parameter, with
   * the limit written out in decimal.
   */
  lemma LimitMessages()
    ensures MessageText(ArgumentLimit) == "Exceeded maximum of 255 arguments."
    ensures MessageText(ParameterLimit) == "Exceeded maximum of 255 parameters."
  {
    LimitText();
    LimitPieces(NatText(MaxArguments));
  }

  /** The limit in decimal. */
  lemma LimitText()
    ensures NatText(MaxArguments) == "255" && MaxParameters == MaxArguments
  {
    assert NatText(2) == "2";
    assert NatText(25) == NatText(2) + [DigitChar(5)];
  }

  /** The two limit messages, put together from the limit's text. */
  lemma LimitPieces(limit: string)
    requires limit == "255"
    ensures "Exceeded maximum of " + limit + " arguments." == "Exceeded maximum of 255 arguments."
    ensures "Exceeded maximum of " + limit + " parameters." == "Exceeded maximum of 255 parameters."
  {
    var arguments := "Exceeded maximum of " + limit + " arguments.";
    assert forall i :: 0 <= i < |arguments| ==> arguments[i] == "Exceeded maximum of 255 arguments."[i];
    var parameters := "Exceeded maximum of " + limit + " parameters.";
    assert forall i :: 0 <= i < |parameters| ==> parameters[i] == "Exceeded maximum of 255 parameters."[i];
  }

  /** A pass of the corrected loop whose declaration succeeds appends it and goes on from where it stops. */
  lemma ParsedPass(program: seq<Stmt>, st: PState, d: Stmt, next: PState)
    requires ValidState(st) && st.escaped.None? && Current(st).kind != Eof
    requires Declaration(st) == Ok(d, next)
    ensures ValidState(next)
    ensures ParseFrom(program, st) == ParseFrom(program + [d], next)
  {
  }

  /**
   * A pass of the corrected loop whose declaration fails goes on from where
   * Recover stops, unless an exception other than a ParseException is on its
   * way out, which ends the loop where the declaration stopped.
   */
  lemma RecoveredPass(program: seq<Stmt>, st: PState, failed: PState)
    requires ValidState(st) && st.escaped.None? && Current(st).kind != Eof
    requires Declaration(st) == Fail(failed)
    ensures ValidState(failed) && Later(st, failed)
    ensures failed.escaped.Some? ==> ParseFrom(program, st) == Parsed(program, failed)
    ensures failed.escaped.None? ==> ParseFrom(program, st) == ParseFrom(program, Recover(st, failed))
  {
  }

  /**
   * A run of the loop of Parse as written from st, within fuel passes, that
   * ends with r and in which every failed pass that is caught is
   * synchronized past the token the pass began at.
   */
  ghost predicate MovingRun(program: seq<Stmt>, st: PState, fuel: nat, r: Parsed)
    decreases fuel
  {
    && ValidState(st)
    && if st.escaped.Some? then r == Parsed(program, st)
       else if Current(st).kind == Eof then r == Parsed(program, Advance(st))
       else
         && fuel > 0
         && match Declaration(st)
            case Ok(d, s) => MovingRun(program + [d], s, fuel - 1, r)
            case Fail(s) => (s.escaped.None? ==> Synchronize(s).pos > st.pos) && MovingRun(program, AfterCatch(s), fuel - 1, r)
  }

  /**
   * On such a run the loop of Parse as written ends with r, and the
   * corrected loop yields the same statements, errors and final state.
   */
  lemma {:induction false} MovingRunsAgree(program: seq<Stmt>, st: PState, fuel: nat, r: Parsed)
    requires MovingRun(program, st, fuel, r)
    ensures ParseAsWritten(program, st, fuel) == Some(r) && ParseFrom(program, st) == r
    decreases fuel
  {
    if st.escaped.Some? {
      AsWrittenEscapes(program, st, fuel);
    } else if Current(st).kind == Eof {
      AsWrittenAtEof(program, st, fuel);
    } else {
      var rest, next := AgreeingPass(program, st, fuel, r);
      MovingRunsAgree(rest, next, fuel - 1, r);
    }
  }

  /** One pass of both loops on a moving run: they go on with the same statements from the same state. */
  lemma AgreeingPass(program: seq<Stmt>, st: PState, fuel: nat, r: Parsed) returns (rest: seq<Stmt>, next: PState)
    requires MovingRun(program, st, fuel, r) && st.escaped.None? && Current(st).kind != Eof
    ensures fuel > 0 && MovingRun(rest, next, fuel - 1, r)
    ensures ParseAsWritten(rest, next, fuel - 1) == Some(r) && ParseFrom(rest, next) == r
      ==> ParseAsWritten(program, st, fuel) == Some(r) && ParseFrom(program, st) == r
  {
    AsWrittenPass(program, st, fuel);
    match Declaration(st)
    case Ok(d, s) =>
      rest, next := program + [d], s;
      ParsedPass(program, st, d, s);
    case Fail(s) =>
      rest, next := program, AfterCatch(s);
      RecoveredPass(program, st, s);
  }

  /** At Eof the corrected loop stops with the statements and the errors it has. */
  lemma ParsedAtEnd(program: seq<Stmt>, st: PState)
    requires ValidState(st) && Current(st).kind == Eof
    ensures ParseFrom(program, st).program == program && ParseFrom(program, st).st.errors == st.errors
  {
  }

  /** The error at ')' in "1; )" is the one line StrayError. */
  lemma StrayRejected()
    ensures WellFormed(StuckTokens) && ValidState(PState(StuckTokens, 2, Some(Semicolon), [], None))
    ensures Rejected(PState(StuckTokens, 2, Some(Semicolon), [], None)) == PState(StuckTokens, 2, Some(Semicolon), [StrayError], None)
  {
    StuckTokensWellFormed();
    StrayErrorLine();
    assert Current(PState(StuckTokens, 2, Some(Semicolon), [], None)) == Stray;
  }

  /**
   * After the error at ')' in "1; )", Synchronize leaves the parser where the
   * pass began, so Recover skips the ')' and stops at Eof with that one
   * error written.
   */
  lemma RecoverFromStray()
    ensures WellFormed(StuckTokens) && ValidState(PState(StuckTokens, 2, Some(Semicolon), [], None))
    ensures var s2 := PState(StuckTokens, 2, Some(Semicolon), [], None);
      Recover(s2, Rejected(s2)) == PState(StuckTokens, 3, Some(Stray), [StrayError], None)
  {
    StrayRejected();
    var s3 := PState(StuckTokens, 3, Some(Stray), [StrayError], None);
    var failed := PState(StuckTokens, 2, Some(Semicolon), [StrayError], None);
    assert Synchronize(failed) == failed;
    assert NextPos(failed) == 3;
    assert failed.(prev := Some(Current(failed)), pos := NextPos(failed)) == s3;
    assert Current(s3).kind == Eof;
    assert Synchronize(s3) == s3;
  }

  /**
   * With the recovery that skips the token a pass got stuck at, "1; )"
   * parses to the statement "1;" and the one error at ')'.
   */
  lemma ParseRecovers()
    ensures WellFormed(StuckTokens)
    ensures Parse(StuckTokens).program == [ExprStmt(OneLiteral)]
    ensures Parse(StuckTokens).st.errors == [StrayError]
  {
    StuckFirstDeclaration();
    StuckAtStray();
    RecoverFromStray();
    var s2 := PState(StuckTokens, 2, Some(Semicolon), [], None);
    var s3 := PState(StuckTokens, 3, Some(Stray), [StrayError], None);
    ParsedPass([], Start(StuckTokens), ExprStmt(OneLiteral), s2);
    assert [] + [ExprStmt(OneLiteral)] == [ExprStmt(OneLiteral)];
    DeclarationRejects(s2);
    RecoveredPass([ExprStmt(OneLiteral)], s2, Rejected(s2));
    ParsedAtEnd([ExprStmt(OneLiteral)], s3);
  }

  // --------------------------------------------------- a pass that moves on

  // The tokens of "print 1 print 2;".
  const FirstPrint := Token(Print, "print", 1, 1)
  const OneAfterPrint := Token(TokenKind.Number, "1", 1, 7)
  const SecondPrint := Token(Print, "print", 1, 9)
  const Two := Token(TokenKind.Number, "2", 1, 15)
  const FinalSemicolon := Token(SemiColon, ";", 1, 16)
  const PrintsEnd := Token(Eof, "", 1, 17)
  const PrintTokens: seq<Token> := [FirstPrint, OneAfterPrint, SecondPrint, Two, FinalSemicolon, PrintsEnd]

  /** The number 2 as its literal. */
  const TwoLiteral := LiteralExpr(NumberValue(2.0))

  /** The error for the ';' missing after "print 1". */
  const MissingSemicolonError := ErrorLine(SecondPrint, SemicolonAfterPrint)

  lemma PrintTokensWellFormed()
    ensures WellFormed(PrintTokens)
  {
    assert AllDigits(OneAfterPrint.lexeme) by {
      assert IsDigit(OneAfterPrint.lexeme[0]);
    }
    assert AllDigits(Two.lexeme) by {
      assert IsDigit(Two.lexeme[0]);
    }
    assert LiteralWellFormed(PrintTokens[1]) && LiteralWellFormed(PrintTokens[3]);
  }

  /** A declaration at 'print' is the print statement after it. */
  lemma PrintDeclaration(st: PState)
    requires ValidState(st) && Current(st).kind == Print
    ensures Declaration(st) == PrintStatement(Advance(st))
  {
    assert Statement(st) == PrintStatement(Advance(st));
  }

  /** The print statement of a one-token operand: the ';' after it decides the outcome. */
  lemma PrintAtom(st: PState)
    requires ValidState(st) && IsAtom(Current(st).kind) && Next(st).kind != Error
    requires !Continues(Next(st).kind) && Next(st).kind != Question && Next(st).kind != Equal
    ensures PrintStatement(st) == match Consume(Moved(st), SemiColon, SemicolonAfterPrint)
      case Fail(s) => Fail(s)
      case Ok(_, s) => Ok(PrintStmt(Atom(st)), s)
  {
    AtomExpressionMoves(st);
  }

  /**
   * "print 1" without its ';': the expression is parsed, and the error is
   * written at the second 'print', which stays the current token.
   */
  lemma MissingSemicolon(st: PState)
    requires WellFormed(PrintTokens) && st.tokens == PrintTokens && st.pos == 0
    ensures ValidState(st)
    ensures Declaration(st) == Fail(st.(prev := Some(OneAfterPrint), pos := 2, errors := st.errors + [MissingSemicolonError]))
  {
    assert Current(st) == FirstPrint;
    PrintOfAtom(st);
    OneOperand(Moved(st));
    SemicolonMissing(Moved(Moved(st)));
  }

  /** A declaration of 'print' and a one-token operand: the ';' after the operand decides the outcome. */
  lemma PrintOfAtom(st: PState)
    requires ValidState(st) && Current(st).kind == Print && Next(st).kind != Error
    requires IsAtom(Next(st).kind) && Current(Moved(Moved(st))).kind != Error
    requires var k := Current(Moved(Moved(st))).kind; !Continues(k) && k != Question && k != Equal
    ensures Declaration(st) == match Consume(Moved(Moved(st)), SemiColon, SemicolonAfterPrint)
      case Fail(s) => Fail(s)
      case Ok(_, s) => Ok(PrintStmt(Atom(Moved(st))), s)
  {
    AdvancePlain(st);
    PrintDeclaration(st);
    PrintAtom(Moved(st));
  }

  /** The '1' of "print 1 print 2;" is the literal 1, followed by the second 'print'. */
  lemma OneOperand(st: PState)
    requires WellFormed(PrintTokens) && st.tokens == PrintTokens && st.pos == 1
    ensures ValidState(st) && Current(st) == OneAfterPrint && Next(st) == SecondPrint && Atom(st) == OneLiteral
  {
    assert DigitsValue(OneAfterPrint.lexeme) == 1 by {
      assert OneAfterPrint.lexeme[..0] == [];
    }
  }

  /** At the second 'print' the ';' of "print 1" is missing: the error is written there and the parser stays. */
  lemma SemicolonMissing(st: PState)
    requires WellFormed(PrintTokens) && st.tokens == PrintTokens && st.pos == 2
    ensures ValidState(st) && Consume(st, SemiColon, SemicolonAfterPrint) == Fail(st.(errors := st.errors + [MissingSemicolonError]))
  {
    assert Current(st) == SecondPrint;
  }

  /** From the second 'print', "print 2;" is the print statement of 2, which ends at Eof. */
  lemma SecondPrintParses(st: PState)
    requires WellFormed(PrintTokens) && st.tokens == PrintTokens && st.pos == 2
    ensures ValidState(st)
    ensures Declaration(st) == Ok(PrintStmt(TwoLiteral), st.(prev := Some(FinalSemicolon), pos := 5))
  {
    assert Current(st) == SecondPrint;
    TwoOperand(Moved(st));
    SemicolonFound(Moved(Moved(st)));
    PrintOfAtom(st);
  }

  /** The '2' of "print 1 print 2;" is the literal 2, followed by the ';'. */
  lemma TwoOperand(st: PState)
    requires WellFormed(PrintTokens) && st.tokens == PrintTokens && st.pos == 3
    ensures ValidState(st) && Current(st) == Two && Next(st) == FinalSemicolon && Atom(st) == TwoLiteral
  {
    assert DigitsValue(Two.lexeme) == 2 by {
      assert Two.lexeme[..0] == [];
    }
  }

  /** The final ';' is consumed, and Eof becomes the current token. */
  lemma SemicolonFound(st: PState)
    requires WellFormed(PrintTokens) && st.tokens == PrintTokens && st.pos == 4
    ensures ValidState(st)
    ensures Consume(st, SemiColon, SemicolonAfterPrint) == Ok(FinalSemicolon, st.(prev := Some(FinalSemicolon), pos := 5))
  {
    assert Current(st) == FinalSemicolon && st.tokens[5] == PrintsEnd;
    ConsumeExpected(st, SemiColon, SemicolonAfterPrint);
  }

  /**
   * On "print 1 print 2;" the failed first pass is synchronized to the
   * second 'print', a statement starter: the loop of Parse as written and
   * the corrected one both yield "print 2;" and the one error at the second
   * 'print'.
   */
  lemma PrintsAgree()
    ensures WellFormed(PrintTokens)
    ensures ParseAsWritten([], Start(PrintTokens), 2) == Some(Parse(PrintTokens))
    ensures Parse(PrintTokens).program == [PrintStmt(TwoLiteral)]
    ensures Parse(PrintTokens).st.errors == [MissingSemicolonError]
  {
    PrintTokensWellFormed();
    var st0 := Start(PrintTokens);
    assert st0 == PState(PrintTokens, 0, None, [], None);
    var r := PrintsRun(st0);
    MovingRunsAgree([], st0, 2, r);
  }

  /** The whole run from the first 'print', whatever errors were written before: two passes, the first failed and moving on. */
  lemma PrintsRun(st: PState) returns (r: Parsed)
    requires WellFormed(PrintTokens) && st.tokens == PrintTokens && st.pos == 0 && st.escaped.None?
    ensures ValidState(st) && MovingRun([], st, 2, r)
    ensures r.program == [PrintStmt(TwoLiteral)] && r.st.errors == st.errors + [MissingSemicolonError]
  {
    MissingSemicolon(st);
    var failed := st.(prev := Some(OneAfterPrint), pos := 2, errors := st.errors + [MissingSemicolonError]);
    assert Current(failed) == SecondPrint;
    assert Synchronize(failed) == failed by {
      assert AtBoundary(failed);
    }
    r := SecondPrintRun(failed);
  }

  /** The run from the second 'print': one pass that declares "print 2;", then Eof. */
  lemma SecondPrintRun(st: PState) returns (r: Parsed)
    requires WellFormed(PrintTokens) && st.tokens == PrintTokens && st.pos == 2 && st.escaped.None?
    ensures ValidState(st) && MovingRun([], st, 1, r)
    ensures r.program == [PrintStmt(TwoLiteral)] && r.st.errors == st.errors
  {
    SecondPrintParses(st);
    var done := st.(prev := Some(FinalSemicolon), pos := 5);
    r := PrintsEnded([] + [PrintStmt(TwoLiteral)], done);
    assert r.program == [PrintStmt(TwoLiteral)];
  }

  /** At the Eof of "print 1 print 2;" the run stops with the statements it has. */
  lemma PrintsEnded(program: seq<Stmt>, st: PState) returns (r: Parsed)
    requires WellFormed(PrintTokens) && st.tokens == PrintTokens && st.pos == 5 && st.escaped.None?
    ensures ValidState(st) && MovingRun(program, st, 0, r)
    ensures r.program == program && r.st.errors == st.errors
  {
    assert Current(st) == PrintsEnd;
    r := Parsed(program, Advance(st));
    assert NextPos(st) == 5;
  }

  // ------------------------------------------- a literal the parser misreads

  /**
   * A unary that fails makes every level of the ladder fail with the same
   * state: an exception on its way out passes through every rule untouched.
   */
  lemma {:induction false} OperandFailsWithUnary(level: Level, st: PState, failed: PState)
    requires ValidState(st) && Unary(st) == Fail(failed)
    ensures Operand(level, st) == Fail(failed) && Binary(level, st) == Fail(failed)
    decreases OperandRank(level)
  {
    match level
    case CommaLevel =>
      AssignmentFailsWithUnary(st, failed);
      FailsUp(level, st, failed);
    case FactorLevel =>
      FailsUp(level, st, failed);
    case _ =>
      OperandFailsWithUnary(Tighter(level), st, failed);
      FailsUp(level, st, failed);
  }

  /** A primary that fails, at a token other than '-' or '!', makes Call and Unary fail with the same state. */
  lemma UnaryFailsWithPrimary(st: PState, failed: PState)
    requires ValidState(st) && Current(st).kind != Minus && Current(st).kind != Bang
    requires Primary(st) == Fail(failed)
    ensures Call(st) == Fail(failed) && Unary(st) == Fail(failed)
  {
    assert Call(st) == Fail(failed);
  }

  /** The same for Conditional and Assignment. */
  lemma {:induction false} AssignmentFailsWithUnary(st: PState, failed: PState)
    requires ValidState(st) && Unary(st) == Fail(failed)
    ensures Conditional(st) == Fail(failed) && Assignment(st) == Fail(failed)
    decreases 16
  {
    OperandFailsWithUnary(OrLevel, st, failed);
    assert Conditional(st) == Fail(failed);
  }

  // The tokens of "1 #": the scanner yields an Error token for '#'.
  const Hash := Token(Error, "Unexpected character '#'.", 1, 3)
  const HashEnd := Token(Eof, "", 1, 4)
  const HashTokens: seq<Token> := [One, Hash, HashEnd]

  /** Where Advance leaves the parser after the 1 of "1 #": the Error token reported and skipped, and so the previous token. */
  const HashSkipped := PState(HashTokens, 2, Some(Hash), [ErrorLine(Hash, Lexeme(Hash.lexeme))], None)

  /** The FormatException of double.Parse on the text of the Error token. */
  const HashEscape := NumberFormat("Unexpected character '#'.")

  /** Where Primary leaves the parser on "1 #": as Advance did, with that exception on its way out. */
  const HashFailed := PState(HashTokens, 2, Some(Hash), [ErrorLine(Hash, Lexeme(Hash.lexeme))], Some(HashEscape))

  lemma HashTokensWellFormed()
    ensures WellFormed(HashTokens) && Start(HashTokens) == PState(HashTokens, 0, None, [], None)
  {
    StuckTokensWellFormed();
    assert LiteralWellFormed(HashTokens[0]);
  }

  /** Advance past the 1 of "1 #" reports the Error token and synchronizes past it, onto Eof. */
  lemma HashAdvance()
    ensures WellFormed(HashTokens)
    ensures Advance(PState(HashTokens, 0, None, [], None)) == HashSkipped
  {
    HashTokensWellFormed();
    var st0 := PState(HashTokens, 0, None, [], None);
    var moved := PState(HashTokens, 1, Some(One), [], None);
    assert st0.(prev := Some(Current(st0)), pos := NextPos(st0)) == moved;
    var reported := Report(moved, Hash, Lexeme(Hash.lexeme));
    assert !AtBoundary(reported);
    var next := SynchronizeStep(reported);
    assert next == HashSkipped && AtBoundary(next);
  }

  /**
   * On "1 #" Primary reads the text of the Error token as the number, since
   * Synchronize has moved the previous token onto it: double.Parse throws a
   * FormatException that no rule and no loop catches, so Parse ends with no
   * statement, the one error line of the Error token, and that exception.
   */
  lemma NumberBeforeErrorEscapes()
    ensures WellFormed(HashTokens)
    ensures Parse(HashTokens) == Parsed([], HashFailed)
    ensures ParseAsWritten([], Start(HashTokens), 1) == Some(Parsed([], HashFailed))
  {
    var st0 := HashDeclaration();
    EscapingPass([], st0, 1, HashFailed);
  }

  /** The declaration of "1 #" fails with the exception of its primary. */
  lemma HashDeclaration() returns (st0: PState)
    ensures WellFormed(HashTokens) && st0 == Start(HashTokens)
    ensures ValidState(st0) && st0.escaped.None? && Current(st0).kind != Eof && Declaration(st0) == Fail(HashFailed)
  {
    HashPrimary();
    st0 := Start(HashTokens);
    assert Current(st0) == One;
    DeclarationFailsWithPrimary(st0, HashFailed);
  }

  /**
   * A declaration that fails with an exception other than a ParseException
   * on its way out ends the loop of Parse as written and the corrected loop
   * alike, with the statements parsed before it and the state it left.
   */
  lemma EscapingPass(program: seq<Stmt>, st: PState, fuel: nat, failed: PState)
    requires ValidState(st) && st.escaped.None? && Current(st).kind != Eof && fuel > 0
    requires Declaration(st) == Fail(failed) && failed.escaped.Some?
    ensures ParseFrom(program, st) == Parsed(program, failed)
    ensures ParseAsWritten(program, st, fuel) == Some(Parsed(program, failed))
  {
    RecoveredPass(program, st, failed);
    AsWrittenPass(program, st, fuel);
    AsWrittenEscapes(program, failed, fuel - 1);
  }

  /** A declaration at a token that starts no statement, '-' or '!' fails as its primary does. */
  lemma DeclarationFailsWithPrimary(st: PState, failed: PState)
    requires ValidState(st) && !StartsStatement(Current(st).kind) && Current(st).kind != Minus && Current(st).kind != Bang
    requires Primary(st) == Fail(failed)
    ensures Declaration(st) == Fail(failed)
  {
    UnaryFailsWithPrimary(st, failed);
    OperandFailsWithUnary(CommaLevel, st, failed);
    FailedExpressionDeclaration(st, failed);
  }

  /** A declaration at a token that starts no statement fails as its expression does. */
  lemma FailedExpressionDeclaration(st: PState, failed: PState)
    requires ValidState(st) && !StartsStatement(Current(st).kind)
    requires Binary(CommaLevel, st) == Fail(failed)
    ensures Declaration(st) == Fail(failed)
  {
    assert Expression(st) == Fail(failed);
    assert ExpressionStatement(st) == Fail(failed);
    ExpressionDeclaration(st);
  }

  /** The primary of "1 #": the literal's value is read from the Error token. */
  lemma HashPrimary()
    ensures WellFormed(HashTokens) && Start(HashTokens) == PState(HashTokens, 0, None, [], None)
    ensures Primary(Start(HashTokens)) == Fail(HashFailed)
  {
    HashTokensWellFormed();
    HashAdvance();
    assert !AllDigits(Hash.lexeme) by {
      assert !IsDigit(Hash.lexeme[0]);
    }
    assert LiteralFrom(TokenKind.Number, Hash) == Failure(HashEscape);
    assert HashSkipped.(escaped := Some(HashEscape)) == HashFailed;
  }

  // The tokens of "1 # 2".
  const TwoAfterHash := Token(TokenKind.Number, "2", 1, 5)
  const HashTwoTokens: seq<Token> := [One, Hash, TwoAfterHash, Token(Eof, "", 1, 6)]

  /** Where Advance leaves the parser after the 1 of "1 # 2": past the Error token and the 2, with the 2 as the previous token. */
  const TwoSkipped := PState(HashTwoTokens, 3, Some(TwoAfterHash), [ErrorLine(Hash, Lexeme(Hash.lexeme))], None)

  lemma HashTwoTokensWellFormed()
    ensures WellFormed(HashTwoTokens) && Start(HashTwoTokens) == PState(HashTwoTokens, 0, None, [], None)
  {
    assert AllDigits(TwoAfterHash.lexeme) by {
      assert IsDigit(TwoAfterHash.lexeme[0]);
    }
    StuckTokensWellFormed();
    assert LiteralWellFormed(HashTwoTokens[0]) && LiteralWellFormed(HashTwoTokens[2]);
  }

  /** After the Error token of "1 # 2" is reported, Synchronize skips it and the 2, and stops at Eof. */
  lemma HashTwoSynchronize()
    ensures WellFormed(HashTwoTokens)
    ensures Synchronize(PState(HashTwoTokens, 1, Some(One), [ErrorLine(Hash, Lexeme(Hash.lexeme))], None)) == TwoSkipped
  {
    HashTwoTokensWellFormed();
    var reported := PState(HashTwoTokens, 1, Some(One), [ErrorLine(Hash, Lexeme(Hash.lexeme))], None);
    assert Current(reported) == Hash && !AtBoundary(reported);
    SkipsTwo();
  }

  /** The second step of that: from the 2 of "1 # 2", after the Error token, Synchronize skips the 2. */
  lemma SkipsTwo()
    ensures WellFormed(HashTwoTokens)
    ensures Synchronize(PState(HashTwoTokens, 2, Some(Hash), [ErrorLine(Hash, Lexeme(Hash.lexeme))], None)) == TwoSkipped
  {
    HashTwoTokensWellFormed();
    var next := PState(HashTwoTokens, 2, Some(Hash), [ErrorLine(Hash, Lexeme(Hash.lexeme))], None);
    assert Current(next) == TwoAfterHash && !AtBoundary(next);
    assert Current(TwoSkipped).kind == Eof && AtBoundary(TwoSkipped);
  }

  /** Advance past the 1 of "1 # 2" reports the Error token and synchronizes onto Eof. */
  lemma HashTwoAdvance()
    ensures WellFormed(HashTwoTokens) && Start(HashTwoTokens) == PState(HashTwoTokens, 0, None, [], None)
    ensures Advance(PState(HashTwoTokens, 0, None, [], None)) == TwoSkipped
  {
    HashTwoSynchronize();
    HashTwoTokensWellFormed();
    var st0 := PState(HashTwoTokens, 0, None, [], None);
    var moved := PState(HashTwoTokens, 1, Some(One), [], None);
    assert st0.(prev := Some(Current(st0)), pos := NextPos(st0)) == moved;
    assert [] + [ErrorLine(Hash, Lexeme(Hash.lexeme))] == [ErrorLine(Hash, Lexeme(Hash.lexeme))];
    assert Report(moved, Current(moved), Lexeme(Current(moved).lexeme))
      == PState(HashTwoTokens, 1, Some(One), [ErrorLine(Hash, Lexeme(Hash.lexeme))], None);
  }

  /**
   * On "1 # 2" Synchronize moves on past the Error token and past the 2 as
   * well, so the literal Primary builds for the 1 has the value 2.
   */
  lemma LiteralReadAfterError()
    ensures WellFormed(HashTwoTokens)
    ensures Primary(Start(HashTwoTokens)) == Ok(TwoLiteral, TwoSkipped)
  {
    HashTwoAdvance();
    assert DigitsValue(TwoAfterHash.lexeme) == 2 by {
      assert TwoAfterHash.lexeme[..0] == [];
    }
    assert LiteralFrom(TokenKind.Number, TwoAfterHash) == Success(NumberValue(2.0));
  }

  // ----------------------------------------------------------- token streams

  /** Consume of the kind of the current token, when the next one is not an Error token, is one plain step. */
  lemma ConsumeExpected(st: PState, kind: TokenKind, message: Message)
    requires ValidState(st) && Current(st).kind == kind && kind != Eof && st.tokens[st.pos + 1].kind != Error
    ensures Consume(st, kind, message) == Ok(Current(st), st.(prev := Some(Current(st)), pos := st.pos + 1))
  {
    AdvancePlain(st);
  }

  /** One step of Advance onto a token that is not an Error token. */
  /** AdvancePlain, with the state after the step written as Moved. */
  lemma AdvanceMoved(st: PState)
    requires ValidState(st) && Current(st).kind != Eof && Current(Moved(st)).kind != Error
    ensures Advance(st) == Moved(st)
  {
    assert st.tokens[st.pos + 1] == Current(Moved(st));
    AdvancePlain(st);
  }

  lemma AdvancePlain(st: PState)
    requires ValidState(st) && Current(st).kind != Eof && st.tokens[st.pos + 1].kind != Error
    ensures Advance(st) == st.(prev := Some(Current(st)), pos := st.pos + 1)
  {
    var moved := st.(prev := Some(Current(st)), pos := NextPos(st));
    assert moved.pos == st.pos + 1;
    assert Current(moved).kind != Error;
  }
}
