/** Properties of the interpreter's evaluation and execution functions. */
module InterpreterProperties {
  import opened Wrappers
  import opened Tokens
  import opened Ast
  import opened Values
  import opened RuntimeErrors
  import opened Environments
  import opened Interpreting

  // ---------------------------------------------------------------------------
  // Operators.

  /** `!` never fails and gives the negated truthiness; 0 and "" are truthy. */
  lemma BangNegatesTruthiness(op: Token, v: Value)
    requires op.kind == Bang
    ensures UnaryValue(op, v) == Success(BoolValue(!IsTruthy(v)))
    ensures UnaryValue(op, NumberValue(0.0)) == Success(BoolValue(false))
    ensures UnaryValue(op, StringValue("")) == Success(BoolValue(false))
    ensures UnaryValue(op, NilValue) == Success(BoolValue(true))
  {
  }

  /** Unary minus negates a number and rejects every other value with the bad-operand error. */
  lemma MinusNeedsANumber(op: Token, v: Value)
    requires op.kind == Minus
    ensures UnaryValue(op, v).Success? <==> v.NumberValue?
    ensures v.NumberValue? ==> UnaryValue(op, v) == Success(NumberValue(-v.number))
    ensures !v.NumberValue? ==> UnaryValue(op, v) == Failure(OperandError(op, v))
  {
  }

  /** `+` adds two numbers or joins two strings; any other pair is an operand error. */
  lemma PlusAddsOrJoins(op: Token, left: Value, right: Value)
    requires op.kind == Plus
    ensures BinaryValue(op, left, right).Success?
      <==> (left.NumberValue? && right.NumberValue?) || (left.StringValue? && right.StringValue?)
    ensures left.StringValue? && right.StringValue? ==>
      BinaryValue(op, left, right) == Success(StringValue(left.text + right.text))
    ensures BinaryValue(op, left, right).Failure? ==>
      BinaryValue(op, left, right).error == OperandsError(op, left, right)
  {
  }

  /**
   * The other arithmetic and the comparison operators need two numbers; with
   * two numbers only a zero divisor can make them fail.
   */
  lemma NumericOperatorsNeedNumbers(op: Token, left: Value, right: Value)
    requires op.kind in {Minus, Star, Slash, Percent, Less, LessEqual, Greater, GreaterEqual}
    ensures !(left.NumberValue? && right.NumberValue?) ==>
      BinaryValue(op, left, right) == Failure(OperandsError(op, left, right))
    ensures left.NumberValue? && right.NumberValue? ==>
      (BinaryValue(op, left, right).Success? <==> !(op.kind in {Slash, Percent} && right.number == 0.0))
    ensures left.NumberValue? && right.NumberValue? && op.kind == Slash && right.number == 0.0 ==>
      BinaryValue(op, left, right) == Failure(RuntimeError(RuntimeErrorText(op, "Division by 0.")))
  {
  }

  /** Equality and inequality accept any pair of values and are each other's negation. */
  lemma EqualityNeverFails(eq: Token, ne: Token, left: Value, right: Value)
    requires eq.kind == EqualEqual && ne.kind == BangEqual
    ensures BinaryValue(eq, left, right) == Success(BoolValue(ValuesEqual(left, right)))
    ensures BinaryValue(ne, left, right) == Success(BoolValue(!ValuesEqual(left, right)))
  {
  }

  /** The truncated remainder keeps the dividend's sign and is smaller than the divisor. */
  lemma RemainderBounds(x: real, y: real)
    requires y != 0.0
    ensures var r := Remainder(x, y);
      && (x >= 0.0 ==> r >= 0.0) && (x <= 0.0 ==> r <= 0.0)
      && Abs(r) < Abs(y)
  {
    var q := x / y;
    var frac := q - Truncate(q) as real;
    var r := Remainder(x, y);
    assert x == q * y;
    assert r == frac * y;
    assert -1.0 < frac < 1.0;
    assert q >= 0.0 ==> frac >= 0.0;
    assert q <= 0.0 ==> frac <= 0.0;
    ScaledBelow(frac, y);
    SignOfProduct(frac, q, y);
  }

  /** Scaling by a factor strictly between -1 and 1 makes a nonzero number smaller in magnitude. */
  lemma ScaledBelow(frac: real, y: real)
    requires -1.0 < frac < 1.0 && y != 0.0
    ensures Abs(frac * y) < Abs(y)
  {
    if y > 0.0 {
      assert (1.0 - frac) * y > 0.0 && (1.0 + frac) * y > 0.0;
    } else {
      assert (1.0 - frac) * y < 0.0 && (1.0 + frac) * y < 0.0;
    }
  }

  /** frac * y has the sign of q * y when frac has the sign of q. */
  lemma SignOfProduct(frac: real, q: real, y: real)
    requires (q >= 0.0 ==> frac >= 0.0) && (q <= 0.0 ==> frac <= 0.0)
    ensures q * y >= 0.0 ==> frac * y >= 0.0
    ensures q * y <= 0.0 ==> frac * y <= 0.0
  {
    if y > 0.0 {
      assert q * y >= 0.0 ==> q >= 0.0;
      assert q * y <= 0.0 ==> q <= 0.0;
    } else if y < 0.0 {
      assert q * y >= 0.0 ==> q <= 0.0;
      assert q * y <= 0.0 ==> q >= 0.0;
    }
  }

  /** 13 % 5 is 3, as the remainder test expects. */
  lemma RemainderExample()
    ensures Remainder(13.0, 5.0) == 3.0 && Remainder(-13.0, 5.0) == -3.0
  {
    assert Truncate(13.0 / 5.0) == 2;
    assert Truncate(-13.0 / 5.0) == -2;
  }

  // ---------------------------------------------------------------------------
  // Evaluation.

  /** An expression with no assignment in it. */
  predicate AssignmentFree(e: Expr)
  {
    match e
    case LiteralExpr(_) => true
    case GroupExpr(inner) => AssignmentFree(inner)
    case VarExpr(_, _) => true
    case AssignExpr(_, _, _) => false
    case BinaryExpr(left, _, right) => AssignmentFree(left) && AssignmentFree(right)
    case ConditionalExpr(c, t, f) => AssignmentFree(c) && AssignmentFree(t) && AssignmentFree(f)
    case UnaryExpr(_, operand) => AssignmentFree(operand)
    case CallExpr(_, _, _) => true
  }

  /** Only an assignment changes the environment: without one, evaluation leaves every scope as it was. */
  lemma {:induction false} EvalWithoutAssignmentKeepsScopes(e: Expr, scopes: seq<Scope>)
    requires AssignmentFree(e)
    ensures Eval(e, scopes).scopes == scopes
  {
    match e
    case GroupExpr(inner) => EvalWithoutAssignmentKeepsScopes(inner, scopes);
    case BinaryExpr(left, _, right) =>
      EvalWithoutAssignmentKeepsScopes(left, scopes);
      EvalWithoutAssignmentKeepsScopes(right, scopes);
    case ConditionalExpr(c, t, f) =>
      EvalWithoutAssignmentKeepsScopes(c, scopes);
      EvalWithoutAssignmentKeepsScopes(t, scopes);
      EvalWithoutAssignmentKeepsScopes(f, scopes);
    case UnaryExpr(_, operand) => EvalWithoutAssignmentKeepsScopes(operand, scopes);
    case _ =>
  }

  /**
   * `and` gives its left value when that is falsy and `or` when it is truthy,
   * whatever the right operand is; otherwise they give the right operand's
   * value, evaluated after the left one.
   */
  lemma ShortCircuit(left: Expr, op: Token, right: Expr, other: Expr, scopes: seq<Scope>)
    requires op.kind in {And, Or}
    requires Eval(left, scopes).result.Success?
    ensures var l := Eval(left, scopes);
      var decides := if op.kind == And then IsFalsy(l.result.value) else IsTruthy(l.result.value);
      && (decides ==> Eval(BinaryExpr(left, op, right), scopes) == l)
      && (decides ==> Eval(BinaryExpr(left, op, right), scopes) == Eval(BinaryExpr(left, op, other), scopes))
      && (!decides ==> Eval(BinaryExpr(left, op, right), scopes) == Eval(right, l.scopes))
  {
  }

  // ---------------------------------------------------------------------------
  // Blocks.

  /** A block drops its scope however it ends: afterwards every scope binds the names it bound before. */
  lemma BlockKeepsNames(stmts: seq<Stmt>, m: Machine, fuel: nat, numberText: real -> string)
    requires |m.scopes| > 0
    ensures SameNames(m.scopes, Exec(BlockStmt(stmts), m, fuel, numberText).machine.scopes)
  {
    var inner := [map[]] + m.scopes;
    var b := ExecBlock(stmts, m.(scopes := inner), fuel, numberText);
    var after := b.machine.scopes[1..];
    assert Exec(BlockStmt(stmts), m, fuel, numberText).machine.scopes == after;
    forall j | 0 <= j < |m.scopes|
      ensures after[j].Keys == m.scopes[j].Keys
    {
      assert after[j] == b.machine.scopes[j + 1] && inner[j + 1] == m.scopes[j];
    }
  }

  /** A variable declared inside a block is not visible after it. */
  lemma BlockDeclarationsDoNotEscape(stmts: seq<Stmt>, m: Machine, fuel: nat, numberText: real -> string, name: Token)
    requires |m.scopes| > 0 && Lookup(m.scopes, name).Failure?
    ensures Lookup(Exec(BlockStmt(stmts), m, fuel, numberText).machine.scopes, name) == Failure(Undefined(name))
  {
    var after := Exec(BlockStmt(stmts), m, fuel, numberText).machine.scopes;
    BlockKeepsNames(stmts, m, fuel, numberText);
    GetFailsOnlyWhenUnbound(m.scopes, name);
    assert forall j :: 0 <= j < |after| ==> name.lexeme !in after[j] by {
      forall j | 0 <= j < |after|
        ensures name.lexeme !in after[j]
      {
        assert after[j].Keys == m.scopes[j].Keys;
      }
    }
    GetFailsOnlyWhenUnbound(after, name);
  }

  /**
   * Whether running a statement can reach a variable declaration outside any
   * block of its own. A branch, a case body or a loop body runs in the
   * environment of the statement around it, so a declaration there counts.
   */
  predicate DeclaresHere(s: Stmt)
  {
    match s
    case VarStmt(_, _) => true
    case IfStmt(_, thenBranch, elseBranch) => DeclaresHere(thenBranch) || (elseBranch.Some? && DeclaresHere(elseBranch.value))
    case SwitchStmt(_, cases, defaultClause) =>
      (exists i :: 0 <= i < |cases| && DeclaresHere(cases[i].body)) || (defaultClause.Some? && DeclaresHere(defaultClause.value))
    case WhileStmt(_, body, increment) => DeclaresHere(body) || (increment.Some? && DeclaresHere(increment.value))
    case DoWhileStmt(body, _) => DeclaresHere(body)
    case _ => false
  }

  /**
   * Only a declaration adds a name: a statement that reaches no variable
   * declaration outside a block of its own leaves every scope of the chain
   * binding the names it bound.
   */
  lemma {:induction false} ExecKeepsNames(s: Stmt, m: Machine, fuel: nat, numberText: real -> string)
    requires |m.scopes| > 0 && !DeclaresHere(s)
    ensures SameNames(m.scopes, Exec(s, m, fuel, numberText).machine.scopes)
    decreases fuel, s, 1
  {
    match s
    case BlockStmt(stmts) =>
      BlockKeepsNames(stmts, m, fuel, numberText);
    case IfStmt(condition, thenBranch, elseBranch) =>
      var c := Eval(condition, m.scopes);
      if c.result.Success? {
        if IsTruthy(c.result.value) {
          ExecKeepsNames(thenBranch, m.(scopes := c.scopes), fuel, numberText);
        } else if elseBranch.Some? {
          ExecKeepsNames(elseBranch.value, m.(scopes := c.scopes), fuel, numberText);
        }
      }
    case SwitchStmt(subject, _, _) =>
      var v := Eval(subject, m.scopes);
      if v.result.Success? {
        CasesKeepNames(s, 0, v.result.value, m.(scopes := v.scopes), fuel, numberText);
      }
    case WhileStmt(_, _, _) =>
      WhileKeepsNames(s, m, fuel, numberText);
    case DoWhileStmt(_, _) =>
      DoWhileKeepsNames(s, m, fuel, numberText);
    case _ =>
  }

  /** The same for the case scan of a switch that declares nothing. */
  lemma {:induction false} CasesKeepNames(s: Stmt, i: nat, subject: Value, m: Machine, fuel: nat, numberText: real -> string)
    requires s.SwitchStmt? && i <= |s.cases| && |m.scopes| > 0 && !DeclaresHere(s)
    ensures SameNames(m.scopes, ExecCases(s, i, subject, m, fuel, numberText).machine.scopes)
    decreases fuel, s, 0, |s.cases| - i
  {
    if i == |s.cases| {
      if s.defaultClause.Some? {
        ExecKeepsNames(s.defaultClause.value, m, fuel, numberText);
      }
    } else {
      var c := Eval(s.cases[i].condition, m.scopes);
      if c.result.Success? {
        if ValuesEqual(c.result.value, subject) {
          assert s.cases[i] in s.cases;
          assert !DeclaresHere(s.cases[i].body);
          ExecKeepsNames(s.cases[i].body, m.(scopes := c.scopes), fuel, numberText);
        } else {
          CasesKeepNames(s, i + 1, subject, m.(scopes := c.scopes), fuel, numberText);
        }
      }
    }
  }

  /** The same for a while loop that declares nothing. */
  lemma {:induction false} WhileKeepsNames(s: Stmt, m: Machine, fuel: nat, numberText: real -> string)
    requires s.WhileStmt? && |m.scopes| > 0 && !DeclaresHere(s)
    ensures SameNames(m.scopes, ExecWhile(s, m, fuel, numberText).machine.scopes)
    decreases fuel, s, 0
  {
    var c := Eval(s.condition, m.scopes);
    if fuel > 0 && c.result.Success? && IsTruthy(c.result.value) {
      var b := Exec(s.body, m.(scopes := c.scopes), fuel - 1, numberText);
      ExecKeepsNames(s.body, m.(scopes := c.scopes), fuel - 1, numberText);
      AfterWhileBodyKeepsNames(s, b, fuel - 1, numberText);
    }
  }

  /** The same for the rest of an iteration of such a loop. */
  lemma {:induction false} AfterWhileBodyKeepsNames(s: Stmt, b: Executed, fuel: nat, numberText: real -> string)
    requires s.WhileStmt? && |b.machine.scopes| > 0 && !DeclaresHere(s)
    ensures SameNames(b.machine.scopes, AfterWhileBody(s, b, fuel, numberText).machine.scopes)
    decreases fuel, s, 1
  {
    if b.signal == Normal || (b.signal == ContinueSignal && s.increment.None?) {
      WhileKeepsNames(s, b.machine, fuel, numberText);
    } else if b.signal == ContinueSignal {
      var i := Exec(s.increment.value, b.machine, fuel, numberText);
      ExecKeepsNames(s.increment.value, b.machine, fuel, numberText);
      if i.signal == Normal {
        WhileKeepsNames(s, i.machine, fuel, numberText);
      }
    }
  }

  /** The same for a do-while loop that declares nothing. */
  lemma {:induction false} DoWhileKeepsNames(s: Stmt, m: Machine, fuel: nat, numberText: real -> string)
    requires s.DoWhileStmt? && |m.scopes| > 0 && !DeclaresHere(s)
    ensures SameNames(m.scopes, ExecDoWhile(s, m, fuel, numberText).machine.scopes)
    decreases fuel, s, 0
  {
    if fuel > 0 {
      var b := Exec(s.body, m, fuel - 1, numberText);
      ExecKeepsNames(s.body, m, fuel - 1, numberText);
      AfterDoWhileBodyKeepsNames(s, b, fuel - 1, numberText);
    }
  }

  /** The same for the rest of an iteration of such a loop. */
  lemma {:induction false} AfterDoWhileBodyKeepsNames(s: Stmt, b: Executed, fuel: nat, numberText: real -> string)
    requires s.DoWhileStmt? && |b.machine.scopes| > 0 && !DeclaresHere(s)
    ensures SameNames(b.machine.scopes, AfterDoWhileBody(s, b, fuel, numberText).machine.scopes)
    decreases fuel, s, 1
  {
    if b.signal == Normal || b.signal == ContinueSignal {
      var c := Eval(s.condition, b.machine.scopes);
      if c.result.Success? && IsTruthy(c.result.value) {
        DoWhileKeepsNames(s, b.machine.(scopes := c.scopes), fuel, numberText);
      }
    }
  }

  /** A declaration in the branch of an `if` is made in the scope around the `if`. */
  lemma IfBranchDeclares(name: Token, m: Machine, fuel: nat, numberText: real -> string)
    requires |m.scopes| > 0 && name.lexeme !in m.scopes[0]
    ensures var r := Exec(IfStmt(TrueLiteral, VarStmt(name, NilLiteral), None), m, fuel, numberText);
      r.signal == Normal && name.lexeme in r.machine.scopes[0]
  {
  }

  // ---------------------------------------------------------------------------
  // Loops.

  /** A while loop consumes every break of its body and its increment: it never finishes with one. */
  lemma {:induction false} WhileAbsorbsBreak(s: Stmt, m: Machine, fuel: nat, numberText: real -> string)
    requires s.WhileStmt? && |m.scopes| > 0
    ensures ExecWhile(s, m, fuel, numberText).signal != BreakSignal
    decreases fuel, 0
  {
    if fuel > 0 {
      var c := Eval(s.condition, m.scopes);
      if c.result.Success? && IsTruthy(c.result.value) {
        AfterBodyAbsorbsBreak(s, Exec(s.body, m.(scopes := c.scopes), fuel - 1, numberText), fuel - 1, numberText);
      }
    }
  }

  lemma {:induction false} AfterBodyAbsorbsBreak(s: Stmt, b: Executed, fuel: nat, numberText: real -> string)
    requires s.WhileStmt? && |b.machine.scopes| > 0
    ensures AfterWhileBody(s, b, fuel, numberText).signal != BreakSignal
    decreases fuel, 1
  {
    if b.signal == Normal || (b.signal == ContinueSignal && s.increment.None?) {
      WhileAbsorbsBreak(s, b.machine, fuel, numberText);
    } else if b.signal == ContinueSignal {
      var i := Exec(s.increment.value, b.machine, fuel, numberText);
      if i.signal == Normal {
        WhileAbsorbsBreak(s, i.machine, fuel, numberText);
      }
    }
  }

  /** A do-while loop never finishes with a break either. */
  lemma {:induction false} DoWhileAbsorbsBreak(s: Stmt, m: Machine, fuel: nat, numberText: real -> string)
    requires s.DoWhileStmt? && |m.scopes| > 0
    ensures ExecDoWhile(s, m, fuel, numberText).signal != BreakSignal
    decreases fuel
  {
    if fuel > 0 {
      var b := Exec(s.body, m, fuel - 1, numberText);
      if b.signal == Normal || b.signal == ContinueSignal {
        var c := Eval(s.condition, b.machine.scopes);
        if c.result.Success? && IsTruthy(c.result.value) {
          DoWhileAbsorbsBreak(s, b.machine.(scopes := c.scopes), fuel - 1, numberText);
        }
      }
    }
  }

  /** A do-while runs its body once before the first test, even when the condition is false. */
  lemma DoWhileRunsBodyFirst(body: Stmt, m: Machine, fuel: nat, numberText: real -> string)
    requires |m.scopes| > 0 && fuel > 0
    requires Exec(body, m, fuel - 1, numberText).signal == Normal
    ensures var b := Exec(body, m, fuel - 1, numberText);
      Exec(DoWhileStmt(body, FalseLiteral), m, fuel, numberText) == Executed(Normal, b.machine)
  {
    var s := DoWhileStmt(body, FalseLiteral);
    var b := Exec(body, m, fuel - 1, numberText);
    assert Eval(FalseLiteral, b.machine.scopes) == Evaluated(Success(BoolValue(false)), b.machine.scopes);
    assert AfterDoWhileBody(s, b, fuel - 1, numberText) == Executed(Normal, b.machine);
  }

  /** After a `continue`, the increment runs before the condition is tested again. */
  lemma ContinueRunsIncrement(s: Stmt, m: Machine, fuel: nat, numberText: real -> string)
    requires s.WhileStmt? && s.increment.Some? && |m.scopes| > 0 && fuel > 0
    requires var c := Eval(s.condition, m.scopes);
      c.result.Success? && IsTruthy(c.result.value)
      && Exec(s.body, m.(scopes := c.scopes), fuel - 1, numberText).signal == ContinueSignal
    ensures var c := Eval(s.condition, m.scopes);
      var b := Exec(s.body, m.(scopes := c.scopes), fuel - 1, numberText);
      var i := Exec(s.increment.value, b.machine, fuel - 1, numberText);
      && (i.signal == Normal ==> ExecWhile(s, m, fuel, numberText) == ExecWhile(s, i.machine, fuel - 1, numberText))
      && (i.signal != Normal && i.signal != BreakSignal ==> ExecWhile(s, m, fuel, numberText) == i)
      && (i.signal == BreakSignal ==> ExecWhile(s, m, fuel, numberText) == Executed(Normal, i.machine))
  {
  }

  // ---------------------------------------------------------------------------
  // Switch.

  /**
   * Case conditions k .. i evaluate without assignment and without failing;
   * those before i give values that differ from the subject, case i's equals it.
   */
  lemma {:induction false} CasesRunFirstMatch(s: Stmt, k: nat, i: nat, subject: Value, m: Machine, fuel: nat, numberText: real -> string)
    requires s.SwitchStmt? && k <= i < |s.cases| && |m.scopes| > 0
    requires forall j :: k <= j <= i ==> AssignmentFree(s.cases[j].condition) && Eval(s.cases[j].condition, m.scopes).result.Success?
    requires forall j :: k <= j < i ==> !ValuesEqual(Eval(s.cases[j].condition, m.scopes).result.value, subject)
    requires ValuesEqual(Eval(s.cases[i].condition, m.scopes).result.value, subject)
    ensures ExecCases(s, k, subject, m, fuel, numberText) == Exec(s.cases[i].body, m, fuel, numberText)
    decreases i - k
  {
    EvalWithoutAssignmentKeepsScopes(s.cases[k].condition, m.scopes);
    if k < i {
      CasesRunFirstMatch(s, k + 1, i, subject, m, fuel, numberText);
    }
  }

  /**
   * A switch whose case conditions evaluate without assignment and without
   * failing runs the body of the first case whose value equals the
   * subject's, and no other.
   */
  lemma SwitchRunsFirstMatch(s: Stmt, i: nat, m: Machine, fuel: nat, numberText: real -> string)
    requires s.SwitchStmt? && i < |s.cases| && |m.scopes| > 0
    requires Eval(s.subject, m.scopes).result.Success?
    requires var after := Eval(s.subject, m.scopes).scopes;
      forall j :: 0 <= j <= i ==> AssignmentFree(s.cases[j].condition) && Eval(s.cases[j].condition, after).result.Success?
    requires var v := Eval(s.subject, m.scopes); var after := v.scopes;
      && (forall j :: 0 <= j < i ==> !ValuesEqual(Eval(s.cases[j].condition, after).result.value, v.result.value))
      && ValuesEqual(Eval(s.cases[i].condition, after).result.value, v.result.value)
    ensures var v := Eval(s.subject, m.scopes);
      Exec(s, m, fuel, numberText) == Exec(s.cases[i].body, m.(scopes := v.scopes), fuel, numberText)
  {
    var v := Eval(s.subject, m.scopes);
    CasesRunFirstMatch(s, 0, i, v.result.value, m.(scopes := v.scopes), fuel, numberText);
  }

  /** Case conditions k.. evaluate without assignment and without failing, and none gives the subject's value. */
  lemma {:induction false} CasesFallToDefault(s: Stmt, k: nat, subject: Value, m: Machine, fuel: nat, numberText: real -> string)
    requires s.SwitchStmt? && k <= |s.cases| && |m.scopes| > 0
    requires forall j :: k <= j < |s.cases| ==> AssignmentFree(s.cases[j].condition) && Eval(s.cases[j].condition, m.scopes).result.Success?
    requires forall j :: k <= j < |s.cases| ==> !ValuesEqual(Eval(s.cases[j].condition, m.scopes).result.value, subject)
    ensures ExecCases(s, k, subject, m, fuel, numberText)
      == if s.defaultClause.Some? then Exec(s.defaultClause.value, m, fuel, numberText) else Executed(Normal, m)
    decreases |s.cases| - k
  {
    if k < |s.cases| {
      EvalWithoutAssignmentKeepsScopes(s.cases[k].condition, m.scopes);
      CasesFallToDefault(s, k + 1, subject, m, fuel, numberText);
    }
  }

  // ---------------------------------------------------------------------------
  // Interpret.

  /**
   * Interpret is the statements run in sequence, with a runtime error caught
   * and written to the error writer; everything else, the output written
   * before the error included, is what the sequence left.
   */
  lemma {:induction false} InterpretCatchesRuntimeErrors(stmts: seq<Stmt>, m: Machine, fuel: nat, numberText: real -> string)
    requires |m.scopes| > 0
    ensures var b := ExecBlock(stmts, m, fuel, numberText);
      Interpret(stmts, m, fuel, numberText)
      == if b.signal.Thrown? && b.signal.failure.RuntimeError?
         then Executed(Normal, b.machine.(errors := b.machine.errors + [b.signal.failure.message]))
         else b
    decreases stmts
  {
    if stmts != [] {
      var r := Exec(stmts[0], m, fuel, numberText);
      if r.signal == Normal {
        InterpretCatchesRuntimeErrors(stmts[1..], r.machine, fuel, numberText);
      }
    }
  }

  // ---------------------------------------------------------------------------
  // Fuel only cuts runs short: a run that finishes gives the same result with more fuel.

  lemma {:induction false} ExecMoreFuel(s: Stmt, m: Machine, fuel: nat, more: nat, numberText: real -> string)
    requires |m.scopes| > 0 && fuel <= more
    requires Exec(s, m, fuel, numberText).signal != OutOfFuel
    ensures Exec(s, m, more, numberText) == Exec(s, m, fuel, numberText)
    decreases fuel, s, 1
  {
    match s
    case BlockStmt(stmts) =>
      ExecBlockMoreFuel(stmts, m.(scopes := [map[]] + m.scopes), fuel, more, numberText);
    case IfStmt(condition, thenBranch, elseBranch) =>
      var c := Eval(condition, m.scopes);
      if c.result.Success? {
        if IsTruthy(c.result.value) {
          ExecMoreFuel(thenBranch, m.(scopes := c.scopes), fuel, more, numberText);
        } else if elseBranch.Some? {
          ExecMoreFuel(elseBranch.value, m.(scopes := c.scopes), fuel, more, numberText);
        }
      }
    case SwitchStmt(subject, _, _) =>
      var v := Eval(subject, m.scopes);
      if v.result.Success? {
        ExecCasesMoreFuel(s, 0, v.result.value, m.(scopes := v.scopes), fuel, more, numberText);
      }
    case WhileStmt(_, _, _) =>
      ExecWhileMoreFuel(s, m, fuel, more, numberText);
    case DoWhileStmt(_, _) =>
      ExecDoWhileMoreFuel(s, m, fuel, more, numberText);
    case _ =>
  }

  lemma {:induction false} ExecBlockMoreFuel(stmts: seq<Stmt>, m: Machine, fuel: nat, more: nat, numberText: real -> string)
    requires |m.scopes| > 0 && fuel <= more
    requires ExecBlock(stmts, m, fuel, numberText).signal != OutOfFuel
    ensures ExecBlock(stmts, m, more, numberText) == ExecBlock(stmts, m, fuel, numberText)
    decreases fuel, stmts, 0
  {
    if stmts != [] {
      var r := Exec(stmts[0], m, fuel, numberText);
      ExecMoreFuel(stmts[0], m, fuel, more, numberText);
      if r.signal == Normal {
        ExecBlockMoreFuel(stmts[1..], r.machine, fuel, more, numberText);
      }
    }
  }

  lemma {:induction false} ExecCasesMoreFuel(s: Stmt, i: nat, subject: Value, m: Machine, fuel: nat, more: nat, numberText: real -> string)
    requires s.SwitchStmt? && i <= |s.cases| && |m.scopes| > 0 && fuel <= more
    requires ExecCases(s, i, subject, m, fuel, numberText).signal != OutOfFuel
    ensures ExecCases(s, i, subject, m, more, numberText) == ExecCases(s, i, subject, m, fuel, numberText)
    decreases fuel, s, 0, |s.cases| - i
  {
    if i == |s.cases| {
      if s.defaultClause.Some? {
        ExecMoreFuel(s.defaultClause.value, m, fuel, more, numberText);
      }
    } else {
      var c := Eval(s.cases[i].condition, m.scopes);
      if c.result.Success? {
        if ValuesEqual(c.result.value, subject) {
          assert s.cases[i] in s.cases;
          ExecMoreFuel(s.cases[i].body, m.(scopes := c.scopes), fuel, more, numberText);
        } else {
          ExecCasesMoreFuel(s, i + 1, subject, m.(scopes := c.scopes), fuel, more, numberText);
        }
      }
    }
  }

  lemma {:induction false} ExecWhileMoreFuel(s: Stmt, m: Machine, fuel: nat, more: nat, numberText: real -> string)
    requires s.WhileStmt? && |m.scopes| > 0 && fuel <= more
    requires ExecWhile(s, m, fuel, numberText).signal != OutOfFuel
    ensures ExecWhile(s, m, more, numberText) == ExecWhile(s, m, fuel, numberText)
    decreases fuel, s, 0
  {
    var c := Eval(s.condition, m.scopes);
    if c.result.Success? && IsTruthy(c.result.value) {
      var b := Exec(s.body, m.(scopes := c.scopes), fuel - 1, numberText);
      ExecMoreFuel(s.body, m.(scopes := c.scopes), fuel - 1, more - 1, numberText);
      AfterWhileBodyMoreFuel(s, b, fuel - 1, more - 1, numberText);
    }
  }

  lemma {:induction false} AfterWhileBodyMoreFuel(s: Stmt, b: Executed, fuel: nat, more: nat, numberText: real -> string)
    requires s.WhileStmt? && |b.machine.scopes| > 0 && fuel <= more
    requires AfterWhileBody(s, b, fuel, numberText).signal != OutOfFuel
    ensures AfterWhileBody(s, b, more, numberText) == AfterWhileBody(s, b, fuel, numberText)
    decreases fuel, s, 1
  {
    if b.signal == Normal || (b.signal == ContinueSignal && s.increment.None?) {
      ExecWhileMoreFuel(s, b.machine, fuel, more, numberText);
    } else if b.signal == ContinueSignal {
      var i := Exec(s.increment.value, b.machine, fuel, numberText);
      ExecMoreFuel(s.increment.value, b.machine, fuel, more, numberText);
      if i.signal == Normal {
        ExecWhileMoreFuel(s, i.machine, fuel, more, numberText);
      }
    }
  }

  lemma {:induction false} ExecDoWhileMoreFuel(s: Stmt, m: Machine, fuel: nat, more: nat, numberText: real -> string)
    requires s.DoWhileStmt? && |m.scopes| > 0 && fuel <= more
    requires ExecDoWhile(s, m, fuel, numberText).signal != OutOfFuel
    ensures ExecDoWhile(s, m, more, numberText) == ExecDoWhile(s, m, fuel, numberText)
    decreases fuel, s, 0
  {
    var b := Exec(s.body, m, fuel - 1, numberText);
    AfterDoWhileBodyPassesOutOfFuel(s, b, fuel - 1, numberText);
    ExecMoreFuel(s.body, m, fuel - 1, more - 1, numberText);
    AfterDoWhileBodyMoreFuel(s, b, fuel - 1, more - 1, numberText);
  }

  /** A do-while body that ran out of fuel ends the loop out of fuel. */
  lemma AfterDoWhileBodyPassesOutOfFuel(s: Stmt, b: Executed, fuel: nat, numberText: real -> string)
    requires s.DoWhileStmt? && |b.machine.scopes| > 0
    ensures AfterDoWhileBody(s, b, fuel, numberText).signal != OutOfFuel ==> b.signal != OutOfFuel
  {
  }

  lemma {:induction false} AfterDoWhileBodyMoreFuel(s: Stmt, b: Executed, fuel: nat, more: nat, numberText: real -> string)
    requires s.DoWhileStmt? && |b.machine.scopes| > 0 && fuel <= more
    requires AfterDoWhileBody(s, b, fuel, numberText).signal != OutOfFuel
    ensures AfterDoWhileBody(s, b, more, numberText) == AfterDoWhileBody(s, b, fuel, numberText)
    decreases fuel, s, 1
  {
    if b.signal == Normal || b.signal == ContinueSignal {
      var c := Eval(s.condition, b.machine.scopes);
      if c.result.Success? && IsTruthy(c.result.value) {
        ExecDoWhileMoreFuel(s, b.machine.(scopes := c.scopes), fuel, more, numberText);
      }
    }
  }

  /** Interpret with more fuel gives the same result, once no loop ran out. */
  lemma {:induction false} InterpretMoreFuel(stmts: seq<Stmt>, m: Machine, fuel: nat, more: nat, numberText: real -> string)
    requires |m.scopes| > 0 && fuel <= more
    requires Interpret(stmts, m, fuel, numberText).signal != OutOfFuel
    ensures Interpret(stmts, m, more, numberText) == Interpret(stmts, m, fuel, numberText)
    decreases stmts
  {
    if stmts != [] {
      var r := Exec(stmts[0], m, fuel, numberText);
      ExecMoreFuel(stmts[0], m, fuel, more, numberText);
      if r.signal == Normal {
        InterpretMoreFuel(stmts[1..], r.machine, fuel, more, numberText);
      }
    }
  }
}
