/**
 * What the tree-walking interpreter computes, as functions over the scopes
 * of the current environment chain (innermost first) and the text written
 * so far. Exceptions become signals: break and continue, the runtime errors
 * Interpret reports, and the .NET exceptions nothing in the core catches.
 */
module Interpreting {
  import opened Wrappers
  import opened Tokens
  import opened Ast
  import opened Values
  import opened RuntimeErrors
  import opened Environments

  /** How a statement finished. */
  datatype Signal =
    | Normal
    | BreakSignal
    | ContinueSignal
    | Thrown(failure: Failure)
      // A return unwinding to the function call; no statement of this interpreter produces it.
    | Returned(value: Value)
      // Loop iterations are bounded by a fuel count; this is a run that used it all up.
    | OutOfFuel

  /** The interpreter's observable state: the environment chain and the two writers. */
  datatype Machine = Machine(scopes: seq<Scope>, output: seq<string>, errors: seq<string>)

  datatype Evaluated = Evaluated(result: Result<Value, Failure>, scopes: seq<Scope>)

  datatype Executed = Executed(signal: Signal, machine: Machine)

  // ---------------------------------------------------------------------------
  // Values and operators.

  /** Nil and false are falsy; every other value is truthy. */
  function IsFalsy(v: Value): (r: bool)
    ensures r ==> v.NilValue? || v.BoolValue?
    ensures v.NilValue? ==> r
    ensures v.BoolValue? ==> (r <==> !v.truth)
    ensures v.NumberValue? || v.StringValue? || v.FunctionValue? ==> !r
  {
    v.NilValue? || v == BoolValue(false)
  }

  /** Zero and the empty string are truthy too; a boolean is truthy when it is true. */
  function IsTruthy(v: Value): (r: bool)
    ensures v.NilValue? ==> !r
    ensures v.BoolValue? ==> (r <==> v.truth)
    ensures v.NumberValue? || v.StringValue? || v.FunctionValue? ==> r
  {
    !IsFalsy(v)
  }

  /** The name of a token type, as the .NET enum prints it. */
  function KindName(kind: TokenKind): string
  {
    match kind
    case Plus => "Plus" case Minus => "Minus" case Star => "Star" case Slash => "Slash"
    case Percent => "Percent" case Equal => "Equal" case Bang => "Bang" case Less => "Less"
    case Greater => "Greater" case LeftParen => "LeftParen" case RightParen => "RightParen"
    case LeftBrace => "LeftBrace" case RightBrace => "RightBrace" case Comma => "Comma"
    case Colon => "Colon" case SemiColon => "SemiColon" case Question => "Question"
    case LessEqual => "LessEqual" case EqualEqual => "EqualEqual" case BangEqual => "BangEqual"
    case GreaterEqual => "GreaterEqual" case And => "And" case Or => "Or"
    case Number => "Number" case Identifier => "Identifier" case String => "String"
    case Break => "Break" case Case => "Case" case Continue => "Continue" case Default => "Default"
    case Do => "Do" case Else => "Else" case False => "False" case For => "For"
    case Function => "Function" case If => "If" case Nil => "Nil" case Print => "Print"
    case Return => "Return" case Switch => "Switch" case True => "True" case Var => "Var"
    case While => "While" case Error => "Error" case Eof => "Eof"
  }

  function OperandsError(op: Token, left: Value, right: Value): Failure
  {
    RuntimeError(RuntimeErrorText(op,
      "Unsupported operand type(s) for '" + op.lexeme + "': '" + TypeName(left) + "' and '" + TypeName(right) + "'."))
  }

  function OperandError(op: Token, operand: Value): Failure
  {
    RuntimeError(RuntimeErrorText(op, "Bad operand type for unary '" + op.lexeme + "': '" + TypeName(operand) + "'."))
  }

  /** Truncation toward zero, as a .NET cast of a double quotient. */
  function Truncate(q: real): (r: int)
    ensures q >= 0.0 ==> r as real <= q < r as real + 1.0
    ensures q < 0.0 ==> r as real - 1.0 < q <= r as real
  {
    if q >= 0.0 then q.Floor else -((-q).Floor)
  }

  /**
   * The .NET remainder of doubles: what is left of the dividend after taking
   * away the divisor times the quotient truncated toward zero.
   */
  function Remainder(x: real, y: real): (r: real)
    requires y != 0.0
    ensures x == Truncate(x / y) as real * y + r
  {
    x - (Truncate(x / y) as real) * y
  }

  /**
   * The value of a binary operator other than `and` and `or`, applied to two
   * evaluated operands: arithmetic and comparison want two numbers (`+` also
   * joins two strings), equality works on any values, and the comma gives its
   * right operand.
   */
  function BinaryValue(op: Token, left: Value, right: Value): (r: Result<Value, Failure>)
    ensures op.kind in {Minus, Star, Less, LessEqual, Greater, GreaterEqual} ==>
      (r.Success? <==> left.NumberValue? && right.NumberValue?)
    ensures op.kind == Plus ==>
      (r.Success? <==> (left.NumberValue? && right.NumberValue?) || (left.StringValue? && right.StringValue?))
    ensures op.kind == Slash ==> (r.Success? <==> left.NumberValue? && right.NumberValue? && right.number != 0.0)
    ensures op.kind == Percent ==> (r.Success? <==> left.NumberValue? && right.NumberValue? && right.number != 0.0)
    ensures op.kind in {Plus, Minus, Star, Slash, Percent, Less, LessEqual, Greater, GreaterEqual} ==>
      (r.Failure? && !(left.NumberValue? && right.NumberValue?) ==> r.error == OperandsError(op, left, right))
    ensures op.kind in {EqualEqual, BangEqual, Comma} ==> r.Success?
    ensures r.Success? && op.kind in {Less, LessEqual, Greater, GreaterEqual, EqualEqual, BangEqual} ==> r.value.BoolValue?
    ensures r.Success? && op.kind in {Minus, Star, Slash, Percent} ==> r.value.NumberValue?
    ensures r.Success? && op.kind == Plus ==> (r.value.StringValue? <==> left.StringValue?)
    ensures op.kind == Comma ==> r == Success(right)
    ensures op.kind in {EqualEqual, BangEqual} ==> r.value.truth == (ValuesEqual(left, right) == (op.kind == EqualEqual))
    ensures op.kind !in {Plus, Minus, Star, Slash, Percent, Less, LessEqual, Greater, GreaterEqual, EqualEqual, BangEqual, Comma} ==>
      r.Failure? && r.error.InvalidOperation?
  {
    var numbers := left.NumberValue? && right.NumberValue?;
    match op.kind
    case Plus =>
      if left.StringValue? && right.StringValue? then Success(StringValue(left.text + right.text))
      else if numbers then Success(NumberValue(left.number + right.number))
      else Failure(OperandsError(op, left, right))
    case Minus => if numbers then Success(NumberValue(left.number - right.number)) else Failure(OperandsError(op, left, right))
    case Star => if numbers then Success(NumberValue(left.number * right.number)) else Failure(OperandsError(op, left, right))
    case Slash =>
      if !numbers then Failure(OperandsError(op, left, right))
      else if right.number == 0.0 then Failure(RuntimeError(RuntimeErrorText(op, "Division by 0.")))
      else Success(NumberValue(left.number / right.number))
    case Percent =>
      if !numbers then Failure(OperandsError(op, left, right))
      else if right.number == 0.0 then Failure(Unmodelled("a remainder by zero, which is NaN"))
      else Success(NumberValue(Remainder(left.number, right.number)))
    case Less => if numbers then Success(BoolValue(left.number < right.number)) else Failure(OperandsError(op, left, right))
    case LessEqual => if numbers then Success(BoolValue(left.number <= right.number)) else Failure(OperandsError(op, left, right))
    case Greater => if numbers then Success(BoolValue(left.number > right.number)) else Failure(OperandsError(op, left, right))
    case GreaterEqual => if numbers then Success(BoolValue(left.number >= right.number)) else Failure(OperandsError(op, left, right))
    case EqualEqual => Success(BoolValue(ValuesEqual(left, right)))
    case BangEqual => Success(BoolValue(!ValuesEqual(left, right)))
    case Comma => Success(right)
    case _ => Failure(InvalidOperation("Unsupported binary operator: '" + KindName(op.kind) + "'"))
  }

  function UnaryValue(op: Token, operand: Value): (r: Result<Value, Failure>)
    ensures op.kind == Minus ==> (r.Success? <==> operand.NumberValue?)
    ensures op.kind == Minus && r.Success? ==> r.value.NumberValue? && r.value.number + operand.number == 0.0
    ensures op.kind == Minus && r.Failure? ==> r.error == OperandError(op, operand)
    ensures op.kind == Bang ==> r.Success? && r.value.BoolValue? && (r.value.truth <==> !IsTruthy(operand))
    ensures op.kind !in {Minus, Bang} ==> r.Failure? && r.error.InvalidOperation?
  {
    match op.kind
    case Minus => if operand.NumberValue? then Success(NumberValue(-operand.number)) else Failure(OperandError(op, operand))
    case Bang => Success(BoolValue(IsFalsy(operand)))
    case _ => Failure(InvalidOperation("Unsupported unary operator: '" + KindName(op.kind) + "'"))
  }

  /** The name .NET gives the node's class, for the unsupported-node messages. */
  function StmtTypeName(s: Stmt): string
  {
    match s
    case ExprStmt(_) => "ExprStmt" case PrintStmt(_) => "PrintStmt" case VarStmt(_, _) => "VarStmt"
    case BlockStmt(_) => "BlockStmt" case IfStmt(_, _, _) => "IfStmt" case SwitchStmt(_, _, _) => "SwitchStmt"
    case WhileStmt(_, _, _) => "WhileStmt" case ForStmt(_, _, _, _) => "ForStmt"
    case DoWhileStmt(_, _) => "DoWhileStmt" case BreakStmt(_) => "BreakStmt"
    case ContinueStmt(_) => "ContinueStmt" case ReturnStmt(_, _) => "ReturnStmt"
    case FunctionStmt(_) => "FunctionStmt"
  }

  // ---------------------------------------------------------------------------
  // Names bound in a chain of scopes.

  /** The same number of scopes, each binding the same names (the values may differ). */
  predicate SameNames(a: seq<Scope>, b: seq<Scope>)
  {
    |a| == |b| && forall j :: 0 <= j < |a| ==> a[j].Keys == b[j].Keys
  }

  /** Like SameNames, except that the innermost scope of `b` may bind more names. */
  predicate MoreNamesHere(a: seq<Scope>, b: seq<Scope>)
  {
    && |a| == |b| && |a| > 0
    && a[0].Keys <= b[0].Keys
    && forall j :: 1 <= j < |a| ==> a[j].Keys == b[j].Keys
  }

  lemma AssignKeepsNames(scopes: seq<Scope>, name: Token, value: Value)
    requires AssignIn(scopes, name, value).Success?
    ensures SameNames(scopes, AssignIn(scopes, name, value).value)
  {
    var d := FindDepth(scopes, name.lexeme).value;
    assert scopes[d][name.lexeme := value].Keys == scopes[d].Keys;
  }

  // ---------------------------------------------------------------------------
  // Evaluation.

  /**
   * The value of an expression and the scopes after it; operands are
   * evaluated left to right, `and`/`or` skip the right operand when the left
   * one decides, and an assignment overwrites the nearest binding. An
   * evaluation never adds or removes a binding.
   */
  function Eval(e: Expr, scopes: seq<Scope>): (r: Evaluated)
    ensures SameNames(scopes, r.scopes)
  {
    match e
    case LiteralExpr(v) => Evaluated(Success(v), scopes)
    case GroupExpr(inner) => Eval(inner, scopes)
    case VarExpr(_, name) => Evaluated(Lookup(scopes, name), scopes)
    case AssignExpr(_, name, value) =>
      var v := Eval(value, scopes);
      if v.result.Failure? then v
      else
        (match AssignIn(v.scopes, name, v.result.value)
         case Failure(failure) => Evaluated(Failure(failure), v.scopes)
         case Success(after) =>
           AssignKeepsNames(v.scopes, name, v.result.value);
           Evaluated(v.result, after))
    case BinaryExpr(left, op, right) =>
      var l := Eval(left, scopes);
      if l.result.Failure? then l
      else if op.kind == And then (if IsFalsy(l.result.value) then l else Eval(right, l.scopes))
      else if op.kind == Or then (if IsTruthy(l.result.value) then l else Eval(right, l.scopes))
      else
        var r := Eval(right, l.scopes);
        if r.result.Failure? then r
        else Evaluated(BinaryValue(op, l.result.value, r.result.value), r.scopes)
    case ConditionalExpr(condition, thenExpr, elseExpr) =>
      var c := Eval(condition, scopes);
      if c.result.Failure? then c
      else if IsTruthy(c.result.value) then Eval(thenExpr, c.scopes)
      else Eval(elseExpr, c.scopes)
    case UnaryExpr(op, operand) =>
      var o := Eval(operand, scopes);
      if o.result.Failure? then o
      else Evaluated(UnaryValue(op, o.result.value), o.scopes)
    case CallExpr(_, _, _) =>
      Evaluated(Failure(ArgumentError("Cannot evaluate expression type 'CallExpr'.", "")), scopes)
  }

  // ---------------------------------------------------------------------------
  // Execution.

  function SignalOf(result: Result<Value, Failure>): Signal
  {
    if result.Failure? then Thrown(result.error) else Normal
  }

  /**
   * The effect of one statement. A block runs its statements in a new
   * innermost scope and drops it afterwards, however the block ended; a loop
   * iteration costs one unit of fuel. The chain keeps its depth and the names
   * of every enclosing scope (only a declaration adds a name, and only to the
   * innermost scope), the output only grows and the error writer is untouched.
   */
  function Exec(s: Stmt, m: Machine, fuel: nat, numberText: real -> string): (r: Executed)
    requires |m.scopes| > 0
    ensures MoreNamesHere(m.scopes, r.machine.scopes)
    ensures m.output <= r.machine.output && r.machine.errors == m.errors
    decreases fuel, s, 1
  {
    match s
    case ExprStmt(e) =>
      var v := Eval(e, m.scopes);
      Executed(SignalOf(v.result), m.(scopes := v.scopes))
    case PrintStmt(e) =>
      var v := Eval(e, m.scopes);
      if v.result.Failure? then Executed(Thrown(v.result.error), m.(scopes := v.scopes))
      else Executed(Normal, m.(scopes := v.scopes, output := m.output + [ValueText(v.result.value, numberText)]))
    case VarStmt(name, initializer) =>
      var v := Eval(initializer, m.scopes);
      if v.result.Failure? then Executed(Thrown(v.result.error), m.(scopes := v.scopes))
      else
        (match DefineIn(v.scopes, name, v.result.value)
         case Failure(failure) => Executed(Thrown(failure), m.(scopes := v.scopes))
         case Success(after) => Executed(Normal, m.(scopes := after)))
    case BlockStmt(stmts) =>
      var r := ExecBlock(stmts, m.(scopes := [map[]] + m.scopes), fuel, numberText);
      Executed(r.signal, r.machine.(scopes := r.machine.scopes[1..]))
    case IfStmt(condition, thenBranch, elseBranch) =>
      var c := Eval(condition, m.scopes);
      var m' := m.(scopes := c.scopes);
      if c.result.Failure? then Executed(Thrown(c.result.error), m')
      else if IsTruthy(c.result.value) then Exec(thenBranch, m', fuel, numberText)
      else if elseBranch.Some? then Exec(elseBranch.value, m', fuel, numberText)
      else Executed(Normal, m')
    case SwitchStmt(subject, cases, _) =>
      var v := Eval(subject, m.scopes);
      if v.result.Failure? then Executed(Thrown(v.result.error), m.(scopes := v.scopes))
      else ExecCases(s, 0, v.result.value, m.(scopes := v.scopes), fuel, numberText)
    case WhileStmt(_, _, _) => ExecWhile(s, m, fuel, numberText)
    case DoWhileStmt(_, _) => ExecDoWhile(s, m, fuel, numberText)
    case BreakStmt(_) => Executed(BreakSignal, m)
    case ContinueStmt(_) => Executed(ContinueSignal, m)
    case _ => Executed(Thrown(ArgumentError("Cannot execute statement type '" + StmtTypeName(s) + ".", "")), m)
  }

  /** The statements of a block, in order, up to the first that does not finish normally. */
  function ExecBlock(stmts: seq<Stmt>, m: Machine, fuel: nat, numberText: real -> string): (r: Executed)
    requires |m.scopes| > 0
    ensures MoreNamesHere(m.scopes, r.machine.scopes)
    ensures m.output <= r.machine.output && r.machine.errors == m.errors
    decreases fuel, stmts, 0
  {
    if stmts == [] then Executed(Normal, m)
    else
      var r := Exec(stmts[0], m, fuel, numberText);
      if r.signal != Normal then r else ExecBlock(stmts[1..], r.machine, fuel, numberText)
  }

  /** The switch from case `i` on: the first case whose value equals the subject runs, else the default. */
  function ExecCases(s: Stmt, i: nat, subject: Value, m: Machine, fuel: nat, numberText: real -> string): (r: Executed)
    requires s.SwitchStmt? && i <= |s.cases| && |m.scopes| > 0
    ensures MoreNamesHere(m.scopes, r.machine.scopes)
    ensures m.output <= r.machine.output && r.machine.errors == m.errors
    decreases fuel, s, 0, |s.cases| - i
  {
    if i == |s.cases| then
      if s.defaultClause.Some? then Exec(s.defaultClause.value, m, fuel, numberText) else Executed(Normal, m)
    else
      var c := Eval(s.cases[i].condition, m.scopes);
      var m' := m.(scopes := c.scopes);
      if c.result.Failure? then Executed(Thrown(c.result.error), m')
      else if ValuesEqual(c.result.value, subject) then
        assert s.cases[i] in s.cases;
        Exec(s.cases[i].body, m', fuel, numberText)
      else ExecCases(s, i + 1, subject, m', fuel, numberText)
  }

  /**
   * A while loop: the condition, then the body, until the condition is falsy
   * or the body breaks; after a `continue` the increment (when there is one)
   * runs before the next test. A break in the increment ends the loop too.
   */
  function ExecWhile(s: Stmt, m: Machine, fuel: nat, numberText: real -> string): (r: Executed)
    requires s.WhileStmt? && |m.scopes| > 0
    ensures MoreNamesHere(m.scopes, r.machine.scopes)
    ensures m.output <= r.machine.output && r.machine.errors == m.errors
    decreases fuel, s, 0
  {
    if fuel == 0 then Executed(OutOfFuel, m)
    else
      var c := Eval(s.condition, m.scopes);
      var m' := m.(scopes := c.scopes);
      if c.result.Failure? then Executed(Thrown(c.result.error), m')
      else if IsFalsy(c.result.value) then Executed(Normal, m')
      else
        AfterWhileBody(s, Exec(s.body, m', fuel - 1, numberText), fuel - 1, numberText)
  }

  /** The rest of a while-loop iteration, from how its body finished. */
  function AfterWhileBody(s: Stmt, b: Executed, fuel: nat, numberText: real -> string): (r: Executed)
    requires s.WhileStmt? && |b.machine.scopes| > 0
    ensures MoreNamesHere(b.machine.scopes, r.machine.scopes)
    ensures b.machine.output <= r.machine.output && r.machine.errors == b.machine.errors
    decreases fuel, s, 1
  {
    match b.signal
    case Normal => ExecWhile(s, b.machine, fuel, numberText)
    case BreakSignal => Executed(Normal, b.machine)
    case ContinueSignal =>
      if s.increment.None? then ExecWhile(s, b.machine, fuel, numberText)
      else
        var i := Exec(s.increment.value, b.machine, fuel, numberText);
        if i.signal == Normal then ExecWhile(s, i.machine, fuel, numberText)
        else if i.signal == BreakSignal then Executed(Normal, i.machine)
        else i
    case _ => b
  }

  /** A do-while loop: the body first, then the test; `continue` goes to the test. */
  function ExecDoWhile(s: Stmt, m: Machine, fuel: nat, numberText: real -> string): (r: Executed)
    requires s.DoWhileStmt? && |m.scopes| > 0
    ensures MoreNamesHere(m.scopes, r.machine.scopes)
    ensures m.output <= r.machine.output && r.machine.errors == m.errors
    decreases fuel, s, 0
  {
    if fuel == 0 then Executed(OutOfFuel, m)
    else AfterDoWhileBody(s, Exec(s.body, m, fuel - 1, numberText), fuel - 1, numberText)
  }

  /** The rest of a do-while iteration, from how its body finished. */
  function AfterDoWhileBody(s: Stmt, b: Executed, fuel: nat, numberText: real -> string): (r: Executed)
    requires s.DoWhileStmt? && |b.machine.scopes| > 0
    ensures MoreNamesHere(b.machine.scopes, r.machine.scopes)
    ensures b.machine.output <= r.machine.output && r.machine.errors == b.machine.errors
    decreases fuel, s, 1
  {
    if b.signal == BreakSignal then Executed(Normal, b.machine)
    else if b.signal != Normal && b.signal != ContinueSignal then b
    else
      var c := Eval(s.condition, b.machine.scopes);
      var m' := b.machine.(scopes := c.scopes);
      if c.result.Failure? then Executed(Thrown(c.result.error), m')
      else if IsTruthy(c.result.value) then ExecDoWhile(s, m', fuel, numberText)
      else Executed(Normal, m')
  }

  /**
   * Interpret: the statements in order; a runtime error is written to the
   * error writer and ends the run; any other exception escapes, and is the
   * signal returned.
   */
  function Interpret(stmts: seq<Stmt>, m: Machine, fuel: nat, numberText: real -> string): (r: Executed)
    requires |m.scopes| > 0
    ensures MoreNamesHere(m.scopes, r.machine.scopes) && m.output <= r.machine.output
    ensures r.signal != Normal ==> r.machine.errors == m.errors
    decreases stmts
  {
    if stmts == [] then Executed(Normal, m)
    else
      var r := Exec(stmts[0], m, fuel, numberText);
      match r.signal
      case Normal => Interpret(stmts[1..], r.machine, fuel, numberText)
      case Thrown(RuntimeError(message)) => Executed(Normal, r.machine.(errors := r.machine.errors + [message]))
      case _ => r
  }
}

/**
 * The tree-walking interpreter: the current environment, which a block
 * replaces for its duration and restores however it ends, and the text
 * written to the output and error writers.
 */
module TreeWalk {
  import opened Wrappers
  import opened Tokens
  import opened Ast
  import opened Values
  import opened RuntimeErrors
  import opened Environments
  import opened Interpreting

  class TreeWalkInterpreter {
    var env: Environment
    var output: seq<string>
    var errors: seq<string>
    /** How a number prints: the invariant-culture text of a double. */
    const numberText: real -> string

    ghost predicate Valid()
      reads this
    {
      env.Valid()
    }

    ghost function State(): (m: Machine)
      requires Valid()
      reads this, env.Repr()
    {
      Machine(env.Scopes(), output, errors)
    }

    /** A fresh interpreter: one empty global scope and nothing written. */
    constructor(numberText: real -> string)
      ensures Valid() && State() == Machine([map[]], [], []) && this.numberText == numberText
    {
      env := new Environment(null);
      output := [];
      errors := [];
      this.numberText := numberText;
    }

    /** Run the statements in order; a runtime error is reported and ends the run. */
    method Interpret(stmts: seq<Stmt>, fuel: nat) returns (signal: Signal)
      requires Valid()
      modifies this, env.Repr()
      ensures Valid() && env == old(env)
      ensures Executed(signal, State()) == Interpreting.Interpret(stmts, old(State()), fuel, numberText)
    {
      var i := 0;
      while i < |stmts|
        invariant i <= |stmts| && Valid() && env == old(env)
        invariant Interpreting.Interpret(stmts[i..], State(), fuel, numberText)
          == Interpreting.Interpret(stmts, old(State()), fuel, numberText)
      {
        signal := Execute(stmts[i], fuel);
        if signal.Thrown? && signal.failure.RuntimeError? {
          errors := errors + [signal.failure.message];
          return Normal;
        } else if signal != Normal {
          return;
        }
        i := i + 1;
      }
      return Normal;
    }

    method Execute(s: Stmt, fuel: nat) returns (signal: Signal)
      requires Valid()
      modifies this, env.Repr()
      ensures Valid() && env == old(env)
      ensures Executed(signal, State()) == Exec(s, old(State()), fuel, numberText)
      decreases fuel, s, 2
    {
      match s
      case ExprStmt(e) =>
        var r := Eval(e);
        signal := SignalOf(r);
      case PrintStmt(_) =>
        signal := ExecutePrint(s);
      case VarStmt(_, _) =>
        signal := ExecuteVar(s);
      case BlockStmt(_) =>
        signal := ExecuteBlockStmt(s, fuel);
      case IfStmt(_, _, _) =>
        signal := ExecuteIf(s, fuel);
      case SwitchStmt(_, _, _) =>
        signal := ExecuteSwitch(s, fuel);
      case WhileStmt(_, _, _) =>
        signal := ExecuteWhile(s, fuel);
      case DoWhileStmt(_, _) =>
        signal := ExecuteDoWhile(s, fuel);
      case BreakStmt(_) =>
        signal := BreakSignal;
      case ContinueStmt(_) =>
        signal := ContinueSignal;
      case _ =>
        signal := Thrown(ArgumentError("Cannot execute statement type '" + StmtTypeName(s) + ".", ""));
    }

    /** A block runs in a new scope inside the current one. */
    method ExecuteBlockStmt(s: Stmt, fuel: nat) returns (signal: Signal)
      requires s.BlockStmt? && Valid()
      modifies this, env.Repr()
      ensures Valid() && env == old(env)
      ensures Executed(signal, State()) == Exec(s, old(State()), fuel, numberText)
      decreases fuel, s, 0
    {
      var inner := new Environment(env);
      signal := ExecuteBlock(s.stmts, inner, fuel);
    }

    method ExecutePrint(s: Stmt) returns (signal: Signal)
      requires s.PrintStmt? && Valid()
      modifies this, env.Repr()
      ensures Valid() && env == old(env)
      ensures Executed(signal, State()) == Exec(s, old(State()), 0, numberText)
    {
      var r := Eval(s.expr);
      if r.Failure? {
        return Thrown(r.error);
      }
      output := output + [ValueText(r.value, numberText)];
      signal := Normal;
    }

    method ExecuteVar(s: Stmt) returns (signal: Signal)
      requires s.VarStmt? && Valid()
      modifies this, env.Repr()
      ensures Valid() && env == old(env)
      ensures Executed(signal, State()) == Exec(s, old(State()), 0, numberText)
    {
      var r := Eval(s.initializer);
      if r.Failure? {
        return Thrown(r.error);
      }
      var failure := env.Define(s.name, r.value);
      signal := if failure.Some? then Thrown(failure.value) else Normal;
    }

    method ExecuteIf(s: Stmt, fuel: nat) returns (signal: Signal)
      requires s.IfStmt? && Valid()
      modifies this, env.Repr()
      ensures Valid() && env == old(env)
      ensures Executed(signal, State()) == Exec(s, old(State()), fuel, numberText)
      decreases fuel, s, 0
    {
      var c := Eval(s.condition);
      if c.Failure? {
        return Thrown(c.error);
      }
      if IsTruthy(c.value) {
        signal := Execute(s.thenBranch, fuel);
      } else if s.elseBranch.Some? {
        signal := Execute(s.elseBranch.value, fuel);
      } else {
        signal := Normal;
      }
    }

    /** Run the statements with `environment` as the current one, then restore the previous one. */
    method ExecuteBlock(stmts: seq<Stmt>, environment: Environment, fuel: nat) returns (signal: Signal)
      requires Valid() && environment.Valid()
      modifies this, environment.Repr()
      ensures Valid() && env == old(env)
      ensures Executed(signal, Machine(environment.Scopes(), output, errors))
        == ExecBlock(stmts, old(Machine(environment.Scopes(), output, errors)), fuel, numberText)
      decreases fuel, stmts, 1
    {
      var previous := env;
      env := environment;
      signal := ExecuteStatements(stmts, fuel);
      env := previous;
    }

    /** The statements in order in the current environment, up to the first that does not finish normally. */
    method ExecuteStatements(stmts: seq<Stmt>, fuel: nat) returns (signal: Signal)
      requires Valid()
      modifies this, env.Repr()
      ensures Valid() && env == old(env)
      ensures Executed(signal, State()) == ExecBlock(stmts, old(State()), fuel, numberText)
      decreases fuel, stmts, 0
    {
      var i := 0;
      while i < |stmts|
        invariant i <= |stmts| && Valid() && env == old(env)
        invariant ExecBlock(stmts[i..], State(), fuel, numberText) == ExecBlock(stmts, old(State()), fuel, numberText)
      {
        assert stmts[i..][1..] == stmts[i + 1..];
        signal := Execute(stmts[i], fuel);
        if signal != Normal {
          return;
        }
        i := i + 1;
      }
      signal := Normal;
    }

    method ExecuteSwitch(s: Stmt, fuel: nat) returns (signal: Signal)
      requires s.SwitchStmt? && Valid()
      modifies this, env.Repr()
      ensures Valid() && env == old(env)
      ensures Executed(signal, State()) == Exec(s, old(State()), fuel, numberText)
      decreases fuel, s, 0
    {
      var subject := Eval(s.subject);
      if subject.Failure? {
        return Thrown(subject.error);
      }
      var i := 0;
      while i < |s.cases|
        invariant i <= |s.cases| && Valid() && env == old(env)
        invariant ExecCases(s, i, subject.value, State(), fuel, numberText) == Exec(s, old(State()), fuel, numberText)
      {
        var c := Eval(s.cases[i].condition);
        if c.Failure? {
          return Thrown(c.error);
        }
        if ValuesEqual(c.value, subject.value) {
          assert s.cases[i] in s.cases;
          signal := Execute(s.cases[i].body, fuel);
          return;
        }
        i := i + 1;
      }
      if s.defaultClause.Some? {
        signal := Execute(s.defaultClause.value, fuel);
      } else {
        signal := Normal;
      }
    }

    method ExecuteWhile(s: Stmt, fuel: nat) returns (signal: Signal)
      requires s.WhileStmt? && Valid()
      modifies this, env.Repr()
      ensures Valid() && env == old(env)
      ensures Executed(signal, State()) == Exec(s, old(State()), fuel, numberText)
      decreases fuel, s, 1
    {
      var k: nat := fuel;
      while true
        invariant k <= fuel && Valid() && env == old(env)
        invariant ExecWhile(s, State(), k, numberText) == Exec(s, old(State()), fuel, numberText)
        decreases k
      {
        if k == 0 {
          return OutOfFuel;
        }
        var again;
        signal, again := WhilePass(s, k);
        if !again {
          return;
        }
        k := k - 1;
      }
    }

    /**
     * One pass of a while-loop with k passes left: the test, the body, and
     * after a `continue` the increment; `again` says whether the loop goes on.
     */
    method WhilePass(s: Stmt, k: nat) returns (signal: Signal, again: bool)
      requires s.WhileStmt? && Valid() && k > 0
      modifies this, env.Repr()
      ensures Valid() && env == old(env)
      ensures again ==> ExecWhile(s, State(), k - 1, numberText) == ExecWhile(s, old(State()), k, numberText)
      ensures !again ==> Executed(signal, State()) == ExecWhile(s, old(State()), k, numberText)
      decreases k, s, 0
    {
      ghost var before := State();
      var c := Eval(s.condition);
      if c.Failure? {
        return Thrown(c.error), false;
      }
      if IsFalsy(c.value) {
        return Normal, false;
      }
      assert ExecWhile(s, before, k, numberText) == AfterWhileBody(s, Exec(s.body, State(), k - 1, numberText), k - 1, numberText);
      signal, again := WhileBodyPass(s, k);
    }

    /** The body of one while-loop iteration and what its signal does: break, continue (with the increment), or escape. */
    method WhileBodyPass(s: Stmt, k: nat) returns (signal: Signal, again: bool)
      requires s.WhileStmt? && Valid() && k > 0
      modifies this, env.Repr()
      ensures Valid() && env == old(env)
      ensures var after := AfterWhileBody(s, Exec(s.body, old(State()), k - 1, numberText), k - 1, numberText);
        && (again ==> ExecWhile(s, State(), k - 1, numberText) == after)
        && (!again ==> Executed(signal, State()) == after)
      decreases k, s.body, 0
    {
      var b := Execute(s.body, k - 1);
      ghost var body := Executed(b, State());
      if b == BreakSignal {
        return Normal, false;
      } else if b == ContinueSignal && s.increment.Some? {
        var i := Execute(s.increment.value, k - 1);
        assert Executed(i, State()) == Exec(s.increment.value, body.machine, k - 1, numberText);
        if i == BreakSignal {
          return Normal, false;
        } else if i != Normal {
          return i, false;
        }
      } else if b != Normal && b != ContinueSignal {
        return b, false;
      }
      return Normal, true;
    }

    method ExecuteDoWhile(s: Stmt, fuel: nat) returns (signal: Signal)
      requires s.DoWhileStmt? && Valid()
      modifies this, env.Repr()
      ensures Valid() && env == old(env)
      ensures Executed(signal, State()) == Exec(s, old(State()), fuel, numberText)
      decreases fuel, s, 1
    {
      var k: nat := fuel;
      while true
        invariant k <= fuel && Valid() && env == old(env)
        invariant ExecDoWhile(s, State(), k, numberText) == Exec(s, old(State()), fuel, numberText)
        decreases k
      {
        if k == 0 {
          return OutOfFuel;
        }
        var again;
        signal, again := DoWhilePass(s, k);
        if !again {
          return;
        }
        k := k - 1;
      }
    }

    /**
     * One pass of a do-while loop with k passes left: the body, then the
     * test; `again` says whether the loop goes on.
     */
    method DoWhilePass(s: Stmt, k: nat) returns (signal: Signal, again: bool)
      requires s.DoWhileStmt? && Valid() && k > 0
      modifies this, env.Repr()
      ensures Valid() && env == old(env)
      ensures again ==> ExecDoWhile(s, State(), k - 1, numberText) == ExecDoWhile(s, old(State()), k, numberText)
      ensures !again ==> Executed(signal, State()) == ExecDoWhile(s, old(State()), k, numberText)
      decreases k, s, 0
    {
      ghost var before := State();
      var b := Execute(s.body, k - 1);
      assert ExecDoWhile(s, before, k, numberText) == AfterDoWhileBody(s, Executed(b, State()), k - 1, numberText);
      if b == BreakSignal {
        return Normal, false;
      } else if b != Normal && b != ContinueSignal {
        return b, false;
      }
      var c := Eval(s.condition);
      if c.Failure? {
        return Thrown(c.error), false;
      }
      if !IsTruthy(c.value) {
        return Normal, false;
      }
      return Normal, true;
    }

    method Eval(e: Expr) returns (r: Result<Value, Failure>)
      requires Valid()
      modifies env.Repr()
      ensures Evaluated(r, env.Scopes()) == Interpreting.Eval(e, old(env.Scopes()))
      decreases e, 1
    {
      match e
      case LiteralExpr(v) =>
        r := Success(v);
      case GroupExpr(inner) =>
        r := Eval(inner);
      case VarExpr(_, name) =>
        r := env.Get(name);
      case AssignExpr(_, _, _) =>
        r := EvalAssign(e);
      case BinaryExpr(_, _, _) =>
        r := EvalBinary(e);
      case ConditionalExpr(_, _, _) =>
        r := EvalConditional(e);
      case UnaryExpr(_, _) =>
        r := EvalUnary(e);
      case CallExpr(_, _, _) =>
        r := Failure(ArgumentError("Cannot evaluate expression type 'CallExpr'.", ""));
    }

    /** The value is evaluated first, then assigned to the nearest binding of the name. */
    method EvalAssign(e: Expr) returns (r: Result<Value, Failure>)
      requires e.AssignExpr? && Valid()
      modifies env.Repr()
      ensures Evaluated(r, env.Scopes()) == Interpreting.Eval(e, old(env.Scopes()))
      decreases e, 0
    {
      r := Eval(e.value);
      if r.Success? {
        var failure := env.Assign(e.name, r.value);
        if failure.Some? {
          r := Failure(failure.value);
        }
      }
    }

    method EvalConditional(e: Expr) returns (r: Result<Value, Failure>)
      requires e.ConditionalExpr? && Valid()
      modifies env.Repr()
      ensures Evaluated(r, env.Scopes()) == Interpreting.Eval(e, old(env.Scopes()))
      decreases e, 0
    {
      var c := Eval(e.condition);
      if c.Failure? {
        return c;
      }
      if IsTruthy(c.value) {
        r := Eval(e.thenExpr);
      } else {
        r := Eval(e.elseExpr);
      }
    }

    /** The operand is evaluated before the operator is looked at. */
    method EvalUnary(e: Expr) returns (r: Result<Value, Failure>)
      requires e.UnaryExpr? && Valid()
      modifies env.Repr()
      ensures Evaluated(r, env.Scopes()) == Interpreting.Eval(e, old(env.Scopes()))
      decreases e, 0
    {
      var o := Eval(e.operand);
      if o.Failure? {
        return o;
      }
      r := UnaryValue(e.op, o.value);
    }

    /** `and` and `or` evaluate the right operand only when the left one does not decide. */
    method EvalBinary(e: Expr) returns (r: Result<Value, Failure>)
      requires e.BinaryExpr? && Valid()
      modifies env.Repr()
      ensures Evaluated(r, env.Scopes()) == Interpreting.Eval(e, old(env.Scopes()))
      decreases e, 0
    {
      var l := Eval(e.left);
      if l.Failure? {
        return l;
      }
      if e.op.kind == And {
        if IsFalsy(l.value) {
          return l;
        }
        r := Eval(e.right);
        return;
      }
      if e.op.kind == Or {
        if IsTruthy(l.value) {
          return l;
        }
        r := Eval(e.right);
        return;
      }
      var right := Eval(e.right);
      if right.Failure? {
        return right;
      }
      r := BinaryValue(e.op, l.value, right.value);
    }
  }
}
