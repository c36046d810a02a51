/**
 * The ToString methods of the syntax-tree nodes: a fully parenthesised
 * printer that the parser tests compare against.
 */
module AstPrinter {
  import opened Wrappers
  import opened Tokens
  import opened Ast
  import opened Values

  /**
   * What the printer takes from outside the modelled nodes: the text of a
   * number (the invariant-culture formatting of a double) and the text of a
   * grouping node around its inner text.
   */
  datatype Format = Format(number: real -> string, group: string -> string)

  /**
   * An expression's text: a literal prints as its value, a name as itself,
   * and every operator node as one parenthesised form.
   */
  function ExprText(e: Expr, f: Format): (r: string)
    ensures e.LiteralExpr? ==> r == ValueText(e.literal, f.number)
    ensures e.VarExpr? ==> r == e.name.lexeme
    ensures e.AssignExpr? || e.BinaryExpr? || e.ConditionalExpr? || e.UnaryExpr? || e.CallExpr? ==>
      |r| >= 2 && r[0] == '(' && r[|r| - 1] == ')'
  {
    match e
    case LiteralExpr(v) => ValueText(v, f.number)
    case GroupExpr(inner) => f.group(ExprText(inner, f))
    case VarExpr(_, name) => name.lexeme
    case AssignExpr(_, name, value) => "(" + name.lexeme + " = " + ExprText(value, f) + ")"
    case BinaryExpr(left, op, right) => "(" + ExprText(left, f) + " " + op.lexeme + " " + ExprText(right, f) + ")"
    case ConditionalExpr(c, t, e) => "(" + ExprText(c, f) + " ? " + ExprText(t, f) + " : " + ExprText(e, f) + ")"
    case UnaryExpr(op, operand) => "(" + op.lexeme + " " + ExprText(operand, f) + ")"
    case CallExpr(callee, _, args) =>
      if |args| == 0 then "(call " + ExprText(callee, f) + ")"
      else "(call " + ExprText(callee, f) + ArgsText(args, f) + " )"
  }

  /** One " ARG" segment per argument, in order. */
  function ArgsText(args: seq<Expr>, f: Format): string
  {
    if args == [] then "" else ArgsText(args[..|args| - 1], f) + " " + ExprText(args[|args| - 1], f)
  }

  /** The parameter names joined by ", ". */
  function ParamsText(params: seq<Token>): string
  {
    if |params| == 0 then ""
    else if |params| == 1 then params[0].lexeme
    else ParamsText(params[..|params| - 1]) + ", " + params[|params| - 1].lexeme
  }

  /** Each statement of a block followed by one space. */
  function BlockItemsText(stmts: seq<Stmt>, f: Format): string
    decreases stmts, 0
  {
    if stmts == [] then "" else BlockItemsText(stmts[..|stmts| - 1], f) + StmtText(stmts[|stmts| - 1], f) + " "
  }

  function BlockText(stmts: seq<Stmt>, f: Format): string
    decreases stmts, 1
  {
    "{ " + BlockItemsText(stmts, f) + "}"
  }

  /** One " (case C : S)" segment per case clause, in order. */
  function CasesText(cases: seq<CaseClause>, f: Format): string
  {
    if cases == [] then "" else CasesText(cases[..|cases| - 1], f) + CaseText(cases[|cases| - 1], f)
  }

  function CaseText(c: CaseClause, f: Format): string
  {
    " (case " + ExprText(c.condition, f) + " : " + StmtText(c.body, f) + ")"
  }

  /** The statements that print as one parenthesised form. */
  predicate Parenthesised(s: Stmt)
  {
    !(s.ExprStmt? || s.BlockStmt? || s.BreakStmt? || s.ContinueStmt?)
  }

  /**
   * A statement's text: an expression statement prints as its expression, a
   * block in braces, break and continue as their keyword, and every other
   * statement as one parenthesised form headed by its word.
   */
  function StmtText(s: Stmt, f: Format): (r: string)
    ensures Parenthesised(s) ==> |r| >= 2 && r[0] == '(' && r[|r| - 1] == ')'
  {
    match s
    case ExprStmt(e) => ExprText(e, f)
    case PrintStmt(e) => "(print " + ExprText(e, f) + ")"
    case VarStmt(name, init) => "(var " + name.lexeme + " = " + ExprText(init, f) + ")"
    case BlockStmt(stmts) => BlockText(stmts, f)
    case IfStmt(c, t, e) =>
      "(if (" + ExprText(c, f) + ") (then " + StmtText(t, f) + ")"
      + (if e.None? then " )" else " (else " + StmtText(e.value, f) + ") )")
    case SwitchStmt(subject, cases, d) =>
      "(switch (" + ExprText(subject, f) + ")" + CasesText(cases, f)
      + (if d.Some? then " (default : " + StmtText(d.value, f) + ")" else "")
      + " )"
    case WhileStmt(c, body, _) => "(while (" + ExprText(c, f) + ") " + StmtText(body, f) + " )"
    case ForStmt(init, c, incr, body) =>
      "(for " + (if init.Some? then StmtText(init.value, f) else "()") + " "
      + ExprText(c, f) + " "
      + (if incr.Some? then ExprText(incr.value, f) else "()") + " "
      + StmtText(body, f) + ")"
    case DoWhileStmt(body, c) => "(do " + StmtText(body, f) + " while (" + ExprText(c, f) + ") )"
    case BreakStmt(_) => "break"
    case ContinueStmt(_) => "continue"
    case ReturnStmt(_, e) => "(return " + ExprText(e, f) + ")"
    case FunctionStmt(decl) =>
      "(fn " + decl.name.lexeme + "(" + ParamsText(decl.params) + ") " + BlockText(decl.body, f) + " )"
  }

  // ---------------------------------------------------------------------------
  // The loops of the list printers, each proved equal to its function.

  /** BlockStmt.ToString: "{ ", then every statement and a space, then "}". */
  method BlockToString(stmts: seq<Stmt>, f: Format) returns (s: string)
    ensures s == StmtText(BlockStmt(stmts), f)
  {
    s := "{ ";
    var i := 0;
    while i < |stmts|
      invariant 0 <= i <= |stmts|
      invariant s == "{ " + BlockItemsText(stmts[..i], f)
    {
      assert stmts[..i + 1][..i] == stmts[..i];
      s := s + StmtText(stmts[i], f) + " ";
      i := i + 1;
    }
    assert stmts[..i] == stmts;
    s := s + "}";
  }

  /** CallExpr.ToString: the short form without arguments, else one segment per argument and " )". */
  method CallToString(callee: Expr, paren: Token, args: seq<Expr>, f: Format) returns (s: string)
    ensures s == ExprText(CallExpr(callee, paren, args), f)
  {
    if |args| == 0 {
      return "(call " + ExprText(callee, f) + ")";
    }
    s := "(call " + ExprText(callee, f);
    var i := 0;
    while i < |args|
      invariant 0 <= i <= |args|
      invariant s == "(call " + ExprText(callee, f) + ArgsText(args[..i], f)
    {
      assert args[..i + 1][..i] == args[..i];
      s := s + " " + ExprText(args[i], f);
      i := i + 1;
    }
    assert args[..i] == args;
    s := s + " )";
  }

  /** FunctionStmt.ToString: the first parameter bare, every later one after ", ". */
  method FunctionToString(decl: FunctionDecl, f: Format) returns (s: string)
    ensures s == StmtText(FunctionStmt(decl), f)
  {
    s := "(fn " + decl.name.lexeme + "(";
    var i := 0;
    while i < |decl.params|
      invariant 0 <= i <= |decl.params|
      invariant s == "(fn " + decl.name.lexeme + "(" + ParamsText(decl.params[..i])
    {
      assert decl.params[..i + 1][..i] == decl.params[..i];
      var name := decl.params[i].lexeme;
      s := s + (if i == 0 then name else ", " + name);
      i := i + 1;
    }
    assert decl.params[..i] == decl.params;
    s := s + ") " + BlockText(decl.body, f) + " )";
  }

  // ---------------------------------------------------------------------------
  // The list printers emit one segment per element, in order.

  lemma {:induction false} ArgsTextAppend(a: seq<Expr>, b: seq<Expr>, f: Format)
    ensures ArgsText(a + b, f) == ArgsText(a, f) + ArgsText(b, f)
    decreases |b|
  {
    if b == [] {
      assert a + b == a;
    } else {
      var b' := b[..|b| - 1];
      assert (a + b)[..|a + b| - 1] == a + b';
      ArgsTextAppend(a, b', f);
    }
  }

  lemma {:induction false} BlockItemsAppend(a: seq<Stmt>, b: seq<Stmt>, f: Format)
    ensures BlockItemsText(a + b, f) == BlockItemsText(a, f) + BlockItemsText(b, f)
    decreases |b|
  {
    if b == [] {
      assert a + b == a;
    } else {
      var b' := b[..|b| - 1];
      assert (a + b)[..|a + b| - 1] == a + b';
      BlockItemsAppend(a, b', f);
    }
  }

  lemma {:induction false} CasesTextAppend(a: seq<CaseClause>, b: seq<CaseClause>, f: Format)
    ensures CasesText(a + b, f) == CasesText(a, f) + CasesText(b, f)
    decreases |b|
  {
    if b == [] {
      assert a + b == a;
    } else {
      var b' := b[..|b| - 1];
      assert (a + b)[..|a + b| - 1] == a + b';
      CasesTextAppend(a, b', f);
    }
  }

  /** Two non-empty parameter lists print as their two texts joined by one ", ". */
  lemma {:induction false} ParamsTextAppend(a: seq<Token>, b: seq<Token>)
    requires |a| > 0 && |b| > 0
    ensures ParamsText(a + b) == ParamsText(a) + ", " + ParamsText(b)
    decreases |b|
  {
    var b' := b[..|b| - 1];
    assert (a + b)[..|a + b| - 1] == a + b';
    if |b| > 1 {
      ParamsTextAppend(a, b');
    }
  }

  /** The joined names begin with the first name and end with the last: no separator at either end. */
  lemma {:induction false} ParamsTextEnds(params: seq<Token>)
    requires |params| > 0
    ensures var t := ParamsText(params);
      && |params[0].lexeme| <= |t| && t[..|params[0].lexeme|] == params[0].lexeme
      && |params[|params| - 1].lexeme| <= |t| && t[|t| - |params[|params| - 1].lexeme|..] == params[|params| - 1].lexeme
  {
    if |params| > 1 {
      var first := params[..1];
      var rest := params[1..];
      assert params == first + rest;
      ParamsTextAppend(first, rest);
      assert ParamsText(first) == params[0].lexeme;
      var t := ParamsText(params);
      var last := params[|params| - 1].lexeme;
      assert t == ParamsText(params[..|params| - 1]) + ", " + last;
      assert t[|t| - |last|..] == last;
    }
  }

  /** With a default clause, the switch text is the text without one plus " (default : D)" before the closing " )". */
  lemma DefaultSegment(subject: Expr, cases: seq<CaseClause>, d: Stmt, f: Format)
    ensures var without := StmtText(SwitchStmt(subject, cases, None), f);
      && |without| >= 2 && without[|without| - 2..] == " )"
      && StmtText(SwitchStmt(subject, cases, Some(d)), f)
         == without[..|without| - 2] + " (default : " + StmtText(d, f) + ")" + " )"
  {
    var head := "(switch (" + ExprText(subject, f) + ")" + CasesText(cases, f);
    var without := StmtText(SwitchStmt(subject, cases, None), f);
    assert without == head + "" + " )";
    assert without[..|without| - 2] == head;
  }

  /** With an else branch, the if text is the text without one plus " (else E)" before the closing " )". */
  lemma ElseSegment(c: Expr, t: Stmt, e: Stmt, f: Format)
    ensures var without := StmtText(IfStmt(c, t, None), f);
      && |without| >= 2 && without[|without| - 2..] == " )"
      && StmtText(IfStmt(c, t, Some(e)), f) == without[..|without| - 2] + " (else " + StmtText(e, f) + ")" + " )"
  {
    var head := "(if (" + ExprText(c, f) + ") (then " + StmtText(t, f) + ")";
    var without := StmtText(IfStmt(c, t, None), f);
    assert without == head + " )";
    assert without[..|without| - 2] == head;
  }

  // ---------------------------------------------------------------------------
  // Every compound expression adds one balanced pair of parentheses.

  /** Opening minus closing parentheses in s. */
  function Depth(s: string): int
  {
    if s == [] then 0
    else Depth(s[..|s| - 1]) + (if s[|s| - 1] == '(' then 1 else if s[|s| - 1] == ')' then -1 else 0)
  }

  predicate Balanced(s: string)
  {
    Depth(s) == 0 && forall k :: 0 <= k <= |s| ==> Depth(s[..k]) >= 0
  }

  predicate ParenFree(s: string)
  {
    forall i :: 0 <= i < |s| ==> s[i] != '(' && s[i] != ')'
  }

  /** The expressions whose leaves print without parentheses and that hold no grouping node. */
  predicate Printable(e: Expr, f: Format)
  {
    match e
    case LiteralExpr(v) => ParenFree(ValueText(v, f.number))
    case GroupExpr(_) => false
    case VarExpr(_, name) => ParenFree(name.lexeme)
    case AssignExpr(_, name, value) => ParenFree(name.lexeme) && Printable(value, f)
    case BinaryExpr(left, op, right) => ParenFree(op.lexeme) && Printable(left, f) && Printable(right, f)
    case ConditionalExpr(c, t, e) => Printable(c, f) && Printable(t, f) && Printable(e, f)
    case UnaryExpr(op, operand) => ParenFree(op.lexeme) && Printable(operand, f)
    case CallExpr(callee, _, args) => Printable(callee, f) && forall i :: 0 <= i < |args| ==> Printable(args[i], f)
  }

  lemma {:induction false} DepthAppend(a: string, b: string)
    ensures Depth(a + b) == Depth(a) + Depth(b)
    decreases |b|
  {
    if b == [] {
      assert a + b == a;
    } else {
      assert (a + b)[..|a + b| - 1] == a + b[..|b| - 1];
      DepthAppend(a, b[..|b| - 1]);
    }
  }

  lemma {:induction false} ParenFreeDepth(s: string)
    requires ParenFree(s)
    ensures Depth(s) == 0
    decreases |s|
  {
    if s != [] {
      ParenFreeDepth(s[..|s| - 1]);
    }
  }

  lemma ParenFreeBalanced(s: string)
    requires ParenFree(s)
    ensures Balanced(s)
  {
    forall k | 0 <= k <= |s|
      ensures Depth(s[..k]) == 0
    {
      ParenFreeDepth(s[..k]);
    }
  }

  lemma ParenFreeAppend(a: string, b: string)
    requires ParenFree(a) && ParenFree(b)
    ensures ParenFree(a + b)
  {
    forall i | 0 <= i < |a + b|
      ensures (a + b)[i] != '(' && (a + b)[i] != ')'
    {
      if i >= |a| {
        assert (a + b)[i] == b[i - |a|];
      }
    }
  }

  lemma BalancedAppend(a: string, b: string)
    requires Balanced(a) && Balanced(b)
    ensures Balanced(a + b)
  {
    DepthAppend(a, b);
    forall k | 0 <= k <= |a + b|
      ensures Depth((a + b)[..k]) >= 0
    {
      if k <= |a| {
        assert (a + b)[..k] == a[..k];
      } else {
        assert (a + b)[..k] == a + b[..k - |a|];
        DepthAppend(a, b[..k - |a|]);
      }
    }
  }

  /** The outer pair of parentheses opens at the first character and closes at the last. */
  predicate Enclosed(t: string)
  {
    && |t| >= 2 && t[0] == '(' && t[|t| - 1] == ')'
    && forall k :: 1 <= k < |t| ==> Depth(t[..k]) >= 1
  }

  lemma Wrap(s: string)
    requires Balanced(s)
    ensures Balanced("(" + s + ")") && Enclosed("(" + s + ")")
  {
    var w := "(" + s + ")";
    assert Depth("(") == 1 by {
      assert "("[..0] == [];
    }
    assert Depth(")") == -1 by {
      assert ")"[..0] == [];
    }
    DepthAppend("(" + s, ")");
    DepthAppend("(", s);
    forall k | 1 <= k <= |w|
      ensures Depth(w[..k]) >= (if k < |w| then 1 else 0)
    {
      if k < |w| {
        assert w[..k] == "(" + s[..k - 1];
        DepthAppend("(", s[..k - 1]);
      } else {
        assert w[..k] == w;
      }
    }
    assert w[..0] == [];
  }

  lemma BalancedAppend3(a: string, b: string, c: string)
    requires Balanced(a) && Balanced(b) && Balanced(c)
    ensures Balanced(a + b + c)
  {
    BalancedAppend(a, b);
    BalancedAppend(a + b, c);
  }

  /** A node printed as its name, a space and the rest: an assignment ("= " and the value) or a unary (the operand). */
  lemma PrefixedBalanced(head: string, body: string)
    requires ParenFree(head) && Balanced(body)
    ensures var t := "(" + head + " " + body + ")"; Balanced(t) && Enclosed(t)
  {
    ParenFreeAppend(head, " ");
    ParenFreeBalanced(head + " ");
    BalancedAppend(head + " ", body);
    assert "(" + head + " " + body + ")" == "(" + (head + " " + body) + ")";
    Wrap(head + " " + body);
  }

  lemma BinaryBalanced(left: string, op: string, right: string)
    requires Balanced(left) && ParenFree(op) && Balanced(right)
    ensures var t := "(" + left + " " + op + " " + right + ")"; Balanced(t) && Enclosed(t)
  {
    ParenFreeAppend(" ", op);
    ParenFreeAppend(" " + op, " ");
    ParenFreeBalanced(" " + op + " ");
    BalancedAppend3(left, " " + op + " ", right);
    assert "(" + left + " " + op + " " + right + ")" == "(" + (left + (" " + op + " ") + right) + ")";
    Wrap(left + (" " + op + " ") + right);
  }

  lemma ConditionalBalanced(c: string, t: string, e: string)
    requires Balanced(c) && Balanced(t) && Balanced(e)
    ensures var x := "(" + c + " ? " + t + " : " + e + ")"; Balanced(x) && Enclosed(x)
  {
    ParenFreeBalanced(" ? ");
    ParenFreeBalanced(" : ");
    BalancedAppend3(c, " ? ", t);
    BalancedAppend3(c + " ? " + t, " : ", e);
    assert "(" + c + " ? " + t + " : " + e + ")" == "(" + (c + " ? " + t + " : " + e) + ")";
    Wrap(c + " ? " + t + " : " + e);
  }

  lemma CallBalanced(callee: string, args: string)
    requires Balanced(callee) && Balanced(args)
    ensures var t := "(call " + callee + ")"; Balanced(t) && Enclosed(t)
    ensures var t := "(call " + callee + args + " )"; Balanced(t) && Enclosed(t)
  {
    ParenFreeBalanced("call ");
    ParenFreeBalanced(" ");
    BalancedAppend("call ", callee);
    assert "(call " + callee + ")" == "(" + ("call " + callee) + ")";
    Wrap("call " + callee);
    BalancedAppend3("call " + callee, args, " ");
    assert "(call " + callee + args + " )" == "(" + ("call " + callee + args + " ") + ")";
    Wrap("call " + callee + args + " ");
  }

  /** Each compound node prints as one pair of parentheses that encloses its whole text. */
  lemma {:induction false} ExprTextBalanced(e: Expr, f: Format)
    requires Printable(e, f)
    ensures Balanced(ExprText(e, f))
    ensures !e.LiteralExpr? && !e.VarExpr? ==> Enclosed(ExprText(e, f))
    decreases e, 1
  {
    match e
    case LiteralExpr(v) => ParenFreeBalanced(ExprText(e, f));
    case VarExpr(_, name) => ParenFreeBalanced(name.lexeme);
    case AssignExpr(_, name, value) =>
      var t := ExprText(e, f);
      assert Balanced(t) && Enclosed(t) by {
        ExprTextBalanced(value, f);
        var v := ExprText(value, f);
        ParenFreeBalanced("= ");
        BalancedAppend("= ", v);
        PrefixedBalanced(name.lexeme, "= " + v);
        assert t == "(" + name.lexeme + " " + ("= " + v) + ")";
      }
    case BinaryExpr(left, op, right) =>
      assert Balanced(ExprText(e, f)) && Enclosed(ExprText(e, f)) by {
        ExprTextBalanced(left, f);
        ExprTextBalanced(right, f);
        BinaryBalanced(ExprText(left, f), op.lexeme, ExprText(right, f));
      }
    case ConditionalExpr(c, t, el) =>
      assert Balanced(ExprText(e, f)) && Enclosed(ExprText(e, f)) by {
        ExprTextBalanced(c, f);
        ExprTextBalanced(t, f);
        ExprTextBalanced(el, f);
        ConditionalBalanced(ExprText(c, f), ExprText(t, f), ExprText(el, f));
      }
    case UnaryExpr(op, operand) =>
      assert Balanced(ExprText(e, f)) && Enclosed(ExprText(e, f)) by {
        ExprTextBalanced(operand, f);
        PrefixedBalanced(op.lexeme, ExprText(operand, f));
      }
    case CallExpr(callee, _, args) =>
      assert Balanced(ExprText(e, f)) && Enclosed(ExprText(e, f)) by {
        ExprTextBalanced(callee, f);
        ArgsTextBalanced(args, f, e);
        CallBalanced(ExprText(callee, f), ArgsText(args, f));
      }
  }

  lemma {:induction false} ArgsTextBalanced(args: seq<Expr>, f: Format, parent: Expr)
    requires forall i :: 0 <= i < |args| ==> Printable(args[i], f)
    requires forall i :: 0 <= i < |args| ==> args[i] < parent
    ensures Balanced(ArgsText(args, f))
    decreases parent, 0, |args|
  {
    if args == [] {
      ParenFreeBalanced("");
    } else {
      ArgsTextBalanced(args[..|args| - 1], f, parent);
      ExprTextBalanced(args[|args| - 1], f);
      ParenFreeBalanced(" ");
      BalancedAppend3(ArgsText(args[..|args| - 1], f), " ", ExprText(args[|args| - 1], f));
    }
  }

  // ---------------------------------------------------------------------------
  // Examples.

  /** A left-nested chain prints with the inner operation parenthesised first: "((1 + 2) - 3)". */
  lemma LeftNestedText(f: Format)
    requires f.number(1.0) == "1" && f.number(2.0) == "2" && f.number(3.0) == "3"
    ensures ExprText(
      BinaryExpr(
        BinaryExpr(LiteralExpr(NumberValue(1.0)), Token(Plus, "+", 1, 3), LiteralExpr(NumberValue(2.0))),
        Token(Minus, "-", 1, 7),
        LiteralExpr(NumberValue(3.0))), f) == "((1 + 2) - 3)"
  {
    var inner := BinaryExpr(LiteralExpr(NumberValue(1.0)), Token(Plus, "+", 1, 3), LiteralExpr(NumberValue(2.0)));
    assert ExprText(inner, f) == "(1 + 2)";
  }

  /** A for-loop without initializer or increment prints "()" for each, and an empty block prints "{ }". */
  lemma BareForText(f: Format)
    ensures StmtText(ForStmt(None, TrueLiteral, None, BlockStmt([])), f) == "(for () true () { })"
  {
    assert ExprText(TrueLiteral, f) == "true";
    assert StmtText(BlockStmt([]), f) == "{ }";
  }
}
