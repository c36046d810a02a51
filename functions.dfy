/**
 * What calling a user-defined function does: bind the arguments to the
 * parameters in a new scope inside the globals, run the body there, and turn
 * the way the body finished into the call's result.
 */
module Calls {
  import opened Wrappers
  import opened Tokens
  import opened Ast
  import opened Values
  import opened Text
  import opened RuntimeErrors
  import opened Environments
  import opened Interpreting

  /** Distinct parameter names. */
  predicate DistinctNames(params: seq<Token>)
  {
    forall i, j :: 0 <= i < j < |params| ==> params[i].lexeme != params[j].lexeme
  }

  /** The parameter names. */
  function Names(params: seq<Token>): set<string>
    decreases |params|
  {
    if params == [] then {} else Names(params[..|params| - 1]) + {params[|params| - 1].lexeme}
  }

  /** Every name of the set is the name of some parameter. */
  lemma {:induction false} NameIndex(params: seq<Token>, name: string) returns (i: nat)
    requires name in Names(params)
    ensures i < |params| && params[i].lexeme == name
    decreases |params|
  {
    var n := |params| - 1;
    if params[n].lexeme == name {
      i := n;
    } else {
      i := NameIndex(params[..n], name);
    }
  }

  /**
   * The parameters defined one after another into one empty scope; a name
   * given twice fails as Define does, on its second occurrence.
   */
  function BindAll(params: seq<Token>, args: seq<Value>): (r: Result<Scope, Failure>)
    requires |params| == |args|
    ensures r.Success? ==> forall i :: 0 <= i < |params| ==> params[i].lexeme in r.value && r.value[params[i].lexeme] == args[i]
    ensures r.Success? ==> r.value.Keys == Names(params)
    decreases |params|
  {
    if params == [] then Success(map[])
    else
      var n := |params| - 1;
      match BindAll(params[..n], args[..n])
      case Failure(failure) => Failure(failure)
      case Success(scope) =>
        if params[n].lexeme in scope then Failure(AlreadyDefined(params[n]))
        else Success(scope[params[n].lexeme := args[n]])
  }

  function ArityError(arity: nat, count: nat): Failure
  {
    InvalidOperation("Expected " + IntText(arity) + " arguments, got " + IntText(count))
  }

  /** BindParameters: the argument count must equal the arity, then every parameter is defined in order. */
  function Bind(decl: FunctionDecl, args: seq<Value>): Result<Scope, Failure>
  {
    if |decl.params| != |args| then Failure(ArityError(|decl.params|, |args|))
    else BindAll(decl.params, args)
  }

  /** A return gives the call its value, falling off the end gives nil, and any other signal escapes the call. */
  function Outcome(signal: Signal): Result<Value, Signal>
  {
    match signal
    case Returned(value) => Success(value)
    case Normal => Success(NilValue)
    case _ => Failure(signal)
  }

  datatype Called = Called(result: Result<Value, Signal>, machine: Machine)

  /**
   * A call, with `m.scopes` the scopes of the globals: the body runs as a
   * block in the bound scope, which is dropped afterwards.
   */
  function Call(decl: FunctionDecl, args: seq<Value>, m: Machine, fuel: nat, numberText: real -> string): (r: Called)
    requires |m.scopes| > 0
    ensures SameNames(m.scopes, r.machine.scopes)
    ensures m.output <= r.machine.output && r.machine.errors == m.errors
  {
    match Bind(decl, args)
    case Failure(failure) => Called(Failure(Thrown(failure)), m)
    case Success(scope) =>
      var r := ExecBlock(decl.body, m.(scopes := [scope] + m.scopes), fuel, numberText);
      Called(Outcome(r.signal), r.machine.(scopes := r.machine.scopes[1..]))
  }

  // ---------------------------------------------------------------------------
  // Properties.

  /** Binding succeeds exactly when the parameter names are distinct. */
  lemma {:induction false} BindAllSucceedsIffDistinct(params: seq<Token>, args: seq<Value>)
    requires |params| == |args|
    ensures BindAll(params, args).Success? <==> DistinctNames(params)
    decreases |params|
  {
    if params != [] {
      var n := |params| - 1;
      BindAllSucceedsIffDistinct(params[..n], args[..n]);
      var earlier := BindAll(params[..n], args[..n]);
      if earlier.Failure? {
        DuplicateInPrefix(params, n);
      } else if params[n].lexeme in earlier.value {
        var i := NameIndex(params[..n], params[n].lexeme);
        assert params[i].lexeme == params[n].lexeme;
      } else {
        DistinctExtended(params, n);
      }
    }
  }

  /** A failed binding reports a repeated parameter, at an occurrence that repeats an earlier one. */
  lemma {:induction false} BindAllFailsOnRepeat(params: seq<Token>, args: seq<Value>) returns (j: nat)
    requires |params| == |args| && BindAll(params, args).Failure?
    ensures 0 < j < |params| && BindAll(params, args).error == AlreadyDefined(params[j])
    ensures exists i :: 0 <= i < j && params[i].lexeme == params[j].lexeme
    decreases |params|
  {
    var n := |params| - 1;
    var earlier := BindAll(params[..n], args[..n]);
    if earlier.Failure? {
      j := BindAllFailsOnRepeat(params[..n], args[..n]);
      var i :| 0 <= i < j && params[..n][i].lexeme == params[..n][j].lexeme;
      assert params[i].lexeme == params[j].lexeme;
    } else {
      j := n;
      var i := NameIndex(params[..n], params[n].lexeme);
      assert params[i].lexeme == params[n].lexeme;
    }
  }

  lemma DuplicateInPrefix(params: seq<Token>, n: nat)
    requires n <= |params| && !DistinctNames(params[..n])
    ensures !DistinctNames(params)
  {
    var i, j :| 0 <= i < j < n && params[..n][i].lexeme == params[..n][j].lexeme;
    assert params[i].lexeme == params[j].lexeme;
  }

  lemma DistinctExtended(params: seq<Token>, n: nat)
    requires n == |params| - 1 && DistinctNames(params[..n])
    requires forall i :: 0 <= i < n ==> params[i].lexeme != params[n].lexeme
    ensures DistinctNames(params)
  {
    forall i, j | 0 <= i < j < |params|
      ensures params[i].lexeme != params[j].lexeme
    {
      if j < n {
        assert params[..n][i] == params[i] && params[..n][j] == params[j];
      }
    }
  }

  /** A wrong argument count fails before any statement of the body runs. */
  lemma ArityMismatchRunsNothing(decl: FunctionDecl, args: seq<Value>, m: Machine, fuel: nat, numberText: real -> string)
    requires |m.scopes| > 0 && |decl.params| != |args|
    ensures Call(decl, args, m, fuel, numberText)
      == Called(Failure(Thrown(InvalidOperation("Expected " + IntText(|decl.params|) + " arguments, got " + IntText(|args|)))), m)
  {
  }

  /** A repeated parameter name fails with the redefinition error, before the body runs. */
  lemma RepeatedParameterRunsNothing(decl: FunctionDecl, args: seq<Value>, m: Machine, fuel: nat, numberText: real -> string)
    requires |m.scopes| > 0 && |decl.params| == |args| && !DistinctNames(decl.params)
    ensures Call(decl, args, m, fuel, numberText).machine == m
    ensures exists j :: 0 <= j < |decl.params| && Call(decl, args, m, fuel, numberText).result == Failure(Thrown(AlreadyDefined(decl.params[j])))
  {
    BindAllSucceedsIffDistinct(decl.params, args);
    var j := BindAllFailsOnRepeat(decl.params, args);
  }

  /** A body that finishes normally gives nil; the body's text is kept and the globals keep their names. */
  lemma CallOfPrintingFunction(name: Token, p: Token, v: Value, m: Machine, fuel: nat, numberText: real -> string)
    requires |m.scopes| > 0
    ensures Call(FunctionDecl(name, [p], [PrintStmt(VarExpr(0, p))]), [v], m, fuel, numberText)
      == Called(Success(NilValue), m.(output := m.output + [ValueText(v, numberText)]))
  {
    var scope := map[p.lexeme := v];
    assert BindAll([p], [v]) == Success(scope) by {
      assert [p][..0] == [] && [v][..0] == [];
    }
    var inner := m.(scopes := [scope] + m.scopes);
    var printed := inner.(output := m.output + [ValueText(v, numberText)]);
    assert Eval(VarExpr(0, p), inner.scopes) == Evaluated(Success(v), inner.scopes);
    assert Exec(PrintStmt(VarExpr(0, p)), inner, fuel, numberText) == Executed(Normal, printed);
    assert [PrintStmt(VarExpr(0, p))][1..] == [];
    assert ExecBlock([PrintStmt(VarExpr(0, p))], inner, fuel, numberText) == Executed(Normal, printed);
    assert printed.scopes[1..] == m.scopes;
  }

  /** Once a prefix fails to bind, so does the whole parameter list, with the same error. */
  lemma {:induction false} BindAllFailsOnPrefix(params: seq<Token>, args: seq<Value>, k: nat)
    requires |params| == |args| && k <= |params|
    requires BindAll(params[..k], args[..k]).Failure?
    ensures BindAll(params, args) == BindAll(params[..k], args[..k])
    decreases |params| - k
  {
    if k < |params| {
      var n := |params| - 1;
      assert params[..n][..k] == params[..k] && args[..n][..k] == args[..k];
      BindAllFailsOnPrefix(params[..n], args[..n], k);
      assert params[..|params|] == params && args[..|args|] == args;
    } else {
      assert params[..k] == params && args[..k] == args;
    }
  }
}

/** The callable object for a function declaration. */
module UserFunctions {
  import opened Wrappers
  import opened Tokens
  import opened Ast
  import opened Values
  import opened RuntimeErrors
  import opened Environments
  import opened Interpreting
  import opened TreeWalk
  import opened Calls

  class UserDefinedFunction {
    const declaration: FunctionDecl

    constructor(declaration: FunctionDecl)
      ensures this.declaration == declaration
    {
      this.declaration := declaration;
    }

    function Arity(): nat
    {
      |declaration.params|
    }

    function Name(): string
    {
      declaration.name.lexeme
    }

    /** The same text a function value prints as. */
    function ToString(): (s: string)
      ensures forall numberText :: s == ValueText(FunctionValue(declaration), numberText)
    {
      "<fn " + Name() + ">"
    }

    /** A new environment inside `globals` holding the arguments under the parameter names. */
    method BindParameters(globals: Environment, args: seq<Value>) returns (r: Result<Environment, Failure>)
      requires globals.Valid()
      ensures r.Failure? <==> Bind(declaration, args).Failure?
      ensures r.Failure? ==> r.error == Bind(declaration, args).error
      ensures r.Success? ==> fresh(r.value) && r.value.Valid() && r.value.enclosing == globals
      ensures r.Success? ==> r.value.Scopes() == [Bind(declaration, args).value] + globals.Scopes()
    {
      var params := declaration.params;
      if Arity() != |args| {
        return Failure(ArityError(Arity(), |args|));
      }
      var environment := new Environment(globals);
      var i := 0;
      while i < Arity()
        invariant i <= |params| && environment.Valid() && environment.enclosing == globals
        invariant BindAll(params[..i], args[..i]).Success?
        invariant environment.Scopes() == [BindAll(params[..i], args[..i]).value] + globals.Scopes()
      {
        assert params[..i + 1][..i] == params[..i] && args[..i + 1][..i] == args[..i];
        var failure := environment.Define(params[i], args[i]);
        if failure.Some? {
          BindAllFailsOnPrefix(params, args, i + 1);
          return Failure(failure.value);
        }
        i := i + 1;
      }
      assert params[..i] == params && args[..i] == args;
      return Success(environment);
    }

    /** Call: the outcome and the new globals and writers are those of Calls.Call. */
    method Call(interpreter: TreeWalkInterpreter, globals: Environment, args: seq<Value>, fuel: nat)
      returns (r: Result<Value, Signal>)
      requires interpreter.Valid() && globals.Valid()
      modifies interpreter, globals.Repr()
      ensures interpreter.Valid() && interpreter.env == old(interpreter.env)
      ensures Called(r, Machine(globals.Scopes(), interpreter.output, interpreter.errors))
        == Calls.Call(declaration, args, old(Machine(globals.Scopes(), interpreter.output, interpreter.errors)), fuel, interpreter.numberText)
    {
      ghost var m := Machine(globals.Scopes(), interpreter.output, interpreter.errors);
      var callEnvironment := BindParameters(globals, args);
      if callEnvironment.Failure? {
        return Failure(Thrown(callEnvironment.error));
      }
      var environment := callEnvironment.value;
      assert environment.Repr() == {environment} + globals.Repr() by {
        assert environment.Chain() == [environment] + globals.Chain();
      }
      ghost var bound := m.(scopes := [Bind(declaration, args).value] + m.scopes);
      assert Machine(environment.Scopes(), interpreter.output, interpreter.errors) == bound;
      var signal := interpreter.ExecuteBlock(declaration.body, environment, fuel);
      ghost var after := ExecBlock(declaration.body, bound, fuel, interpreter.numberText);
      assert signal == after.signal;
      assert environment.Scopes() == [environment.values] + globals.Scopes();
      assert globals.Scopes() == after.machine.scopes[1..];
      r := Outcome(signal);
    }
  }
}
