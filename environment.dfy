/** The runtime errors of the interpreter and the other exceptions the core can throw. */
module RuntimeErrors {
  import opened Tokens
  import opened Text

  /** The message RuntimeError.Create builds from the token's line and the error text. */
  function RuntimeErrorText(token: Token, message: string): (r: string)
  {
    "[Line " + IntText(token.line) + "] Runtime error: " + message
  }

  /**
   * An exception: a RuntimeError, which Interpret catches and writes to its
   * error writer, or one of the .NET exceptions, which nothing in the core catches.
   */
  datatype Failure =
    | RuntimeError(message: string)
    | ArgumentOutOfRange(paramName: string)
    | ArgumentError(message: string, paramName: string)
    | InvalidOperation(message: string)
      // A .NET result the model has no value for (a NaN).
    | Unmodelled(what: string)
}

/**
 * Environments: a chain of name-to-value scopes, each pointing to the scope
 * that encloses it. The functions below describe a chain as the sequence of
 * its scopes, innermost first; the class updates the real scopes in place.
 */
module Environments {
  import opened Wrappers
  import opened Tokens
  import opened Ast
  import opened RuntimeErrors

  type Scope = map<string, Value>

  /** The number of hops from the innermost scope to the first one that holds the name. */
  function FindDepth<V>(scopes: seq<map<string, V>>, name: string): (r: Option<nat>)
    ensures r.Some? ==> r.value < |scopes| && name in scopes[r.value]
    ensures r.Some? ==> forall j :: 0 <= j < r.value ==> name !in scopes[j]
    ensures r.None? ==> forall j :: 0 <= j < |scopes| ==> name !in scopes[j]
  {
    if scopes == [] then None
    else if name in scopes[0] then Some(0)
    else
      match FindDepth(scopes[1..], name)
      case None => None
      case Some(d) => Some(d + 1)
  }

  /** The first scope that binds the name is the one FindDepth gives. */
  lemma FindDepthIsFirst<V>(scopes: seq<map<string, V>>, name: string, i: nat)
    requires i < |scopes| && name in scopes[i]
    requires forall j :: 0 <= j < i ==> name !in scopes[j]
    ensures FindDepth(scopes, name) == Some(i)
  {
    var r := FindDepth(scopes, name);
    if r.Some? && r.value != i {
      assert false;
    }
  }

  /** Scope i is the innermost one that binds the name. */
  predicate InnermostBinder<V>(scopes: seq<map<string, V>>, name: string, i: int)
  {
    0 <= i < |scopes| && name in scopes[i] && forall j :: 0 <= j < i ==> name !in scopes[j]
  }

  /** No scope binds the name. */
  predicate Unbound<V>(scopes: seq<map<string, V>>, name: string)
  {
    forall j :: 0 <= j < |scopes| ==> name !in scopes[j]
  }

  function Undefined(name: Token): Failure
  {
    RuntimeError(RuntimeErrorText(name, "Undefined variable '" + name.lexeme + "'."))
  }

  function AlreadyDefined(name: Token): Failure
  {
    RuntimeError(RuntimeErrorText(name, "Variable '" + name.lexeme + "' already defined in this scope."))
  }

  /** Define binds in the innermost scope only, and fails on a name already bound there. */
  function DefineIn(scopes: seq<Scope>, name: Token, value: Value): (r: Result<seq<Scope>, Failure>)
    requires |scopes| > 0
    ensures r.Failure? <==> name.lexeme in scopes[0]
    ensures r.Failure? ==> r.error == AlreadyDefined(name)
    ensures r.Success? ==>
      && |r.value| == |scopes| && r.value[1..] == scopes[1..]
      && r.value[0] == scopes[0][name.lexeme := value]
  {
    if name.lexeme in scopes[0] then Failure(AlreadyDefined(name))
    else Success([scopes[0][name.lexeme := value]] + scopes[1..])
  }

  /** Get: the value in the nearest scope that binds the name. */
  function Lookup(scopes: seq<Scope>, name: Token): (r: Result<Value, Failure>)
    ensures forall i :: InnermostBinder(scopes, name.lexeme, i) ==> r == Success(scopes[i][name.lexeme])
    ensures Unbound(scopes, name.lexeme) ==> r == Failure(Undefined(name))
  {
    match FindDepth(scopes, name.lexeme)
    case None => Failure(Undefined(name))
    case Some(d) => Success(scopes[d][name.lexeme])
  }

  /** GetAncestor's checks: a negative distance, then one past the outermost scope. */
  function CheckDistance(scopes: seq<Scope>, distance: int): (r: Option<Failure>)
    ensures r.None? <==> 0 <= distance < |scopes|
  {
    if distance < 0 then Some(ArgumentOutOfRange("distance"))
    else if distance >= |scopes| then Some(ArgumentError("Distance exceeds number of ancestors.", "distance"))
    else None
  }

  /** GetAt: the value in the scope exactly `distance` hops up, and in no other. */
  function LookupAt(scopes: seq<Scope>, name: Token, distance: int): (r: Result<Value, Failure>)
    ensures r.Success? <==> 0 <= distance < |scopes| && name.lexeme in scopes[distance]
    ensures r.Success? ==> r.value == scopes[distance][name.lexeme]
    ensures distance < 0 ==> r == Failure(ArgumentOutOfRange("distance"))
    ensures 0 <= distance < |scopes| && name.lexeme !in scopes[distance] ==> r == Failure(Undefined(name))
  {
    match CheckDistance(scopes, distance)
    case Some(failure) => Failure(failure)
    case None =>
      if name.lexeme in scopes[distance] then Success(scopes[distance][name.lexeme]) else Failure(Undefined(name))
  }

  /** Assign: overwrite the nearest binding of the name. */
  function AssignIn(scopes: seq<Scope>, name: Token, value: Value): (r: Result<seq<Scope>, Failure>)
    ensures forall i :: InnermostBinder(scopes, name.lexeme, i) ==> r == Success(scopes[i := scopes[i][name.lexeme := value]])
    ensures Unbound(scopes, name.lexeme) ==> r == Failure(Undefined(name))
    ensures r.Success? ==> |r.value| == |scopes| && forall j :: 0 <= j < |scopes| ==> r.value[j].Keys == scopes[j].Keys
  {
    match FindDepth(scopes, name.lexeme)
    case None => Failure(Undefined(name))
    case Some(d) => Success(scopes[d := scopes[d][name.lexeme := value]])
  }

  /** AssignAt: overwrite the binding in the scope exactly `distance` hops up. */
  function AssignInAt(scopes: seq<Scope>, name: Token, value: Value, distance: int): (r: Result<seq<Scope>, Failure>)
    ensures r.Success? <==> 0 <= distance < |scopes| && name.lexeme in scopes[distance]
    ensures r.Success? ==>
      && |r.value| == |scopes|
      && r.value[distance] == scopes[distance][name.lexeme := value]
      && forall j :: 0 <= j < |scopes| && j != distance ==> r.value[j] == scopes[j]
    ensures distance < 0 ==> r == Failure(ArgumentOutOfRange("distance"))
    ensures 0 <= distance < |scopes| && name.lexeme !in scopes[distance] ==> r == Failure(Undefined(name))
  {
    match CheckDistance(scopes, distance)
    case Some(failure) => Failure(failure)
    case None =>
      if name.lexeme in scopes[distance] then Success(scopes[distance := scopes[distance][name.lexeme := value]])
      else Failure(Undefined(name))
  }

  // ---------------------------------------------------------------------------
  // Properties of the chain operations.

  /** After defining a fresh name, getting it gives the defined value. */
  lemma GetAfterDefine(scopes: seq<Scope>, name: Token, value: Value)
    requires |scopes| > 0 && name.lexeme !in scopes[0]
    ensures DefineIn(scopes, name, value).Success?
    ensures Lookup(DefineIn(scopes, name, value).value, name) == Success(value)
  {
    var s := DefineIn(scopes, name, value).value;
    assert FindDepth(s, name.lexeme) == Some(0);
  }

  /** Get gives the same as GetAt at the depth of the first scope that binds the name. */
  lemma GetIsGetAtFirstDepth(scopes: seq<Scope>, name: Token)
    requires FindDepth(scopes, name.lexeme).Some?
    ensures Lookup(scopes, name) == LookupAt(scopes, name, FindDepth(scopes, name.lexeme).value)
  {
  }

  /** Get fails exactly when no scope binds the name, with the undefined-variable error. */
  lemma GetFailsOnlyWhenUnbound(scopes: seq<Scope>, name: Token)
    ensures Lookup(scopes, name).Failure? <==> forall j :: 0 <= j < |scopes| ==> name.lexeme !in scopes[j]
    ensures Lookup(scopes, name).Failure? ==> Lookup(scopes, name).error == Undefined(name)
  {
  }

  /**
   * Assign changes one binding, the nearest, and nothing else: afterwards the
   * name reads as the new value and every other name reads as before.
   */
  lemma AssignThenGet(scopes: seq<Scope>, name: Token, value: Value, other: Token)
    requires AssignIn(scopes, name, value).Success?
    ensures var s := AssignIn(scopes, name, value).value;
      && |s| == |scopes|
      && Lookup(s, name) == Success(value)
      && (other.lexeme != name.lexeme ==> Lookup(s, other) == Lookup(scopes, other))
  {
    var s := AssignIn(scopes, name, value).value;
    var d := FindDepth(scopes, name.lexeme).value;
    assert forall j :: 0 <= j < |s| ==> s[j].Keys == scopes[j].Keys;
    FindDepthSameKeys(scopes, s, name.lexeme);
    FindDepthSameKeys(scopes, s, other.lexeme);
  }

  /** Scopes with the same names have the same first binding depth. */
  lemma {:induction false} FindDepthSameKeys(a: seq<Scope>, b: seq<Scope>, name: string)
    requires |a| == |b| && forall j :: 0 <= j < |a| ==> a[j].Keys == b[j].Keys
    ensures FindDepth(a, name) == FindDepth(b, name)
    decreases |a|
  {
    if a != [] && name !in a[0] {
      FindDepthSameKeys(a[1..], b[1..], name);
    }
  }

  /** AssignAt followed by GetAt at the same distance reads the new value. */
  lemma AssignAtThenGetAt(scopes: seq<Scope>, name: Token, value: Value, distance: int)
    requires AssignInAt(scopes, name, value, distance).Success?
    ensures LookupAt(AssignInAt(scopes, name, value, distance).value, name, distance) == Success(value)
  {
  }

  // ---------------------------------------------------------------------------
  // The environment objects.

  class Environment {
    const enclosing: Environment?
    var values: Scope

    /** The enclosing environments, nearest first. */
    ghost const ancestors: seq<Environment>

    ghost predicate Valid()
      decreases |ancestors|
    {
      if enclosing == null then ancestors == []
      else ancestors == [enclosing] + enclosing.ancestors && enclosing.Valid() && this !in ancestors
    }

    ghost function Chain(): seq<Environment>
    {
      [this] + ancestors
    }

    ghost function Repr(): set<object>
    {
      set e | e in Chain()
    }

    /** The scopes of the chain, innermost first. */
    ghost function Scopes(): (s: seq<Scope>)
      requires Valid()
      reads Repr()
      ensures |s| == |Chain()| && s[0] == values
      decreases |ancestors|
    {
      [values] + (if enclosing == null then [] else enclosing.Scopes())
    }

    lemma {:induction false} ChainDistinct()
      requires Valid()
      ensures forall i, j :: 0 <= i < j < |Chain()| ==> Chain()[i] != Chain()[j]
      decreases |ancestors|
    {
      if enclosing != null {
        enclosing.ChainDistinct();
        assert Chain() == [this] + enclosing.Chain();
      }
    }

    lemma {:induction false} ChainValid(i: nat)
      requires Valid() && i < |Chain()|
      ensures Chain()[i].Valid() && Chain()[i].Chain() == Chain()[i..] && Chain()[i].Scopes() == Scopes()[i..]
      decreases |ancestors|
    {
      if i > 0 {
        assert Chain() == [this] + enclosing.Chain();
        enclosing.ChainValid(i - 1);
        assert Scopes()[i..] == enclosing.Scopes()[i - 1..];
      }
    }

    /** Writing the scope of one member of the chain changes that scope of the chain and no other. */
    twostate lemma {:induction false} ScopesAfterWrite(i: nat)
      requires Valid() && i < |Chain()|
      requires forall e :: e in Chain() && e != Chain()[i] ==> unchanged(e)
      ensures Scopes() == old(Scopes())[i := Chain()[i].values]
      decreases |ancestors|
    {
      if i == 0 {
        assert forall e :: e in ancestors ==> e in Chain() && e != this by {
          ChainDistinct();
        }
        ScopesAfterWriteHere();
      } else {
        assert Chain() == [this] + enclosing.Chain();
        assert Chain()[i] in ancestors;
        assert this in Chain() && this != Chain()[i];
        assert forall e :: e in enclosing.Chain() ==> e in Chain();
        enclosing.ScopesAfterWrite(i - 1);
        assert Scopes() == [values] + enclosing.Scopes();
        assert old(Scopes()) == [old(values)] + old(enclosing.Scopes());
      }
    }

    /** Writing the innermost scope changes the first scope of the chain and no other. */
    twostate lemma ScopesAfterWriteHere()
      requires Valid()
      requires forall e :: e in ancestors ==> unchanged(e)
      ensures Scopes() == old(Scopes())[0 := values]
    {
      if enclosing != null {
        assert Chain() == [this] + enclosing.Chain();
        assert forall e :: e in enclosing.Chain() ==> e in ancestors;
        enclosing.ScopesUnchanged();
        var rest := enclosing.Scopes();
        assert Scopes() == [values] + rest;
        assert old(Scopes()) == [old(values)] + rest;
        assert ([old(values)] + rest)[0 := values] == [values] + rest;
      }
    }

    twostate lemma {:induction false} ScopesUnchanged()
      requires Valid()
      requires forall e :: e in Chain() ==> unchanged(e)
      ensures Scopes() == old(Scopes())
      decreases |ancestors|
    {
      assert this in Chain();
      if enclosing != null {
        assert Chain() == [this] + enclosing.Chain();
        assert forall e :: e in enclosing.Chain() ==> e in Chain();
        enclosing.ScopesUnchanged();
        assert Scopes() == [values] + enclosing.Scopes();
        assert old(Scopes()) == [old(values)] + old(enclosing.Scopes());
      }
    }

    /** A new scope inside `enclosing`, or a global one without it. */
    constructor(enclosing: Environment?)
      requires enclosing != null ==> enclosing.Valid()
      ensures Valid() && this.enclosing == enclosing && values == map[]
      ensures enclosing == null ==> Scopes() == [map[]]
      ensures enclosing != null ==> Scopes() == [map[]] + enclosing.Scopes()
    {
      this.enclosing := enclosing;
      values := map[];
      ancestors := if enclosing == null then [] else [enclosing] + enclosing.ancestors;
    }

    /** Bind in this scope only; a name already bound here is an error and the old value is kept. */
    method Define(name: Token, value: Value) returns (failure: Option<Failure>)
      requires Valid()
      modifies this
      ensures var r := DefineIn(old(Scopes()), name, value);
        && (r.Failure? ==> failure == Some(r.error) && Scopes() == old(Scopes()))
        && (r.Success? ==> failure.None? && Scopes() == r.value)
    {
      if name.lexeme in values {
        return Some(AlreadyDefined(name));
      }
      values := values[name.lexeme := value];
      ScopesAfterWrite(0);
      return None;
    }

    /** The nearest environment of the chain that binds `name`, or null when none does. */
    method FindBinding(name: Token) returns (current: Environment?, ghost i: nat)
      requires Valid()
      ensures current == null <==> FindDepth(Scopes(), name.lexeme).None?
      ensures current != null ==> FindDepth(Scopes(), name.lexeme) == Some(i) && i < |Chain()| && current == Chain()[i]
    {
      current := this;
      i := 0;
      while current != null && name.lexeme !in current.values
        invariant i <= |Scopes()|
        invariant current != null ==> i < |Chain()| && current == Chain()[i]
        invariant current == null ==> i == |Chain()|
        invariant forall j :: 0 <= j < i ==> name.lexeme !in Scopes()[j]
        decreases |Chain()| - i
      {
        ChainValid(i);
        assert Scopes()[i] == current.values;
        if current.enclosing != null {
          ChainValid(i + 1);
        }
        current := current.enclosing;
        i := i + 1;
      }
      if current != null {
        ChainValid(i);
        FindDepthIsFirst(Scopes(), name.lexeme, i);
      }
    }

    /** The value of the nearest binding, walking out through the enclosing scopes. */
    method Get(name: Token) returns (r: Result<Value, Failure>)
      requires Valid()
      ensures r == Lookup(Scopes(), name)
    {
      var current, i := FindBinding(name);
      if current == null {
        return Failure(Undefined(name));
      }
      ChainValid(i);
      return Success(current.values[name.lexeme]);
    }

    /** The environment `distance` hops up the chain. */
    method GetAncestor(distance: int) returns (r: Result<Environment, Failure>)
      requires Valid()
      ensures CheckDistance(Scopes(), distance).Some? ==> r == Failure(CheckDistance(Scopes(), distance).value)
      ensures CheckDistance(Scopes(), distance).None? ==> r == Success(Chain()[distance])
    {
      if distance < 0 {
        return Failure(ArgumentOutOfRange("distance"));
      }
      var current := this;
      var i := 0;
      while i < distance
        invariant 0 <= i <= distance
        invariant i < |Chain()| && current == Chain()[i]
      {
        ChainValid(i);
        if current.enclosing == null {
          return Failure(ArgumentError("Distance exceeds number of ancestors.", "distance"));
        }
        current := current.enclosing;
        i := i + 1;
      }
      return Success(current);
    }

    /** The value bound in the scope exactly `distance` hops up. */
    method GetAt(name: Token, distance: int) returns (r: Result<Value, Failure>)
      requires Valid()
      ensures r == LookupAt(Scopes(), name, distance)
    {
      var ancestor := GetAncestor(distance);
      if ancestor.Failure? {
        return Failure(ancestor.error);
      }
      ChainValid(distance);
      if name.lexeme in ancestor.value.values {
        return Success(ancestor.value.values[name.lexeme]);
      }
      return Failure(Undefined(name));
    }

    /** Overwrite the nearest binding; an unbound name is an error and changes nothing. */
    method Assign(name: Token, value: Value) returns (failure: Option<Failure>)
      requires Valid()
      modifies Repr()
      ensures var r := AssignIn(old(Scopes()), name, value);
        && (r.Failure? ==> failure == Some(r.error) && Scopes() == old(Scopes()))
        && (r.Success? ==> failure.None? && Scopes() == r.value)
    {
      var current, i := FindBinding(name);
      if current == null {
        return Some(Undefined(name));
      }
      ChainValid(i);
      ghost var before := Scopes();
      assert before[i] == current.values;
      assert AssignIn(before, name, value) == Success(before[i := before[i][name.lexeme := value]]);
      WriteAt(current, i, name.lexeme, value);
      return None;
    }

    /** Bind `name` in `target`, the environment `i` hops up the chain: that scope changes and no other. */
    method WriteAt(target: Environment, ghost i: nat, name: string, value: Value)
      requires Valid() && i < |Chain()| && target == Chain()[i]
      modifies target
      ensures Scopes() == old(Scopes())[i := old(Scopes())[i][name := value]]
    {
      ChainValid(i);
      target.values := target.values[name := value];
      ScopesAfterWrite(i);
    }

    /** Overwrite the binding in the scope exactly `distance` hops up. */
    method AssignAt(name: Token, value: Value, distance: int) returns (failure: Option<Failure>)
      requires Valid()
      modifies Repr()
      ensures var r := AssignInAt(old(Scopes()), name, value, distance);
        && (r.Failure? ==> failure == Some(r.error) && Scopes() == old(Scopes()))
        && (r.Success? ==> failure.None? && Scopes() == r.value)
    {
      ghost var before := Scopes();
      var ancestor := GetAncestor(distance);
      if ancestor.Failure? {
        assert AssignInAt(before, name, value, distance) == Failure(ancestor.error);
        return Some(ancestor.error);
      }
      var target := ancestor.value;
      ChainValid(distance);
      if name.lexeme !in target.values {
        assert AssignInAt(before, name, value, distance) == Failure(Undefined(name));
        return Some(Undefined(name));
      }
      assert AssignInAt(before, name, value, distance) == Success(before[distance := target.values[name.lexeme := value]]);
      WriteAt(target, distance, name.lexeme, value);
      return None;
    }
  }
}
