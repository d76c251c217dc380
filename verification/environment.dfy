/**
 * The scope stack: a vector of name-to-value maps, position 0 the global
 * scope. Lookup and assignment search from the top of the stack down.
 */
module Environments {
  import opened Outcomes
  import opened Tokens
  import opened Errors

  type Scope = map<string, Object>

  /** Index of the innermost scope that binds `name`, if any scope does. */
  function Innermost(scopes: seq<Scope>, name: string): (r: Option<nat>)
    ensures r.Some? ==> r.value < |scopes| && name in scopes[r.value]
    ensures r.Some? ==> forall j :: r.value < j < |scopes| ==> name !in scopes[j]
    ensures r.None? <==> forall j :: 0 <= j < |scopes| ==> name !in scopes[j]
    decreases |scopes|
  {
    if |scopes| == 0 then None
    else if name in scopes[|scopes| - 1] then Some(|scopes| - 1)
    else Innermost(scopes[..|scopes| - 1], name)
  }

  /** The value the innermost binding of `name` holds. */
  function Lookup(scopes: seq<Scope>, name: string): Option<Object>
  {
    match Innermost(scopes, name)
    case Some(i) => Some(scopes[i][name])
    case None => None
  }

  /** `define`: bind `name` in the top scope, inserting or overwriting. */
  function Defined(scopes: seq<Scope>, name: string, value: Object): (r: seq<Scope>)
    requires |scopes| >= 1
    ensures |r| == |scopes|
    ensures r[|r| - 1].Keys == scopes[|scopes| - 1].Keys + {name}
  {
    scopes[|scopes| - 1 := scopes[|scopes| - 1][name := value]]
  }

  /**
   * `assign`: overwrite the innermost binding of `name`; the stack is
   * unchanged when no scope binds it.
   */
  function Assigned(scopes: seq<Scope>, name: string, value: Object): (r: seq<Scope>)
    ensures |r| == |scopes|
    ensures forall j :: 0 <= j < |scopes| ==> r[j].Keys == scopes[j].Keys
  {
    match Innermost(scopes, name)
    case Some(i) => scopes[i := scopes[i][name := value]]
    case None => scopes
  }

  /** The result of `get`. */
  function GetResult(scopes: seq<Scope>, name: Token): Result<Object, RuntimeError>
  {
    match Lookup(scopes, name.lexeme)
    case Some(v) => Ok(v)
    case None => Err(UndefinedVariable(name))
  }

  /** The innermost scope binding `name` is the one that binds it with no binding above. */
  lemma InnermostAt(scopes: seq<Scope>, name: string, i: nat)
    requires i < |scopes| && name in scopes[i]
    requires forall j :: i < j < |scopes| ==> name !in scopes[j]
    ensures Innermost(scopes, name) == Some(i)
  {
  }

  /** After `define`, the name reads back as the defined value; other names read as before. */
  lemma LookupAfterDefine(scopes: seq<Scope>, name: string, value: Object, other: string)
    requires |scopes| >= 1
    ensures Lookup(Defined(scopes, name, value), name) == Some(value)
    ensures other != name ==> Lookup(Defined(scopes, name, value), other) == Lookup(scopes, other)
  {
    var d := Defined(scopes, name, value);
    var top := |scopes| - 1;
    assert Innermost(d, name) == Some(top);
    if other != name {
      assert forall j :: 0 <= j < |scopes| ==> (other in d[j] <==> other in scopes[j]);
      match Innermost(scopes, other)
      case Some(i) =>
        assert Innermost(d, other) == Some(i);
      case None =>
    }
  }

  /**
   * After a successful `assign`, the name reads back as the assigned value;
   * other names read as before.
   */
  lemma LookupAfterAssign(scopes: seq<Scope>, name: string, value: Object, other: string)
    requires Lookup(scopes, name).Some?
    ensures Lookup(Assigned(scopes, name, value), name) == Some(value)
    ensures other != name ==> Lookup(Assigned(scopes, name, value), other) == Lookup(scopes, other)
  {
    var a := Assigned(scopes, name, value);
    var i := Innermost(scopes, name).value;
    assert a == scopes[i := scopes[i][name := value]];
    InnermostAt(a, name, i);
    if other != name {
      match Innermost(scopes, other)
      case Some(k) =>
        InnermostAt(a, other, k);
        assert a[k][other] == scopes[k][other];
      case None =>
    }
  }

  /**
   * Shadowing: a name defined in a pushed scope hides the outer binding,
   * and popping that scope makes the outer binding visible again.
   */
  lemma ShadowingUndoneByPop(scopes: seq<Scope>, name: string, value: Object)
    requires |scopes| >= 1
    ensures Lookup(Defined(scopes + [map[]], name, value), name) == Some(value)
    ensures var popped := Defined(scopes + [map[]], name, value);
            popped[..|popped| - 1] == scopes
  {
    LookupAfterDefine(scopes + [map[]], name, value, name);
  }

  class EnvironmentStack {
    var environments: seq<Scope>

    /** The global scope is always present. */
    ghost predicate Valid()
      reads this
    {
      |environments| >= 1
    }

    /** `new`: one empty global scope. */
    constructor ()
      ensures Valid()
      ensures environments == [map[]]
    {
      environments := [map[]];
    }

    /** `push_environment`: a new empty scope on top; the others unchanged. */
    method PushEnvironment()
      requires Valid()
      modifies this
      ensures Valid()
      ensures environments == old(environments) + [map[]]
    {
      environments := environments + [map[]];
    }

    /** `pop_environment`: drops the top scope, unless it is the global one. */
    method PopEnvironment()
      requires Valid()
      modifies this
      ensures Valid()
      ensures |old(environments)| > 1 ==> environments == old(environments)[..|old(environments)| - 1]
      ensures |old(environments)| == 1 ==> environments == old(environments)
    {
      if |environments| > 1 {
        environments := environments[..|environments| - 1];
      }
    }

    /** `define`: inserts or overwrites `name` in the top scope only. */
    method Define(name: Token, value: Object)
      requires Valid()
      modifies this
      ensures Valid()
      ensures environments == Defined(old(environments), name.lexeme, value)
      ensures forall j :: 0 <= j < |environments| - 1 ==> environments[j] == old(environments)[j]
    {
      var top := |environments| - 1;
      environments := environments[top := environments[top][name.lexeme := value]];
    }

    /** `define_global`: inserts or overwrites `name` in scope 0 only. */
    method DefineGlobal(name: string, value: Object)
      requires Valid()
      modifies this
      ensures Valid()
      ensures |environments| == |old(environments)|
      ensures environments[0] == old(environments)[0][name := value]
      ensures environments[1..] == old(environments)[1..]
    {
      environments := environments[0 := environments[0][name := value]];
    }

    /**
     * `get`: searches the scopes from the top down and returns the first
     * binding; fails with "Undefined variable" when no scope has one.
     */
    method Get(name: Token) returns (r: Result<Object, RuntimeError>)
      requires Valid()
      ensures r == GetResult(environments, name)
    {
      var i := |environments|;
      while i > 0
        invariant 0 <= i <= |environments|
        invariant forall j :: i <= j < |environments| ==> name.lexeme !in environments[j]
      {
        if name.lexeme in environments[i - 1] {
          return Ok(environments[i - 1][name.lexeme]);
        }
        i := i - 1;
      }
      return Err(UndefinedVariable(name));
    }

    /**
     * `assign`: overwrites the innermost existing binding; never creates
     * one. On failure the stack is unchanged.
     */
    method Assign(name: Token, value: Object) returns (r: Result<(), RuntimeError>)
      requires Valid()
      modifies this
      ensures Valid()
      ensures environments == Assigned(old(environments), name.lexeme, value)
      ensures r.Ok? <==> Lookup(old(environments), name.lexeme).Some?
      ensures r.Err? ==> r.error == UndefinedVariable(name) && environments == old(environments)
    {
      var i := |environments|;
      while i > 0
        invariant 0 <= i <= |environments|
        invariant environments == old(environments)
        invariant forall j :: i <= j < |environments| ==> name.lexeme !in environments[j]
      {
        if name.lexeme in environments[i - 1] {
          environments := environments[i - 1 := environments[i - 1][name.lexeme := value]];
          return Ok(());
        }
        i := i - 1;
      }
      return Err(UndefinedVariable(name));
    }
  }

  /** Push, define `x`, pop: `get(x)` sees the outer value again. */
  method ShadowingScenario(x: Token, outer: Object, inner: Object) returns (seenInside: Result<Object, RuntimeError>, seenAfter: Result<Object, RuntimeError>)
    ensures seenInside == Ok(inner)
    ensures seenAfter == Ok(outer)
  {
    var env := new EnvironmentStack();
    env.Define(x, outer);
    LookupAfterDefine([map[]], x.lexeme, outer, x.lexeme);
    ghost var global := env.environments;
    env.PushEnvironment();
    env.Define(x, inner);
    ShadowingUndoneByPop(global, x.lexeme, inner);
    seenInside := env.Get(x);
    env.PopEnvironment();
    seenAfter := env.Get(x);
  }
}
