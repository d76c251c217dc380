/**
 * The tree-walking evaluator. `Eval`, `Exec` and `Run` give the meaning of
 * expressions, statements and programs as functions of the scope stack; the
 * `Interpreter` class computes the same thing by updating its environment in
 * place.
 */
module Interpreting {
  import opened Outcomes
  import opened Tokens
  import opened Errors
  import opened Expressions
  import opened Statements
  import opened Environments

  /** `Nil` and `false` are falsy; every other value is truthy. */
  function IsTruthy(v: Object): (truthy: bool)
    ensures truthy <==> !(v.Nil? || v == Object.Boolean(false))
  {
    match v
    case Nil => false
    case Boolean(b) => b
    case _ => true
  }

  /**
   * Same-kind values compare by contents, `Nil` equals `Nil`, different
   * kinds are never equal: the structural equality of values.
   */
  function IsEqual(a: Object, b: Object): (equal: bool)
    ensures equal <==> a == b
  {
    match (a, b)
    case (Number(x), Number(y)) => x == y
    case (String(x), String(y)) => x == y
    case (Boolean(x), Boolean(y)) => x == y
    case (Nil, Nil) => true
    case _ => false
  }

  function CheckNumberOperand(operator: Token, operand: Object): (r: Result<int, RuntimeError>)
    ensures r.Ok? <==> operand.Number?
    ensures r.Ok? ==> r.value == operand.num
    ensures r.Err? ==> r.error == RuntimeError("Operand must be a number", operator)
  {
    match operand
    case Number(n) => Ok(n)
    case _ => Err(RuntimeError("Operand must be a number", operator))
  }

  function CheckNumberOperands(operator: Token, left: Object, right: Object): (r: Result<(int, int), RuntimeError>)
    ensures r.Ok? <==> left.Number? && right.Number?
    ensures r.Ok? ==> r.value == (left.num, right.num)
    ensures r.Err? ==> r.error == RuntimeError("Operands must be two numbers", operator)
  {
    match (left, right)
    case (Number(x), Number(y)) => Ok((x, y))
    case _ => Err(RuntimeError("Operands must be two numbers", operator))
  }

  /** Division of the integer stand-in for floats; a zero divisor gives 0. */
  function Quotient(x: int, y: int): int
  {
    if y == 0 then 0 else x / y
  }

  /** The operators that accept only two numbers. */
  predicate NumericOperator(t: TokenType)
  {
    t in {Minus, Slash, Star, Greater, GreaterEqual, Less, LessEqual}
  }

  /** The unary operator applied to its already evaluated operand. */
  function UnaryOp(operator: Token, right: Object): (r: Result<Object, RuntimeError>)
    ensures operator.tokenType == Minus ==>
      && (r.Ok? <==> right.Number?)
      && (r.Ok? ==> r.value == Object.Number(-right.num))
      && (r.Err? ==> r.error == RuntimeError("Operand must be a number", operator))
    ensures operator.tokenType == Bang ==> r == Ok(Object.Boolean(!IsTruthy(right)))
    ensures operator.tokenType !in {Minus, Bang} ==> r == Err(RuntimeError("Invalid operator", operator))
  {
    match operator.tokenType
    case Minus =>
      (match CheckNumberOperand(operator, right)
       case Ok(n) => Ok(Object.Number(-n))
       case Err(e) => Err(e))
    case Bang => Ok(Object.Boolean(!IsTruthy(right)))
    case _ => Err(RuntimeError("Invalid operator", operator))
  }

  /** The binary operator applied to its already evaluated operands. */
  function BinaryOp(operator: Token, left: Object, right: Object): (r: Result<Object, RuntimeError>)
    ensures NumericOperator(operator.tokenType) ==>
      && (r.Ok? <==> left.Number? && right.Number?)
      && (r.Err? ==> r.error == RuntimeError("Operands must be two numbers", operator))
    ensures operator.tokenType in {Minus, Slash, Star} && r.Ok? ==> r.value.Number?
    ensures operator.tokenType in {Greater, GreaterEqual, Less, LessEqual} && r.Ok? ==> r.value.Boolean?
    ensures operator.tokenType == Plus ==>
      && (r.Ok? <==> (left.Number? && right.Number?) || (left.String? && right.String?))
      && (left.Number? && right.Number? ==> r == Ok(Object.Number(left.num + right.num)))
      && (left.String? && right.String? ==> r == Ok(Object.String(left.str + right.str)))
      && (r.Err? ==> r.error == RuntimeError("Operands must be two numbers or two strings", operator))
    ensures operator.tokenType == EqualEqual ==> r == Ok(Object.Boolean(left == right))
    ensures operator.tokenType == BangEqual ==> r == Ok(Object.Boolean(left != right))
    ensures !NumericOperator(operator.tokenType) && operator.tokenType !in {Plus, EqualEqual, BangEqual} ==>
      r == Err(RuntimeError("Unhandled token type", operator))
  {
    match operator.tokenType
    case Minus =>
      (match CheckNumberOperands(operator, left, right)
       case Ok((x, y)) => Ok(Object.Number(x - y))
       case Err(e) => Err(e))
    case Slash =>
      (match CheckNumberOperands(operator, left, right)
       case Ok((x, y)) => Ok(Object.Number(Quotient(x, y)))
       case Err(e) => Err(e))
    case Star =>
      (match CheckNumberOperands(operator, left, right)
       case Ok((x, y)) => Ok(Object.Number(x * y))
       case Err(e) => Err(e))
    case Plus =>
      (match (left, right)
       case (Number(x), Number(y)) => Ok(Object.Number(x + y))
       case (String(x), String(y)) => Ok(Object.String(x + y))
       case _ => Err(RuntimeError("Operands must be two numbers or two strings", operator)))
    case Greater =>
      (match CheckNumberOperands(operator, left, right)
       case Ok((x, y)) => Ok(Object.Boolean(x > y))
       case Err(e) => Err(e))
    case GreaterEqual =>
      (match CheckNumberOperands(operator, left, right)
       case Ok((x, y)) => Ok(Object.Boolean(x >= y))
       case Err(e) => Err(e))
    case Less =>
      (match CheckNumberOperands(operator, left, right)
       case Ok((x, y)) => Ok(Object.Boolean(x < y))
       case Err(e) => Err(e))
    case LessEqual =>
      (match CheckNumberOperands(operator, left, right)
       case Ok((x, y)) => Ok(Object.Boolean(x <= y))
       case Err(e) => Err(e))
    case BangEqual => Ok(Object.Boolean(!IsEqual(left, right)))
    case EqualEqual => Ok(Object.Boolean(IsEqual(left, right)))
    case _ => Err(RuntimeError("Unhandled token type", operator))
  }

  /** The value (or error) of an expression, and the scope stack it leaves behind. */
  datatype Evaluation = Evaluation(result: Result<Object, RuntimeError>, scopes: seq<Scope>)

  /**
   * `evaluate`. Operands are evaluated left before right and an error stops
   * evaluation at once. Evaluation never adds, removes or renames a binding:
   * every scope keeps its set of names.
   */
  function Eval(e: Expr, scopes: seq<Scope>): (r: Evaluation)
    ensures |r.scopes| == |scopes|
    ensures forall j :: 0 <= j < |scopes| ==> r.scopes[j].Keys == scopes[j].Keys
    decreases e
  {
    match e
    case Literal(v) => Evaluation(Ok(v), scopes)
    case Grouping(inner) => Eval(inner, scopes)
    case Unary(op, right) =>
      var operand := Eval(right, scopes);
      if operand.result.Err? then operand
      else Evaluation(UnaryOp(op, operand.result.value), operand.scopes)
    case Binary(left, op, right) =>
      var l := Eval(left, scopes);
      if l.result.Err? then l
      else
        var r := Eval(right, l.scopes);
        if r.result.Err? then r
        else Evaluation(BinaryOp(op, l.result.value, r.result.value), r.scopes)
    case Variable(name) => Evaluation(GetResult(scopes, name), scopes)
    case Assignment(name, value) =>
      var v := Eval(value, scopes);
      if v.result.Err? then v
      else if Lookup(v.scopes, name.lexeme).None? then Evaluation(Err(UndefinedVariable(name)), v.scopes)
      else Evaluation(v.result, Assigned(v.scopes, name.lexeme, v.result.value))
  }

  predicate HasAssignment(e: Expr)
  {
    match e
    case Literal(_) => false
    case Grouping(inner) => HasAssignment(inner)
    case Unary(_, right) => HasAssignment(right)
    case Binary(left, _, right) => HasAssignment(left) || HasAssignment(right)
    case Variable(_) => false
    case Assignment(_, _) => true
  }

  /** Only assignment changes the scopes: other expressions leave them exactly as they were. */
  lemma {:induction false} EvalWithoutAssignmentKeepsScopes(e: Expr, scopes: seq<Scope>)
    requires !HasAssignment(e)
    ensures Eval(e, scopes).scopes == scopes
  {
    match e
    case Literal(_) =>
    case Variable(_) =>
    case Grouping(inner) =>
      EvalWithoutAssignmentKeepsScopes(inner, scopes);
    case Unary(_, right) =>
      EvalWithoutAssignmentKeepsScopes(right, scopes);
    case Binary(left, _, right) =>
      EvalWithoutAssignmentKeepsScopes(left, scopes);
      EvalWithoutAssignmentKeepsScopes(right, scopes);
  }

  /**
   * The left operand is evaluated first; if it fails, that failure is the
   * result and the right operand is never evaluated. Otherwise the right
   * operand is evaluated in the scopes the left one left behind.
   */
  lemma BinaryEvaluationOrder(left: Expr, op: Token, right: Expr, scopes: seq<Scope>)
    ensures Eval(left, scopes).result.Err? ==> Eval(Binary(left, op, right), scopes) == Eval(left, scopes)
    ensures var l := Eval(left, scopes);
            l.result.Ok? && Eval(right, l.scopes).result.Err? ==>
              Eval(Binary(left, op, right), scopes) == Eval(right, l.scopes)
  {
  }

  /** `==` and `!=` fail only when an operand fails. */
  lemma EqualityNeverFails(left: Expr, op: Token, right: Expr, scopes: seq<Scope>)
    requires op.tokenType.EqualEqual? || op.tokenType.BangEqual?
    requires Eval(left, scopes).result.Ok?
    requires Eval(right, Eval(left, scopes).scopes).result.Ok?
    ensures Eval(Binary(left, op, right), scopes).result.Ok?
  {
  }

  /**
   * Assignment evaluates its value, stores it in the innermost binding and
   * yields that same value; it fails on a name that no scope binds.
   */
  lemma {:induction false} AssignmentYieldsValue(name: Token, value: Expr, scopes: seq<Scope>)
    ensures var v := Eval(value, scopes);
            var a := Eval(Assignment(name, value), scopes);
            v.result.Ok? ==>
              && (a.result.Ok? <==> Lookup(v.scopes, name.lexeme).Some?)
              && (a.result.Ok? ==> a.result == v.result && Lookup(a.scopes, name.lexeme) == Some(v.result.value))
              && (a.result.Err? ==> a.result.error == UndefinedVariable(name) && a.scopes == v.scopes)
  {
    var v := Eval(value, scopes);
    if v.result.Ok? && Lookup(v.scopes, name.lexeme).Some? {
      LookupAfterAssign(v.scopes, name.lexeme, v.result.value, name.lexeme);
    }
  }

  /** Outcome of one statement: success or its runtime error, the scopes and the printed lines. */
  datatype Execution = Execution(result: Result<(), RuntimeError>, scopes: seq<Scope>, output: seq<string>)

  /** `execute`: one statement against the scope stack; `print` appends one line of output. */
  function Exec(s: Stmt, scopes: seq<Scope>, output: seq<string>): (r: Execution)
    requires |scopes| >= 1
    ensures |r.scopes| == |scopes|
    ensures output <= r.output && |r.output| <= |output| + 1
  {
    match s
    case Expression(e) =>
      var v := Eval(e, scopes);
      Execution(if v.result.Err? then Err(v.result.error) else Ok(()), v.scopes, output)
    case Print(e) =>
      var v := Eval(e, scopes);
      if v.result.Err? then Execution(Err(v.result.error), v.scopes, output)
      else Execution(Ok(()), v.scopes, output + [ObjectText(v.result.value)])
    case Var(name, initializer) =>
      match initializer
      case None => Execution(Ok(()), Defined(scopes, name.lexeme, Object.Nil), output)
      case Some(e) =>
        var v := Eval(e, scopes);
        if v.result.Err? then Execution(Err(v.result.error), v.scopes, output)
        else Execution(Ok(()), Defined(v.scopes, name.lexeme, v.result.value), output)
  }

  /** The interpreter's whole observable state: scopes, printed lines, reported runtime errors. */
  datatype Machine = Machine(scopes: seq<Scope>, output: seq<string>, errors: seq<RuntimeError>)

  /** One turn of the driver: execute a statement and report its runtime error, if any. */
  function Step(s: Stmt, m: Machine): (r: Machine)
    requires |m.scopes| >= 1
    ensures |r.scopes| == |m.scopes|
    ensures m.output <= r.output && m.errors <= r.errors && |r.errors| <= |m.errors| + 1
  {
    var x := Exec(s, m.scopes, m.output);
    Machine(x.scopes, x.output, if x.result.Err? then m.errors + [x.result.error] else m.errors)
  }

  /** `interpret`: every statement in order, whatever the earlier ones did. */
  function Run(stmts: seq<Stmt>, m: Machine): (r: Machine)
    requires |m.scopes| >= 1
    ensures |r.scopes| == |m.scopes|
    ensures m.output <= r.output && m.errors <= r.errors
    ensures |r.errors| <= |m.errors| + |stmts|
    decreases |stmts|
  {
    if stmts == [] then m else Step(stmts[|stmts| - 1], Run(stmts[..|stmts| - 1], m))
  }

  /** Running two programs one after the other is running their concatenation. */
  lemma {:induction false} RunAppend(a: seq<Stmt>, b: seq<Stmt>, m: Machine)
    requires |m.scopes| >= 1
    ensures Run(a + b, m) == Run(b, Run(a, m))
    decreases |b|
  {
    if b == [] {
      assert a + b == a;
    } else {
      var init := b[..|b| - 1];
      assert (a + b)[..|a + b| - 1] == a + init;
      RunAppend(a, init, m);
    }
  }

  /**
   * A statement that fails does not stop the run: the rest of the program
   * runs from the state the failing statement left, with its error reported.
   */
  lemma RunContinuesAfterStatement(s: Stmt, rest: seq<Stmt>, m: Machine)
    requires |m.scopes| >= 1
    ensures Run([s] + rest, m) == Run(rest, Step(s, m))
    ensures Exec(s, m.scopes, m.output).result.Err? ==>
      Step(s, m).errors == m.errors + [Exec(s, m.scopes, m.output).result.error]
  {
    RunAppend([s], rest, m);
    assert [s][..0] == [];
  }

  /**
   * `var a = v; print b; print a;` with `b` undefined: the second statement
   * reports "Undefined variable 'b'." and the third still prints `a`.
   */
  lemma ErrorThenContinue(a: Token, b: Token, v: Object)
    requires a.lexeme != b.lexeme
    ensures var program := [Stmt.Var(a, Some(Literal(v))), Stmt.Print(Variable(b)), Stmt.Print(Variable(a))];
            var final := Run(program, Machine([map[]], [], []));
            final.output == [ObjectText(v)] && final.errors == [UndefinedVariable(b)]
  {
    var program := [Stmt.Var(a, Some(Literal(v))), Stmt.Print(Variable(b)), Stmt.Print(Variable(a))];
    var m0 := Machine([map[]], [], []);
    var m1 := Step(program[0], m0);
    assert m1.scopes == [map[a.lexeme := v]] && m1.output == [] && m1.errors == [];
    assert Run(program[..1], m0) == m1 by {
      assert program[..1][..0] == [];
    }
    var m2 := Step(program[1], m1);
    assert Innermost(m1.scopes, b.lexeme).None?;
    assert m2 == Machine(m1.scopes, [], [UndefinedVariable(b)]);
    assert Run(program[..2], m0) == m2 by {
      assert program[..2][..1] == program[..1];
    }
    var m3 := Step(program[2], m2);
    assert Innermost(m2.scopes, a.lexeme) == Some(0);
    assert m3.output == [ObjectText(v)] && m3.errors == [UndefinedVariable(b)];
    assert Run(program, m0) == m3 by {
      assert program[..2] == program[..|program| - 1];
    }
  }

  /**
   * The interpreter's tests: `1 + 2` evaluates to `3` and `1 == 1` to `true`,
   * in any scopes, which they leave as they are.
   */
  lemma AdditionAndEquality(scopes: seq<Scope>)
    ensures Eval(Binary(Literal(Object.Number(1)), Token(Plus, "+", None, 1), Literal(Object.Number(2))), scopes)
            == Evaluation(Ok(Object.Number(3)), scopes)
    ensures Eval(Binary(Literal(Object.Number(1)), Token(EqualEqual, "==", None, 1), Literal(Object.Number(1))), scopes)
            == Evaluation(Ok(Object.Boolean(true)), scopes)
  {
  }

  class Interpreter {
    const environment: EnvironmentStack
    /** Lines written by `print`, each the display form of one value. */
    var output: seq<string>
    /** Runtime errors handed to the reporter, in order. */
    var errors: seq<RuntimeError>

    ghost predicate Valid()
      reads this, environment
    {
      environment.Valid()
    }

    function State(): Machine
      reads this, environment
    {
      Machine(environment.environments, output, errors)
    }

    constructor ()
      ensures Valid() && fresh(environment)
      ensures State() == Machine([map[]], [], [])
    {
      environment := new EnvironmentStack();
      output := [];
      errors := [];
    }

    /** `interpret`: executes each statement; a runtime error is reported and the loop moves on. */
    method Interpret(statements: seq<Stmt>)
      requires Valid()
      modifies this, environment
      ensures Valid()
      ensures State() == Run(statements, old(State()))
    {
      for i := 0 to |statements|
        invariant Valid()
        invariant State() == Run(statements[..i], old(State()))
      {
        assert statements[..i + 1][..i] == statements[..i];
        var r := Execute(statements[i]);
        if r.Err? {
          errors := errors + [r.error];
        }
      }
      assert statements[..|statements|] == statements;
    }

    method Execute(stmt: Stmt) returns (r: Result<(), RuntimeError>)
      requires Valid()
      modifies this, environment
      ensures Valid() && errors == old(errors)
      ensures Execution(r, environment.environments, output) == Exec(stmt, old(environment.environments), old(output))
    {
      match stmt
      case Print(e) => r := ExecutePrintStatement(e);
      case Expression(e) => r := ExecuteExpressionStatement(e);
      case Var(name, initializer) => r := ExecuteVarStatement(name, initializer);
    }

    method ExecuteExpressionStatement(e: Expr) returns (r: Result<(), RuntimeError>)
      requires Valid()
      modifies environment
      ensures Valid()
      ensures Execution(r, environment.environments, output) == Exec(Stmt.Expression(e), old(environment.environments), output)
    {
      var v := Evaluate(e);
      if v.Err? {
        return Err(v.error);
      }
      return Ok(());
    }

    method ExecutePrintStatement(e: Expr) returns (r: Result<(), RuntimeError>)
      requires Valid()
      modifies this, environment
      ensures Valid() && errors == old(errors)
      ensures Execution(r, environment.environments, output) == Exec(Stmt.Print(e), old(environment.environments), old(output))
    {
      var v := Evaluate(e);
      if v.Err? {
        return Err(v.error);
      }
      output := output + [ObjectText(v.value)];
      return Ok(());
    }

    method ExecuteVarStatement(name: Token, initializer: Option<Expr>) returns (r: Result<(), RuntimeError>)
      requires Valid()
      modifies environment
      ensures Valid()
      ensures Execution(r, environment.environments, output) == Exec(Stmt.Var(name, initializer), old(environment.environments), output)
    {
      var value := Object.Nil;
      if initializer.Some? {
        var v := Evaluate(initializer.value);
        if v.Err? {
          return Err(v.error);
        }
        value := v.value;
      }
      environment.Define(name, value);
      return Ok(());
    }

    method Evaluate(e: Expr) returns (r: Result<Object, RuntimeError>)
      requires Valid()
      modifies environment
      ensures Valid()
      ensures Evaluation(r, environment.environments) == Eval(e, old(environment.environments))
      decreases e, 1
    {
      match e
      case Literal(v) =>
        r := Ok(v);
      case Grouping(inner) =>
        r := Evaluate(inner);
      case Unary(op, right) =>
        var operand := Evaluate(right);
        if operand.Err? {
          return operand;
        }
        r := UnaryOp(op, operand.value);
      case Binary(left, op, right) =>
        var l := Evaluate(left);
        if l.Err? {
          return l;
        }
        var rv := Evaluate(right);
        if rv.Err? {
          return rv;
        }
        r := BinaryOp(op, l.value, rv.value);
      case Variable(name) =>
        r := environment.Get(name);
      case Assignment(name, value) =>
        r := EvaluateAssignment(name, value);
    }

    method EvaluateAssignment(name: Token, value: Expr) returns (r: Result<Object, RuntimeError>)
      requires Valid()
      modifies environment
      ensures Valid()
      ensures Evaluation(r, environment.environments) == Eval(Assignment(name, value), old(environment.environments))
      decreases value, 2
    {
      var v := Evaluate(value);
      if v.Err? {
        return v;
      }
      var outcome := environment.Assign(name, v.value);
      if outcome.Err? {
        return Err(outcome.error);
      }
      return v;
    }
  }
}
