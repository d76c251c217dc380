/**
 * The recursive-descent parser. A cursor walks a token list that ends in
 * `Eof`; each grammar rule is a function from the cursor state (position
 * and the diagnostics reported so far) to its result and the new state.
 * The `Parser` class computes the same thing by moving its own cursor.
 */
module Parsing {
  import opened Outcomes
  import opened Tokens
  import opened Errors
  import opened Expressions
  import opened Statements

  /** What the scanner hands over: a non-empty list whose last token is `Eof`, literals present where `primary` unwraps them. */
  predicate WellFormed(toks: seq<Token>)
  {
    && |toks| >= 1
    && toks[|toks| - 1].tokenType.Eof?
    && forall i :: 0 <= i < |toks| && toks[i].tokenType in {TokenType.Number, TokenType.String} ==> toks[i].literal.Some?
  }

  /** The unit error value: the diagnostic has already been reported when it is returned. */
  datatype ParseError = ParseError

  /** The parser's mutable state: the cursor and every diagnostic reported so far. */
  datatype PState = PState(current: nat, errors: seq<Diagnostic>)

  /** A rule's outcome together with the state it leaves behind. */
  datatype Parsed<T> = Parsed(result: Result<T, ParseError>, st: PState)

  /** The outcome of `declaration`: a statement, or `None` after recovery. */
  datatype Declared = Declared(stmt: Option<Stmt>, st: PState)

  /** What `parse` returns, with the diagnostics it reported. */
  datatype Program = Program(statements: seq<Stmt>, errors: seq<Diagnostic>)

  const ExpectVariableName := "Expect variable name."
  const ExpectSemicolonAfterVar := "Expect ';' after variable declaration."
  const ExpectSemicolonAfterValue := "Expect ';' after value."
  const ExpectRightParen := "Expect ')' after expression."
  const ExpectExpression := "Expect expression."
  const InvalidTarget := "Invalid assignment target"

  /** A cursor the parser may hold: on some token of a well-formed list. */
  predicate Ready(toks: seq<Token>, st: PState)
  {
    WellFormed(toks) && st.current < |toks|
  }

  /** `is_at_end`: the token under the cursor is `Eof`. */
  predicate AtEnd(toks: seq<Token>, p: nat)
    requires p < |toks|
  {
    toks[p].tokenType.Eof?
  }

  /** `check`: the current token has kind `t`, never at the end. */
  predicate CheckAt(toks: seq<Token>, p: nat, t: TokenType)
    requires p < |toks|
  {
    if AtEnd(toks, p) then false else toks[p].tokenType in [t]
  }

  /** What `match_token` tests: the current token is not `Eof` and its kind is one of `types`. */
  predicate Matches(toks: seq<Token>, p: nat, types: seq<TokenType>)
    requires p < |toks|
  {
    !AtEnd(toks, p) && toks[p].tokenType in types
  }

  /** `advance`: one token on, unless already at `Eof`. */
  function AdvancePos(toks: seq<Token>, p: nat): (q: nat)
    requires WellFormed(toks) && p < |toks|
    ensures q < |toks|
    ensures q == p <==> AtEnd(toks, p)
    ensures q == p || q == p + 1
  {
    if AtEnd(toks, p) then p else p + 1
  }

  /** The diagnostic `error` reports: the message at the offending token. */
  function Report(st: PState, token: Token, message: string): (r: PState)
    ensures r.current == st.current && r.errors == st.errors + [AtToken(token, message)]
  {
    st.(errors := st.errors + [AtToken(token, message)])
  }

  /** `consume`: the current token when it has kind `t`, else an error reported at it. */
  function ConsumeAt(toks: seq<Token>, st: PState, t: TokenType, message: string): (r: Parsed<Token>)
    requires Ready(toks, st)
    ensures r.result.Ok? <==> CheckAt(toks, st.current, t)
    ensures r.result.Ok? ==> r == Parsed(Ok(toks[st.current]), st.(current := st.current + 1))
    ensures r.result.Err? ==> r.st == Report(st, toks[st.current], message)
  {
    if CheckAt(toks, st.current, t) then Parsed(Ok(toks[st.current]), st.(current := AdvancePos(toks, st.current)))
    else Parsed(Err(ParseError), Report(st, toks[st.current], message))
  }

  /**
   * What every rule guarantees about the state it leaves: the cursor stays
   * on the list and never moves back, diagnostics are only appended, and a
   * failure has reported at least one.
   */
  predicate Within(toks: seq<Token>, st: PState, after: PState, failed: bool)
  {
    && st.current <= after.current < |toks|
    && st.errors <= after.errors
    && (failed ==> |st.errors| < |after.errors|)
  }

  /** A rule that succeeds has consumed at least one token. */
  predicate Consumed(st: PState, after: PState, failed: bool)
  {
    !failed ==> st.current < after.current
  }

  /** The operators of each binary level: 1 `factor`, 2 `term`, 3 `comparison`, 4 `equality`. */
  function Operators(level: nat): seq<TokenType>
  {
    if level == 1 then [Slash, Star]
    else if level == 2 then [Minus, Plus]
    else if level == 3 then [Greater, GreaterEqual, Less, LessEqual]
    else [BangEqual, EqualEqual]
  }

  /** `assignment`: an equality, then `= assignment` when an `=` follows it. */
  function ParseAssignment(toks: seq<Token>, st: PState): (r: Parsed<Expr>)
    requires Ready(toks, st)
    ensures Within(toks, st, r.st, r.result.Err?) && Consumed(st, r.st, r.result.Err?)
    decreases |toks| - st.current, 11
  {
    var left := ParseBinary(toks, 4, st);
    if left.result.Err? then left else ParseAssignmentTail(toks, left.result.value, left.st)
  }

  /**
   * The rest of `assignment` once `expr` is parsed: a variable target
   * becomes an `Assignment`; any other target is reported and returned as
   * it is, without failing.
   */
  function ParseAssignmentTail(toks: seq<Token>, expr: Expr, st: PState): (r: Parsed<Expr>)
    requires Ready(toks, st)
    ensures Within(toks, st, r.st, r.result.Err?)
    ensures !Matches(toks, st.current, [Equal]) ==> r == Parsed(Ok(expr), st)
    decreases |toks| - st.current, 10
  {
    if Matches(toks, st.current, [Equal]) then
      var equals := toks[st.current];
      var value := ParseAssignment(toks, st.(current := st.current + 1));
      if value.result.Err? then Parsed(Err(ParseError), value.st)
      else if expr.Variable? then Parsed(Ok(Expressions.Assignment(expr.name, value.result.value)), value.st)
      else Parsed(Ok(expr), Report(value.st, equals, InvalidTarget))
    else Parsed(Ok(expr), st)
  }

  /** The operand of a binary level: the next level up in precedence. */
  function ParseOperand(toks: seq<Token>, level: nat, st: PState): (r: Parsed<Expr>)
    requires Ready(toks, st) && 1 <= level <= 4
    ensures Within(toks, st, r.st, r.result.Err?) && Consumed(st, r.st, r.result.Err?)
    decreases |toks| - st.current, 2 * level + 1
  {
    if level == 1 then ParseUnary(toks, st) else ParseBinary(toks, level - 1, st)
  }

  /** `equality`, `comparison`, `term` and `factor`: an operand, then the operator loop. */
  function ParseBinary(toks: seq<Token>, level: nat, st: PState): (r: Parsed<Expr>)
    requires Ready(toks, st) && 1 <= level <= 4
    ensures Within(toks, st, r.st, r.result.Err?) && Consumed(st, r.st, r.result.Err?)
    decreases |toks| - st.current, 2 * level + 2
  {
    var left := ParseOperand(toks, level, st);
    if left.result.Err? then left else ParseFold(toks, level, left.result.value, left.st)
  }

  /**
   * The `while match_token(...)` loop of a binary level: each operator and
   * the operand after it wrap the tree built so far, so the levels fold to
   * the left.
   */
  function ParseFold(toks: seq<Token>, level: nat, left: Expr, st: PState): (r: Parsed<Expr>)
    requires Ready(toks, st) && 1 <= level <= 4
    ensures Within(toks, st, r.st, r.result.Err?)
    ensures !Matches(toks, st.current, Operators(level)) ==> r == Parsed(Ok(left), st)
    decreases |toks| - st.current, 2 * level
  {
    if Matches(toks, st.current, Operators(level)) then
      var operator := toks[st.current];
      var right := ParseOperand(toks, level, st.(current := st.current + 1));
      if right.result.Err? then Parsed(Err(ParseError), right.st)
      else ParseFold(toks, level, Expressions.Binary(left, operator, right.result.value), right.st)
    else Parsed(Ok(left), st)
  }

  /** `unary`: `!` or `-` applied to a unary, else a primary. */
  function ParseUnary(toks: seq<Token>, st: PState): (r: Parsed<Expr>)
    requires Ready(toks, st)
    ensures Within(toks, st, r.st, r.result.Err?) && Consumed(st, r.st, r.result.Err?)
    decreases |toks| - st.current, 2
  {
    if Matches(toks, st.current, [Bang, Minus]) then
      var operator := toks[st.current];
      var right := ParseUnary(toks, st.(current := st.current + 1));
      if right.result.Err? then Parsed(Err(ParseError), right.st)
      else Parsed(Ok(Expressions.Unary(operator, right.result.value)), right.st)
    else ParsePrimary(toks, st)
  }

  /** `primary`: a literal, a variable, or a parenthesised expression; anything else is reported. */
  function ParsePrimary(toks: seq<Token>, st: PState): (r: Parsed<Expr>)
    requires Ready(toks, st)
    ensures Within(toks, st, r.st, r.result.Err?) && Consumed(st, r.st, r.result.Err?)
    decreases |toks| - st.current, 1
  {
    var p := st.current;
    var next := st.(current := p + 1);
    if Matches(toks, p, [False]) then Parsed(Ok(Literal(Boolean(false))), next)
    else if Matches(toks, p, [True]) then Parsed(Ok(Literal(Boolean(true))), next)
    else if Matches(toks, p, [TokenType.Nil]) then Parsed(Ok(Literal(Object.Nil)), next)
    else ParseAtom(toks, st)
  }

  /** The cases of `primary` after the keyword literals: a literal token, a variable, a group, or the error. */
  function ParseAtom(toks: seq<Token>, st: PState): (r: Parsed<Expr>)
    requires Ready(toks, st)
    ensures Within(toks, st, r.st, r.result.Err?) && Consumed(st, r.st, r.result.Err?)
    decreases |toks| - st.current, 0
  {
    var p := st.current;
    var next := st.(current := p + 1);
    if Matches(toks, p, [TokenType.Number, TokenType.String]) then Parsed(Ok(Literal(toks[p].literal.value)), next)
    else if Matches(toks, p, [Identifier]) then Parsed(Ok(Variable(toks[p])), next)
    else if Matches(toks, p, [LeftParen]) then ParseGroup(toks, next)
    else Parsed(Err(ParseError), Report(st, toks[p], ExpectExpression))
  }

  /** `( expression )`, after `(`: the inner expression, then the closing parenthesis. */
  function ParseGroup(toks: seq<Token>, st: PState): (r: Parsed<Expr>)
    requires Ready(toks, st) && st.current >= 1 && toks[st.current - 1].tokenType.LeftParen?
    ensures Within(toks, st, r.st, r.result.Err?) && Consumed(st, r.st, r.result.Err?)
    decreases |toks| - st.current, 12
  {
    var inner := ParseAssignment(toks, st);
    if inner.result.Err? then Parsed(Err(ParseError), inner.st)
    else
      var close := ConsumeAt(toks, inner.st, RightParen, ExpectRightParen);
      if close.result.Err? then Parsed(Err(ParseError), close.st)
      else Parsed(Ok(Grouping(inner.result.value)), close.st)
  }

  /** `var_declaration`, after `var`: a name, an optional `= expression`, then `;`. */
  function ParseVarDeclaration(toks: seq<Token>, st: PState): (r: Parsed<Stmt>)
    requires Ready(toks, st) && st.current >= 1 && toks[st.current - 1].tokenType.Var?
    ensures Within(toks, st, r.st, r.result.Err?) && Consumed(st, r.st, r.result.Err?)
  {
    var name := ConsumeAt(toks, st, Identifier, ExpectVariableName);
    if name.result.Err? then Parsed(Err(ParseError), name.st)
    else ParseVarRest(toks, name.result.value, name.st)
  }

  /** The rest of `var_declaration` once the variable `name` has been consumed: the initializer, then `;`. */
  function ParseVarRest(toks: seq<Token>, name: Token, st: PState): (r: Parsed<Stmt>)
    requires Ready(toks, st)
    ensures Within(toks, st, r.st, r.result.Err?)
    ensures r.result.Ok? ==> r.result.value.Var? && r.result.value.name == name && st.current < r.st.current
  {
    var init := ParseInitializer(toks, st);
    if init.result.Err? then Parsed(Err(ParseError), init.st)
    else
      var semicolon := ConsumeAt(toks, init.st, Semicolon, ExpectSemicolonAfterVar);
      if semicolon.result.Err? then Parsed(Err(ParseError), semicolon.st)
      else Parsed(Ok(Stmt.Var(name, init.result.value)), semicolon.st)
  }

  /** The optional initializer of a `var`: an expression after `=`, or none when no `=` follows. */
  function ParseInitializer(toks: seq<Token>, st: PState): (r: Parsed<Option<Expr>>)
    requires Ready(toks, st)
    ensures Within(toks, st, r.st, r.result.Err?)
    ensures !Matches(toks, st.current, [Equal]) ==> r == Parsed(Ok(None), st)
  {
    if Matches(toks, st.current, [Equal]) then
      var e := ParseAssignment(toks, st.(current := st.current + 1));
      if e.result.Err? then Parsed(Err(ParseError), e.st) else Parsed(Ok(Some(e.result.value)), e.st)
    else Parsed(Ok(None), st)
  }

  /** `print_statement`, after `print`: an expression, then `;`. */
  function ParsePrintStatement(toks: seq<Token>, st: PState): (r: Parsed<Stmt>)
    requires Ready(toks, st) && st.current >= 1 && toks[st.current - 1].tokenType.Print?
    ensures Within(toks, st, r.st, r.result.Err?) && Consumed(st, r.st, r.result.Err?)
  {
    var value := ParseAssignment(toks, st);
    if value.result.Err? then Parsed(Err(ParseError), value.st)
    else
      var semicolon := ConsumeAt(toks, value.st, Semicolon, ExpectSemicolonAfterValue);
      if semicolon.result.Err? then Parsed(Err(ParseError), semicolon.st)
      else Parsed(Ok(Statements.Print(value.result.value)), semicolon.st)
  }

  /** `expression_statement`: an expression, then `;`. */
  function ParseExpressionStatement(toks: seq<Token>, st: PState): (r: Parsed<Stmt>)
    requires Ready(toks, st)
    ensures Within(toks, st, r.st, r.result.Err?) && Consumed(st, r.st, r.result.Err?)
  {
    var expr := ParseAssignment(toks, st);
    if expr.result.Err? then Parsed(Err(ParseError), expr.st)
    else
      var semicolon := ConsumeAt(toks, expr.st, Semicolon, ExpectSemicolonAfterValue);
      if semicolon.result.Err? then Parsed(Err(ParseError), semicolon.st)
      else Parsed(Ok(Expression(expr.result.value)), semicolon.st)
  }

  /** `statement`: a print statement after `print`, else an expression statement. */
  function ParseStatement(toks: seq<Token>, st: PState): (r: Parsed<Stmt>)
    requires Ready(toks, st)
    ensures Within(toks, st, r.st, r.result.Err?) && Consumed(st, r.st, r.result.Err?)
  {
    if Matches(toks, st.current, [TokenType.Print]) then ParsePrintStatement(toks, st.(current := st.current + 1))
    else ParseExpressionStatement(toks, st)
  }

  /** The keywords that start a statement, before which `synchronize` stops. */
  const StatementKeywords: set<TokenType> := {Class, For, Fun, If, TokenType.Print, Return, TokenType.Var, While}

  /** A place where `synchronize` stops: at `Eof`, just after a `;`, or just before a statement keyword. */
  predicate Boundary(toks: seq<Token>, p: nat)
    requires 1 <= p < |toks|
  {
    AtEnd(toks, p) || toks[p - 1].tokenType.Semicolon? || toks[p].tokenType in StatementKeywords
  }

  /** The loop of `synchronize`: the first boundary at or after `p`. */
  function SkipToBoundary(toks: seq<Token>, p: nat): (q: nat)
    requires WellFormed(toks) && 1 <= p < |toks|
    ensures p <= q < |toks| && Boundary(toks, q)
    ensures forall k :: p <= k < q ==> !Boundary(toks, k)
    decreases |toks| - p
  {
    if Boundary(toks, p) then p else SkipToBoundary(toks, p + 1)
  }

  /**
   * `synchronize`: one token on, then up to the next boundary. At position 0
   * on `Eof` the source would read before the first token; parsing never
   * gets there.
   */
  function Synchronized(toks: seq<Token>, p: nat): (q: nat)
    requires WellFormed(toks) && p < |toks| && (p > 0 || !AtEnd(toks, p))
    ensures p <= q < |toks|
    ensures !AtEnd(toks, p) ==> p < q
  {
    SkipToBoundary(toks, AdvancePos(toks, p))
  }

  /** `declaration`: a statement, or `None` once a failure has been recovered from. */
  function ParseDeclaration(toks: seq<Token>, st: PState): (r: Declared)
    requires Ready(toks, st) && !AtEnd(toks, st.current)
    ensures st.current < r.st.current < |toks|
    ensures st.errors <= r.st.errors
    ensures r.stmt.None? ==> |st.errors| < |r.st.errors|
  {
    Recovered(toks, ParseDeclarationAttempt(toks, st))
  }

  /** The first half of `declaration`: a `var` declaration after `var`, any other statement otherwise. */
  function ParseDeclarationAttempt(toks: seq<Token>, st: PState): (r: Parsed<Stmt>)
    requires Ready(toks, st) && !AtEnd(toks, st.current)
    ensures Within(toks, st, r.st, r.result.Err?) && Consumed(st, r.st, r.result.Err?)
  {
    if Matches(toks, st.current, [TokenType.Var]) then ParseVarDeclaration(toks, st.(current := st.current + 1))
    else ParseStatement(toks, st)
  }

  /** The end of `declaration`: the statement, or `None` after `synchronize` on a failure. */
  function Recovered(toks: seq<Token>, result: Parsed<Stmt>): (r: Declared)
    requires Ready(toks, result.st) && (result.st.current > 0 || !AtEnd(toks, result.st.current))
    ensures result.result.Ok? ==> r == Declared(Some(result.result.value), result.st)
    ensures result.result.Err? ==> r.stmt.None? && r.st == result.st.(current := Synchronized(toks, result.st.current))
  {
    match result.result
    case Ok(stmt) => Declared(Some(stmt), result.st)
    case Err(_) => Declared(None, result.st.(current := Synchronized(toks, result.st.current)))
  }

  /** The loop of `parse` from `st`, `statements` being those collected so far. */
  function ParseFrom(toks: seq<Token>, st: PState, statements: seq<Stmt>): (r: Program)
    requires Ready(toks, st)
    ensures st.errors <= r.errors && statements <= r.statements
    decreases |toks| - st.current
  {
    if AtEnd(toks, st.current) then Program(statements, st.errors)
    else
      var d := ParseDeclaration(toks, st);
      ParseFrom(toks, d.st, if d.stmt.Some? then statements + [d.stmt.value] else statements)
  }

  /** One turn of the `parse` loop: a declaration, its statement kept when it parsed. */
  lemma ParseFromStep(toks: seq<Token>, st: PState, statements: seq<Stmt>)
    requires Ready(toks, st) && !AtEnd(toks, st.current)
    ensures var d := ParseDeclaration(toks, st);
            ParseFrom(toks, st, statements) == ParseFrom(toks, d.st, if d.stmt.Some? then statements + [d.stmt.value] else statements)
  {
  }

  /** `parse` on a fresh parser. */
  function ParseTokens(toks: seq<Token>): Program
    requires WellFormed(toks)
  {
    ParseFrom(toks, PState(0, []), [])
  }

  class Parser {
    const tokens: seq<Token>
    var current: nat
    var errors: seq<Diagnostic>

    ghost predicate Valid()
      reads this
    {
      WellFormed(tokens) && current < |tokens|
    }

    function State(): PState
      reads this
    {
      PState(current, errors)
    }

    constructor (tokens: seq<Token>)
      requires WellFormed(tokens)
      ensures Valid() && this.tokens == tokens
      ensures State() == PState(0, [])
    {
      this.tokens := tokens;
      current := 0;
      errors := [];
    }

    /** `parse`: declarations until `Eof`, keeping those that produced a statement. */
    method Parse() returns (statements: seq<Stmt>)
      requires Valid()
      modifies this
      ensures Valid()
      ensures Program(statements, errors) == ParseFrom(tokens, old(State()), [])
    {
      statements := [];
      while !IsAtEnd()
        invariant Valid()
        invariant ParseFrom(tokens, State(), statements) == ParseFrom(tokens, old(State()), [])
        decreases |tokens| - current
      {
        ParseFromStep(tokens, State(), statements);
        var stmt := Declaration();
        if stmt.Some? {
          statements := statements + [stmt.value];
        }
      }
    }

    method Expression() returns (r: Result<Expr, ParseError>)
      requires Valid()
      modifies this
      ensures Valid()
      ensures Parsed(r, State()) == ParseAssignment(tokens, old(State()))
      decreases |tokens| - current, 12
    {
      r := Assignment();
    }

    /** `declaration`: on a failure, recover with `synchronize` and yield `None`. */
    method Declaration() returns (r: Option<Stmt>)
      requires Valid() && !AtEnd(tokens, current)
      modifies this
      ensures Valid()
      ensures Declared(r, State()) == ParseDeclaration(tokens, old(State()))
    {
      var result := DeclarationAttempt();
      if result.Ok? {
        r := Some(result.value);
      } else {
        Synchronize();
        r := None;
      }
    }

    method DeclarationAttempt() returns (r: Result<Stmt, ParseError>)
      requires Valid() && !AtEnd(tokens, current)
      modifies this
      ensures Valid()
      ensures Parsed(r, State()) == ParseDeclarationAttempt(tokens, old(State()))
    {
      var matched := MatchToken([TokenType.Var]);
      if matched {
        assert tokens[current - 1].tokenType in [TokenType.Var];
        r := VarDeclaration();
        return;
      }
      r := Statement();
    }

    method Statement() returns (r: Result<Stmt, ParseError>)
      requires Valid()
      modifies this
      ensures Valid()
      ensures Parsed(r, State()) == ParseStatement(tokens, old(State()))
    {
      var matched := MatchToken([TokenType.Print]);
      if matched {
        assert tokens[current - 1].tokenType in [TokenType.Print];
        r := PrintStatement();
        return;
      }
      r := ExpressionStatement();
    }

    method VarDeclaration() returns (r: Result<Stmt, ParseError>)
      requires Valid() && current >= 1 && tokens[current - 1].tokenType.Var?
      modifies this
      ensures Valid()
      ensures Parsed(r, State()) == ParseVarDeclaration(tokens, old(State()))
    {
      var name := Consume(Identifier, ExpectVariableName);
      if name.Err? {
        return Err(ParseError);
      }
      r := VarRest(name.value);
    }

    method VarRest(name: Token) returns (r: Result<Stmt, ParseError>)
      requires Valid()
      modifies this
      ensures Valid()
      ensures Parsed(r, State()) == ParseVarRest(tokens, name, old(State()))
    {
      var initializer := Initializer();
      if initializer.Err? {
        return Err(ParseError);
      }
      var semicolon := Consume(Semicolon, ExpectSemicolonAfterVar);
      if semicolon.Err? {
        return Err(ParseError);
      }
      r := Ok(Stmt.Var(name, initializer.value));
    }

    method Initializer() returns (r: Result<Option<Expr>, ParseError>)
      requires Valid()
      modifies this
      ensures Valid()
      ensures Parsed(r, State()) == ParseInitializer(tokens, old(State()))
    {
      var matched := MatchToken([Equal]);
      if !matched {
        return Ok(None);
      }
      var e := Expression();
      if e.Err? {
        return Err(ParseError);
      }
      r := Ok(Some(e.value));
    }

    method PrintStatement() returns (r: Result<Stmt, ParseError>)
      requires Valid() && current >= 1 && tokens[current - 1].tokenType.Print?
      modifies this
      ensures Valid()
      ensures Parsed(r, State()) == ParsePrintStatement(tokens, old(State()))
    {
      var value := Expression();
      if value.Err? {
        return Err(ParseError);
      }
      var semicolon := Consume(Semicolon, ExpectSemicolonAfterValue);
      if semicolon.Err? {
        return Err(ParseError);
      }
      r := Ok(Statements.Print(value.value));
    }

    method ExpressionStatement() returns (r: Result<Stmt, ParseError>)
      requires Valid()
      modifies this
      ensures Valid()
      ensures Parsed(r, State()) == ParseExpressionStatement(tokens, old(State()))
    {
      var expr := Expression();
      if expr.Err? {
        return Err(ParseError);
      }
      var semicolon := Consume(Semicolon, ExpectSemicolonAfterValue);
      if semicolon.Err? {
        return Err(ParseError);
      }
      r := Ok(Statements.Expression(expr.value));
    }

    method Assignment() returns (r: Result<Expr, ParseError>)
      requires Valid()
      modifies this
      ensures Valid()
      ensures Parsed(r, State()) == ParseAssignment(tokens, old(State()))
      decreases |tokens| - current, 11
    {
      var expr := Binary(4);
      if expr.Err? {
        return expr;
      }
      r := AssignmentTail(expr.value);
    }

    method AssignmentTail(expr: Expr) returns (r: Result<Expr, ParseError>)
      requires Valid()
      modifies this
      ensures Valid()
      ensures Parsed(r, State()) == ParseAssignmentTail(tokens, expr, old(State()))
      decreases |tokens| - current, 10
    {
      var matched := MatchToken([Equal]);
      if !matched {
        return Ok(expr);
      }
      var equals := Previous();
      var value := Assignment();
      if value.Err? {
        return Err(ParseError);
      }
      if expr.Variable? {
        return Ok(Expressions.Assignment(expr.name, value.value));
      }
      var _ := Error(equals, InvalidTarget);
      r := Ok(expr);
    }

    /** `equality` (4), `comparison` (3), `term` (2) and `factor` (1). */
    method Binary(level: nat) returns (r: Result<Expr, ParseError>)
      requires Valid() && 1 <= level <= 4
      modifies this
      ensures Valid()
      ensures Parsed(r, State()) == ParseBinary(tokens, level, old(State()))
      decreases |tokens| - current, 2 * level + 2
    {
      var left := Operand(level);
      if left.Err? {
        return left;
      }
      var expr := left.value;
      while true
        invariant Valid() && old(current) < current
        invariant ParseFold(tokens, level, expr, State()) == ParseBinary(tokens, level, old(State()))
        decreases |tokens| - current
      {
        var matched := MatchToken(Operators(level));
        if !matched {
          return Ok(expr);
        }
        var operator := Previous();
        var right := Operand(level);
        if right.Err? {
          return Err(ParseError);
        }
        expr := Expressions.Binary(expr, operator, right.value);
      }
    }

    /** The next level up: `unary` below `factor`, `factor` below `term`, and so on. */
    method Operand(level: nat) returns (r: Result<Expr, ParseError>)
      requires Valid() && 1 <= level <= 4
      modifies this
      ensures Valid()
      ensures Parsed(r, State()) == ParseOperand(tokens, level, old(State()))
      decreases |tokens| - current, 2 * level + 1
    {
      if level == 1 {
        r := Unary();
      } else {
        r := Binary(level - 1);
      }
    }

    method Unary() returns (r: Result<Expr, ParseError>)
      requires Valid()
      modifies this
      ensures Valid()
      ensures Parsed(r, State()) == ParseUnary(tokens, old(State()))
      decreases |tokens| - current, 2
    {
      var matched := MatchToken([Bang, Minus]);
      if matched {
        var operator := Previous();
        var right := Unary();
        if right.Err? {
          return Err(ParseError);
        }
        return Ok(Expressions.Unary(operator, right.value));
      }
      r := Primary();
    }

    method Primary() returns (r: Result<Expr, ParseError>)
      requires Valid()
      modifies this
      ensures Valid()
      ensures Parsed(r, State()) == ParsePrimary(tokens, old(State()))
      decreases |tokens| - current, 1
    {
      var matched := MatchToken([False]);
      if matched {
        return Ok(Literal(Boolean(false)));
      }
      matched := MatchToken([True]);
      if matched {
        return Ok(Literal(Boolean(true)));
      }
      matched := MatchToken([TokenType.Nil]);
      if matched {
        return Ok(Literal(Object.Nil));
      }
      r := Atom();
    }

    method Atom() returns (r: Result<Expr, ParseError>)
      requires Valid()
      modifies this
      ensures Valid()
      ensures Parsed(r, State()) == ParseAtom(tokens, old(State()))
      decreases |tokens| - current, 0
    {
      var matched := MatchToken([TokenType.Number, TokenType.String]);
      if matched {
        var token := Previous();
        assert token.tokenType in {TokenType.Number, TokenType.String};
        return Ok(Literal(token.literal.value));
      }
      matched := MatchToken([Identifier]);
      if matched {
        var token := Previous();
        return Ok(Variable(token));
      }
      matched := MatchToken([LeftParen]);
      if matched {
        assert tokens[current - 1].tokenType in [LeftParen];
        r := Group();
        return;
      }
      var _ := Error(Peek(), ExpectExpression);
      r := Err(ParseError);
    }

    /** The `(` case of `primary`, after the parenthesis. */
    method Group() returns (r: Result<Expr, ParseError>)
      requires Valid() && current >= 1 && tokens[current - 1].tokenType.LeftParen?
      modifies this
      ensures Valid()
      ensures Parsed(r, State()) == ParseGroup(tokens, old(State()))
      decreases |tokens| - current, 13
    {
      var expr := Expression();
      if expr.Err? {
        return Err(ParseError);
      }
      var close := Consume(RightParen, ExpectRightParen);
      if close.Err? {
        return Err(ParseError);
      }
      r := Ok(Grouping(expr.value));
    }

    /** `error`: report `message` at `token`. */
    method Error(token: Token, message: string) returns (e: ParseError)
      requires Valid()
      modifies this`errors
      ensures Valid() && errors == old(errors) + [AtToken(token, message)]
    {
      errors := errors + [AtToken(token, message)];
      e := ParseError;
    }

    /** `consume`: the current token when it has kind `t`; otherwise report and fail without moving. */
    method Consume(t: TokenType, message: string) returns (r: Result<Token, ParseError>)
      requires Valid()
      modifies this
      ensures Valid()
      ensures Parsed(r, State()) == ConsumeAt(tokens, old(State()), t, message)
    {
      if Check(t) {
        var token := Advance();
        return Ok(token);
      }
      var _ := Error(Peek(), message);
      r := Err(ParseError);
    }

    /** `match_token`: tries each kind in turn and advances on the first that passes `check`. */
    method MatchToken(types: seq<TokenType>) returns (matched: bool)
      requires Valid()
      modifies this`current
      ensures Valid()
      ensures matched == Matches(tokens, old(current), types)
      ensures current == if matched then old(current) + 1 else old(current)
    {
      for i := 0 to |types|
        invariant current == old(current)
        invariant !Matches(tokens, current, types[..i])
      {
        if Check(types[i]) {
          var _ := Advance();
          return true;
        }
      }
      assert types[..|types|] == types;
      return false;
    }

    function Check(t: TokenType): bool
      requires Valid()
      reads this
    {
      CheckAt(tokens, current, t)
    }

    /** `advance`: moves on unless at `Eof`, and returns the token just passed. */
    method Advance() returns (token: Token)
      requires Valid() && (current > 0 || !IsAtEnd())
      modifies this`current
      ensures Valid() && current == AdvancePos(tokens, old(current))
      ensures token == tokens[current - 1]
    {
      if !IsAtEnd() {
        current := current + 1;
      }
      token := Previous();
    }

    function IsAtEnd(): bool
      requires Valid()
      reads this
    {
      AtEnd(tokens, current)
    }

    function Peek(): Token
      requires Valid()
      reads this
    {
      tokens[current]
    }

    function Previous(): Token
      requires Valid() && current > 0
      reads this
    {
      tokens[current - 1]
    }

    /** `synchronize`: skips to the next statement boundary. */
    method Synchronize()
      requires Valid() && (current > 0 || !IsAtEnd())
      modifies this`current
      ensures Valid() && current == Synchronized(tokens, old(current))
    {
      var _ := Advance();
      while !IsAtEnd()
        invariant Valid() && current >= 1
        invariant SkipToBoundary(tokens, current) == Synchronized(tokens, old(current))
        decreases |tokens| - current
      {
        if Previous().tokenType.Semicolon? {
          return;
        }
        if Peek().tokenType in StatementKeywords {
          return;
        }
        var _ := Advance();
      }
    }
  }
}
