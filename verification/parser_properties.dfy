/**
 * What the grammar functions of `Parsing` do on small token patterns:
 * left-associative folding within a binary level, precedence between
 * levels, right-associative assignment, the invalid-target report, and
 * the `var` declaration with and without its `;`.
 */
module ParserProperties {
  import opened Outcomes
  import opened Tokens
  import opened Errors
  import opened Expressions
  import opened Statements
  import opened Parsing

  /** A token `primary` turns into an expression on its own: a keyword literal, a number, a string or a name. */
  predicate IsAtom(tok: Token)
  {
    var tt := tok.tokenType;
    tt.False? || tt.True? || tt.Nil? || tt.Number? || tt.String? || tt.Identifier?
  }

  /** The expression `primary` builds from an atom. */
  function AtomExpr(tok: Token): Expr
    requires IsAtom(tok) && (tok.tokenType.Number? || tok.tokenType.String? ==> tok.literal.Some?)
  {
    var tt := tok.tokenType;
    if tt.False? then Literal(Boolean(false))
    else if tt.True? then Literal(Boolean(true))
    else if tt.Nil? then Literal(Object.Nil)
    else if tt.Identifier? then Variable(tok)
    else Literal(tok.literal.value)
  }

  /** The binary level an operator belongs to, from 1 (`factor`) to 4 (`equality`); 5 for any other token. */
  function Precedence(tt: TokenType): (n: nat)
    ensures 1 <= n <= 5
  {
    if tt.Slash? || tt.Star? then 1
    else if tt.Minus? || tt.Plus? then 2
    else if tt.Greater? || tt.GreaterEqual? || tt.Less? || tt.LessEqual? then 3
    else if tt.BangEqual? || tt.EqualEqual? then 4
    else 5
  }

  /** Each operator belongs to exactly one level, the one `Precedence` names. */
  lemma {:induction false} OperatorsByPrecedence(tt: TokenType, level: nat)
    requires 1 <= level <= 4
    ensures tt in Operators(level) <==> Precedence(tt) == level
  {
  }

  /** An atom at the cursor, parsed as a `primary`. */
  lemma {:induction false} PrimaryAtom(toks: seq<Token>, st: PState)
    requires Ready(toks, st) && IsAtom(toks[st.current])
    ensures st.current + 1 < |toks|
    ensures ParsePrimary(toks, st) == Parsed(Ok(AtomExpr(toks[st.current])), st.(current := st.current + 1))
  {
    assert !AtEnd(toks, st.current);
    assert st.current != |toks| - 1;
  }

  /** A token no expression starts with: no atom, no `(`, no prefix operator (`Eof` is one). */
  predicate StartsNoExpression(tok: Token)
  {
    !IsAtom(tok) && !tok.tokenType.LeftParen? && !tok.tokenType.Bang? && !tok.tokenType.Minus?
  }

  /** Every binary level fails at such a token, with the one report `primary` makes there. */
  lemma {:induction false} BinaryMissingExpression(toks: seq<Token>, level: nat, st: PState)
    requires Ready(toks, st) && 1 <= level <= 4 && StartsNoExpression(toks[st.current])
    ensures ParseBinary(toks, level, st) == Parsed(Err(ParseError), Report(st, toks[st.current], ExpectExpression))
    decreases level
  {
    var p := st.current;
    if level == 1 {
      assert !Matches(toks, p, [Bang, Minus]);
      assert !Matches(toks, p, [False]) && !Matches(toks, p, [True]) && !Matches(toks, p, [TokenType.Nil]);
      assert !Matches(toks, p, [TokenType.Number, TokenType.String]) && !Matches(toks, p, [Identifier]);
      assert !Matches(toks, p, [LeftParen]);
      assert ParsePrimary(toks, st) == ParseAtom(toks, st);
      assert ParseOperand(toks, 1, st) == ParseUnary(toks, st) == ParsePrimary(toks, st);
    } else {
      BinaryMissingExpression(toks, level - 1, st);
      assert ParseOperand(toks, level, st) == ParseBinary(toks, level - 1, st);
    }
  }

  /** An expression that cannot start, `Eof` among such tokens, is reported as "Expect expression." at that token. */
  lemma {:induction false} MissingExpression(toks: seq<Token>, st: PState)
    requires Ready(toks, st) && StartsNoExpression(toks[st.current])
    ensures ParseAssignment(toks, st) == Parsed(Err(ParseError), Report(st, toks[st.current], ExpectExpression))
  {
    BinaryMissingExpression(toks, 4, st);
  }

  /**
   * A `primary` followed by a token that is no operator binding tighter
   * than `level` is the whole operand of that level: every level under it
   * stops right after the primary.
   */
  lemma {:induction false} OperandPrimary(toks: seq<Token>, level: nat, st: PState)
    requires Ready(toks, st) && 1 <= level <= 4 && toks[st.current].tokenType !in [Bang, Minus]
    requires var r := ParsePrimary(toks, st); r.result.Ok? && Precedence(toks[r.st.current].tokenType) >= level
    ensures ParseOperand(toks, level, st) == ParsePrimary(toks, st)
    decreases level
  {
    var r := ParsePrimary(toks, st);
    if level == 1 {
      assert !Matches(toks, st.current, [Bang, Minus]);
    } else {
      OperandPrimary(toks, level - 1, st);
      OperatorsByPrecedence(toks[r.st.current].tokenType, level - 1);
    }
  }

  /** An atom followed by a token that is no operator binding tighter than `level` is the whole operand of that level. */
  lemma {:induction false} OperandAtom(toks: seq<Token>, level: nat, st: PState)
    requires Ready(toks, st) && 1 <= level <= 4 && IsAtom(toks[st.current])
    requires st.current + 1 < |toks| && Precedence(toks[st.current + 1].tokenType) >= level
    ensures ParseOperand(toks, level, st) == Parsed(Ok(AtomExpr(toks[st.current])), st.(current := st.current + 1))
  {
    PrimaryAtom(toks, st);
    OperandPrimary(toks, level, st);
  }

  /** An atom followed by a token that is no operator of `level` or tighter is all that level parses. */
  lemma {:induction false} BinaryAtom(toks: seq<Token>, level: nat, st: PState)
    requires Ready(toks, st) && 1 <= level <= 4 && IsAtom(toks[st.current])
    requires st.current + 1 < |toks| && Precedence(toks[st.current + 1].tokenType) > level
    ensures ParseBinary(toks, level, st) == Parsed(Ok(AtomExpr(toks[st.current])), st.(current := st.current + 1))
  {
    OperandAtom(toks, level, st);
    OperatorsByPrecedence(toks[st.current + 1].tokenType, level);
  }

  /**
   * A level that stops before a token that is no operator at all gives
   * the same tree at every looser level: only the levels' own operators
   * continue a fold.
   */
  lemma {:induction false} LiftLevel(toks: seq<Token>, k: nat, level: nat, st: PState)
    requires Ready(toks, st) && 1 <= k <= level <= 4
    requires var r := ParseBinary(toks, k, st); r.result.Ok? && Precedence(toks[r.st.current].tokenType) == 5
    ensures ParseBinary(toks, level, st) == ParseBinary(toks, k, st)
    decreases level
  {
    if k < level {
      LiftLevel(toks, k, level - 1, st);
      var r := ParseBinary(toks, k, st);
      OperatorsByPrecedence(toks[r.st.current].tokenType, level);
    }
  }

  /**
   * `left op right` within one level: an atom, one of the level's
   * operators, then an operand that no operator of this level or a
   * tighter one follows.
   */
  lemma {:induction false} BinaryPair(toks: seq<Token>, level: nat, st: PState)
    requires Ready(toks, st) && 1 <= level <= 4 && IsAtom(toks[st.current])
    requires st.current + 2 < |toks| && Precedence(toks[st.current + 1].tokenType) == level
    requires var right := ParseOperand(toks, level, st.(current := st.current + 2));
             right.result.Ok? && Precedence(toks[right.st.current].tokenType) > level
    ensures var right := ParseOperand(toks, level, st.(current := st.current + 2));
            ParseBinary(toks, level, st)
            == Parsed(Ok(Expressions.Binary(AtomExpr(toks[st.current]), toks[st.current + 1], right.result.value)), right.st)
  {
    var p := st.current;
    OperandAtom(toks, level, st);
    OperatorsByPrecedence(toks[p + 1].tokenType, level);
    var right := ParseOperand(toks, level, st.(current := p + 2));
    OperatorsByPrecedence(toks[right.st.current].tokenType, level);
  }

  /** One turn of a level's loop over one of its operators and an atom operand. */
  lemma {:induction false} FoldOperatorAtom(toks: seq<Token>, level: nat, left: Expr, st: PState)
    requires Ready(toks, st) && 1 <= level <= 4 && st.current + 2 < |toks|
    requires Precedence(toks[st.current].tokenType) == level && IsAtom(toks[st.current + 1])
    requires Precedence(toks[st.current + 2].tokenType) >= level
    ensures var p := st.current;
            ParseFold(toks, level, left, st)
            == ParseFold(toks, level, Expressions.Binary(left, toks[p], AtomExpr(toks[p + 1])), st.(current := p + 2))
  {
    OperandAtom(toks, level, st.(current := st.current + 1));
    OperatorsByPrecedence(toks[st.current].tokenType, level);
  }

  /** Left associativity: `a op b op c` within one level is `(a op b) op c`. */
  lemma {:induction false} LeftAssociative(toks: seq<Token>, level: nat, st: PState)
    requires Ready(toks, st) && 1 <= level <= 4 && st.current + 5 < |toks|
    requires IsAtom(toks[st.current]) && IsAtom(toks[st.current + 2]) && IsAtom(toks[st.current + 4])
    requires Precedence(toks[st.current + 1].tokenType) == level && Precedence(toks[st.current + 3].tokenType) == level
    requires Precedence(toks[st.current + 5].tokenType) > level
    ensures var p := st.current;
            ParseBinary(toks, level, st)
            == Parsed(Ok(Expressions.Binary(Expressions.Binary(AtomExpr(toks[p]), toks[p + 1], AtomExpr(toks[p + 2])),
                                            toks[p + 3], AtomExpr(toks[p + 4]))),
                      st.(current := p + 5))
  {
    var p := st.current;
    OperandAtom(toks, level, st);
    var a := AtomExpr(toks[p]);
    var ab := Expressions.Binary(a, toks[p + 1], AtomExpr(toks[p + 2]));
    FoldOperatorAtom(toks, level, a, st.(current := p + 1));
    FoldOperatorAtom(toks, level, ab, st.(current := p + 3));
    OperatorsByPrecedence(toks[p + 5].tokenType, level);
  }

  /** Precedence, tighter operator second: `a op b tighter c` is `a op (b tighter c)`. */
  lemma {:induction false} TighterOnRight(toks: seq<Token>, level: nat, st: PState)
    requires Ready(toks, st) && 2 <= level <= 4 && st.current + 5 < |toks|
    requires IsAtom(toks[st.current]) && IsAtom(toks[st.current + 2]) && IsAtom(toks[st.current + 4])
    requires Precedence(toks[st.current + 1].tokenType) == level && Precedence(toks[st.current + 3].tokenType) == level - 1
    requires Precedence(toks[st.current + 5].tokenType) > level
    ensures var p := st.current;
            ParseBinary(toks, level, st)
            == Parsed(Ok(Expressions.Binary(AtomExpr(toks[p]), toks[p + 1],
                                            Expressions.Binary(AtomExpr(toks[p + 2]), toks[p + 3], AtomExpr(toks[p + 4])))),
                      st.(current := p + 5))
  {
    var p := st.current;
    var right := st.(current := p + 2);
    OperandAtom(toks, level - 1, st.(current := p + 4));
    BinaryPair(toks, level - 1, right);
    assert ParseOperand(toks, level, right) == ParseBinary(toks, level - 1, right);
    BinaryPair(toks, level, st);
  }

  /** The tighter pair `a tighter b` is the left operand one level up. */
  lemma {:induction false} TighterPairOperand(toks: seq<Token>, level: nat, st: PState)
    requires Ready(toks, st) && 2 <= level <= 4 && st.current + 3 < |toks|
    requires IsAtom(toks[st.current]) && IsAtom(toks[st.current + 2])
    requires Precedence(toks[st.current + 1].tokenType) == level - 1 && Precedence(toks[st.current + 3].tokenType) == level
    ensures var p := st.current;
            ParseOperand(toks, level, st)
            == Parsed(Ok(Expressions.Binary(AtomExpr(toks[p]), toks[p + 1], AtomExpr(toks[p + 2]))), st.(current := p + 3))
  {
    OperandAtom(toks, level - 1, st.(current := st.current + 2));
    BinaryPair(toks, level - 1, st);
  }

  /** Precedence, tighter operator first: `a tighter b op c` is `(a tighter b) op c`. */
  lemma {:induction false} TighterOnLeft(toks: seq<Token>, level: nat, st: PState)
    requires Ready(toks, st) && 2 <= level <= 4 && st.current + 5 < |toks|
    requires IsAtom(toks[st.current]) && IsAtom(toks[st.current + 2]) && IsAtom(toks[st.current + 4])
    requires Precedence(toks[st.current + 1].tokenType) == level - 1 && Precedence(toks[st.current + 3].tokenType) == level
    requires Precedence(toks[st.current + 5].tokenType) > level
    ensures var p := st.current;
            ParseBinary(toks, level, st)
            == Parsed(Ok(Expressions.Binary(Expressions.Binary(AtomExpr(toks[p]), toks[p + 1], AtomExpr(toks[p + 2])),
                                            toks[p + 3], AtomExpr(toks[p + 4]))),
                      st.(current := p + 5))
  {
    var p := st.current;
    TighterPairOperand(toks, level, st);
    var ab := Expressions.Binary(AtomExpr(toks[p]), toks[p + 1], AtomExpr(toks[p + 2]));
    assert ParseBinary(toks, level, st) == ParseFold(toks, level, ab, st.(current := p + 3));
    FoldOperatorAtom(toks, level, ab, st.(current := p + 3));
    OperatorsByPrecedence(toks[p + 5].tokenType, level);
  }

  /** `assignment` over an equality that no `=` follows is that equality. */
  lemma {:induction false} AssignmentOfEquality(toks: seq<Token>, st: PState)
    requires Ready(toks, st)
    requires var left := ParseBinary(toks, 4, st); left.result.Ok? && !toks[left.st.current].tokenType.Equal?
    ensures ParseAssignment(toks, st) == ParseBinary(toks, 4, st)
  {
    var left := ParseBinary(toks, 4, st);
    assert !Matches(toks, left.st.current, [Equal]);
  }

  /**
   * `target = value` for any left side the equality level parses: a failing
   * value fails the assignment; otherwise a `Variable` target becomes an
   * `Assignment` of the value, and any other target (`a + b`, `(a)`, `1`)
   * is reported as an invalid target at the `=` and returned as it is.
   */
  lemma {:induction false} AssignmentAfterEquals(toks: seq<Token>, st: PState)
    requires Ready(toks, st)
    requires var left := ParseBinary(toks, 4, st); left.result.Ok? && toks[left.st.current].tokenType.Equal?
    ensures var left := ParseBinary(toks, 4, st);
            var target := left.result.value;
            var equals := toks[left.st.current];
            var value := ParseAssignment(toks, left.st.(current := left.st.current + 1));
            ParseAssignment(toks, st)
            == if value.result.Err? then Parsed(Err(ParseError), value.st)
               else if target.Variable? then Parsed(Ok(Expressions.Assignment(target.name, value.result.value)), value.st)
               else Parsed(Ok(target), Report(value.st, equals, InvalidTarget))
  {
    var left := ParseBinary(toks, 4, st);
    assert Matches(toks, left.st.current, [Equal]);
  }

  /**
   * `target = value`: a variable target becomes an `Assignment` of the
   * value; any other atom is reported as an invalid target at the `=` and
   * returned as it is, and the parse still succeeds.
   */
  lemma {:induction false} AssignmentTarget(toks: seq<Token>, st: PState)
    requires Ready(toks, st) && st.current + 2 < |toks|
    requires IsAtom(toks[st.current]) && toks[st.current + 1].tokenType.Equal?
    requires ParseAssignment(toks, st.(current := st.current + 2)).result.Ok?
    ensures var p := st.current;
            var value := ParseAssignment(toks, st.(current := p + 2));
            ParseAssignment(toks, st)
            == if toks[p].tokenType.Identifier? then Parsed(Ok(Expressions.Assignment(toks[p], value.result.value)), value.st)
               else Parsed(Ok(AtomExpr(toks[p])), Report(value.st, toks[p + 1], InvalidTarget))
  {
    BinaryAtom(toks, 4, st);
    assert Matches(toks, st.current + 1, [Equal]);
  }

  /** `a op b` followed by a token that is no operator is the whole equality level. */
  lemma {:induction false} PairAsEquality(toks: seq<Token>, level: nat, st: PState)
    requires Ready(toks, st) && 1 <= level <= 4 && st.current + 3 < |toks|
    requires IsAtom(toks[st.current]) && Precedence(toks[st.current + 1].tokenType) == level
    requires IsAtom(toks[st.current + 2]) && Precedence(toks[st.current + 3].tokenType) == 5
    ensures var p := st.current;
            ParseBinary(toks, 4, st)
            == Parsed(Ok(Expressions.Binary(AtomExpr(toks[p]), toks[p + 1], AtomExpr(toks[p + 2]))), st.(current := p + 3))
  {
    OperandAtom(toks, level, st.(current := st.current + 2));
    BinaryPair(toks, level, st);
    LiftLevel(toks, level, 4, st);
  }

  /**
   * A compound target: `a op b = c` is reported as an invalid assignment
   * target at the `=`, and the assignment yields `a op b` itself.
   */
  lemma {:induction false} CompoundAssignmentTarget(toks: seq<Token>, level: nat, st: PState)
    requires Ready(toks, st) && 1 <= level <= 4 && st.current + 5 < |toks|
    requires IsAtom(toks[st.current]) && Precedence(toks[st.current + 1].tokenType) == level
    requires IsAtom(toks[st.current + 2]) && toks[st.current + 3].tokenType.Equal? && IsAtom(toks[st.current + 4])
    requires Precedence(toks[st.current + 5].tokenType) == 5 && !toks[st.current + 5].tokenType.Equal?
    ensures var p := st.current;
            ParseAssignment(toks, st)
            == Parsed(Ok(Expressions.Binary(AtomExpr(toks[p]), toks[p + 1], AtomExpr(toks[p + 2]))),
                      PState(p + 5, st.errors + [AtToken(toks[p + 3], InvalidTarget)]))
  {
    var p := st.current;
    PairAsEquality(toks, level, st);
    AssignmentAfterEquals(toks, st);
    BinaryAtom(toks, 4, st.(current := p + 4));
    AssignmentOfEquality(toks, st.(current := p + 4));
  }

  /** Right associativity: `a = b = c` is `a = (b = c)`. */
  lemma {:induction false} RightAssociative(toks: seq<Token>, st: PState)
    requires Ready(toks, st) && st.current + 5 < |toks|
    requires toks[st.current].tokenType.Identifier? && toks[st.current + 1].tokenType.Equal?
    requires toks[st.current + 2].tokenType.Identifier? && toks[st.current + 3].tokenType.Equal?
    requires IsAtom(toks[st.current + 4])
    requires Precedence(toks[st.current + 5].tokenType) == 5 && !toks[st.current + 5].tokenType.Equal?
    ensures var p := st.current;
            ParseAssignment(toks, st)
            == Parsed(Ok(Expressions.Assignment(toks[p], Expressions.Assignment(toks[p + 2], AtomExpr(toks[p + 4])))),
                      st.(current := p + 5))
  {
    var p := st.current;
    BinaryAtom(toks, 4, st.(current := p + 4));
    AssignmentOfEquality(toks, st.(current := p + 4));
    AssignmentTarget(toks, st.(current := p + 2));
    AssignmentTarget(toks, st);
  }

  /** A target that is no variable: `1 = x` reports "Invalid assignment target" at `=` and yields `1`. */
  lemma {:induction false} InvalidAssignmentTarget(toks: seq<Token>, st: PState)
    requires Ready(toks, st) && st.current + 3 < |toks|
    requires IsAtom(toks[st.current]) && !toks[st.current].tokenType.Identifier? && toks[st.current + 1].tokenType.Equal?
    requires IsAtom(toks[st.current + 2])
    requires Precedence(toks[st.current + 3].tokenType) == 5 && !toks[st.current + 3].tokenType.Equal?
    ensures var p := st.current;
            ParseAssignment(toks, st)
            == Parsed(Ok(AtomExpr(toks[p])), PState(p + 3, st.errors + [AtToken(toks[p + 1], InvalidTarget)]))
  {
    var p := st.current;
    BinaryAtom(toks, 4, st.(current := p + 2));
    AssignmentOfEquality(toks, st.(current := p + 2));
    AssignmentTarget(toks, st);
  }

  /** `var x;` declares `x` with no initializer. */
  lemma {:induction false} VarWithoutInitializer(toks: seq<Token>, st: PState)
    requires Ready(toks, st) && st.current + 2 < |toks|
    requires toks[st.current].tokenType.Var? && toks[st.current + 1].tokenType.Identifier?
    requires toks[st.current + 2].tokenType.Semicolon?
    ensures ParseDeclaration(toks, st) == Declared(Some(Stmt.Var(toks[st.current + 1], None)), st.(current := st.current + 3))
  {
    var p := st.current;
    assert Matches(toks, p, [TokenType.Var]);
    assert CheckAt(toks, p + 1, Identifier);
    assert !Matches(toks, p + 2, [Equal]);
    assert CheckAt(toks, p + 2, Semicolon);
  }

  /**
   * `var x` followed by neither `=` nor `;`: the missing `;` is reported at
   * that token, the declaration yields nothing, and parsing resumes where
   * `synchronize` stops.
   */
  lemma {:induction false} VarMissingSemicolon(toks: seq<Token>, st: PState)
    requires Ready(toks, st) && st.current + 2 < |toks|
    requires toks[st.current].tokenType.Var? && toks[st.current + 1].tokenType.Identifier?
    requires !toks[st.current + 2].tokenType.Semicolon? && !toks[st.current + 2].tokenType.Equal?
    ensures var p := st.current;
            ParseDeclaration(toks, st)
            == Declared(None, PState(Synchronized(toks, p + 2), st.errors + [AtToken(toks[p + 2], ExpectSemicolonAfterVar)]))
  {
    var p := st.current;
    assert Matches(toks, p, [TokenType.Var]);
    assert CheckAt(toks, p + 1, Identifier);
    assert !Matches(toks, p + 2, [Equal]);
    assert !CheckAt(toks, p + 2, Semicolon);
  }

  /** `( expression )`: a parenthesised expression closed by `)` is a `Grouping` primary. */
  lemma {:induction false} GroupPrimary(toks: seq<Token>, st: PState)
    requires Ready(toks, st) && toks[st.current].tokenType.LeftParen? && st.current + 1 < |toks|
    requires var inner := ParseAssignment(toks, st.(current := st.current + 1));
             inner.result.Ok? && toks[inner.st.current].tokenType.RightParen?
    ensures var inner := ParseAssignment(toks, st.(current := st.current + 1));
            ParsePrimary(toks, st) == Parsed(Ok(Grouping(inner.result.value)), inner.st.(current := inner.st.current + 1))
  {
    var p := st.current;
    var inner := ParseAssignment(toks, st.(current := p + 1));
    assert !Matches(toks, p, [False]) && !Matches(toks, p, [True]) && !Matches(toks, p, [TokenType.Nil]);
    assert ParsePrimary(toks, st) == ParseAtom(toks, st);
    assert !Matches(toks, p, [TokenType.Number, TokenType.String]) && !Matches(toks, p, [Identifier]);
    assert Matches(toks, p, [LeftParen]);
    assert ParseAtom(toks, st) == ParseGroup(toks, st.(current := p + 1));
    assert CheckAt(toks, inner.st.current, RightParen);
  }

  /**
   * A program that is one expression followed by `;`: a single expression
   * statement, with no diagnostic when the expression reported none.
   */
  lemma {:induction false} SingleExpressionStatement(toks: seq<Token>)
    requires WellFormed(toks) && |toks| >= 2 && !toks[0].tokenType.Var? && !toks[0].tokenType.Print?
    requires var e := ParseAssignment(toks, PState(0, []));
             e.result.Ok? && e.st == PState(|toks| - 2, []) && toks[|toks| - 2].tokenType.Semicolon?
    ensures ParseTokens(toks) == Program([Expression(ParseAssignment(toks, PState(0, [])).result.value)], [])
  {
    var start := PState(0, []);
    var e := ParseAssignment(toks, start);
    if AtEnd(toks, 0) {
      MissingExpression(toks, start);
    }
    assert !Matches(toks, 0, [TokenType.Var]) && !Matches(toks, 0, [TokenType.Print]);
    assert CheckAt(toks, |toks| - 2, Semicolon);
    var stmt := Parsed(Ok(Expression(e.result.value)), PState(|toks| - 1, []));
    assert ParseExpressionStatement(toks, start) == stmt;
    assert ParseDeclarationAttempt(toks, start) == ParseStatement(toks, start) == stmt;
    assert ParseDeclaration(toks, start) == Declared(Some(Expression(e.result.value)), PState(|toks| - 1, []));
    ParseFromStep(toks, start, []);
  }

  /** The primary `(b * c)` of `a + (b * c);`: a grouped product, ending after the `)`. */
  lemma {:induction false} GroupedProductPrimary(toks: seq<Token>)
    requires WellFormed(toks) && |toks| == 9 && toks[2].tokenType.LeftParen?
    requires IsAtom(toks[3]) && toks[4].tokenType.Star? && IsAtom(toks[5]) && toks[6].tokenType.RightParen?
    ensures ParsePrimary(toks, PState(2, []))
            == Parsed(Ok(Grouping(Expressions.Binary(AtomExpr(toks[3]), toks[4], AtomExpr(toks[5])))), PState(7, []))
  {
    var inner := PState(3, []);
    OperandAtom(toks, 1, PState(5, []));
    BinaryPair(toks, 1, inner);
    LiftLevel(toks, 1, 4, inner);
    AssignmentOfEquality(toks, inner);
    GroupPrimary(toks, PState(2, []));
  }

  /** The expression of `a + (b * c);`: `+` over the grouped product, ending at `;`. */
  lemma {:induction false} SumOfGroupedProduct(toks: seq<Token>)
    requires WellFormed(toks) && |toks| == 9
    requires IsAtom(toks[0]) && toks[1].tokenType.Plus? && toks[2].tokenType.LeftParen?
    requires IsAtom(toks[3]) && toks[4].tokenType.Star? && IsAtom(toks[5])
    requires toks[6].tokenType.RightParen? && toks[7].tokenType.Semicolon?
    ensures ParseAssignment(toks, PState(0, []))
            == Parsed(Ok(Expressions.Binary(AtomExpr(toks[0]), toks[1],
                                            Grouping(Expressions.Binary(AtomExpr(toks[3]), toks[4], AtomExpr(toks[5]))))),
                      PState(7, []))
  {
    GroupedProductPrimary(toks);
    var start := PState(0, []);
    OperandPrimary(toks, 2, PState(2, []));
    BinaryPair(toks, 2, start);
    LiftLevel(toks, 2, 4, start);
    AssignmentOfEquality(toks, start);
  }

  /** The tokens of `1 + (2 * 3);` as the parser's own test builds them. */
  function GroupedProductTokens(): seq<Token>
  {
    [ Token(TokenType.Number, "1.0", Some(Object.Number(1)), 1),
      Token(Plus, "+", None, 1),
      Token(LeftParen, "(", None, 1),
      Token(TokenType.Number, "2.0", Some(Object.Number(2)), 1),
      Token(Star, "*", None, 1),
      Token(TokenType.Number, "3.0", Some(Object.Number(3)), 1),
      Token(RightParen, ")", None, 1),
      Token(Semicolon, ";", None, 1),
      Token(Eof, "", None, 1) ]
  }

  /** The tree the parser's test expects for `1 + (2 * 3);`. */
  function GroupedProductTree(): Stmt
  {
    Expression(Expressions.Binary(
      Literal(Object.Number(1)),
      Token(Plus, "+", None, 1),
      Grouping(Expressions.Binary(Literal(Object.Number(2)), Token(Star, "*", None, 1), Literal(Object.Number(3))))))
  }

  /** The parser's test: `1 + (2 * 3);` parses to one expression statement, `+` over a grouped `*`, with no error. */
  lemma {:induction false} GroupedProductParses(toks: seq<Token>)
    requires toks == GroupedProductTokens()
    ensures WellFormed(toks)
    ensures ParseTokens(toks) == Program([GroupedProductTree()], [])
  {
    assert WellFormed(toks) && |toks| == 9;
    SumOfGroupedProduct(toks);
    SingleExpressionStatement(toks);
  }
}
