/** The expression tree and its parenthesised printer. */
module Expressions {
  import opened Outcomes
  import opened Tokens
  import opened Text

  /**
   * Expressions, as the parser builds them and the evaluator matches on them.
   * Each node owns its children: a finite tree.
   */
  datatype Expr =
    | Literal(value: Object)
    | Grouping(expression: Expr)
    | Unary(operator: Token, right: Expr)
    | Binary(left: Expr, operator: Token, right: Expr)
    | Variable(name: Token)
    | Assignment(name: Token, newValue: Expr)

  /**
   * The forms the printer handles. It was written before variables and
   * assignment existed, and has no case for them.
   */
  predicate Printable(e: Expr)
  {
    match e
    case Literal(_) => true
    case Grouping(inner) => Printable(inner)
    case Unary(_, right) => Printable(right)
    case Binary(left, _, right) => Printable(left) && Printable(right)
    case Variable(_) => false
    case Assignment(_, _) => false
  }

  /** Each part preceded by one space, in order. */
  function SpaceSeparated(parts: seq<string>): string
  {
    if parts == [] then "" else SpaceSeparated(parts[..|parts| - 1]) + " " + parts[|parts| - 1]
  }

  /** `(name p1 p2 ...)`. */
  function Parenthesized(name: string, parts: seq<string>): string
  {
    "(" + name + SpaceSeparated(parts) + ")"
  }

  /** `Expr::print`: the Lisp-like rendering of an expression tree. */
  function Print(e: Expr): string
    requires Printable(e)
  {
    match e
    case Literal(v) => ObjectText(v)
    case Grouping(inner) => Parenthesized("group", [Print(inner)])
    case Unary(op, right) => Parenthesized(op.lexeme, [Print(right)])
    case Binary(left, op, right) => Parenthesized(op.lexeme, [Print(left), Print(right)])
  }

  /** The printed forms of a list of expressions, in order. */
  function PrintAll(exprs: seq<Expr>): (texts: seq<string>)
    requires forall i :: 0 <= i < |exprs| ==> Printable(exprs[i])
    ensures |texts| == |exprs|
    ensures forall i :: 0 <= i < |exprs| ==> texts[i] == Print(exprs[i])
  {
    if exprs == [] then [] else PrintAll(exprs[..|exprs| - 1]) + [Print(exprs[|exprs| - 1])]
  }

  /** One more sub-expression printed after the ones before it. */
  lemma ParenthesizeStep(name: string, exprs: seq<Expr>, i: nat)
    requires i < |exprs| && forall k :: 0 <= k < |exprs| ==> Printable(exprs[k])
    ensures "(" + name + SpaceSeparated(PrintAll(exprs[..i])) + " " + Print(exprs[i])
            == "(" + name + SpaceSeparated(PrintAll(exprs[..i + 1]))
  {
    assert exprs[..i + 1][..i] == exprs[..i];
    var done := PrintAll(exprs[..i]);
    assert PrintAll(exprs[..i + 1]) == done + [Print(exprs[i])];
    assert (done + [Print(exprs[i])])[..|done|] == done;
  }

  /**
   * `parenthesize`: builds `(name` and then appends a space and the printed
   * form of each sub-expression, closing with `)`.
   */
  method Parenthesize(name: string, exprs: seq<Expr>) returns (result: string)
    requires forall i :: 0 <= i < |exprs| ==> Printable(exprs[i])
    ensures result == Parenthesized(name, PrintAll(exprs))
  {
    result := "(" + name;
    for i := 0 to |exprs|
      invariant result == "(" + name + SpaceSeparated(PrintAll(exprs[..i]))
    {
      ParenthesizeStep(name, exprs, i);
      result := result + " " + Print(exprs[i]);
    }
    assert exprs[..|exprs|] == exprs;
    result := result + ")";
  }

  lemma SpaceSeparatedSmall(a: string, b: string)
    ensures SpaceSeparated([a]) == " " + a
    ensures SpaceSeparated([a, b]) == " " + a + " " + b
  {
    assert [a][..0] == [];
    assert [a, b][..1] == [a];
    calc {
      SpaceSeparated([a, b]);
      SpaceSeparated([a]) + " " + b;
      "" + " " + a + " " + b;
    }
  }

  /** `parenthesize` with one part: `(name a)`. */
  lemma ParenthesizedOne(name: string, a: string)
    ensures Parenthesized(name, [a]) == "(" + name + " " + a + ")"
  {
    SpaceSeparatedSmall(a, a);
    assert "(" + name + (" " + a) == "(" + name + " " + a;
  }

  /** `parenthesize` with two parts: `(name a b)`. */
  lemma ParenthesizedTwo(name: string, a: string, b: string)
    ensures Parenthesized(name, [a, b]) == "(" + name + " " + a + " " + b + ")"
  {
    SpaceSeparatedSmall(a, b);
    assert "(" + name + (" " + a + " " + b) == "(" + name + " " + a + " " + b;
  }

  /** The three composite shapes of the printer. */
  lemma PrintShapes(e: Expr)
    requires Printable(e)
    ensures e.Binary? ==> Print(e) == "(" + e.operator.lexeme + " " + Print(e.left) + " " + Print(e.right) + ")"
    ensures e.Unary? ==> Print(e) == "(" + e.operator.lexeme + " " + Print(e.right) + ")"
    ensures e.Grouping? ==> Print(e) == "(group " + Print(e.expression) + ")"
  {
    match e
    case Binary(left, op, right) =>
      ParenthesizedTwo(op.lexeme, Print(left), Print(right));
    case Unary(op, right) =>
      ParenthesizedOne(op.lexeme, Print(right));
    case Grouping(inner) =>
      ParenthesizedOne("group", Print(inner));
      assert "(" + "group" + " " == "(group ";
    case Literal(_) =>
  }

  /** No parenthesis in any operator lexeme or literal of the tree. */
  predicate ParenFree(e: Expr)
    requires Printable(e)
  {
    match e
    case Literal(v) => '(' !in ObjectText(v) && ')' !in ObjectText(v)
    case Grouping(inner) => ParenFree(inner)
    case Unary(op, right) => '(' !in op.lexeme && ')' !in op.lexeme && ParenFree(right)
    case Binary(left, op, right) =>
      '(' !in op.lexeme && ')' !in op.lexeme && ParenFree(left) && ParenFree(right)
  }

  /** Opening and closing parentheses of `Parenthesized` balance when its parts do. */
  lemma {:induction false} ParenthesizedBalanced(name: string, parts: seq<string>)
    requires '(' !in name && ')' !in name
    requires forall i :: 0 <= i < |parts| ==> Occurrences(parts[i], '(') == Occurrences(parts[i], ')')
    ensures Occurrences(SpaceSeparated(parts), '(') == Occurrences(SpaceSeparated(parts), ')')
    ensures Occurrences(Parenthesized(name, parts), '(') == Occurrences(Parenthesized(name, parts), ')')
  {
    if parts != [] {
      var init := parts[..|parts| - 1];
      var last := parts[|parts| - 1];
      ParenthesizedBalanced(name, init);
      OccurrencesAppend(SpaceSeparated(init) + " ", last, '(');
      OccurrencesAppend(SpaceSeparated(init) + " ", last, ')');
      OccurrencesAppend(SpaceSeparated(init), " ", '(');
      OccurrencesAppend(SpaceSeparated(init), " ", ')');
    }
    OccurrencesAbsent(name, '(');
    OccurrencesAbsent(name, ')');
    OccurrencesAppend("(" + name, SpaceSeparated(parts), '(');
    OccurrencesAppend("(" + name, SpaceSeparated(parts), ')');
    OccurrencesAppend("(", name, '(');
    OccurrencesAppend("(", name, ')');
    OccurrencesAppend("(" + name + SpaceSeparated(parts), ")", '(');
    OccurrencesAppend("(" + name + SpaceSeparated(parts), ")", ')');
  }

  /** The printed form of a tree without parentheses in its leaves is balanced. */
  lemma {:induction false} PrintBalanced(e: Expr)
    requires Printable(e) && ParenFree(e)
    ensures Occurrences(Print(e), '(') == Occurrences(Print(e), ')')
  {
    match e
    case Literal(v) =>
      OccurrencesAbsent(ObjectText(v), '(');
      OccurrencesAbsent(ObjectText(v), ')');
    case Grouping(inner) =>
      PrintBalanced(inner);
      ParenthesizedBalanced("group", [Print(inner)]);
    case Unary(op, right) =>
      PrintBalanced(right);
      ParenthesizedBalanced(op.lexeme, [Print(right)]);
    case Binary(left, op, right) =>
      PrintBalanced(left);
      PrintBalanced(right);
      ParenthesizedBalanced(op.lexeme, [Print(left), Print(right)]);
  }

  /** `1 + 2` prints as `(+ 1 2)`. */
  lemma PrintSimpleExpr()
    ensures Print(Binary(Literal(Object.Number(1)), Token(Plus, "+", None, 1), Literal(Object.Number(2))))
         == "(+ 1 2)"
  {
    PrintShapes(Binary(Literal(Object.Number(1)), Token(Plus, "+", None, 1), Literal(Object.Number(2))));
  }

  /** `-a * (b)` prints as `(* (- a) (group b))`, e.g. `(* (- 123) (group 45))`. */
  lemma PrintNestedExpr(a: nat, b: nat)
    ensures Printable(Grouping(Literal(Object.Number(b))))
    ensures Print(Binary(Unary(Token(Minus, "-", None, 1), Literal(Object.Number(a))),
                         Token(Star, "*", None, 1),
                         Grouping(Literal(Object.Number(b)))))
         == "(* " + ("(- " + Decimal(a) + ")") + " " + ("(group " + Decimal(b) + ")") + ")"
  {
    var neg := Unary(Token(Minus, "-", None, 1), Literal(Object.Number(a)));
    var group := Grouping(Literal(Object.Number(b)));
    var product := Binary(neg, Token(Star, "*", None, 1), group);
    assert Print(neg) == "(- " + Decimal(a) + ")" by {
      PrintShapes(neg);
    }
    assert Print(group) == "(group " + Decimal(b) + ")" by {
      PrintShapes(group);
    }
    PrintShapes(product);
    assert "(" + "*" + " " == "(* ";
  }
}
