/** Statements, as the parser builds them and the interpreter executes them. */
module Statements {
  import opened Outcomes
  import opened Tokens
  import opened Expressions

  datatype Stmt =
    | Expression(expression: Expr)
    | Print(expression: Expr)
    | Var(name: Token, initializer: Option<Expr>)
}
