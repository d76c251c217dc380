/**
 * What the error reporter receives. The reporter itself only prints to the
 * error stream and raises a flag; each stage keeps the sequence of
 * diagnostics it reported instead, and "had an error" is that sequence
 * being non-empty.
 */
module Errors {
  import opened Tokens

  /** A compile-time diagnostic: keyed by a source line (scanner) or by a token (parser). */
  datatype Diagnostic = AtLine(line: nat, message: string) | AtToken(token: Token, message: string)

  /** A runtime error, naming the token responsible for it. */
  datatype RuntimeError = RuntimeError(message: string, token: Token)

  /** The error for a name that no scope binds. */
  function UndefinedVariable(name: Token): (e: RuntimeError)
    ensures e.token == name
    ensures e.message == "Undefined variable '" + name.lexeme + "'."
  {
    RuntimeError("Undefined variable '" + name.lexeme + "'.", name)
  }
}
