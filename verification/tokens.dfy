/** Lexical categories, runtime values and tokens, with their display forms. */
module Tokens {
  import opened Outcomes
  import opened Text

  /** The closed set of token kinds. */
  datatype TokenType =
    // Single character tokens
    | LeftParen | RightParen | LeftBrace | RightBrace
    | Comma | Dot | Minus | Plus | Semicolon | Slash | Star
    // One or two character tokens
    | Bang | BangEqual | Equal | EqualEqual
    | Greater | GreaterEqual | Less | LessEqual
    // Literals
    | Identifier | String | Number
    // Keywords
    | And | Class | Else | False | Fun | For | If | Nil | Or
    | Print | Return | Super | This | True | Var | While
    | Eof

  /**
   * A literal payload and a runtime value. Lox numbers are 64-bit floats;
   * here a number is an integer (see the README).
   */
  datatype Object = String(str: string) | Number(num: int) | Nil | Boolean(truth: bool)

  /** A token; `line` is the source line the scanner had reached when it emitted it. */
  datatype Token = Token(tokenType: TokenType, lexeme: string, literal: Option<Object>, line: nat)

  /** `Token::new`: the four fields are stored as given. */
  function NewToken(tokenType: TokenType, lexeme: string, literal: Option<Object>, line: nat): (t: Token)
    ensures t.tokenType == tokenType && t.lexeme == lexeme
    ensures t.literal == literal && t.line == line
  {
    Token(tokenType, lexeme, literal, line)
  }

  /** The `Display` form of a value. */
  function ObjectText(o: Object): (s: string)
    ensures |s| >= 1
    ensures s[0] == '"' <==> o.String?
    ensures o.String? ==> s == "\"" + o.str + "\""
    ensures o.Nil? <==> s == "nil"
    ensures o.Boolean? ==> s == (if o.truth then "true" else "false")
  {
    match o
    case String(str) => "\"" + str + "\""
    case Number(n) => NumberText(n)
    case Boolean(b) => if b then "true" else "false"
    case Nil => "nil"
  }

  /** Different values never display alike: the display form identifies the value. */
  lemma ObjectTextInjective(a: Object, b: Object)
    requires ObjectText(a) == ObjectText(b)
    ensures a == b
  {
    var s := ObjectText(a);
    if a.String? {
      assert a.str == s[1..|s| - 1] == b.str;
    } else if a.Number? && b.Number? {
      NumberTextInjective(a.num, b.num);
    }
  }

  /** The `Debug` name of a token kind: the variant's own name. */
  function TokenTypeName(t: TokenType): string
  {
    match t
    case LeftParen => "LeftParen"
    case RightParen => "RightParen"
    case LeftBrace => "LeftBrace"
    case RightBrace => "RightBrace"
    case Comma => "Comma"
    case Dot => "Dot"
    case Minus => "Minus"
    case Plus => "Plus"
    case Semicolon => "Semicolon"
    case Slash => "Slash"
    case Star => "Star"
    case Bang => "Bang"
    case BangEqual => "BangEqual"
    case Equal => "Equal"
    case EqualEqual => "EqualEqual"
    case Greater => "Greater"
    case GreaterEqual => "GreaterEqual"
    case Less => "Less"
    case LessEqual => "LessEqual"
    case Identifier => "Identifier"
    case String => "String"
    case Number => "Number"
    case And => "And"
    case Class => "Class"
    case Else => "Else"
    case False => "False"
    case Fun => "Fun"
    case For => "For"
    case If => "If"
    case Nil => "Nil"
    case Or => "Or"
    case Print => "Print"
    case Return => "Return"
    case Super => "Super"
    case This => "This"
    case True => "True"
    case Var => "Var"
    case While => "While"
    case Eof => "Eof"
  }

  /** The `Display` form of a token: kind, lexeme, then the literal or `None`. */
  function TokenText(t: Token): (s: string)
    ensures TokenTypeName(t.tokenType) + " " + t.lexeme + " " <= s
    ensures t.literal.Some? ==> s[|TokenTypeName(t.tokenType) + " " + t.lexeme + " "|..] == ObjectText(t.literal.value)
    ensures t.literal.None? ==> s[|TokenTypeName(t.tokenType) + " " + t.lexeme + " "|..] == "None"
  {
    var head := TokenTypeName(t.tokenType) + " " + t.lexeme + " ";
    match t.literal
    case Some(literal) => head + ObjectText(literal)
    case None => head + "None"
  }
}
