/**
 * The scanner's output is the parser's input: the token list it produces
 * meets every assumption the parser makes about its tokens.
 */
module Pipeline {
  import opened Tokens
  import Scanning
  import Parsing

  /**
   * Whatever the source, the scanned token list ends in `Eof` and gives every
   * number and string token its literal value, so the parser can start on it.
   */
  lemma ScannedTokensAreParseable(source: string)
    ensures Parsing.WellFormed(Scanning.Lex(source).tokens)
  {
    var toks := Scanning.Lex(source).tokens;
    Scanning.LexEndsWithEof(source);
    forall i | 0 <= i < |toks| && toks[i].tokenType in {TokenType.Number, TokenType.String}
      ensures toks[i].literal.Some?
    {
      if i < |toks| - 1 {
        assert Scanning.Emittable(toks[i]);
      }
    }
  }
}
