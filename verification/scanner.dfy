/**
 * The scanner: one left-to-right pass over the source with `start` and
 * `current` cursors and a line counter. Errors are recorded and scanning
 * goes on. `ScanTokenStep` and `Lex` are the meaning of one step and of the
 * whole pass; the `Scanner` class computes them by moving its cursors.
 */
module Scanning {
  import opened Outcomes
  import opened Text
  import opened Tokens
  import opened Errors

  /** The character at `i`, or `'\0'` past the end (`peek`). */
  function PeekAt(source: string, i: nat): char
  {
    if i >= |source| then '\0' else source[i]
  }

  /** The character after `i`, or `'\0'` past the end (`peek_next`). */
  function PeekNextAt(source: string, i: nat): char
  {
    if i + 1 >= |source| then '\0' else source[i + 1]
  }

  /** End of the longest run of digits that starts at `i`. */
  function DigitsEnd(source: string, i: nat): (j: nat)
    requires i <= |source|
    ensures i <= j <= |source|
    ensures forall k :: i <= k < j ==> IsDigit(source[k])
    ensures j < |source| ==> !IsDigit(source[j])
    decreases |source| - i
  {
    if i < |source| && IsDigit(source[i]) then DigitsEnd(source, i + 1) else i
  }

  /** End of the longest run of letters and digits that starts at `i`. */
  function AlphaNumericEnd(source: string, i: nat): (j: nat)
    requires i <= |source|
    ensures i <= j <= |source|
    ensures forall k :: i <= k < j ==> IsAlphaNumeric(source[k])
    ensures j < |source| ==> !IsAlphaNumeric(source[j])
    decreases |source| - i
  {
    if i < |source| && IsAlphaNumeric(source[i]) then AlphaNumericEnd(source, i + 1) else i
  }

  /** The first position at or after `i` holding `c`, or the end of the source. */
  function FindChar(source: string, i: nat, c: char): (j: nat)
    requires i <= |source|
    ensures i <= j <= |source|
    ensures forall k :: i <= k < j ==> source[k] != c
    ensures j < |source| ==> source[j] == c
    decreases |source| - i
  {
    if i < |source| && source[i] != c then FindChar(source, i + 1, c) else i
  }

  /**
   * End of a number whose first digit is just before `i`: the integer
   * digits, then a fraction only when a `.` is followed by a digit.
   */
  function NumberEnd(source: string, i: nat): (j: nat)
    requires i <= |source|
    ensures i <= j <= |source|
    ensures forall k :: i <= k < j ==> IsDigit(source[k]) || source[k] == '.'
  {
    var k := DigitsEnd(source, i);
    if PeekAt(source, k) == '.' && IsDigit(PeekNextAt(source, k)) then DigitsEnd(source, k + 1) else k
  }

  /** The value of a number lexeme: its integer part (see the README on floats). */
  function NumberValue(lexeme: string): nat
  {
    DecimalValue(LeadingDigits(lexeme))
  }

  /** The one-character tokens that need no lookahead. */
  function SingleCharToken(c: char): Option<TokenType>
  {
    match c
    case '(' => Some(LeftParen)
    case ')' => Some(RightParen)
    case '{' => Some(LeftBrace)
    case '}' => Some(RightBrace)
    case ',' => Some(Comma)
    case '.' => Some(Dot)
    case '-' => Some(Minus)
    case '+' => Some(Plus)
    case ';' => Some(Semicolon)
    case '*' => Some(Star)
    case _ => None
  }

  /** A one-character operator that becomes a two-character one when `=` follows. */
  function EqualsPair(c: char): Option<(TokenType, TokenType)>
  {
    match c
    case '!' => Some((Bang, BangEqual))
    case '=' => Some((Equal, EqualEqual))
    case '<' => Some((Less, LessEqual))
    case '>' => Some((Greater, GreaterEqual))
    case _ => None
  }

  /** The sixteen reserved words. */
  const Keywords: map<string, TokenType> := map[
    "and" := And, "class" := Class, "else" := Else, "false" := False,
    "for" := For, "fun" := Fun, "if" := If, "nil" := TokenType.Nil,
    "or" := Or, "print" := TokenType.Print, "return" := Return, "super" := Super,
    "this" := This, "true" := True, "var" := Var, "while" := While]

  /** The kind of an identifier-shaped lexeme: its keyword, or `Identifier`. */
  function KeywordType(text: string): (t: TokenType)
    ensures text in Keywords ==> t == Keywords[text] && t != Identifier
    ensures text !in Keywords ==> t == Identifier
    ensures !t.Number? && !t.String? && !t.Eof?
  {
    if text in Keywords then Keywords[text] else Identifier
  }

  const UnterminatedMessage: string := "Unterminated string."
  const UnexpectedMessage: string := "Unexpected character."

  /** The scanner's cursor, line counter and what it has produced so far. */
  datatype ScanState = ScanState(current: nat, line: nat, tokens: seq<Token>, errors: seq<Diagnostic>)

  /** `add_literal_token`: the token spans `source[start..end]` and carries the current line. */
  function Emit(source: string, start: nat, end: nat, st: ScanState, t: TokenType, literal: Option<Object>): ScanState
    requires start <= end <= |source|
  {
    ScanState(end, st.line, st.tokens + [Token(t, source[start..end], literal, st.line)], st.errors)
  }

  /** Newlines in `source[i..j]`. */
  function Newlines(source: string, i: nat, j: nat): nat
    requires i <= j <= |source|
    decreases j - i
  {
    if i == j then 0 else (if source[i] == '\n' then 1 else 0) + Newlines(source, i + 1, j)
  }

  /** What the loop may emit: anything but `Eof`, and numbers and strings with their value. */
  predicate Emittable(t: Token)
  {
    && t.tokenType != Eof
    && (t.tokenType.Number? || t.tokenType.String? ==> t.literal.Some?)
  }

  /**
   * What one step of the scanner guarantees: it consumes at least one
   * character; the line counter goes up by the newlines consumed; it only
   * appends, and records one token or one error or nothing; and a recorded
   * token is never `Eof`, spans exactly the characters consumed, and carries
   * the line reached.
   */
  predicate Advanced(source: string, st: ScanState, r: ScanState)
  {
    && st.current < r.current <= |source|
    && r.line == st.line + Newlines(source, st.current, r.current)
    && st.tokens <= r.tokens && st.errors <= r.errors
    && |r.tokens| + |r.errors| <= |st.tokens| + |st.errors| + 1
    && (|r.tokens| > |st.tokens| ==>
          var t := r.tokens[|st.tokens|];
          Emittable(t) && t.lexeme == source[st.current..r.current] && t.line == r.line)
  }

  /** A string literal whose closing quote is at `close`: one `String` token without the quotes. */
  function ClosedString(source: string, st: ScanState, close: nat, line: nat): (r: ScanState)
    requires st.current < close < |source|
    ensures r.current == close + 1
  {
    Emit(source, st.current, close + 1, st.(line := line), TokenType.String,
         Some(Object.String(source[st.current + 1..close])))
  }

  /** A string literal that runs to the end of the source: an error at the line reached. */
  function UnclosedString(source: string, st: ScanState, close: nat, line: nat): (r: ScanState)
    requires st.current < close == |source|
    ensures r.current == |source|
  {
    ScanState(close, line, st.tokens, st.errors + [AtLine(line, UnterminatedMessage)])
  }

  /** `string`: everything up to the closing quote; the line advances for each newline inside. */
  function StringStep(source: string, st: ScanState): (r: ScanState)
    requires st.current < |source| && source[st.current] == '"'
    ensures st.current < r.current <= |source|
  {
    var close := FindChar(source, st.current + 1, '"');
    var line := st.line + Newlines(source, st.current + 1, close);
    if close == |source| then UnclosedString(source, st, close, line) else ClosedString(source, st, close, line)
  }

  /** `number`: the digits, and a fraction when a digit follows the `.`. */
  function NumberStep(source: string, st: ScanState): (r: ScanState)
    requires st.current < |source| && IsDigit(source[st.current])
    ensures st.current < r.current <= |source|
  {
    var end := NumberEnd(source, st.current + 1);
    Emit(source, st.current, end, st, TokenType.Number, Some(Object.Number(NumberValue(source[st.current..end]))))
  }

  /** `identifier`: the longest run of letters and digits, then the keyword lookup. */
  function IdentifierStep(source: string, st: ScanState): (r: ScanState)
    requires st.current < |source| && IsAlpha(source[st.current])
    ensures st.current < r.current <= |source|
  {
    var end := AlphaNumericEnd(source, st.current + 1);
    Emit(source, st.current, end, st, KeywordType(source[st.current..end]), None)
  }

  /** A one-character token. */
  function SymbolStep(source: string, st: ScanState): (r: ScanState)
    requires st.current < |source| && SingleCharToken(source[st.current]).Some?
    ensures r.current == st.current + 1
  {
    Emit(source, st.current, st.current + 1, st, SingleCharToken(source[st.current]).value, None)
  }

  /** `!`, `=`, `<` or `>`: the two-character operator when `=` follows (`match`), else the one-character one. */
  function OperatorStep(source: string, st: ScanState): (r: ScanState)
    requires st.current < |source| && EqualsPair(source[st.current]).Some?
    ensures st.current < r.current <= |source|
  {
    var pair := EqualsPair(source[st.current]).value;
    if PeekAt(source, st.current + 1) == '=' then Emit(source, st.current, st.current + 2, st, pair.1, None)
    else Emit(source, st.current, st.current + 1, st, pair.0, None)
  }

  /** A `//` comment is skipped up to, not including, the end of its line; a lone `/` is `Slash`. */
  function SlashStep(source: string, st: ScanState): (r: ScanState)
    requires st.current < |source| && source[st.current] == '/'
    ensures st.current < r.current <= |source|
  {
    if PeekAt(source, st.current + 1) == '/' then st.(current := FindChar(source, st.current + 2, '\n'))
    else Emit(source, st.current, st.current + 1, st, Slash, None)
  }

  /** `scan_token`: one step of the scanner, from `st.current` (which is also `start`). */
  function ScanTokenStep(source: string, st: ScanState): (r: ScanState)
    requires st.current < |source|
    ensures st.current < r.current <= |source|
  {
    var c := source[st.current];
    if SingleCharToken(c).Some? then SymbolStep(source, st)
    else if EqualsPair(c).Some? then OperatorStep(source, st)
    else if c == '/' then SlashStep(source, st)
    else if c == ' ' || c == '\r' || c == '\t' then st.(current := st.current + 1)
    else if c == '\n' then st.(current := st.current + 1, line := st.line + 1)
    else if c == '"' then StringStep(source, st)
    else if IsDigit(c) then NumberStep(source, st)
    else if IsAlpha(c) then IdentifierStep(source, st)
    else st.(current := st.current + 1, errors := st.errors + [AtLine(st.line, UnexpectedMessage)])
  }

  /** The scanning loop of `scan_tokens`, from `st` to the end of the source. */
  function ScanFrom(source: string, st: ScanState): (r: ScanState)
    requires st.current <= |source|
    decreases |source| - st.current
  {
    if st.current == |source| then st else ScanFrom(source, ScanTokenStep(source, st))
  }

  /** What `scan_tokens` returns, with the diagnostics it reported. */
  datatype Scanned = Scanned(tokens: seq<Token>, errors: seq<Diagnostic>)

  /** `scan_tokens` on a fresh scanner: all tokens, then one `Eof` stamped with the final line. */
  function Lex(source: string): Scanned
  {
    var last := ScanFrom(source, ScanState(0, 1, [], []));
    Scanned(last.tokens + [Token(Eof, "", None, last.line)], last.errors)
  }

  lemma {:induction false} NewlinesSplit(source: string, i: nat, j: nat, k: nat)
    requires i <= j <= k <= |source|
    ensures Newlines(source, i, k) == Newlines(source, i, j) + Newlines(source, j, k)
    decreases j - i
  {
    if i < j {
      NewlinesSplit(source, i + 1, j, k);
    }
  }

  lemma NewlinesExtend(source: string, i: nat, j: nat)
    requires i <= j < |source|
    ensures Newlines(source, i, j + 1) == Newlines(source, i, j) + if source[j] == '\n' then 1 else 0
  {
    NewlinesSplit(source, i, j, j + 1);
  }

  lemma {:induction false} NoNewlines(source: string, i: nat, j: nat)
    requires i <= j <= |source|
    requires forall k :: i <= k < j ==> source[k] != '\n'
    ensures Newlines(source, i, j) == 0
    decreases j - i
  {
    if i < j {
      NoNewlines(source, i + 1, j);
    }
  }

  /** `Newlines` is the number of occurrences of the newline character in the slice. */
  lemma {:induction false} NewlinesAreOccurrences(source: string, i: nat, j: nat)
    requires i <= j <= |source|
    ensures Newlines(source, i, j) == Occurrences(source[i..j], '\n')
    decreases j - i
  {
    if i < j {
      NewlinesAreOccurrences(source, i + 1, j);
      assert source[i..j][1..] == source[i + 1..j];
    }
  }

  lemma StringStepLine(source: string, start: nat, close: nat)
    requires start < close <= |source| && source[start] == '"'
    ensures Newlines(source, start, close) == Newlines(source, start + 1, close)
    ensures close < |source| && source[close] == '"' ==> Newlines(source, start, close + 1) == Newlines(source, start + 1, close)
  {
    if close < |source| {
      NewlinesExtend(source, start, close);
    }
  }

  /** A token over `source[st.current..end]`, which holds no newline, is a step that advances. */
  lemma EmitAdvances(source: string, st: ScanState, end: nat, t: TokenType, literal: Option<Object>)
    requires st.current < end <= |source| && t != Eof
    requires t.Number? || t.String? ==> literal.Some?
    requires forall k :: st.current <= k < end ==> source[k] != '\n'
    ensures Advanced(source, st, Emit(source, st.current, end, st, t, literal))
  {
    NoNewlines(source, st.current, end);
  }

  lemma StringStepAdvances(source: string, st: ScanState)
    requires st.current < |source| && source[st.current] == '"'
    ensures Advanced(source, st, StringStep(source, st))
  {
    var close := FindChar(source, st.current + 1, '"');
    StringStepLine(source, st.current, close);
  }

  lemma SymbolStepAdvances(source: string, st: ScanState)
    requires st.current < |source| && SingleCharToken(source[st.current]).Some?
    ensures Advanced(source, st, SymbolStep(source, st))
  {
    EmitAdvances(source, st, st.current + 1, SingleCharToken(source[st.current]).value, None);
  }

  lemma OperatorStepAdvances(source: string, st: ScanState)
    requires st.current < |source| && EqualsPair(source[st.current]).Some?
    ensures Advanced(source, st, OperatorStep(source, st))
  {
    var pair := EqualsPair(source[st.current]).value;
    if PeekAt(source, st.current + 1) == '=' {
      EmitAdvances(source, st, st.current + 2, pair.1, None);
    } else {
      EmitAdvances(source, st, st.current + 1, pair.0, None);
    }
  }

  lemma SlashStepAdvances(source: string, st: ScanState)
    requires st.current < |source| && source[st.current] == '/'
    ensures Advanced(source, st, SlashStep(source, st))
  {
    if PeekAt(source, st.current + 1) == '/' {
      NoNewlines(source, st.current, FindChar(source, st.current + 2, '\n'));
    } else {
      EmitAdvances(source, st, st.current + 1, Slash, None);
    }
  }

  lemma NumberStepAdvances(source: string, st: ScanState)
    requires st.current < |source| && IsDigit(source[st.current])
    ensures Advanced(source, st, NumberStep(source, st))
  {
    var end := NumberEnd(source, st.current + 1);
    EmitAdvances(source, st, end, TokenType.Number, Some(Object.Number(NumberValue(source[st.current..end]))));
  }

  lemma IdentifierStepAdvances(source: string, st: ScanState)
    requires st.current < |source| && IsAlpha(source[st.current])
    ensures Advanced(source, st, IdentifierStep(source, st))
  {
    var end := AlphaNumericEnd(source, st.current + 1);
    EmitAdvances(source, st, end, KeywordType(source[st.current..end]), None);
  }

  /** Every step of the scanner advances, in the sense of `Advanced`. */
  lemma ScanTokenStepAdvances(source: string, st: ScanState)
    requires st.current < |source|
    ensures Advanced(source, st, ScanTokenStep(source, st))
  {
    var c := source[st.current];
    if SingleCharToken(c).Some? {
      SymbolStepAdvances(source, st);
    } else if EqualsPair(c).Some? {
      OperatorStepAdvances(source, st);
    } else if c == '/' {
      SlashStepAdvances(source, st);
    } else if c == ' ' || c == '\r' || c == '\t' || c == '\n' {
    } else if c == '"' {
      StringStepAdvances(source, st);
    } else if IsDigit(c) {
      NumberStepAdvances(source, st);
    } else if IsAlpha(c) {
      IdentifierStepAdvances(source, st);
    } else {
      NoNewlines(source, st.current, st.current + 1);
    }
  }

  /**
   * The whole loop: it reaches the end of the source, counts every
   * newline, only appends, never emits `Eof`, and gives every number and
   * string token its literal value.
   */
  lemma {:induction false} ScanFromFacts(source: string, st: ScanState)
    requires st.current <= |source|
    ensures var r := ScanFrom(source, st);
            && r.current == |source|
            && r.line == st.line + Newlines(source, st.current, |source|)
            && st.tokens <= r.tokens && st.errors <= r.errors
            && forall k :: |st.tokens| <= k < |r.tokens| ==> Emittable(r.tokens[k])
    decreases |source| - st.current
  {
    if st.current < |source| {
      var next := ScanTokenStep(source, st);
      ScanTokenStepAdvances(source, st);
      ScanFromFacts(source, next);
      NewlinesSplit(source, st.current, next.current, |source|);
    }
  }

  /**
   * The token list ends with exactly one `Eof`, stamped with the final line:
   * one more than the number of newlines in the source.
   */
  lemma LexEndsWithEof(source: string)
    ensures var s := Lex(source);
            && |s.tokens| >= 1
            && s.tokens[|s.tokens| - 1] == Token(Eof, "", None, 1 + Occurrences(source, '\n'))
            && forall k :: 0 <= k < |s.tokens| - 1 ==> Emittable(s.tokens[k])
  {
    ScanFromFacts(source, ScanState(0, 1, [], []));
    NewlinesAreOccurrences(source, 0, |source|);
    assert source[0..|source|] == source;
  }

  /** A lexeme made only of digits has the value those digits denote. */
  lemma NumberValueOfDigits(digits: string)
    requires forall k :: 0 <= k < |digits| ==> IsDigit(digits[k])
    ensures NumberValue(digits) == DecimalValue(digits)
  {
    assert LeadingDigits(digits) == digits;
  }

  /** `DigitsEnd` stops exactly where a run of digits stops. */
  lemma DigitsEndAt(source: string, i: nat, j: nat)
    requires i <= j <= |source|
    requires forall k :: i <= k < j ==> IsDigit(source[k])
    requires j < |source| ==> !IsDigit(source[j])
    ensures DigitsEnd(source, i) == j
  {
  }

  /** `FindChar` stops exactly at the first occurrence of the character. */
  lemma FindCharAt(source: string, i: nat, j: nat, c: char)
    requires i <= j <= |source|
    requires forall k :: i <= k < j ==> source[k] != c
    requires j < |source| ==> source[j] == c
    ensures FindChar(source, i, c) == j
  {
  }

  /** The loop takes one step while there is source left. */
  lemma ScanFromStep(source: string, st: ScanState)
    requires st.current < |source|
    ensures ScanFrom(source, st) == ScanFrom(source, ScanTokenStep(source, st))
  {
  }

  /** The scanning loop on a source that is already consumed changes nothing. */
  lemma ScanFromDone(source: string, st: ScanState)
    requires st.current == |source|
    ensures ScanFrom(source, st) == st
  {
  }

  /** A step that consumes the rest of the source is the whole of the scanning loop. */
  lemma ScanFromLast(source: string, st: ScanState, r: ScanState)
    requires st.current < |source| && ScanTokenStep(source, st) == r && r.current == |source|
    ensures ScanFrom(source, st) == r
  {
    ScanFromStep(source, st);
    ScanFromDone(source, r);
  }

  /** A one-character token that ends the source is the last step of the scanning loop. */
  lemma LastSymbolScan(source: string, st: ScanState)
    requires st.current == |source| - 1 && SingleCharToken(source[st.current]).Some?
    ensures ScanFrom(source, st) == SymbolStep(source, st)
  {
    SymbolScan(source, st);
    ScanFromLast(source, st, SymbolStep(source, st));
  }

  /** A `.` that ends the source is the last step of the scanning loop. */
  lemma LastDotScan(source: string, st: ScanState)
    requires st.current == |source| - 1 && source[st.current] == '.'
    ensures ScanFrom(source, st) == SymbolStep(source, st)
  {
    assert SingleCharToken(source[st.current]) == Some(Dot);
    LastSymbolScan(source, st);
  }

  /** A run of digits with no fraction after it becomes one `Number` token with the value of the digits. */
  lemma WholeNumberStep(source: string, st: ScanState, end: nat)
    requires st.current < end <= |source|
    requires forall k :: st.current <= k < end ==> IsDigit(source[k])
    requires end < |source| ==> !IsDigit(source[end]) && (source[end] != '.' || !IsDigit(PeekNextAt(source, end)))
    ensures ScanTokenStep(source, st)
            == Emit(source, st.current, end, st, TokenType.Number,
                    Some(Object.Number(DecimalValue(source[st.current..end]))))
  {
    DigitsEndAt(source, st.current + 1, end);
    assert NumberEnd(source, st.current + 1) == end;
    NumberValueOfDigits(source[st.current..end]);
  }

  lemma SymbolScan(source: string, st: ScanState)
    requires st.current < |source| && SingleCharToken(source[st.current]).Some?
    ensures ScanTokenStep(source, st) == SymbolStep(source, st)
  {
  }

  lemma QuoteStep(source: string, st: ScanState)
    requires st.current < |source| && source[st.current] == '"'
    ensures ScanTokenStep(source, st) == StringStep(source, st)
  {
  }

  /** Searching the part of a source after a prefix for a character it lacks runs to the end. */
  lemma FindCharAfterPrefix(prefix: string, text: string, c: char)
    requires forall k :: 0 <= k < |text| ==> text[k] != c
    ensures FindChar(prefix + text, |prefix|, c) == |prefix + text|
    ensures (prefix + text)[|prefix|..|prefix + text|] == text
  {
    var source := prefix + text;
    forall k | |prefix| <= k < |source|
      ensures source[k] != c
    {
      assert source[k] == text[k - |prefix|];
    }
  }

  lemma UnclosedStringStep(source: string, st: ScanState)
    requires st.current < |source| && source[st.current] == '"' && FindChar(source, st.current + 1, '"') == |source|
    ensures StringStep(source, st)
            == UnclosedString(source, st, |source|, st.line + Newlines(source, st.current + 1, |source|))
  {
  }

  lemma ClosedStringStep(source: string, st: ScanState, close: nat)
    requires st.current < close < |source| && source[st.current] == '"' && FindChar(source, st.current + 1, '"') == close
    ensures StringStep(source, st)
            == ClosedString(source, st, close, st.line + Newlines(source, st.current + 1, close))
  {
  }

  /** A quote whose string is closed at `close` makes the scanner's step the closed-string one. */
  lemma ClosedStringScanStep(source: string, st: ScanState, close: nat)
    requires st.current < close < |source| && source[st.current] == '"' && FindChar(source, st.current + 1, '"') == close
    ensures ScanTokenStep(source, st)
            == ClosedString(source, st, close, st.line + Newlines(source, st.current + 1, close))
  {
    QuoteStep(source, st);
    ClosedStringStep(source, st, close);
  }

  /** Scanning the decimal form of `n` yields one `Number` token whose value is `n`. */
  lemma ScanNumberRoundTrip(n: nat)
    ensures Lex(Decimal(n))
            == Scanned([Token(TokenType.Number, Decimal(n), Some(Object.Number(n)), 1),
                        Token(Eof, "", None, 1)], [])
  {
    var source := Decimal(n);
    var st0 := ScanState(0, 1, [], []);
    WholeNumberStep(source, st0, |source|);
    assert source[0..|source|] == source;
    DecimalRoundTrip(n);
    var st1 := ScanState(|source|, 1, [Token(TokenType.Number, source, Some(Object.Number(n)), 1)], []);
    assert ScanTokenStep(source, st0) == st1;
    ScanFromStep(source, st0);
    ScanFromDone(source, st1);
  }

  /** Appending a `.` to a run of digits keeps the digits in front of it. */
  lemma DigitsThenDot(digits: string)
    requires forall k :: 0 <= k < |digits| ==> IsDigit(digits[k])
    ensures forall k :: 0 <= k < |digits| ==> IsDigit((digits + ".")[k])
    ensures (digits + ".")[|digits|] == '.' && (digits + ".")[0..|digits|] == digits
  {
    var source := digits + ".";
    forall k | 0 <= k < |digits|
      ensures IsDigit(source[k])
    {
      assert source[k] == digits[k];
    }
    assert source[0..|digits|] == digits;
  }

  lemma TrailingDotNumberStep(digits: string)
    requires |digits| >= 1 && forall k :: 0 <= k < |digits| ==> IsDigit(digits[k])
    ensures ScanTokenStep(digits + ".", ScanState(0, 1, [], []))
            == ScanState(|digits|, 1, [Token(TokenType.Number, digits, Some(Object.Number(DecimalValue(digits))), 1)], [])
  {
    var source := digits + ".";
    var st0 := ScanState(0, 1, [], []);
    DigitsThenDot(digits);
    WholeNumberStep(source, st0, |digits|);
    var tok := Token(TokenType.Number, digits, Some(Object.Number(DecimalValue(digits))), 1);
    assert [] + [tok] == [tok];
    assert Emit(source, 0, |digits|, st0, TokenType.Number, Some(Object.Number(DecimalValue(digits))))
           == ScanState(|digits|, 1, [tok], []);
  }

  /** A `.` scanned after one token appends a `Dot` token. */
  lemma DotSymbolStep(source: string, number: Token)
    requires |source| >= 1 && source[|source| - 1] == '.'
    ensures SymbolStep(source, ScanState(|source| - 1, 1, [number], []))
            == ScanState(|source|, 1, [number, Token(Dot, ".", None, 1)], [])
  {
    assert source[|source| - 1..|source|] == ".";
    assert [number] + [Token(Dot, ".", None, 1)] == [number, Token(Dot, ".", None, 1)];
  }

  /** A `.` that ends the source is scanned on its own after the tokens before it. */
  lemma TrailingDotRest(source: string, number: Token)
    requires |source| >= 1 && source[|source| - 1] == '.'
    ensures ScanFrom(source, ScanState(|source| - 1, 1, [number], []))
            == ScanState(|source|, 1, [number, Token(Dot, ".", None, 1)], [])
  {
    DotSymbolStep(source, number);
    LastDotScan(source, ScanState(|source| - 1, 1, [number], []));
  }

  /** A trailing `.` with no digit after it is not part of the number: `123.` is `123` then `.`. */
  lemma TrailingDotIsSeparate(digits: string)
    requires |digits| >= 1 && forall k :: 0 <= k < |digits| ==> IsDigit(digits[k])
    ensures ScanFrom(digits + ".", ScanState(0, 1, [], []))
            == ScanState(|digits| + 1, 1,
                         [Token(TokenType.Number, digits, Some(Object.Number(DecimalValue(digits))), 1),
                          Token(Dot, ".", None, 1)], [])
  {
    var number := Token(TokenType.Number, digits, Some(Object.Number(DecimalValue(digits))), 1);
    TrailingDotNumberStep(digits);
    ScanFromStep(digits + ".", ScanState(0, 1, [], []));
    assert (digits + ".")[|digits|] == '.';
    TrailingDotRest(digits + ".", number);
  }

  /** `!`, `=`, `<` and `>` become two-character operators exactly when `=` follows. */
  lemma TwoCharacterOperators(c: char)
    requires EqualsPair(c).Some?
    ensures Lex([c, '=']).tokens == [Token(EqualsPair(c).value.1, [c, '='], None, 1), Token(Eof, "", None, 1)]
    ensures Lex([c]).tokens == [Token(EqualsPair(c).value.0, [c], None, 1), Token(Eof, "", None, 1)]
  {
    var st0 := ScanState(0, 1, [], []);
    assert [c, '='][0..2] == [c, '='];
    assert ScanTokenStep([c, '='], st0) == ScanState(2, 1, [Token(EqualsPair(c).value.1, [c, '='], None, 1)], []);
    ScanFromDone([c, '='], ScanState(2, 1, [Token(EqualsPair(c).value.1, [c, '='], None, 1)], []));
    assert [c][0..1] == [c];
    assert ScanTokenStep([c], st0) == ScanState(1, 1, [Token(EqualsPair(c).value.0, [c], None, 1)], []);
    ScanFromDone([c], ScanState(1, 1, [Token(EqualsPair(c).value.0, [c], None, 1)], []));
  }

  /** The tokens of `1 != 2;`, the operator second. */
  function BangEqualTokens(): seq<Token>
  {
    [Token(TokenType.Number, "1", Some(Object.Number(1)), 1),
     Token(BangEqual, "!=", None, 1),
     Token(TokenType.Number, "2", Some(Object.Number(2)), 1),
     Token(Semicolon, ";", None, 1)]
  }

  /** The steps of `1 != 2;`: a number, a blank, `!=`, a blank, a number, `;`. */
  lemma BangEqualFirstNumber(source: string)
    requires source == "1 != 2;"
    ensures ScanFrom(source, ScanState(0, 1, [], [])) == ScanFrom(source, ScanState(2, 1, BangEqualTokens()[..1], []))
  {
    var st0 := ScanState(0, 1, [], []);
    WholeNumberStep(source, st0, 1);
    assert source[0..1] == "1";
    assert DecimalValue("1") == 1;
    var st1 := ScanState(1, 1, BangEqualTokens()[..1], []);
    assert ScanTokenStep(source, st0) == st1;
    ScanFromStep(source, st0);
    assert ScanTokenStep(source, st1) == st1.(current := 2);
    ScanFromStep(source, st1);
  }

  lemma BangEqualOperator(source: string)
    requires source == "1 != 2;"
    ensures ScanFrom(source, ScanState(2, 1, BangEqualTokens()[..1], [])) == ScanFrom(source, ScanState(5, 1, BangEqualTokens()[..2], []))
  {
    var st2 := ScanState(2, 1, BangEqualTokens()[..1], []);
    assert source[2..4] == "!=";
    var st3 := ScanState(4, 1, BangEqualTokens()[..2], []);
    assert ScanTokenStep(source, st2) == st3;
    ScanFromStep(source, st2);
    assert ScanTokenStep(source, st3) == st3.(current := 5);
    ScanFromStep(source, st3);
  }

  lemma BangEqualSecondNumber(source: string)
    requires source == "1 != 2;"
    ensures ScanFrom(source, ScanState(5, 1, BangEqualTokens()[..2], [])) == ScanState(7, 1, BangEqualTokens(), [])
  {
    var st4 := ScanState(5, 1, BangEqualTokens()[..2], []);
    WholeNumberStep(source, st4, 6);
    assert source[5..6] == "2";
    assert DecimalValue("2") == 2;
    var st5 := ScanState(6, 1, BangEqualTokens()[..3], []);
    assert ScanTokenStep(source, st4) == st5;
    ScanFromStep(source, st4);
    assert source[6..7] == ";";
    var st6 := ScanState(7, 1, BangEqualTokens(), []);
    assert ScanTokenStep(source, st5) == st6;
    ScanFromStep(source, st5);
    ScanFromDone(source, st6);
  }

  /** `1 != 2;` is four tokens before `Eof`, the operator `!=` second. */
  lemma BangEqualExample(source: string)
    requires source == "1 != 2;"
    ensures ScanFrom(source, ScanState(0, 1, [], [])) == ScanState(7, 1, BangEqualTokens(), [])
  {
    BangEqualFirstNumber(source);
    BangEqualOperator(source);
    BangEqualSecondNumber(source);
  }

  /** A `//` comment runs to the end of the line and produces nothing; a lone `/` is division. */
  lemma CommentsAreSkipped(text: string)
    requires forall k :: 0 <= k < |text| ==> text[k] != '\n'
    ensures Lex("//" + text) == Scanned([Token(Eof, "", None, 1)], [])
    ensures Lex("/").tokens == [Token(Slash, "/", None, 1), Token(Eof, "", None, 1)]
  {
    var source := "//" + text;
    var st0 := ScanState(0, 1, [], []);
    FindCharAfterPrefix("//", text, '\n');
    assert source[0] == '/' && PeekAt(source, 1) == '/';
    assert ScanTokenStep(source, st0) == ScanState(|source|, 1, [], []);
    ScanFromDone(source, ScanState(|source|, 1, [], []));
    assert "/"[0..1] == "/";
    assert ScanTokenStep("/", st0) == ScanState(1, 1, [Token(Slash, "/", None, 1)], []);
    ScanFromDone("/", ScanState(1, 1, [Token(Slash, "/", None, 1)], []));
  }

  /** The newlines inside a closed string literal are all the newlines of the literal. */
  lemma ClosedStringLines(source: string)
    requires |source| >= 2 && source[0] == '"' && source[|source| - 1] == '"'
    ensures Newlines(source, 1, |source| - 1) == Occurrences(source, '\n')
  {
    StringStepLine(source, 0, |source| - 1);
    NewlinesAreOccurrences(source, 0, |source|);
    assert source[0..|source|] == source;
  }

  /** The first step over a closed string literal takes the closed-string branch, on the line where it ends. */
  lemma ClosedStringFirstStep(source: string)
    requires |source| >= 2 && source[0] == '"' && source[|source| - 1] == '"'
    requires FindChar(source, 1, '"') == |source| - 1
    ensures ScanTokenStep(source, ScanState(0, 1, [], []))
            == ClosedString(source, ScanState(0, 1, [], []), |source| - 1, 1 + Occurrences(source, '\n'))
  {
    ClosedStringLines(source);
    ClosedStringScanStep(source, ScanState(0, 1, [], []), |source| - 1);
  }

  /** A closed string literal that is the whole source: its one token keeps the quotes in the lexeme and drops them from the value. */
  lemma ClosedStringWhole(source: string, line: nat)
    requires |source| >= 2
    ensures ClosedString(source, ScanState(0, 1, [], []), |source| - 1, line)
            == ScanState(|source|, line, [Token(TokenType.String, source, Some(Object.String(source[1..|source| - 1])), line)], [])
  {
    var tok := Token(TokenType.String, source[0..|source|], Some(Object.String(source[1..|source| - 1])), line);
    assert [] + [tok] == [tok];
    assert source[0..|source|] == source;
  }

  lemma ClosedStringTokenStep(source: string)
    requires |source| >= 2 && source[0] == '"' && source[|source| - 1] == '"'
    requires FindChar(source, 1, '"') == |source| - 1
    ensures var line := 1 + Occurrences(source, '\n');
            ScanTokenStep(source, ScanState(0, 1, [], []))
            == ScanState(|source|, line, [Token(TokenType.String, source, Some(Object.String(source[1..|source| - 1])), line)], [])
  {
    var line := 1 + Occurrences(source, '\n');
    var st := ClosedString(source, ScanState(0, 1, [], []), |source| - 1, line);
    ClosedStringFirstStep(source);
    ClosedStringWhole(source, line);
    assert ScanTokenStep(source, ScanState(0, 1, [], [])) == st;
  }

  /**
   * A source that is one closed string is one `String` token: the lexeme
   * keeps the quotes, the literal drops them, and the line is the one where
   * the string ends.
   */
  lemma StringLiteralScan(source: string)
    requires |source| >= 2 && source[0] == '"' && source[|source| - 1] == '"'
    requires forall k :: 1 <= k < |source| - 1 ==> source[k] != '"'
    ensures var line := 1 + Occurrences(source, '\n');
            ScanFrom(source, ScanState(0, 1, [], []))
            == ScanState(|source|, line, [Token(TokenType.String, source, Some(Object.String(source[1..|source| - 1])), line)], [])
  {
    var line := 1 + Occurrences(source, '\n');
    FindCharAt(source, 1, |source| - 1, '"');
    ClosedStringTokenStep(source);
    ScanFromStep(source, ScanState(0, 1, [], []));
    ScanFromDone(source, ScanState(|source|, line, [Token(TokenType.String, source, Some(Object.String(source[1..|source| - 1])), line)], []));
  }

  /** A string on its own: `"hello"` is one `String` token whose literal is `hello`. */
  lemma HelloStringLiteral()
    ensures ScanFrom("\"hello\"", ScanState(0, 1, [], [])).tokens
            == [Token(TokenType.String, "\"hello\"", Some(Object.String("hello")), 1)]
  {
    StringLiteralScan("\"hello\"");
    assert "\"hello\""[1..6] == "hello";
    assert Occurrences("\"hello\"", '\n') == 0;
  }

  /** The tokens of `print "hello";` before `Eof`. */
  function PrintHelloTokens(): seq<Token>
  {
    [Token(TokenType.Print, "print", None, 1),
     Token(TokenType.String, "\"hello\"", Some(Object.String("hello")), 1),
     Token(Semicolon, ";", None, 1)]
  }

  /** The first step of `print "hello";`: the keyword `print`. */
  lemma PrintHelloKeywordStep(source: string)
    requires source == "print \"hello\";"
    ensures ScanTokenStep(source, ScanState(0, 1, [], [])) == ScanState(5, 1, PrintHelloTokens()[..1], [])
  {
    IdentifierScan(source, ScanState(0, 1, [], []));
    PrintHelloWord(source);
  }

  /** The word `print` at the start of `print "hello";` is the keyword. */
  lemma PrintHelloWord(source: string)
    requires source == "print \"hello\";"
    ensures IdentifierStep(source, ScanState(0, 1, [], [])) == ScanState(5, 1, PrintHelloTokens()[..1], [])
  {
    AlphaNumericEndAt(source, 1, 5);
    assert source[0..5] == "print";
    assert KeywordType("print") == TokenType.Print;
  }

  /** The steps of `print "hello";`: the keyword `print`, then a blank. */
  lemma PrintHelloKeyword(source: string)
    requires source == "print \"hello\";"
    ensures ScanFrom(source, ScanState(0, 1, [], [])) == ScanFrom(source, ScanState(6, 1, PrintHelloTokens()[..1], []))
  {
    var st1 := ScanState(5, 1, PrintHelloTokens()[..1], []);
    PrintHelloKeywordStep(source);
    ScanFromStep(source, ScanState(0, 1, [], []));
    assert ScanTokenStep(source, st1) == st1.(current := 6);
    ScanFromStep(source, st1);
  }

  /** The string `"hello"` of `print "hello";`, closed at position 12. */
  lemma PrintHelloString(source: string)
    requires source == "print \"hello\";"
    ensures ScanFrom(source, ScanState(6, 1, PrintHelloTokens()[..1], []))
            == ScanFrom(source, ScanState(13, 1, PrintHelloTokens()[..2], []))
  {
    var st := ScanState(6, 1, PrintHelloTokens()[..1], []);
    FindCharAt(source, 7, 12, '"');
    NoNewlines(source, 7, 12);
    ClosedStringScanStep(source, st, 12);
    assert source[6..13] == "\"hello\"" && source[7..12] == "hello";
    assert ScanTokenStep(source, st) == ScanState(13, 1, PrintHelloTokens()[..2], []);
    ScanFromStep(source, st);
  }

  /** The `;` that ends `print "hello";`. */
  lemma PrintHelloSemicolon(source: string)
    requires source == "print \"hello\";"
    ensures ScanFrom(source, ScanState(13, 1, PrintHelloTokens()[..2], [])) == ScanState(14, 1, PrintHelloTokens(), [])
  {
    var st := ScanState(13, 1, PrintHelloTokens()[..2], []);
    SymbolScan(source, st);
    assert source[13..14] == ";";
    assert ScanTokenStep(source, st) == ScanState(14, 1, PrintHelloTokens(), []);
    ScanFromLast(source, st, ScanState(14, 1, PrintHelloTokens(), []));
  }

  /**
   * The scanner's own test: `print "hello";` is four tokens, `Print`, a
   * `String` whose literal is `hello`, `Semicolon` and `Eof`, with no error.
   */
  lemma PrintHelloExample()
    ensures Lex("print \"hello\";") == Scanned(PrintHelloTokens() + [Token(Eof, "", None, 1)], [])
    ensures var toks := Lex("print \"hello\";").tokens;
            && |toks| == 4 && toks[0].tokenType.Print? && toks[1].literal == Some(Object.String("hello"))
            && toks[2].tokenType.Semicolon? && toks[3].tokenType.Eof?
  {
    var source := "print \"hello\";";
    PrintHelloKeyword(source);
    PrintHelloString(source);
    PrintHelloSemicolon(source);
  }

  lemma UnclosedStringTokenStep(source: string)
    requires |source| >= 1 && source[0] == '"'
    requires FindChar(source, 1, '"') == |source|
    ensures var line := 1 + Occurrences(source, '\n');
            ScanTokenStep(source, ScanState(0, 1, [], []))
            == ScanState(|source|, line, [], [AtLine(line, UnterminatedMessage)])
  {
    var st0 := ScanState(0, 1, [], []);
    QuoteStep(source, st0);
    UnclosedStringStep(source, st0);
    StringStepLine(source, 0, |source|);
    NewlinesAreOccurrences(source, 0, |source|);
    assert source[0..|source|] == source;
  }

  /**
   * A string that never closes is reported at the line where the source
   * ends, and no `String` token is produced.
   */
  lemma UnterminatedString(source: string)
    requires |source| >= 1 && source[0] == '"'
    requires forall k :: 1 <= k < |source| ==> source[k] != '"'
    ensures var line := 1 + Occurrences(source, '\n');
            ScanFrom(source, ScanState(0, 1, [], []))
            == ScanState(|source|, line, [], [AtLine(line, UnterminatedMessage)])
  {
    var line := 1 + Occurrences(source, '\n');
    FindCharAt(source, 1, |source|, '"');
    UnclosedStringTokenStep(source);
    ScanFromStep(source, ScanState(0, 1, [], []));
    ScanFromDone(source, ScanState(|source|, line, [], [AtLine(line, UnterminatedMessage)]));
  }

  /** An unexpected character is reported and scanning carries on after it. */
  lemma UnexpectedCharacterContinues(n: nat)
    ensures Lex("@" + Decimal(n))
            == Scanned([Token(TokenType.Number, Decimal(n), Some(Object.Number(n)), 1),
                        Token(Eof, "", None, 1)],
                       [AtLine(1, UnexpectedMessage)])
  {
    var source := "@" + Decimal(n);
    var digits := Decimal(n);
    var st0 := ScanState(0, 1, [], []);
    var st1 := ScanState(1, 1, [], [AtLine(1, UnexpectedMessage)]);
    var st2 := ScanState(|source|, 1, [Token(TokenType.Number, digits, Some(Object.Number(n)), 1)],
                         [AtLine(1, UnexpectedMessage)]);
    assert source[0] == '@';
    assert ScanTokenStep(source, st0) == st1;
    forall k | 1 <= k < |source|
      ensures IsDigit(source[k])
    {
      assert source[k] == digits[k - 1];
    }
    WholeNumberStep(source, st1, |source|);
    assert source[1..|source|] == digits;
    DecimalRoundTrip(n);
    assert ScanTokenStep(source, st1) == st2;
    ScanFromStep(source, st0);
    ScanFromStep(source, st1);
    ScanFromDone(source, st2);
  }

  /** `AlphaNumericEnd` stops exactly where a run of letters and digits stops. */
  lemma AlphaNumericEndAt(source: string, i: nat, j: nat)
    requires i <= j <= |source|
    requires forall k :: i <= k < j ==> IsAlphaNumeric(source[k])
    requires j < |source| ==> !IsAlphaNumeric(source[j])
    ensures AlphaNumericEnd(source, i) == j
  {
  }

  lemma IdentifierScan(source: string, st: ScanState)
    requires st.current < |source| && IsAlpha(source[st.current])
    ensures ScanTokenStep(source, st) == IdentifierStep(source, st)
  {
  }

  /**
   * A word on its own is one token: its keyword when it is a reserved word,
   * `Identifier` otherwise.
   */
  lemma WordTokenStep(text: string)
    requires |text| >= 1 && IsAlpha(text[0]) && forall k :: 0 <= k < |text| ==> IsAlphaNumeric(text[k])
    ensures ScanTokenStep(text, ScanState(0, 1, [], []))
            == ScanState(|text|, 1, [Token(KeywordType(text), text, None, 1)], [])
  {
    IdentifierScan(text, ScanState(0, 1, [], []));
    AlphaNumericEndAt(text, 1, |text|);
    assert text[0..|text|] == text;
  }

  lemma WordScan(text: string)
    requires |text| >= 1 && IsAlpha(text[0]) && forall k :: 0 <= k < |text| ==> IsAlphaNumeric(text[k])
    ensures ScanFrom(text, ScanState(0, 1, [], [])) == ScanState(|text|, 1, [Token(KeywordType(text), text, None, 1)], [])
  {
    var st1 := ScanState(|text|, 1, [Token(KeywordType(text), text, None, 1)], []);
    WordTokenStep(text);
    ScanFromStep(text, ScanState(0, 1, [], []));
    ScanFromDone(text, st1);
  }

  /** Identifiers are scanned by maximal munch: `orchid` is not the keyword `or`. */
  lemma MaximalMunch()
    ensures ScanFrom("or", ScanState(0, 1, [], [])).tokens == [Token(Or, "or", None, 1)]
    ensures ScanFrom("orchid", ScanState(0, 1, [], [])).tokens == [Token(Identifier, "orchid", None, 1)]
  {
    WordScan("or");
    WordScan("orchid");
  }

  class Scanner {
    const source: string
    var tokens: seq<Token>
    var errors: seq<Diagnostic>
    var start: nat
    var current: nat
    var line: nat

    ghost predicate Valid()
      reads this
    {
      start <= current <= |source|
    }

    function State(): ScanState
      reads this
    {
      ScanState(current, line, tokens, errors)
    }

    constructor (source: string)
      ensures Valid() && this.source == source && start == 0
      ensures State() == ScanState(0, 1, [], [])
    {
      this.source := source;
      tokens := [];
      errors := [];
      start := 0;
      current := 0;
      line := 1;
    }

    /** `scan_tokens`: steps to the end of the source, then appends `Eof`. */
    method ScanTokens() returns (result: seq<Token>)
      requires Valid()
      modifies this
      ensures Valid() && result == tokens
      ensures var last := ScanFrom(source, old(State()));
              && tokens == last.tokens + [Token(Eof, "", None, last.line)]
              && errors == last.errors
      ensures old(State()) == ScanState(0, 1, [], []) ==> Scanned(result, errors) == Lex(source)
    {
      while current < |source|
        invariant Valid()
        invariant ScanFrom(source, State()) == ScanFrom(source, old(State()))
        decreases |source| - current
      {
        start := current;
        ScanToken();
      }
      tokens := tokens + [Token(Eof, "", None, line)];
      result := tokens;
    }

    function IsAtEnd(): bool
      reads this
    {
      current >= |source|
    }

    function Peek(): char
      reads this
    {
      PeekAt(source, current)
    }

    function PeekNext(): char
      reads this
    {
      PeekNextAt(source, current)
    }

    method Advance() returns (c: char)
      requires current < |source|
      modifies this`current
      ensures current == old(current) + 1 && c == source[old(current)]
    {
      c := source[current];
      current := current + 1;
    }

    /** `match_token`: consumes the next character only when it is `expected`. */
    method MatchToken(expected: char) returns (matched: bool)
      requires current <= |source|
      modifies this`current
      ensures matched <==> old(current) < |source| && source[old(current)] == expected
      ensures current == if matched then old(current) + 1 else old(current)
    {
      if IsAtEnd() || Peek() != expected {
        return false;
      }
      current := current + 1;
      return true;
    }

    method AddToken(t: TokenType)
      requires Valid()
      modifies this`tokens
      ensures tokens == old(tokens) + [Token(t, source[start..current], None, line)]
    {
      AddLiteralToken(t, None);
    }

    /** `add_literal_token`: the lexeme is `source[start..current]`. */
    method AddLiteralToken(t: TokenType, literal: Option<Object>)
      requires Valid()
      modifies this`tokens
      ensures tokens == old(tokens) + [Token(t, source[start..current], literal, line)]
    {
      var text := source[start..current];
      tokens := tokens + [Token(t, text, literal, line)];
    }

    /** `scan_token`: one step from `start`, which equals `current` on entry. */
    method ScanToken()
      requires Valid() && start == current < |source|
      modifies this`current, this`tokens, this`line, this`errors
      ensures Valid()
      ensures State() == ScanTokenStep(source, old(State()))
    {
      var c := Advance();
      if SingleCharToken(c).Some? {
        AddToken(SingleCharToken(c).value);
      } else if EqualsPair(c).Some? {
        var matched := MatchToken('=');
        if matched {
          AddToken(EqualsPair(c).value.1);
        } else {
          AddToken(EqualsPair(c).value.0);
        }
      } else if c == '/' {
        var matched := MatchToken('/');
        if matched {
          SkipComment();
        } else {
          AddToken(Slash);
        }
      } else if c == ' ' || c == '\r' || c == '\t' {
      } else if c == '\n' {
        line := line + 1;
      } else if c == '"' {
        String();
      } else if IsDigit(c) {
        Number();
      } else if IsAlpha(c) {
        Identifier();
      } else {
        errors := errors + [AtLine(line, UnexpectedMessage)];
      }
    }

    /** The loop of `scan_token` that skips a `//` comment up to the end of its line. */
    method SkipComment()
      requires Valid()
      modifies this`current
      ensures Valid()
      ensures current == FindChar(source, old(current), '\n')
    {
      while Peek() != '\n' && !IsAtEnd()
        invariant Valid() && old(current) <= current
        invariant FindChar(source, current, '\n') == FindChar(source, old(current), '\n')
        decreases |source| - current
      {
        var _ := Advance();
      }
    }

    /** The loop of `string`: up to the closing quote or the end, counting the newlines passed. */
    method SkipStringBody()
      requires Valid()
      modifies this`current, this`line
      ensures Valid()
      ensures current == FindChar(source, old(current), '"')
      ensures line == old(line) + Newlines(source, old(current), current)
    {
      while Peek() != '"' && !IsAtEnd()
        invariant Valid() && old(current) <= current
        invariant FindChar(source, current, '"') == FindChar(source, old(current), '"')
        invariant line == old(line) + Newlines(source, old(current), current)
        decreases |source| - current
      {
        NewlinesExtend(source, old(current), current);
        if Peek() == '\n' {
          line := line + 1;
        }
        var _ := Advance();
      }
    }

    /** `string`: called just after the opening quote. */
    method String()
      requires Valid() && current == start + 1 && source[start] == '"'
      modifies this`current, this`tokens, this`line, this`errors
      ensures Valid()
      ensures State() == StringStep(source, ScanState(start, old(line), old(tokens), old(errors)))
    {
      ghost var st := ScanState(start, old(line), old(tokens), old(errors));
      SkipStringBody();
      if IsAtEnd() {
        UnclosedStringStep(source, st);
        errors := errors + [AtLine(line, UnterminatedMessage)];
        return;
      }
      ClosedStringStep(source, st, current);
      CloseString(st);
    }

    /** The closing quote of `string`: the token keeps the quotes in its lexeme and drops them from its value. */
    method CloseString(ghost st: ScanState)
      requires Valid() && st.current == start < current < |source| && source[current] == '"'
      requires st.tokens == tokens && st.errors == errors
      modifies this`current, this`tokens
      ensures Valid()
      ensures State() == ClosedString(source, st, old(current), line)
    {
      var _ := Advance();
      var value := source[start + 1..current - 1];
      AddLiteralToken(TokenType.String, Some(Object.String(value)));
    }

    /** The digit loop of `number`, used for the integer part and for the fraction. */
    method SkipDigits()
      requires Valid()
      modifies this`current
      ensures Valid()
      ensures current == DigitsEnd(source, old(current))
    {
      while IsDigit(Peek())
        invariant Valid() && old(current) <= current
        invariant DigitsEnd(source, current) == DigitsEnd(source, old(current))
        decreases |source| - current
      {
        var _ := Advance();
      }
    }

    /** The cursor moves of `number`: the integer digits, then the fraction when a digit follows the `.`. */
    method SkipNumber()
      requires Valid()
      modifies this`current
      ensures Valid()
      ensures current == NumberEnd(source, old(current))
    {
      SkipDigits();
      if Peek() == '.' && IsDigit(PeekNext()) {
        var _ := Advance();
        SkipDigits();
      }
    }

    /** `number`: called just after the first digit. */
    method Number()
      requires Valid() && current == start + 1 && IsDigit(source[start])
      modifies this`current, this`tokens
      ensures Valid()
      ensures State() == NumberStep(source, ScanState(start, line, old(tokens), errors))
    {
      SkipNumber();
      var value := NumberValue(source[start..current]);
      AddLiteralToken(TokenType.Number, Some(Object.Number(value)));
    }

    /** `identifier`: called just after the first letter. */
    method Identifier()
      requires Valid() && current == start + 1 && IsAlpha(source[start])
      modifies this`current, this`tokens
      ensures Valid()
      ensures State() == IdentifierStep(source, ScanState(start, line, old(tokens), errors))
    {
      while IsAlphaNumeric(Peek())
        invariant Valid() && old(current) <= current
        invariant AlphaNumericEnd(source, current) == AlphaNumericEnd(source, old(current))
        invariant tokens == old(tokens)
        decreases |source| - current
      {
        var _ := Advance();
      }
      var text := source[start..current];
      AddToken(KeywordType(text));
    }
  }
}
