/**
 * The line scanner: `Token::from_chars` and `tokenize`.
 *
 * A line is a `string`; the peekable cursor of the implementation is an
 * index into it. `Lex` and `ScanFrom` are the functional specifications;
 * `FromChars` and `Tokenize` are the loops that compute them.
 */
module Scanner {
  import opened Wrappers
  import opened Chars
  import opened Tokens
  import Decimal

  /** `TokenParseError`: why `from_chars` produced no token. */
  datatype ScanError = UnexpectedCharacter | UnterminatedString

  /** What `from_chars` yields, with the position of the cursor afterwards. */
  datatype Lexed = Lexed(result: Result<Token, ScanError>, next: nat)

  /** The character at `j` exists and is `c` (`peek() == Some(&c)`). */
  predicate NextIs(s: string, j: nat, c: char) {
    j < |s| && s[j] == c
  }

  /**
   * The end of the numeral that starts with the digit at `i`: a run of
   * digits, then a dot and a second run of digits if a digit follows the dot.
   */
  function NumberEnd(s: string, i: nat): (e: nat)
    requires i < |s|
    ensures i < e <= |s|
  {
    var whole := RunEnd(s, i + 1, IsDigit);
    if whole + 1 < |s| && s[whole] == '.' && IsDigit(s[whole + 1]) then RunEnd(s, whole + 1, IsDigit)
    else whole
  }

  /**
   * `Token::from_chars` with `s[i]` as the current character and the cursor
   * at `i + 1`: the token or error and the cursor's new position.
   */
  function Lex(s: string, i: nat): (r: Lexed)
    requires i < |s|
    ensures i < r.next <= |s|
  {
    match s[i]
    case '(' => Lexed(Ok(LeftParen), i + 1)
    case ')' => Lexed(Ok(RightParen), i + 1)
    case '{' => Lexed(Ok(LeftBrace), i + 1)
    case '}' => Lexed(Ok(RightBrace), i + 1)
    case ',' => Lexed(Ok(Comma), i + 1)
    case '.' => Lexed(Ok(Dot), i + 1)
    case '-' => Lexed(Ok(Minus), i + 1)
    case '+' => Lexed(Ok(Plus), i + 1)
    case ';' => Lexed(Ok(Semicolon), i + 1)
    case '*' => Lexed(Ok(Star), i + 1)
    case '!' => if NextIs(s, i + 1, '=') then Lexed(Ok(BangEqual), i + 2) else Lexed(Ok(Bang), i + 1)
    case '=' => if NextIs(s, i + 1, '=') then Lexed(Ok(EqualEqual), i + 2) else Lexed(Ok(Equal), i + 1)
    case '>' => if NextIs(s, i + 1, '=') then Lexed(Ok(GreaterEqual), i + 2) else Lexed(Ok(Greater), i + 1)
    case '<' => if NextIs(s, i + 1, '=') then Lexed(Ok(LessEqual), i + 2) else Lexed(Ok(Less), i + 1)
    case '/' => Lexed(Ok(Slash), i + 1)
    case '"' => LexString(s, i)
    case c =>
      if IsDigit(c) then LexNumber(s, i)
      else if IsIdentStart(c) then LexWord(s, i)
      else Lexed(Err(UnexpectedCharacter), i + 1)
  }

  /** A string literal opened by the quote at `i`, up to the next quote. */
  function LexString(s: string, i: nat): (r: Lexed)
    requires i < |s|
    ensures i < r.next <= |s|
  {
    var close := RunEnd(s, i + 1, NotQuote);
    if close < |s| then Lexed(Ok(String(s[i + 1..close])), close + 1)
    else Lexed(Err(UnterminatedString), |s|)
  }

  /** A number literal starting with the digit at `i`. */
  function LexNumber(s: string, i: nat): (r: Lexed)
    requires i < |s|
    ensures i < r.next <= |s|
  {
    var e := NumberEnd(s, i);
    Lexed(Ok(Number(s[i..e])), e)
  }

  /** An identifier or keyword starting with the letter or underscore at `i`. */
  function LexWord(s: string, i: nat): (r: Lexed)
    requires i < |s|
    ensures i < r.next <= |s|
  {
    var e := RunEnd(s, i + 1, IsIdentChar);
    Lexed(Ok(KeywordOrIdentifier(s[i..e])), e)
  }

  /**
   * `Token::from_chars`, advancing the cursor one character at a time and
   * accumulating the payload of a string, number or identifier.
   */
  method FromChars(s: string, i: nat) returns (result: Result<Token, ScanError>, next: nat)
    requires i < |s|
    ensures Lexed(result, next) == Lex(s, i)
  {
    var current := s[i];
    next := i + 1;
    match current
    case '(' => result := Ok(LeftParen);
    case ')' => result := Ok(RightParen);
    case '{' => result := Ok(LeftBrace);
    case '}' => result := Ok(RightBrace);
    case ',' => result := Ok(Comma);
    case '.' => result := Ok(Dot);
    case '-' => result := Ok(Minus);
    case '+' => result := Ok(Plus);
    case ';' => result := Ok(Semicolon);
    case '*' => result := Ok(Star);
    case '!' =>
      if next < |s| && s[next] == '=' {
        next := next + 1;
        result := Ok(BangEqual);
      } else {
        result := Ok(Bang);
      }
    case '=' =>
      if next < |s| && s[next] == '=' {
        next := next + 1;
        result := Ok(EqualEqual);
      } else {
        result := Ok(Equal);
      }
    case '>' =>
      if next < |s| && s[next] == '=' {
        next := next + 1;
        result := Ok(GreaterEqual);
      } else {
        result := Ok(Greater);
      }
    case '<' =>
      if next < |s| && s[next] == '=' {
        next := next + 1;
        result := Ok(LessEqual);
      } else {
        result := Ok(Less);
      }
    case '/' => result := Ok(Slash);
    case '"' => result, next := ReadString(s, i);
    case c =>
      if IsDigit(c) {
        result, next := ReadNumber(s, i);
      } else if IsIdentStart(c) {
        result, next := ReadWord(s, i);
      } else {
        result := Err(UnexpectedCharacter);
      }
  }

  /** The string branch of `from_chars`: collect characters up to the closing quote. */
  method ReadString(s: string, i: nat) returns (result: Result<Token, ScanError>, next: nat)
    requires i < |s|
    ensures Lexed(result, next) == LexString(s, i)
  {
    next := i + 1;
    var content := "";
    while next < |s|
      invariant i + 1 <= next <= |s|
      invariant content == s[i + 1..next]
      invariant RunEnd(s, next, NotQuote) == RunEnd(s, i + 1, NotQuote)
    {
      var c := s[next];
      next := next + 1;
      if c == '"' {
        return Ok(String(content)), next;
      }
      content := content + [c];
    }
    result := Err(UnterminatedString);
  }

  /** The number branch of `from_chars`: a run of digits, then an optional fractional part. */
  method ReadNumber(s: string, i: nat) returns (result: Result<Token, ScanError>, next: nat)
    requires i < |s| && IsDigit(s[i])
    ensures Lexed(result, next) == LexNumber(s, i)
  {
    next := i + 1;
    var numberString := [s[i]];
    while next < |s| && IsDigit(s[next])
      invariant i + 1 <= next <= |s|
      invariant numberString == s[i..next]
      invariant RunEnd(s, next, IsDigit) == RunEnd(s, i + 1, IsDigit)
    {
      numberString := numberString + [s[next]];
      next := next + 1;
    }
    result, next := ReadFraction(s, i, next, numberString);
  }

  /**
   * The labelled `'rest` loop of the number branch: after the whole part
   * `s[i..whole]`, take a dot and a second run of digits when a digit
   * follows the dot.
   */
  method ReadFraction(s: string, i: nat, whole: nat, wholeString: string) returns (result: Result<Token, ScanError>, next: nat)
    requires i < |s| && whole == RunEnd(s, i + 1, IsDigit) && wholeString == s[i..whole]
    ensures Lexed(result, next) == LexNumber(s, i)
  {
    next := whole;
    var numberString := wholeString;
    label rest:
    while next < |s|
      invariant whole <= next <= |s|
      invariant numberString == s[i..next]
      invariant next == whole || next == |s| == NumberEnd(s, i)
    {
      if s[next] == '.' && next + 1 < |s| && IsDigit(s[next + 1]) {
        numberString := numberString + [s[next]];
        next := next + 1;
        while next < |s|
          invariant whole + 1 <= next <= |s|
          invariant numberString == s[i..next]
          invariant RunEnd(s, next, IsDigit) == NumberEnd(s, i)
        {
          if IsDigit(s[next]) {
            numberString := numberString + [s[next]];
            next := next + 1;
          } else {
            break rest;
          }
        }
      } else {
        break rest;
      }
    }
    result := Ok(Number(numberString));
  }

  /** The identifier branch of `from_chars`: a run of identifier characters, then the keyword lookup. */
  method ReadWord(s: string, i: nat) returns (result: Result<Token, ScanError>, next: nat)
    requires i < |s| && IsIdentStart(s[i])
    ensures Lexed(result, next) == LexWord(s, i)
  {
    next := i + 1;
    var identifier := [s[i]];
    while next < |s| && IsIdentChar(s[next])
      invariant i + 1 <= next <= |s|
      invariant identifier == s[i..next]
      invariant RunEnd(s, next, IsIdentChar) == RunEnd(s, i + 1, IsIdentChar)
    {
      identifier := identifier + [s[next]];
      next := next + 1;
    }
    result := Ok(KeywordOrIdentifier(identifier));
  }

  /** The diagnostic for a character no token can start with. */
  function UnexpectedMessage(line: nat, c: char): string {
    "[line " + Decimal.NatToString(line) + "] Error: Unexpected character: " + [c]
  }

  /** The diagnostic for a string literal the line ends inside. */
  function UnterminatedMessage(line: nat): string {
    "[line " + Decimal.NatToString(line) + "] Error: Unterminated string."
  }

  /** The entry `tokenize` pushes for one result of `from_chars` on `current`. */
  function Report(r: Result<Token, ScanError>, current: char, line: nat): Result<Token, string> {
    match r
    case Ok(t) => Ok(t)
    case Err(UnexpectedCharacter) => Err(UnexpectedMessage(line, current))
    case Err(UnterminatedString) => Err(UnterminatedMessage(line))
  }

  /**
   * The entries `tokenize` pushes from position `i` of line `s` to the end:
   * whitespace is skipped, `//` ends the line, and every other character
   * starts one token or one error. No more entries than characters are left.
   */
  function ScanFrom(s: string, i: nat, line: nat): (r: seq<Result<Token, string>>)
    requires i <= |s|
    ensures |r| <= |s| - i
    decreases |s| - i
  {
    if i == |s| then []
    else if IsWhitespace(s[i]) then ScanFrom(s, i + 1, line)
    else if s[i] == '/' && NextIs(s, i + 1, '/') then []
    else
      var lexed := Lex(s, i);
      [Report(lexed.result, s[i], line)] + ScanFrom(s, lexed.next, line)
  }

  /** The entries `tokenize` returns for line number `line` with text `s`. */
  function Scan(s: string, line: nat): seq<Result<Token, string>> {
    ScanFrom(s, 0, line)
  }

  /** `tokenize`: scan one line, pushing each token or diagnostic in turn. */
  method Tokenize(s: string, line: nat) returns (tokens: seq<Result<Token, string>>)
    ensures tokens == Scan(s, line)
  {
    tokens := [];
    var pos := 0;
    while pos < |s|
      invariant pos <= |s|
      invariant tokens + ScanFrom(s, pos, line) == Scan(s, line)
    {
      var start := pos;
      var c := s[pos];
      pos := pos + 1;
      if IsWhitespace(c) {
        ScanFromBlank(s, start, line);
        continue;
      }
      if c == '/' && pos < |s| && s[pos] == '/' {
        break;
      }
      var result, next := FromChars(s, start);
      var entry := match result
        case Ok(token) => Ok(token)
        case Err(UnexpectedCharacter) => Err(UnexpectedMessage(line, c))
        case Err(UnterminatedString) => Err(UnterminatedMessage(line));
      ScanFromToken(s, start, line);
      assert entry == Report(result, c, line);
      AppendOne(tokens, entry, ScanFrom(s, next, line));
      tokens := tokens + [entry];
      pos := next;
    }
  }

  /** Moving one entry from the pending entries to the pushed ones. */
  lemma AppendOne<T>(done: seq<T>, x: T, pending: seq<T>)
    ensures done + ([x] + pending) == (done + [x]) + pending
  {
  }

  /** A whitespace character contributes no entry. */
  lemma ScanFromBlank(s: string, i: nat, line: nat)
    requires i < |s| && IsWhitespace(s[i])
    ensures ScanFrom(s, i, line) == ScanFrom(s, i + 1, line)
  {
  }

  lemma ScanFromToken(s: string, i: nat, line: nat)
    requires i < |s| && !IsWhitespace(s[i]) && !(s[i] == '/' && NextIs(s, i + 1, '/'))
    ensures ScanFrom(s, i, line) == [Report(Lex(s, i).result, s[i], line)] + ScanFrom(s, Lex(s, i).next, line)
  {
  }
}
