/**
 * The tokens of the language, the keyword lookup, and the one-line textual
 * rendering of a token (`format_number_string` and `impl Display for Token`).
 */
module Tokens {
  import Decimal

  datatype Token =
    | LeftParen | RightParen | LeftBrace | RightBrace | Eof
    | Comma | Dot | Minus | Plus | Semicolon | Star
    | Bang | BangEqual | Equal | EqualEqual
    | Greater | GreaterEqual | Less | LessEqual | Slash
    | String(content: string) | Number(numeral: string) | Identifier(name: string)
    | And | Class | Else | False | For | Fun | If | Nil | Or
    | Print | Return | Super | This | True | Var | While
  {
    /** One of the sixteen reserved-word tokens. */
    predicate IsKeyword() {
      And? || Class? || Else? || False? || For? || Fun? || If? || Nil? || Or?
      || Print? || Return? || Super? || This? || True? || Var? || While?
    }
  }

  /*
   * The sixteen keyword tokens in four alphabetical ranges. Case analyses
   * over all keywords are split along these ranges.
   */
  predicate KeywordAToF(t: Token) { t.And? || t.Class? || t.Else? || t.False? }
  predicate KeywordFToN(t: Token) { t.For? || t.Fun? || t.If? || t.Nil? }
  predicate KeywordOToS(t: Token) { t.Or? || t.Print? || t.Return? || t.Super? }
  predicate KeywordTToW(t: Token) { t.This? || t.True? || t.Var? || t.While? }

  /** The reserved words, all lower-case. */
  const Keywords: set<string> :=
    {"and", "class", "else", "false", "for", "fun", "if", "nil", "or",
     "print", "return", "super", "this", "true", "var", "while"}

  /**
   * The source text a token stands for: the fixed spelling of an operator,
   * punctuation mark or keyword, the numeral or name itself, and a string's
   * content between its quotes. The end marker stands for no text.
   */
  function Lexeme(t: Token): string {
    match t
    case LeftParen => "("
    case RightParen => ")"
    case LeftBrace => "{"
    case RightBrace => "}"
    case Eof => ""
    case Comma => ","
    case Dot => "."
    case Minus => "-"
    case Plus => "+"
    case Semicolon => ";"
    case Star => "*"
    case Bang => "!"
    case BangEqual => "!="
    case Equal => "="
    case EqualEqual => "=="
    case Greater => ">"
    case GreaterEqual => ">="
    case Less => "<"
    case LessEqual => "<="
    case Slash => "/"
    case String(s) => "\"" + s + "\""
    case Number(n) => n
    case Identifier(i) => i
    case And => "and"
    case Class => "class"
    case Else => "else"
    case False => "false"
    case For => "for"
    case Fun => "fun"
    case If => "if"
    case Nil => "nil"
    case Or => "or"
    case Print => "print"
    case Return => "return"
    case Super => "super"
    case This => "this"
    case True => "true"
    case Var => "var"
    case While => "while"
  }

  /** The upper-case token name that begins a token's rendering. */
  function TokenName(t: Token): string {
    match t
    case LeftParen => "LEFT_PAREN"
    case RightParen => "RIGHT_PAREN"
    case LeftBrace => "LEFT_BRACE"
    case RightBrace => "RIGHT_BRACE"
    case Eof => "EOF"
    case Comma => "COMMA"
    case Dot => "DOT"
    case Minus => "MINUS"
    case Plus => "PLUS"
    case Semicolon => "SEMICOLON"
    case Star => "STAR"
    case Bang => "BANG"
    case BangEqual => "BANG_EQUAL"
    case Equal => "EQUAL"
    case EqualEqual => "EQUAL_EQUAL"
    case Greater => "GREATER"
    case GreaterEqual => "GREATER_EQUAL"
    case Less => "LESS"
    case LessEqual => "LESS_EQUAL"
    case Slash => "SLASH"
    case String(_) => "STRING"
    case Number(_) => "NUMBER"
    case Identifier(_) => "IDENTIFIER"
    case And => "AND"
    case Class => "CLASS"
    case Else => "ELSE"
    case False => "FALSE"
    case For => "FOR"
    case Fun => "FUN"
    case If => "IF"
    case Nil => "NIL"
    case Or => "OR"
    case Print => "PRINT"
    case Return => "RETURN"
    case Super => "SUPER"
    case This => "THIS"
    case True => "TRUE"
    case Var => "VAR"
    case While => "WHILE"
  }

  /** The literal value part of a rendering: "null" for every token without a value. */
  function LiteralText(t: Token): string {
    match t
    case String(s) => s
    case Number(n) => FormatNumber(n)
    case _ => "null"
  }

  /**
   * Keyword lookup of an identifier's text (the `match identifier.as_str()`
   * in `from_chars`): a reserved word becomes its keyword token, any other
   * text an identifier carrying that text.
   */
  function KeywordOrIdentifier(word: string): (t: Token)
    ensures t.IsKeyword() <==> word in Keywords
    ensures t == Identifier(word) <==> word !in Keywords
  {
    match word
    case "and" => And
    case "class" => Class
    case "else" => Else
    case "false" => False
    case "for" => For
    case "fun" => Fun
    case "if" => If
    case "nil" => Nil
    case "or" => Or
    case "print" => Print
    case "return" => Return
    case "super" => Super
    case "this" => This
    case "true" => True
    case "var" => Var
    case "while" => While
    case _ => Identifier(word)
  }

  /** Keyword lookup keeps the text: the token found for a word is spelled by that word. */
  lemma KeywordLexeme(word: string)
    ensures Lexeme(KeywordOrIdentifier(word)) == word
  {
    if word !in Keywords {
    } else if word == "and" || word == "class" || word == "else" || word == "false" {
      KeywordLexemeAToF(word);
    } else if word == "for" || word == "fun" || word == "if" || word == "nil" {
      KeywordLexemeFToN(word);
    } else if word == "or" || word == "print" || word == "return" || word == "super" {
      KeywordLexemeOToS(word);
    } else {
      KeywordLexemeTToW(word);
    }
  }

  lemma KeywordLexemeAToF(word: string)
    requires word == "and" || word == "class" || word == "else" || word == "false"
    ensures Lexeme(KeywordOrIdentifier(word)) == word
  {
  }

  lemma KeywordLexemeFToN(word: string)
    requires word == "for" || word == "fun" || word == "if" || word == "nil"
    ensures Lexeme(KeywordOrIdentifier(word)) == word
  {
  }

  lemma KeywordLexemeOToS(word: string)
    requires word == "or" || word == "print" || word == "return" || word == "super"
    ensures Lexeme(KeywordOrIdentifier(word)) == word
  {
  }

  lemma KeywordLexemeTToW(word: string)
    requires word == "this" || word == "true" || word == "var" || word == "while"
    ensures Lexeme(KeywordOrIdentifier(word)) == word
  {
  }

  // ---------------------------------------------------------------------
  // Numerals and their rendering
  // ---------------------------------------------------------------------

  /** A decimal numeral: digits, optionally followed by a dot and digits. */
  ghost predicate IsNumeral(t: string) {
    (|t| > 0 && Decimal.AllDigits(t))
    || exists p :: 0 < p < |t| - 1 && t[p] == '.' && Decimal.AllDigits(t[..p]) && Decimal.AllDigits(t[p + 1..])
  }

  /** `str::contains` for a substring. */
  predicate HasSubstring(s: string, sub: string)
    decreases |s|
  {
    |sub| <= |s| && (s[..|sub|] == sub || HasSubstring(s[1..], sub))
  }

  /** `str::find` for a character known to occur. */
  function IndexOf(s: string, c: char): (k: nat)
    requires c in s
    ensures k < |s| && s[k] == c && c !in s[..k]
  {
    if s[0] == c then 0
    else
      var k := 1 + IndexOf(s[1..], c);
      assert s[..k] == [s[0]] + s[1..][..k - 1];
      k
  }

  /**
   * `format_number_string`: the literal value shown for a numeral. A numeral
   * without a dot gains ".0"; one containing ".00" anywhere is cut back to
   * its whole part followed by ".0"; any other is kept as it is.
   */
  function FormatNumber(s: string): (r: string)
    ensures '.' in r
  {
    if '.' !in s then
      assert (s + ".0")[|s|] == '.';
      s + ".0"
    else if HasSubstring(s, ".00") then
      var whole := s[..IndexOf(s, '.')];
      assert (whole + ".0")[|whole|] == '.';
      whole + ".0"
    else s
  }

  /** The line printed for a token without a value: its name, its lexeme and "null". */
  function Fixed(name: string, lexeme: string): string {
    name + " " + lexeme + " " + "null"
  }

  /** `impl Display for Token`: the line printed for a token. */
  function Display(t: Token): string {
    match t
    case Eof => Fixed("EOF", "")
    case LeftParen => Fixed("LEFT_PAREN", "(")
    case RightParen => Fixed("RIGHT_PAREN", ")")
    case LeftBrace => Fixed("LEFT_BRACE", "{")
    case RightBrace => Fixed("RIGHT_BRACE", "}")
    case Comma => Fixed("COMMA", ",")
    case Dot => Fixed("DOT", ".")
    case Minus => Fixed("MINUS", "-")
    case Plus => Fixed("PLUS", "+")
    case Semicolon => Fixed("SEMICOLON", ";")
    case Star => Fixed("STAR", "*")
    case Bang => Fixed("BANG", "!")
    case BangEqual => Fixed("BANG_EQUAL", "!=")
    case Equal => Fixed("EQUAL", "=")
    case EqualEqual => Fixed("EQUAL_EQUAL", "==")
    case Greater => Fixed("GREATER", ">")
    case GreaterEqual => Fixed("GREATER_EQUAL", ">=")
    case Less => Fixed("LESS", "<")
    case LessEqual => Fixed("LESS_EQUAL", "<=")
    case Slash => Fixed("SLASH", "/")
    case String(s) => "STRING \"" + s + "\" " + s
    case Number(n) => "NUMBER " + n + " " + FormatNumber(n)
    case Identifier(i) => Fixed("IDENTIFIER", i)
    case And => Fixed("AND", "and")
    case Class => Fixed("CLASS", "class")
    case Else => Fixed("ELSE", "else")
    case False => Fixed("FALSE", "false")
    case For => Fixed("FOR", "for")
    case Fun => Fixed("FUN", "fun")
    case If => Fixed("IF", "if")
    case Nil => Fixed("NIL", "nil")
    case Or => Fixed("OR", "or")
    case Print => Fixed("PRINT", "print")
    case Return => Fixed("RETURN", "return")
    case Super => Fixed("SUPER", "super")
    case This => Fixed("THIS", "this")
    case True => Fixed("TRUE", "true")
    case Var => Fixed("VAR", "var")
    case While => Fixed("WHILE", "while")
  }
}
