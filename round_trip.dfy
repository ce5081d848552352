/**
 * Scanning is the inverse of spelling: a line made of the lexemes of
 * well-formed tokens, each followed by a space, scans back to exactly those
 * tokens. Conversely, every token the scanner produces is well formed.
 */
module RoundTrip {
  import opened Wrappers
  import opened Chars
  import opened Tokens
  import opened Scanner
  import ScannerProps
  import TokenProps

  /** A name: a letter or underscore followed by letters, digits and underscores. */
  predicate IsWord(w: string) {
    |w| > 0 && IsIdentStart(w[0]) && forall k :: 0 <= k < |w| ==> IsIdentChar(w[k])
  }

  /**
   * The tokens the scanner can produce: no end marker, no quote inside a
   * string, numerals for numbers, and names that are not reserved words for
   * identifiers.
   */
  ghost predicate WellFormed(t: Token) {
    match t
    case Eof => false
    case String(content) => '"' !in content
    case Number(numeral) => IsNumeral(numeral)
    case Identifier(name) => IsWord(name) && name !in Keywords
    case _ => true
  }

  /** The line spelled by a sequence of tokens, each lexeme followed by one space. */
  function Unscan(ts: seq<Token>): string {
    if ts == [] then "" else Lexeme(ts[0]) + " " + Unscan(ts[1..])
  }

  /** Every token as a successful scanner entry. */
  function Oks(ts: seq<Token>): (r: seq<Result<Token, string>>)
    ensures |r| == |ts|
  {
    if ts == [] then [] else [Ok(ts[0])] + Oks(ts[1..])
  }

  /** Every reserved word is a name, and keyword lookup maps it back to its token. */
  lemma KeywordSpelling(t: Token)
    requires t.IsKeyword()
    ensures IsWord(Lexeme(t)) && KeywordOrIdentifier(Lexeme(t)) == t
  {
    if KeywordAToF(t) {
      KeywordSpellingAToF(t);
    } else if KeywordFToN(t) {
      KeywordSpellingFToN(t);
    } else if KeywordOToS(t) {
      KeywordSpellingOToS(t);
    } else {
      KeywordSpellingTToW(t);
    }
  }

  lemma KeywordSpellingAToF(t: Token)
    requires KeywordAToF(t)
    ensures IsWord(Lexeme(t)) && KeywordOrIdentifier(Lexeme(t)) == t
  {
  }

  lemma KeywordSpellingFToN(t: Token)
    requires KeywordFToN(t)
    ensures IsWord(Lexeme(t)) && KeywordOrIdentifier(Lexeme(t)) == t
  {
  }

  lemma KeywordSpellingOToS(t: Token)
    requires KeywordOToS(t)
    ensures IsWord(Lexeme(t)) && KeywordOrIdentifier(Lexeme(t)) == t
  {
  }

  lemma KeywordSpellingTToW(t: Token)
    requires KeywordTToW(t)
    ensures IsWord(Lexeme(t)) && KeywordOrIdentifier(Lexeme(t)) == t
  {
  }

  /**
   * A lexeme written at `i` and followed by whitespace is read back by
   * `from_chars` as its token, which consumes exactly the lexeme.
   */
  lemma LexSpelled(s: string, i: nat, t: Token)
    requires WellFormed(t)
    requires i + |Lexeme(t)| < |s| && s[i..i + |Lexeme(t)|] == Lexeme(t)
    requires IsWhitespace(s[i + |Lexeme(t)|])
    ensures Lex(s, i) == Lexed(Ok(t), i + |Lexeme(t)|)
  {
    if t.String? {
      StringSpelled(s, i, t);
    } else if t.Number? {
      NumberSpelled(s, i, t);
    } else if t.Identifier? {
      IdentifierSpelled(s, i, t);
    } else if t.IsKeyword() {
      KeywordSpelled(s, i, t);
    } else if TokenProps.IsPunctuation(t) {
      PunctuationSpelled(s, i, t);
    } else {
      OperatorSpelled(s, i, t);
    }
  }

  lemma StringSpelled(s: string, i: nat, t: Token)
    requires t.String? && '"' !in t.content
    requires i + |Lexeme(t)| < |s| && s[i..i + |Lexeme(t)|] == Lexeme(t)
    ensures Lex(s, i) == Lexed(Ok(t), i + |Lexeme(t)|)
  {
    var content := t.content;
    var close := i + |content| + 1;
    QuotedAt(s, i, content);
    ScannerProps.StringLiteralClosed(s, i, close);
  }

  /** Where the quotes and the content of a quoted text sit in the line. */
  lemma QuotedAt(s: string, i: nat, content: string)
    requires '"' !in content
    requires i + |content| + 2 <= |s| && s[i..i + |content| + 2] == "\"" + content + "\""
    ensures s[i] == '"' && s[i + |content| + 1] == '"'
    ensures forall k :: i < k < i + |content| + 1 ==> s[k] != '"'
    ensures s[i + 1..i + |content| + 1] == content
  {
    var spelled := "\"" + content + "\"";
    assert s[i] == spelled[0];
    assert s[i + |content| + 1] == spelled[|content| + 1];
    forall k | i < k < i + |content| + 1 ensures s[k] != '"' {
      assert s[k] == spelled[k - i] == content[k - i - 1];
    }
    forall k | 0 <= k < |content| ensures s[i + 1..i + |content| + 1][k] == content[k] {
      assert s[i + 1 + k] == spelled[k + 1];
    }
  }

  lemma NumberSpelled(s: string, i: nat, t: Token)
    requires t.Number? && IsNumeral(t.numeral)
    requires i + |Lexeme(t)| < |s| && s[i..i + |Lexeme(t)|] == Lexeme(t)
    requires IsWhitespace(s[i + |Lexeme(t)|])
    ensures Lex(s, i) == Lexed(Ok(t), i + |Lexeme(t)|)
  {
    var numeral := t.numeral;
    ScannerProps.NumeralShape(numeral);
    assert s[i] == numeral[0];
    ScannerProps.NumberLiteral(s, i);
    assert Lex(s, i).next == i + |numeral|;
  }

  lemma IdentifierSpelled(s: string, i: nat, t: Token)
    requires t.Identifier? && IsWord(t.name) && t.name !in Keywords
    requires i + |Lexeme(t)| < |s| && s[i..i + |Lexeme(t)|] == Lexeme(t)
    requires IsWhitespace(s[i + |Lexeme(t)|])
    ensures Lex(s, i) == Lexed(Ok(t), i + |Lexeme(t)|)
  {
    WordSpelled(s, i, t.name);
  }

  lemma KeywordSpelled(s: string, i: nat, t: Token)
    requires t.IsKeyword()
    requires i + |Lexeme(t)| < |s| && s[i..i + |Lexeme(t)|] == Lexeme(t)
    requires IsWhitespace(s[i + |Lexeme(t)|])
    ensures Lex(s, i) == Lexed(Ok(t), i + |Lexeme(t)|)
  {
    KeywordSpelling(t);
    WordSpelled(s, i, Lexeme(t));
  }

  /** A name followed by whitespace is read as one word, looked up among the reserved words. */
  lemma WordSpelled(s: string, i: nat, w: string)
    requires IsWord(w)
    requires i + |w| < |s| && s[i..i + |w|] == w
    requires IsWhitespace(s[i + |w|])
    ensures Lex(s, i) == Lexed(Ok(KeywordOrIdentifier(w)), i + |w|)
  {
    assert s[i] == w[0];
    forall k | i + 1 <= k < i + |w| ensures IsIdentChar(s[k]) {
      assert s[k] == w[k - i];
    }
    RunEndIs(s, i + 1, IsIdentChar, i + |w|);
  }

  lemma PunctuationSpelled(s: string, i: nat, t: Token)
    requires TokenProps.IsPunctuation(t)
    requires i + |Lexeme(t)| < |s| && s[i..i + |Lexeme(t)|] == Lexeme(t)
    ensures Lex(s, i) == Lexed(Ok(t), i + |Lexeme(t)|)
  {
    assert s[i] == s[i..i + 1][0];
  }

  lemma OperatorSpelled(s: string, i: nat, t: Token)
    requires t.Bang? || t.BangEqual? || t.Equal? || t.EqualEqual? || t.Greater? || t.GreaterEqual? || t.Less? || t.LessEqual?
    requires i + |Lexeme(t)| < |s| && s[i..i + |Lexeme(t)|] == Lexeme(t)
    requires IsWhitespace(s[i + |Lexeme(t)|])
    ensures Lex(s, i) == Lexed(Ok(t), i + |Lexeme(t)|)
  {
    var spelled := Lexeme(t);
    assert s[i] == spelled[0];
    if |spelled| == 2 {
      assert s[i + 1] == spelled[1];
    }
  }

  /**
   * A lexeme written at `i` and followed by whitespace contributes exactly
   * its token, and scanning resumes after the whitespace character.
   */
  lemma ScanSpelled(s: string, i: nat, t: Token, line: nat)
    requires WellFormed(t)
    requires i + |Lexeme(t)| < |s| && s[i..i + |Lexeme(t)|] == Lexeme(t)
    requires IsWhitespace(s[i + |Lexeme(t)|])
    ensures ScanFrom(s, i, line) == [Ok(t)] + ScanFrom(s, i + |Lexeme(t)| + 1, line)
  {
    LexSpelled(s, i, t);
    LexedStart(s, i);
    ScanFromToken(s, i, line);
    ScanFromBlank(s, i + |Lexeme(t)|, line);
  }

  /** A token starts at a non-blank character, and a `/` that starts one is the whole token. */
  lemma LexedStart(s: string, i: nat)
    requires i < |s| && Lex(s, i).result.Ok?
    ensures !IsWhitespace(s[i])
    ensures s[i] == '/' ==> Lex(s, i).next == i + 1
  {
  }

  /**
   * One step of the round trip: after a prefix `u`, the lexeme of `t` and a
   * space yield `t`, and scanning resumes where the rest of the line begins.
   */
  lemma UnscanStep(u: string, t: Token, rest: string, line: nat)
    requires WellFormed(t)
    ensures ScanFrom(u + (Lexeme(t) + " " + rest), |u|, line)
      == [Ok(t)] + ScanFrom((u + Lexeme(t) + " ") + rest, |u + Lexeme(t) + " "|, line)
  {
    var spelled := Lexeme(t);
    var s := u + (spelled + " " + rest);
    SpelledAt(u, spelled, rest);
    ScanSpelled(s, |u|, t, line);
  }

  /** Where a lexeme and its separator sit in a line built after a prefix `u`. */
  lemma SpelledAt(u: string, spelled: string, rest: string)
    ensures var s := u + (spelled + " " + rest);
      && s == (u + spelled + " ") + rest
      && |u| + |spelled| < |s|
      && s[|u|..|u| + |spelled|] == spelled
      && s[|u| + |spelled|] == ' '
  {
    var s := u + (spelled + " " + rest);
    assert s[|u|..|u| + |spelled|] == spelled by {
      assert s == u + spelled + " " + rest;
    }
  }

  lemma {:induction false} ScanUnscanFrom(u: string, ts: seq<Token>, line: nat)
    requires forall k :: 0 <= k < |ts| ==> WellFormed(ts[k])
    ensures ScanFrom(u + Unscan(ts), |u|, line) == Oks(ts)
    decreases |ts|
  {
    if ts == [] {
      assert u + Unscan(ts) == u;
    } else {
      var t, rest := ts[0], Unscan(ts[1..]);
      assert Unscan(ts) == Lexeme(t) + " " + rest;
      assert WellFormed(t);
      UnscanStep(u, t, rest, line);
      forall k | 0 <= k < |ts[1..]| ensures WellFormed(ts[1..][k]) {
        assert ts[1..][k] == ts[k + 1];
      }
      ScanUnscanFrom(u + Lexeme(t) + " ", ts[1..], line);
    }
  }

  /**
   * The round trip: writing well-formed tokens out as their lexemes, each
   * followed by a space, and scanning the line gives back every token, in
   * order, with no diagnostic.
   */
  lemma ScanUnscan(ts: seq<Token>, line: nat)
    requires forall k :: 0 <= k < |ts| ==> WellFormed(ts[k])
    ensures Scan(Unscan(ts), line) == Oks(ts)
  {
    ScanUnscanFrom("", ts, line);
    assert "" + Unscan(ts) == Unscan(ts);
  }

  /** Every token `from_chars` yields is well formed, so the round trip covers all of them. */
  lemma LexedWellFormed(s: string, i: nat)
    requires i < |s|
    ensures Lex(s, i).result.Ok? ==> WellFormed(Lex(s, i).result.value)
  {
    var c := s[i];
    if c == '"' {
      var close := RunEnd(s, i + 1, NotQuote);
      if close < |s| {
        ScannerProps.StringLiteralClosed(s, i, close);
      }
    } else if IsDigit(c) {
      ScannerProps.NumberLiteral(s, i);
    } else if IsIdentStart(c) {
      ScannerProps.WordLiteral(s, i);
    }
  }

  /**
   * The line printed for a scanned token shows its name, the very text it
   * was scanned from, and its literal value ("null" for tokens without one).
   */
  lemma ScannedDisplay(s: string, i: nat)
    requires i < |s| && Lex(s, i).result.Ok?
    ensures var t := Lex(s, i).result.value;
      Display(t) == TokenName(t) + " " + s[i..Lex(s, i).next] + " " + LiteralText(t)
  {
    ScannerProps.LexemeIsConsumedText(s, i);
    TokenProps.DisplayFields(Lex(s, i).result.value);
  }
}
