/** What the scanner promises about one line, stated over `Lex` and `ScanFrom`. */
module ScannerProps {
  import opened Wrappers
  import opened Chars
  import opened Tokens
  import opened Scanner
  import Decimal

  // ---------------------------------------------------------------------
  // Whitespace and comments
  // ---------------------------------------------------------------------

  /** A run of whitespace contributes no entry: scanning resumes after it as if it were absent. */
  lemma {:induction false} WhitespaceRunSkipped(s: string, i: nat, j: nat, line: nat)
    requires i <= j <= |s|
    requires forall k :: i <= k < j ==> IsWhitespace(s[k])
    ensures ScanFrom(s, i, line) == ScanFrom(s, j, line)
    decreases j - i
  {
    if i < j {
      WhitespaceRunSkipped(s, i + 1, j, line);
    }
  }

  /** A line of nothing but whitespace yields no entries at all. */
  lemma BlankLineScansEmpty(s: string, line: nat)
    requires forall k :: 0 <= k < |s| ==> IsWhitespace(s[k])
    ensures Scan(s, line) == []
  {
    WhitespaceRunSkipped(s, 0, |s|, line);
  }

  /** `//` ends the scan of the line; a `/` followed by anything else is a `Slash` token. */
  lemma SlashOrComment(s: string, i: nat, line: nat)
    requires i < |s| && s[i] == '/'
    ensures NextIs(s, i + 1, '/') ==> ScanFrom(s, i, line) == []
    ensures !NextIs(s, i + 1, '/') ==> ScanFrom(s, i, line) == [Ok(Slash)] + ScanFrom(s, i + 1, line)
  {
  }

  /** A token that starts before a `/` and contains no quote ends at that `/` at the latest. */
  lemma LexStopsAtSlash(s: string, i: nat, k: nat)
    requires i < k < |s| && s[k] == '/'
    requires forall j :: i <= j < k ==> s[j] != '"'
    ensures Lex(s, i).next <= k
  {
    assert !IsDigit(s[k]) && !IsIdentChar(s[k]);
  }

  /**
   * What `Lex` yields at `i` depends only on the characters up to two past
   * the end of the token: two lines that agree that far lex the same token.
   */
  lemma LexLocal(x: string, y: string, i: nat, m: nat)
    requires i < |x| && i < |y| && m <= |x| && m <= |y|
    requires x[..m] == y[..m]
    requires Lex(x, i).next + 2 <= m
    ensures Lex(y, i) == Lex(x, i)
  {
    assert x[i] == x[..m][i];
    var c := x[i];
    if c == '"' {
      LexStringLocal(x, y, i, m);
    } else if c in "!=><" {
      assert x[i + 1] == x[..m][i + 1];
    } else if IsDigit(c) {
      LexNumberLocal(x, y, i, m);
    } else if IsIdentStart(c) {
      LexWordLocal(x, y, i, m);
    }
  }

  /** A run ending before `m` ends at the same place in a line that agrees up to `m`. */
  lemma RunEndLocal(x: string, y: string, j: nat, inRun: char -> bool, m: nat)
    requires j <= |x| && j <= |y| && m <= |x| && m <= |y|
    requires x[..m] == y[..m]
    requires RunEnd(x, j, inRun) < m
    ensures RunEnd(y, j, inRun) == RunEnd(x, j, inRun)
  {
    var e := RunEnd(x, j, inRun);
    forall k | j <= k <= e ensures y[k] == x[k] {
      assert x[..m][k] == y[..m][k];
    }
    RunEndIs(y, j, inRun, e);
  }

  lemma LexStringLocal(x: string, y: string, i: nat, m: nat)
    requires i < |x| && i < |y| && m <= |x| && m <= |y|
    requires x[..m] == y[..m] && x[i] == '"'
    requires LexString(x, i).next + 2 <= m
    ensures LexString(y, i) == LexString(x, i)
  {
    var close := RunEnd(x, i + 1, NotQuote);
    RunEndLocal(x, y, i + 1, NotQuote, m);
    assert x[i + 1..close] == x[..m][i + 1..close] == y[..m][i + 1..close] == y[i + 1..close];
  }

  lemma NumberEndLocal(x: string, y: string, i: nat, m: nat)
    requires i < |x| && i < |y| && m <= |x| && m <= |y|
    requires x[..m] == y[..m]
    requires NumberEnd(x, i) + 2 <= m
    ensures NumberEnd(y, i) == NumberEnd(x, i)
  {
    var whole := RunEnd(x, i + 1, IsDigit);
    RunEndLocal(x, y, i + 1, IsDigit, m);
    assert x[whole] == x[..m][whole] == y[..m][whole] == y[whole];
    assert x[whole + 1] == x[..m][whole + 1] == y[..m][whole + 1] == y[whole + 1];
    if whole + 1 < |x| && x[whole] == '.' && IsDigit(x[whole + 1]) {
      RunEndLocal(x, y, whole + 1, IsDigit, m);
    }
  }

  lemma LexNumberLocal(x: string, y: string, i: nat, m: nat)
    requires i < |x| && i < |y| && m <= |x| && m <= |y|
    requires x[..m] == y[..m] && IsDigit(x[i])
    requires LexNumber(x, i).next + 2 <= m
    ensures LexNumber(y, i) == LexNumber(x, i)
  {
    var e := NumberEnd(x, i);
    NumberEndLocal(x, y, i, m);
    assert x[i..e] == x[..m][i..e] == y[..m][i..e] == y[i..e];
  }

  lemma LexWordLocal(x: string, y: string, i: nat, m: nat)
    requires i < |x| && i < |y| && m <= |x| && m <= |y|
    requires x[..m] == y[..m] && IsIdentStart(x[i])
    requires LexWord(x, i).next + 2 <= m
    ensures LexWord(y, i) == LexWord(x, i)
  {
    var e := RunEnd(x, i + 1, IsIdentChar);
    RunEndLocal(x, y, i + 1, IsIdentChar, m);
    assert x[i..e] == x[..m][i..e] == y[..m][i..e] == y[i..e];
  }

  lemma {:induction false} CommentDiscardsRestFrom(a: string, t: string, u: string, i: nat, line: nat)
    requires '"' !in a && i <= |a|
    ensures ScanFrom(a + "//" + t, i, line) == ScanFrom(a + "//" + u, i, line)
    decreases |a| - i
  {
    var x, y := a + "//" + t, a + "//" + u;
    var m := |a| + 2;
    assert x[..m] == y[..m] == a + "//";
    assert x[i] == y[i] && x[i + 1] == y[i + 1];
    if i == |a| {
      assert x[i] == '/' && x[i + 1] == '/';
    } else if IsWhitespace(x[i]) {
      CommentDiscardsRestFrom(a, t, u, i + 1, line);
    } else if x[i] == '/' && NextIs(x, i + 1, '/') {
    } else {
      assert forall j :: i <= j < |a| ==> x[j] != '"' by {
        forall j | i <= j < |a| ensures x[j] != '"' {
          assert x[j] == a[j];
        }
      }
      LexStopsAtSlash(x, i, |a|);
      LexLocal(x, y, i, m);
      CommentDiscardsRestFrom(a, t, u, Lex(x, i).next, line);
    }
  }

  /**
   * Nothing after a comment contributes results: when the text before `//`
   * holds no quote (so the `//` is not inside a string literal), the scan of
   * the line does not depend on what follows the `//`.
   */
  lemma CommentDiscardsRest(a: string, t: string, u: string, line: nat)
    requires '"' !in a
    ensures Scan(a + "//" + t, line) == Scan(a + "//" + u, line)
  {
    CommentDiscardsRestFrom(a, t, u, 0, line);
  }

  // ---------------------------------------------------------------------
  // One token at a time
  // ---------------------------------------------------------------------

  /**
   * `!`, `=`, `>` and `<` take a following `=` into one two-character
   * operator and otherwise stand alone; either way the token is the
   * comparison or negation operator spelled by the characters consumed.
   */
  lemma OperatorLookahead(s: string, i: nat, line: nat)
    requires i < |s| && s[i] in "!=><"
    ensures Lex(s, i).next == if NextIs(s, i + 1, '=') then i + 2 else i + 1
    ensures Lex(s, i).result.Ok? && Lexeme(Lex(s, i).result.value) == s[i..Lex(s, i).next]
    ensures Lex(s, i).result.value in {Bang, BangEqual, Equal, EqualEqual, Greater, GreaterEqual, Less, LessEqual}
    ensures ScanFrom(s, i, line) == [Ok(Lex(s, i).result.value)] + ScanFrom(s, Lex(s, i).next, line)
  {
    OperatorLex(s, i);
    ScanFromToken(s, i, line);
  }

  lemma OperatorLex(s: string, i: nat)
    requires i < |s| && s[i] in "!=><"
    ensures Lex(s, i).next == if NextIs(s, i + 1, '=') then i + 2 else i + 1
    ensures Lex(s, i).result.Ok? && Lexeme(Lex(s, i).result.value) == s[i..Lex(s, i).next]
    ensures Lex(s, i).result.value in {Bang, BangEqual, Equal, EqualEqual, Greater, GreaterEqual, Less, LessEqual}
  {
    if NextIs(s, i + 1, '=') {
      CompoundOperatorLex(s, i);
    } else {
      SingleOperatorLex(s, i);
    }
  }

  lemma CompoundOperatorLex(s: string, i: nat)
    requires i + 1 < |s| && s[i] in "!=><" && s[i + 1] == '='
    ensures Lex(s, i).next == i + 2
    ensures Lex(s, i).result.Ok? && Lexeme(Lex(s, i).result.value) == s[i..i + 2]
    ensures Lex(s, i).result.value in {Bang, BangEqual, Equal, EqualEqual, Greater, GreaterEqual, Less, LessEqual}
  {
    assert s[i..i + 2] == [s[i], '='];
  }

  lemma SingleOperatorLex(s: string, i: nat)
    requires i < |s| && s[i] in "!=><" && !NextIs(s, i + 1, '=')
    ensures Lex(s, i).next == i + 1
    ensures Lex(s, i).result.Ok? && Lexeme(Lex(s, i).result.value) == s[i..i + 1]
    ensures Lex(s, i).result.value in {Bang, BangEqual, Equal, EqualEqual, Greater, GreaterEqual, Less, LessEqual}
  {
    assert s[i..i + 1] == [s[i]];
  }

  /**
   * A quote followed, further on the line, by another quote is a string
   * token holding exactly the characters between them, with no escapes;
   * scanning resumes after the closing quote.
   */
  lemma StringLiteralClosed(s: string, i: nat, close: nat)
    requires i < close < |s| && s[i] == '"' && s[close] == '"'
    requires forall k :: i < k < close ==> s[k] != '"'
    ensures Lex(s, i) == Lexed(Ok(String(s[i + 1..close])), close + 1)
    ensures '"' !in s[i + 1..close]
  {
    RunEndIs(s, i + 1, NotQuote, close);
  }

  /**
   * A quote with no other quote after it on the line yields exactly one
   * diagnostic, `[line n] Error: Unterminated string.`, and consumes the
   * rest of the line.
   */
  lemma StringLiteralUnterminated(s: string, i: nat, line: nat)
    requires i < |s| && s[i] == '"'
    requires forall k :: i < k < |s| ==> s[k] != '"'
    ensures Lex(s, i) == Lexed(Err(UnterminatedString), |s|)
    ensures ScanFrom(s, i, line) == [Err("[line " + Decimal.NatToString(line) + "] Error: Unterminated string.")]
  {
    RunEndIs(s, i + 1, NotQuote, |s|);
    assert ScanFrom(s, |s|, line) == [];
  }

  /** Every dot of a numeral is its only dot, and a numeral starts and ends with a digit. */
  lemma NumeralShape(t: string)
    requires IsNumeral(t)
    ensures IsDigit(t[0]) && IsDigit(t[|t| - 1])
    ensures forall p, q :: 0 <= p < |t| && 0 <= q < |t| && t[p] == '.' && t[q] == '.' ==> p == q
  {
    if !Decimal.AllDigits(t) {
      var p :| 0 < p < |t| - 1 && t[p] == '.' && Decimal.AllDigits(t[..p]) && Decimal.AllDigits(t[p + 1..]);
      assert t[0] == t[..p][0];
      assert t[|t| - 1] == t[p + 1..][|t| - p - 2];
    }
  }

  /**
   * A digit starts a number token whose payload is exactly the text
   * consumed, is a numeral, and is the longest numeral that starts there
   * (a dot is taken only when a digit follows it).
   */
  lemma NumberLiteral(s: string, i: nat)
    requires i < |s| && IsDigit(s[i])
    ensures var r := Lex(s, i);
      && r.result == Ok(Number(s[i..r.next]))
      && IsNumeral(s[i..r.next])
      && forall k :: r.next < k <= |s| ==> !IsNumeral(s[i..k])
  {
    assert Lex(s, i) == LexNumber(s, i);
    NumberEndIsNumeral(s, i);
    forall k | NumberEnd(s, i) < k <= |s| ensures !IsNumeral(s[i..k]) {
      NumberEndIsMaximal(s, i, k);
    }
  }

  /** The text up to `NumberEnd` is a numeral. */
  lemma NumberEndIsNumeral(s: string, i: nat)
    requires i < |s| && IsDigit(s[i])
    ensures IsNumeral(s[i..NumberEnd(s, i)])
  {
    var whole := RunEnd(s, i + 1, IsDigit);
    var e := NumberEnd(s, i);
    var n := s[i..e];
    var p := whole - i;
    if e == whole {
      assert Decimal.AllDigits(n) by {
        forall k | 0 <= k < |n| ensures IsDigit(n[k]) {
          assert n[k] == s[i + k];
        }
      }
    } else {
      assert n[p] == '.';
      assert Decimal.AllDigits(n[..p]) by {
        forall k | 0 <= k < p ensures IsDigit(n[..p][k]) {
          assert n[..p][k] == s[i + k];
        }
      }
      var fraction := n[p + 1..];
      assert Decimal.AllDigits(fraction) by {
        forall k | 0 <= k < |fraction| ensures IsDigit(fraction[k]) {
          assert fraction[k] == s[whole + 1 + k];
        }
      }
    }
  }

  /** No longer text starting at `i` is a numeral. */
  lemma NumberEndIsMaximal(s: string, i: nat, k: nat)
    requires i < |s| && IsDigit(s[i]) && NumberEnd(s, i) < k <= |s|
    ensures !IsNumeral(s[i..k])
  {
    var whole := RunEnd(s, i + 1, IsDigit);
    var e := NumberEnd(s, i);
    var t := s[i..k];
    var m := e - i;
    assert t[m] == s[e] && !IsDigit(t[m]);
    forall p | 0 < p < |t| - 1 && t[p] == '.' && Decimal.AllDigits(t[..p])
      ensures !Decimal.AllDigits(t[p + 1..])
    {
      DotEndsWholePart(s, i, k, p);
      if e == whole {
        assert t[p + 1..][0] == s[whole + 1];
      } else {
        assert t[p + 1..][m - p - 1] == t[m];
      }
    }
  }

  /** Every position inside an all-digit text holds a digit. */
  lemma DigitsBefore(u: string, q: nat)
    requires Decimal.AllDigits(u)
    ensures q < |u| ==> IsDigit(u[q])
  {
  }

  /**
   * In the text from `i` to `k`, a dot preceded only by digits sits exactly
   * where the leading digit run of the number ends.
   */
  lemma DotEndsWholePart(s: string, i: nat, k: nat, p: nat)
    requires i < |s| && IsDigit(s[i]) && NumberEnd(s, i) < k <= |s|
    requires 0 < p < k - i && s[i + p] == '.' && Decimal.AllDigits(s[i..k][..p])
    ensures p == RunEnd(s, i + 1, IsDigit) - i
  {
    var whole := RunEnd(s, i + 1, IsDigit);
    var t := s[i..k];
    assert whole < k;
    assert !IsDigit(s[whole]);
    assert !IsDigit(s[i + p]);
    assert t[whole - i] == s[whole];
    DigitsBefore(t[..p], whole - i);
  }

  /**
   * A letter or underscore starts a word: the longest run of letters,
   * digits and underscores. It is a keyword token exactly when the run is
   * one of the reserved words, and otherwise an identifier carrying the run.
   */
  lemma WordLiteral(s: string, i: nat)
    requires i < |s| && IsIdentStart(s[i])
    ensures var r := Lex(s, i);
      && (forall k :: i <= k < r.next ==> IsIdentChar(s[k]))
      && (r.next == |s| || !IsIdentChar(s[r.next]))
      && r.result.Ok?
      && (r.result.value.IsKeyword() <==> s[i..r.next] in Keywords)
      && (r.result.value == Identifier(s[i..r.next]) <==> s[i..r.next] !in Keywords)
  {
  }

  /** The characters that can begin a token, a comment or an error-free lexeme. */
  predicate StartsToken(c: char) {
    c in "(){},.-+;*!=></\"" || IsDigit(c) || IsIdentStart(c)
  }

  /**
   * Any other non-blank character yields one diagnostic naming it and the
   * line, and scanning carries on with the next character.
   */
  lemma UnexpectedCharacterReported(s: string, i: nat, line: nat)
    requires i < |s| && !IsWhitespace(s[i]) && !StartsToken(s[i])
    ensures ScanFrom(s, i, line)
      == [Err("[line " + Decimal.NatToString(line) + "] Error: Unexpected character: " + [s[i]])]
         + ScanFrom(s, i + 1, line)
  {
  }

  /** Every token `from_chars` yields is spelled by exactly the characters it consumed. */
  lemma LexemeIsConsumedText(s: string, i: nat)
    requires i < |s|
    ensures Lex(s, i).result.Ok? ==> Lexeme(Lex(s, i).result.value) == s[i..Lex(s, i).next]
  {
    var c := s[i];
    if c == '"' {
      StringLexeme(s, i);
    } else if c in "!=><" {
      OperatorLookahead(s, i, 0);
    } else if IsDigit(c) {
      NumberLexeme(s, i);
    } else if IsIdentStart(c) {
      WordLexeme(s, i);
    } else {
      SingleLexeme(s, i);
    }
  }

  lemma StringLexeme(s: string, i: nat)
    requires i < |s| && s[i] == '"'
    ensures Lex(s, i).result.Ok? ==> Lexeme(Lex(s, i).result.value) == s[i..Lex(s, i).next]
  {
    var close := RunEnd(s, i + 1, NotQuote);
    if close < |s| {
      assert s[i..close + 1] == "\"" + s[i + 1..close] + "\"";
    }
  }

  lemma NumberLexeme(s: string, i: nat)
    requires i < |s| && IsDigit(s[i])
    ensures Lex(s, i).result.Ok? ==> Lexeme(Lex(s, i).result.value) == s[i..Lex(s, i).next]
  {
    assert Lex(s, i) == LexNumber(s, i);
  }

  lemma WordLexeme(s: string, i: nat)
    requires i < |s| && IsIdentStart(s[i])
    ensures Lex(s, i).result.Ok? ==> Lexeme(Lex(s, i).result.value) == s[i..Lex(s, i).next]
  {
    assert Lex(s, i) == LexWord(s, i);
    KeywordLexeme(s[i..RunEnd(s, i + 1, IsIdentChar)]);
  }

  /** The one-character tokens, and the characters that start no token. */
  lemma SingleLexeme(s: string, i: nat)
    requires i < |s| && s[i] !in "\"!=><" && !IsDigit(s[i]) && !IsIdentStart(s[i])
    ensures Lex(s, i).result.Ok? ==> Lexeme(Lex(s, i).result.value) == s[i..Lex(s, i).next]
  {
    assert s[i..i + 1] == [s[i]];
  }
}
