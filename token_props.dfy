/** What the rendering of a token promises: its three fields, keyword names, and numeral formatting. */
module TokenProps {
  import opened Tokens
  import Decimal

  /**
   * Every rendering is the token name, the lexeme and the literal value,
   * separated by single spaces; the literal is "null" for every token
   * without a value.
   */
  lemma DisplayFields(t: Token)
    ensures Display(t) == TokenName(t) + " " + Lexeme(t) + " " + LiteralText(t)
    ensures !(t.String? || t.Number?) ==> LiteralText(t) == "null"
  {
    if KeywordAToF(t) {
      KeywordFieldsAToF(t);
    } else if KeywordFToN(t) {
      KeywordFieldsFToN(t);
    } else if KeywordOToS(t) {
      KeywordFieldsOToS(t);
    } else if KeywordTToW(t) {
      KeywordFieldsTToW(t);
    } else if IsPunctuation(t) {
      PunctuationFields(t);
    } else if t.String? || t.Number? || t.Identifier? {
      TextFields(t);
    } else {
      OperatorFields(t);
    }
  }

  predicate IsPunctuation(t: Token) {
    t.LeftParen? || t.RightParen? || t.LeftBrace? || t.RightBrace? || t.Comma? || t.Dot?
    || t.Minus? || t.Plus? || t.Semicolon? || t.Star? || t.Slash?
  }

  lemma KeywordFieldsAToF(t: Token)
    requires KeywordAToF(t)
    ensures Display(t) == TokenName(t) + " " + Lexeme(t) + " " + LiteralText(t)
  {
  }

  lemma KeywordFieldsFToN(t: Token)
    requires KeywordFToN(t)
    ensures Display(t) == TokenName(t) + " " + Lexeme(t) + " " + LiteralText(t)
  {
  }

  lemma KeywordFieldsOToS(t: Token)
    requires KeywordOToS(t)
    ensures Display(t) == TokenName(t) + " " + Lexeme(t) + " " + LiteralText(t)
  {
  }

  lemma KeywordFieldsTToW(t: Token)
    requires KeywordTToW(t)
    ensures Display(t) == TokenName(t) + " " + Lexeme(t) + " " + LiteralText(t)
  {
  }

  lemma PunctuationFields(t: Token)
    requires IsPunctuation(t)
    ensures Display(t) == TokenName(t) + " " + Lexeme(t) + " " + LiteralText(t)
  {
  }

  /** The three tokens that carry text. */
  lemma TextFields(t: Token)
    requires t.String? || t.Number? || t.Identifier?
    ensures Display(t) == TokenName(t) + " " + Lexeme(t) + " " + LiteralText(t)
  {
  }

  /** The remaining tokens: operators and the end marker. */
  lemma OperatorFields(t: Token)
    requires !t.IsKeyword() && !IsPunctuation(t) && !(t.String? || t.Number? || t.Identifier?)
    ensures Display(t) == TokenName(t) + " " + Lexeme(t) + " " + LiteralText(t)
  {
  }

  /** ASCII upper case of a word. */
  function UpperCase(w: string): (r: string)
    ensures |r| == |w|
  {
    seq(|w|, k requires 0 <= k < |w| => if 'a' <= w[k] <= 'z' then (w[k] as int - 32) as char else w[k])
  }

  /** The name of a keyword token is its spelling in upper case. */
  lemma KeywordName(t: Token)
    requires t.IsKeyword()
    ensures TokenName(t) == UpperCase(Lexeme(t))
  {
    if KeywordAToF(t) {
      KeywordNameAToF(t);
    } else if KeywordFToN(t) {
      KeywordNameFToN(t);
    } else if KeywordOToS(t) {
      KeywordNameOToS(t);
    } else {
      KeywordNameTToW(t);
    }
  }

  lemma KeywordNameAToF(t: Token)
    requires KeywordAToF(t)
    ensures TokenName(t) == UpperCase(Lexeme(t))
  {
  }

  lemma KeywordNameFToN(t: Token)
    requires KeywordFToN(t)
    ensures TokenName(t) == UpperCase(Lexeme(t))
  {
  }

  lemma KeywordNameOToS(t: Token)
    requires KeywordOToS(t)
    ensures TokenName(t) == UpperCase(Lexeme(t))
  {
  }

  lemma KeywordNameTToW(t: Token)
    requires KeywordTToW(t)
    ensures TokenName(t) == UpperCase(Lexeme(t))
  {
  }

  /**
   * A reserved word renders as its upper-cased self followed by itself;
   * any other word renders as an identifier carrying the word.
   */
  lemma KeywordDisplay(w: string)
    ensures w in Keywords ==> Display(KeywordOrIdentifier(w)) == UpperCase(w) + " " + w + " null"
    ensures w !in Keywords ==> Display(KeywordOrIdentifier(w)) == "IDENTIFIER " + w + " null"
  {
    var t := KeywordOrIdentifier(w);
    KeywordLexeme(w);
    if w in Keywords {
      DisplayFields(t);
      KeywordName(t);
    }
  }

  /** The whole part of a numeral text: everything before its first dot. */
  function WholePart(s: string): string {
    if '.' in s then s[..IndexOf(s, '.')] else s
  }

  /** Appending ".0" to a text without a dot never creates ".00". */
  lemma {:induction false} NoDoubleZeroAfterAppend(p: string)
    requires '.' !in p
    ensures !HasSubstring(p + ".0", ".00")
    decreases |p|
  {
    if |p| > 0 {
      assert (p + ".0")[0] == p[0];
      assert (p + ".0")[1..] == p[1..] + ".0";
      NoDoubleZeroAfterAppend(p[1..]);
    }
  }

  /** Formatting a formatted numeral changes nothing. */
  lemma FormatIdempotent(s: string)
    ensures FormatNumber(FormatNumber(s)) == FormatNumber(s)
  {
    if '.' !in s {
      NoDoubleZeroAfterAppend(s);
    } else if HasSubstring(s, ".00") {
      NoDoubleZeroAfterAppend(s[..IndexOf(s, '.')]);
    }
  }

  /** `sub` occurs in `s` starting at position `k`. */
  predicate OccursAt(s: string, sub: string, k: nat) {
    k + |sub| <= |s| && s[k..k + |sub|] == sub
  }

  /** `str::contains` finds `sub` exactly when `sub` occurs at some position of `s`. */
  lemma {:induction false} HasSubstringAt(s: string, sub: string)
    ensures HasSubstring(s, sub) <==> exists k: nat :: OccursAt(s, sub, k)
    decreases |s|
  {
    if |sub| <= |s| {
      if s[..|sub|] == sub {
        assert OccursAt(s, sub, 0);
      } else {
        HasSubstringAt(s[1..], sub);
        if HasSubstring(s[1..], sub) {
          var k: nat :| OccursAt(s[1..], sub, k);
          assert s[k + 1..k + 1 + |sub|] == s[1..][k..k + |sub|];
          assert OccursAt(s, sub, k + 1);
        }
        if exists k: nat :: OccursAt(s, sub, k) {
          var k: nat :| OccursAt(s, sub, k);
          assert s[0..|sub|] == s[..|sub|];
          assert k != 0;
          assert s[1..][k - 1..k - 1 + |sub|] == s[k..k + |sub|];
          assert OccursAt(s[1..], sub, k - 1);
        }
      }
    }
  }

  /** A numeral's first dot, if any, is where its digits end. */
  lemma NumeralDot(s: string, p: nat)
    requires 0 < p < |s| - 1 && s[p] == '.' && Decimal.AllDigits(s[..p]) && Decimal.AllDigits(s[p + 1..])
    ensures '.' in s && IndexOf(s, '.') == p
  {
  }

  /**
   * The rendering of a numeral is a numeral with a fractional part and the
   * same whole part.
   */
  lemma FormatKeepsNumeral(s: string)
    requires IsNumeral(s)
    ensures var r := FormatNumber(s);
      IsNumeral(r) && '.' in r && WholePart(r) == WholePart(s)
  {
    if Decimal.AllDigits(s) {
      FormatKeepsWholeNumeral(s);
    } else {
      var p :| 0 < p < |s| - 1 && s[p] == '.' && Decimal.AllDigits(s[..p]) && Decimal.AllDigits(s[p + 1..]);
      FormatKeepsFractionNumeral(s, p);
    }
  }

  /** A numeral without a dot gets `.0` appended. */
  lemma FormatKeepsWholeNumeral(s: string)
    requires IsNumeral(s) && Decimal.AllDigits(s)
    ensures var r := FormatNumber(s);
      IsNumeral(r) && '.' in r && WholePart(r) == WholePart(s)
  {
    var r := FormatNumber(s);
    assert '.' !in s;
    assert r[..|s|] == s && r[|s| + 1..] == "0";
    NumeralDot(r, |s|);
  }

  /** A numeral with a dot at `p` is kept, or cut back to `.0` after its whole part. */
  lemma FormatKeepsFractionNumeral(s: string, p: nat)
    requires 0 < p < |s| - 1 && s[p] == '.' && Decimal.AllDigits(s[..p]) && Decimal.AllDigits(s[p + 1..])
    ensures var r := FormatNumber(s);
      IsNumeral(r) && '.' in r && WholePart(r) == WholePart(s)
  {
    NumeralDot(s, p);
    if HasSubstring(s, ".00") {
      var r := FormatNumber(s);
      assert r == s[..p] + ".0";
      assert r[..p] == s[..p] && r[p + 1..] == "0";
      NumeralDot(r, p);
    }
  }

  /** The literal values `format_number_string` gives to numerals that are kept or completed. */
  lemma FormatExamples()
    ensures FormatNumber("3") == "3.0"
    ensures FormatNumber("3.0") == "3.0"
    ensures FormatNumber("3.14") == "3.14"
  {
    assert "3.14"[..3][0] != ".00"[0];
    assert "3.14"[1..][..3][1] != ".00"[1];
  }

  /**
   * The ".00" rule looks anywhere in the text, not only at a trailing run
   * of zeros: "1.00" becomes "1.0", but so does "1.005", while "1.500"
   * keeps its trailing zeros.
   */
  lemma FormatDoubleZeroQuirk()
    ensures FormatNumber("1.00") == "1.0"
    ensures FormatNumber("1.005") == "1.0"
    ensures FormatNumber("1.500") == "1.500"
  {
    assert "1.005"[1..][..3] == ".00";
    assert "1.500"[..3][0] != ".00"[0];
    assert "1.500"[1..][..3][1] != ".00"[1];
    assert "1.500"[2..][..3][0] != ".00"[0];
  }
}
