# Line scanner of a Lox interpreter, modelled in Dafny

This project models the scanner of a small Lox interpreter written in Rust (`src/scanner.rs`). The scanner turns one line of source text into an ordered list of entries. Each entry is a token or a diagnostic string.

- `tokenize` walks the line with a cursor.
  - It skips the whitespace characters space, newline, carriage return and tab.
  - It stops at `//`.
  - For every other character it calls `Token::from_chars`. That call consumes the token starting at that character and yields either the token or an error.
- An error becomes a diagnostic that carries the line number. Scanning then goes on with the rest of the line.
- `format_number_string` and `impl Display for Token` produce the line printed for each token.

The model is layered as the source is:

- `Chars` holds `skip_char` as `IsWhitespace` and the character classes.
  - `RunEnd` is the end of a maximal run of characters of one class. It is the single notion behind every "consume while" loop of the scanner.
- `Decimal` holds the decimal text of the line number used in diagnostics.
- `Tokens` holds the `Token` datatype, the keyword lookup, `format_number_string` as `FormatNumber`, and `Display`. Each token's lexeme and name are given by the tables `Lexeme` and `TokenName`.
- `Scanner` states what the scanner does in two layers:
  - functions `Lex` (one call of `from_chars`) and `ScanFrom`/`Scan` (all of `tokenize`);
  - the imperative methods that do the same work step by step. These are `FromChars` with its branches `ReadString`, `ReadNumber`/`ReadFraction` and `ReadWord`, and `Tokenize`. Each method is proved equal to its function.
- `ScannerProps` proves the scanner's promises about comments, whitespace, operators, strings, numbers, words and errors.
- `TokenProps` proves the promises of the rendering.
- `RoundTrip` proves the two directions that connect tokens and text:
  - scanning the text of well-formed tokens, each followed by a space, gives back exactly those tokens;
  - every token the scanner yields is well formed.

The cursor of the source, a `Peekable<Chars>`, becomes an index into the line. "The cursor has advanced to `next`" is the `next` field of a `Lexed` value, or the `next` out-parameter of a method. The lookahead `chars.clone().nth(1)` becomes `s[next + 1]`.

The labelled `'rest` loop of the number branch is kept as a labelled `while` loop that ends with `break rest`. Its only change is that it sits in its own method, `ReadFraction`.

The keyword match in `from_chars` lists 16 reserved words (`src/scanner.rs:135-150`), and the model has all 16.

## Model

| member | source | states |
|---|---|---|
| Chars.IsWhitespace | src/scanner.rs:231-233 | `skip_char`: exactly space, newline, carriage return and tab are skipped between tokens. |
| Chars.IsDigit | src/scanner.rs:103 | `is_ascii_digit`: exactly the characters `0` to `9` start a number and continue its digit runs. |
| Chars.IsIdentStart | src/scanner.rs:129 | A word starts with a letter or `_` (ASCII letters only, see "Left out"). |
| Chars.IsIdentChar | src/scanner.rs:131 | A word continues with letters, digits and `_` (ASCII only, see "Left out"). |
| Chars.RunEnd | src/scanner.rs:106-108 | The end `e` of the run that starts at `j`: every character in `[j, e)` is in the class, and `e` is the end of the line or a character outside the class (maximal munch of `next_if`). |
| Chars.RunEndIs | src/scanner.rs:106-108 | A position with those two properties is the run end, so the run end is unique. |
| Decimal.NatToString | src/scanner.rs:248-253 | The line number is printed as a non-empty string of decimal digits with no leading zero, and the decimal value of that string is the number. |
| Tokens.KeywordOrIdentifier | src/scanner.rs:134-152 | A word gives a keyword token exactly when it is one of the 16 reserved words (case-sensitive). Otherwise it gives `Identifier` of that very word. |
| Tokens.KeywordLexeme | src/scanner.rs:134-152 | Keyword lookup keeps the text: the token found for a word is spelled by that word. |
| Tokens.Lexeme | src/scanner.rs:178-225 | The second field of each printed line: the fixed spelling of an operator, punctuation mark or keyword, the numeral or name itself, a string's content between quotes, and nothing for the end marker. |
| Tokens.TokenName | src/scanner.rs:178-225 | The first field of each printed line: the upper-case token name. |
| Tokens.LiteralText | src/scanner.rs:198-205 | The third field of each printed line: a string's content, a number's `format_number_string` value, and `null` for every other token. |
| Tokens.Display | src/scanner.rs:174-228 | The line printed for a token, one case per variant, with the exact texts of the source. `TokenProps.DisplayFields` proves that every case is name, lexeme and literal separated by single spaces. |
| Tokens.HasSubstring | src/scanner.rs:163 | `contains(".00")`. `TokenProps.HasSubstringAt` proves it holds exactly when the text occurs at some position. |
| Tokens.IndexOf | src/scanner.rs:164 | `find('.')`: the result is a position of the character with no earlier occurrence. |
| Tokens.FormatNumber | src/scanner.rs:159-172 | The literal value printed for a number always contains a dot. |
| Scanner.NumberEnd | src/scanner.rs:103-126 | The number that starts at a digit covers that digit and stays within the line. |
| Scanner.Lex | src/scanner.rs:54-157 | Every call of `from_chars` consumes the current character and possibly more, but never goes past the end of the line. |
| Scanner.LexString | src/scanner.rs:90-101 | The string branch consumes at least the opening quote and stays within the line. |
| Scanner.LexNumber | src/scanner.rs:103-128 | The number branch consumes at least the first digit and stays within the line. |
| Scanner.LexWord | src/scanner.rs:129-154 | The identifier branch consumes at least the first character and stays within the line. |
| Scanner.FromChars | src/scanner.rs:54-157 | The loop version of `from_chars` yields the same token or error, and the same cursor position, as `Lex`. |
| Scanner.ReadString | src/scanner.rs:90-101 | Accumulating characters up to the closing quote yields what `LexString` yields. |
| Scanner.ReadNumber | src/scanner.rs:103-109 | The digit loop followed by the `'rest` loop yields what `LexNumber` yields. |
| Scanner.ReadFraction | src/scanner.rs:110-127 | The `'rest` loop takes a dot only when a digit follows it, then a maximal digit run, and yields what `LexNumber` yields. |
| Scanner.ReadWord | src/scanner.rs:129-154 | The identifier loop and keyword lookup yield what `LexWord` yields. |
| Scanner.UnexpectedMessage | src/scanner.rs:248-251 | The diagnostic `[line n] Error: Unexpected character: c` for the character that starts no token. |
| Scanner.UnterminatedMessage | src/scanner.rs:252-254 | The diagnostic `[line n] Error: Unterminated string.` |
| Scanner.Report | src/scanner.rs:246-255 | The entry pushed for one `from_chars` result: a token is kept, and each of the two errors becomes its diagnostic with the line number. |
| Scanner.ScanFrom | src/scanner.rs:235-258 | The entries for the rest of the line from `i` number at most the characters left, because each character yields at most one entry. |
| Scanner.Scan | src/scanner.rs:235-258 | The entries `tokenize` returns for a line: the scan from the first character. `Scanner.Tokenize` is proved to return it. |
| Scanner.Tokenize | src/scanner.rs:235-258 | The loop that pushes entries returns exactly `Scan(s, line)`. |
| Scanner.ScanFromBlank | src/scanner.rs:239-241 | A whitespace character contributes no entry. |
| Scanner.ScanFromToken | src/scanner.rs:245-255 | At a character that is neither whitespace nor the start of `//`, the scan yields one entry for the `from_chars` result and then resumes where `from_chars` left the cursor. |
| ScannerProps.WhitespaceRunSkipped | src/scanner.rs:231-241 | Any run of whitespace can be removed from the front of the rest of the line without changing the entries. |
| ScannerProps.BlankLineScansEmpty | src/scanner.rs:231-241 | A line of only whitespace yields no entries. |
| ScannerProps.SlashOrComment | src/scanner.rs:242-244 | `//` ends the scan with no further entries. A `/` followed by anything else yields `Slash` and consumes only itself. |
| ScannerProps.LexStopsAtSlash | src/scanner.rs:54-157 | A token that starts before a `/` and meets no quote on the way ends at that `/` at the latest. |
| ScannerProps.LexLocal | src/scanner.rs:54-157 | `from_chars` looks at most two characters past the end of its token: two lines that agree that far yield the same result. |
| ScannerProps.CommentDiscardsRest | src/scanner.rs:242-244 | If no quote comes before `//`, the entries of the line do not depend on what follows `//`. |
| ScannerProps.OperatorLookahead | src/scanner.rs:69-88 | `!`, `=`, `>` and `<` take a following `=` into one compound token, consuming two characters, and otherwise consume one. The token is one of `Bang`, `BangEqual`, `Equal`, `EqualEqual`, `Greater`, `GreaterEqual`, `Less` and `LessEqual`, spelled by the consumed text, and it is the one entry pushed before scanning resumes. |
| ScannerProps.StringLiteralClosed | src/scanner.rs:90-101 | A quote with a later quote yields `String` of exactly the characters between them, with no escapes. The string holds no quote, and scanning resumes after the closing quote. |
| ScannerProps.StringLiteralUnterminated | src/scanner.rs:90-101 | A quote with no later quote consumes the rest of the line and yields exactly one entry, `[line n] Error: Unterminated string.` |
| ScannerProps.NumeralShape | src/scanner.rs:103-128 | A numeral starts and ends with a digit and has at most one dot. |
| ScannerProps.NumberLiteral | src/scanner.rs:103-128 | A digit starts a `Number` whose payload is exactly the consumed text. That payload is a numeral, and no longer text starting at the same place is a numeral. |
| ScannerProps.NumberEndIsNumeral | src/scanner.rs:103-128 | The text that the number branch consumes is a numeral. |
| ScannerProps.NumberEndIsMaximal | src/scanner.rs:110-125 | Every text longer than that consumed text is not a numeral: a dot is taken only when a digit follows it. |
| ScannerProps.WordLiteral | src/scanner.rs:129-154 | A letter or `_` starts a maximal run of letters, digits and `_`. The run gives a keyword exactly when it is a reserved word, and `Identifier` of the run exactly when it is not. |
| ScannerProps.UnexpectedCharacterReported | src/scanner.rs:245-251 | Any other non-blank character yields one entry, `[line n] Error: Unexpected character: c`. Scanning goes on at the next character. |
| ScannerProps.LexemeIsConsumedText | src/scanner.rs:54-157 | Every token that `from_chars` yields is spelled by exactly the characters it consumed. |
| TokenProps.DisplayFields | src/scanner.rs:174-228 | Every rendered line is the token name, the lexeme and the literal value, separated by single spaces. The literal is `null` for every token without a value, and the end marker renders as `EOF  null`. |
| TokenProps.KeywordName | src/scanner.rs:210-225 | The name printed for a keyword is the keyword in upper case. |
| TokenProps.KeywordDisplay | src/scanner.rs:206-225 | A reserved word renders as `WORD word null`, and any other word renders as `IDENTIFIER word null`. |
| TokenProps.NoDoubleZeroAfterAppend | src/scanner.rs:161-163 | Appending `.0` to a text without a dot never creates `.00`. |
| TokenProps.FormatIdempotent | src/scanner.rs:159-172 | Formatting an already formatted number changes nothing. |
| TokenProps.HasSubstringAt | src/scanner.rs:163 | `contains(sub)` holds exactly when `sub` occurs at some position, in both directions. |
| TokenProps.NumeralDot | src/scanner.rs:164 | In a numeral with a fractional part, `find('.')` finds the dot that ends the whole part. |
| TokenProps.FormatKeepsNumeral | src/scanner.rs:159-172 | The literal value of a numeral is a numeral with a dot and the same whole part. |
| TokenProps.FormatExamples | src/scanner.rs:159-172 | `3` becomes `3.0`, while `3.0` and `3.14` stay as they are. |
| TokenProps.FormatDoubleZeroQuirk | src/scanner.rs:163-169 | `.00` anywhere cuts the value back to its whole part, so `1.00` and also `1.005` become `1.0`. `1.500` keeps its trailing zeros. |
| RoundTrip.KeywordSpelling | src/scanner.rs:134-152 | Every reserved word is a valid identifier text, and keyword lookup maps it back to its own token. |
| RoundTrip.LexSpelled | src/scanner.rs:54-157 | The lexeme of a well-formed token, followed by whitespace, is read back by `from_chars` as that token, consuming exactly the lexeme. |
| RoundTrip.ScanSpelled | src/scanner.rs:235-258 | Such a lexeme contributes exactly its token, and scanning resumes after the whitespace. |
| RoundTrip.ScanUnscan | src/scanner.rs:235-258 | Scanning the lexemes of well-formed tokens, each followed by a space, gives back every token in order, with no diagnostic. |
| RoundTrip.LexedWellFormed | src/scanner.rs:54-157 | Every token that `from_chars` yields is well formed: never `Eof`, no quote inside a string, numerals for numbers, and non-reserved names for identifiers. |
| RoundTrip.ScannedDisplay | src/scanner.rs:174-228 | The line printed for a scanned token shows its name, the exact text it was scanned from, and its literal value. |

## Left out

- `src/main.rs` is not part of this model. It handles the command line, reads the file and splits it into lines. In `tokenize` mode it prints each entry (tokens to standard output, diagnostics to standard error), then prints the final `EOF  null` line. It exits with code 65 if any diagnostic was printed, and with 0 otherwise. All of that is I/O around `tokenize`.
- The `parse` mode of `src/main.rs` hands the entries to `parser::primary`, which `src/parser.rs` does not define, so there is no parsing behaviour to model.
- `src/parser.rs` is not part of this model. It declares types only and defines no behaviour.
- Chars.IsIdentStart: `char::is_alphabetic` also accepts non-ASCII letters, but the model accepts only `A`-`Z`, `a`-`z` and `_`, because the Unicode tables are not available to the verifier. A line that starts a word with a non-ASCII letter is an identifier in the program but an unexpected character here.
- Chars.IsIdentChar: `char::is_alphanumeric` also accepts non-ASCII letters and digits, but the model accepts only ASCII letters, ASCII digits and `_`, for the same reason.
- The `Formatter` and `write!` machinery of `Display` is replaced by a function that returns the printed text.
- `Peekable`, `next_if` and `clone().nth(1)` are replaced by index arithmetic on the line.
- The line number is a `usize` in the source and a `nat` here. No line of a real file comes near the 64-bit limit.
