# Lexer: a verified model of the scanner

This project models the scanner of a small compiler front end, the class
`lexer.Lexer`. It turns a stream of characters into a stream of tokens. Each
token carries its spelling, its kind, its first and last column and its line.

The scanner is built as follows:

- `nextToken()` skips whitespace and dispatches on the first character of the
  token. The branches are identifiers and reserved words, numerals (integer,
  float, scientific), floats with a leading dot, character literals, string
  literals, and one- or two-character operators and separators.
- A diagnostic ends the stream: the scanner sets `atEOF` and asks itself for
  the next token, which is `null`. The first `null` closes the character
  source, exactly once.
- `makeToken(s)` skips a `//` comment to the next line. It looks every other
  spelling up in the token table and reports a spelling the table does not
  declare as an illegal character.

The model has two layers:

- `ScanSpec` (scan_spec.dfy) states the scanner as pure functions over a
  `LexState`. The state holds the fields of the Java object, plus the number
  of characters read, whether the source is still open, how often it was
  closed, and the diagnostics printed so far. Each do-while loop of the
  source is a recursive `...Run` function, one call per pass.
- `Lexing.Lexer` (lexer.dfy) is the class itself. It has the same fields and
  methods, with `while` loops where the source loops. Every method ensures
  that its result and its new state are those of the corresponding `ScanSpec`
  function, applied to the old state.

The property modules prove what the scanner does, branch by branch and across
calls: WhitespaceProps, IdentifierProps, NumeralProps, DotProps, LiteralProps,
OperatorProps and SessionProps. `Quirks` works out whole calls on short inputs
that show the behaviour as written.

The character source is the input string together with a count of the
characters read. The column and line the source reports for the character it
returned last are derived from the input (`SourceText.ColumnAt`,
`SourceText.LineAt`). A read past the end of the input is the exception that
the loops catch.

The code is modelled as written, including behaviour that its comments do
not intend. Where they differ, the model follows the code:

- A numeral ending in `.` at the very end of the input (`1.`) is an INTeger
  token spelled `1.`, not a Float. The read that fails comes before `fl` is
  set.
- A string literal keeps only its first character. The closing quote stays
  current, so it opens a second string literal. That literal is empty only
  when the closing quote is the last character or another `"` follows it.
  Otherwise it keeps the next character and skips on to the next `"` or
  blank. So `"a" x` gives the String `a`, then the String made of the blank,
  and `x` is skipped. On `"a" + "b"` the second literal keeps the blank,
  skips `+` and meets the next blank: it reports "Missing double quote" and
  the stream ends.
- The character- and string-literal scans report a missing quote only on a
  blank. A tab inside a literal is taken like any other character.
- An exponent marker is spelled as the first digit of the numeral (`1e5` is
  spelled `115`). Signs are part of a numeral (`1+2` is one INTeger).
- The `Digit error` guard `ch != 'e' || ch != 'E'` always holds. A marker
  that no sign or digit follows always ends the stream.

## Model

| member | source | states |
|---|---|---|
| Tokens.Probe | src/lexer/Lexer.java:130-131 | The lookup without insertion finds a symbol exactly when the spelling is in the table, with the table's kind. |
| Tokens.Intern | src/lexer/Lexer.java:69 | Interning keeps the spelling; a declared spelling keeps its declared kind, any other gets the proposed kind. |
| Tokens.NewIdToken | src/lexer/Lexer.java:68-70 | The token carries the given positions and spelling; a reserved word gets its declared kind, anything else is an Identifier. |
| Tokens.NewNumberToken | src/lexer/Lexer.java:84-87 | The token carries the given positions and spelling, with the declared kind when the spelling is declared and kind INTeger otherwise. |
| Tokens.NewFloatToken | src/lexer/Lexer.java:89-92 | The token carries the given positions and spelling, with the declared kind when the spelling is declared and kind Float otherwise. |
| Tokens.NewSciNumToken | src/lexer/Lexer.java:94-97 | The token carries the given positions and spelling, with the declared kind when the spelling is declared and kind ScientificN otherwise. |
| Tokens.NewCharToken | src/lexer/Lexer.java:99-102 | The token carries the given positions and spelling, with the declared kind when the spelling is declared and kind Char otherwise. |
| Tokens.NewStrToken | src/lexer/Lexer.java:104-107 | The token carries the given positions and spelling, with the declared kind when the spelling is declared and kind String otherwise. |
| SourceText.LineAt | src/lexer/Lexer.java:161 | The line of a character is at least 1 and at most one more than its index. |
| SourceText.ColumnAt | src/lexer/Lexer.java:159 | The column of a character is at least 1 and at most one more than its index. |
| SourceText.SameLine | src/lexer/Lexer.java:159-161 | Along a stretch without line feeds, the line stays the same and the column grows by one per character. |
| SourceText.LineChangesAtLineFeed | src/lexer/Lexer.java:121-124 | Two positions are on the same line if and only if no line feed lies between them. |
| SourceText.LineMonotone | src/lexer/Lexer.java:121-124 | Line numbers never decrease along the input. |
| Runs.RunEnd | src/lexer/Lexer.java:152-154 | The end of a run: every character before it belongs to the run, and the character at it, if any, does not. |
| ScanSpec.Initial | src/lexer/Lexer.java:24-28 | After construction, the first character has been read and is current, the source is open and the stream has not ended. |
| ScanSpec.Close | src/lexer/Lexer.java:145-148 | Closing leaves the source closed; it counts one close only when the source was still open, and changes nothing else. |
| ScanSpec.Start | src/lexer/Lexer.java:159-161 | After the whitespace loop, startPosition and lineNum are those of the current character (at least 1, at most its index plus one) and endPosition is one column before startPosition; the invariant is kept and nothing else changes. |
| ScanSpec.SkipSpace | src/lexer/Lexer.java:152-158 | The whitespace loop stops at a character that is not whitespace, with only whitespace before it; it runs out only if everything left is whitespace. |
| ScanSpec.IdentifierRun | src/lexer/Lexer.java:167-174 | The identifier loop only moves the cursor forward; at the end of the input it has read everything. |
| ScanSpec.IdentifierScan | src/lexer/Lexer.java:163-176 | The identifier branch always returns a token and keeps the between-calls invariant. |
| ScanSpec.Exponent | src/lexer/Lexer.java:193-205 | The exponent check only moves the cursor forward; at the end of the input it has read everything. |
| ScanSpec.NumeralStep | src/lexer/Lexer.java:183-205 | A pass that leads to another pass strictly advances the cursor. |
| ScanSpec.LoopTest | src/lexer/Lexer.java:205 | The numeral loop goes on exactly when the current character is a sign or a digit, and otherwise stops without reaching the end of the input, leaving the loop state unchanged. |
| ScanSpec.NumeralRun | src/lexer/Lexer.java:183-208 | The numeral loop always ends, by stopping or by a bad exponent, with the cursor moved forward. |
| ScanSpec.NumberScan | src/lexer/Lexer.java:177-218 | The numeral branch keeps the invariant; it returns no token only after ending the stream. |
| ScanSpec.DotRun | src/lexer/Lexer.java:222-237 | The leading-dot loop only moves the cursor forward; at the end of the input it has read everything. |
| ScanSpec.DotScan | src/lexer/Lexer.java:219-239 | The leading-dot branch keeps the invariant; it returns no token only after ending the stream. |
| ScanSpec.CharRun | src/lexer/Lexer.java:243-262 | The character-literal loop only moves the cursor forward; at the end of the input it has read everything. |
| ScanSpec.CharScan | src/lexer/Lexer.java:240-265 | The character-literal branch keeps the invariant; it returns no token only after ending the stream. |
| ScanSpec.StringRun | src/lexer/Lexer.java:269-284 | The string-literal loop only moves the cursor forward; at the end of the input it has read everything. |
| ScanSpec.StringScan | src/lexer/Lexer.java:266-286 | The string-literal branch keeps the invariant; it returns no token only after ending the stream. |
| ScanSpec.OperatorScan | src/lexer/Lexer.java:291-312 | The operator part keeps the invariant and prints no diagnostic. |
| ScanSpec.CommentSkip | src/lexer/Lexer.java:120-127 | Skipping a comment moves strictly forward to a character that was read, or runs out at the end of the input. |
| ScanSpec.NextToken | src/lexer/Lexer.java:143-162 | nextToken keeps the invariant between calls, never moves the cursor back, and returns null only with the stream ended and the source closed. |
| ScanSpec.Dispatch | src/lexer/Lexer.java:163-314 | The dispatch keeps the invariant; it returns null only with the stream ended and the source closed. |
| ScanSpec.MakeToken | src/lexer/Lexer.java:118-137 | makeToken keeps the invariant; it returns null only with the stream ended and the source closed. |
| Lexing.Lexer.constructor | src/lexer/Lexer.java:24-28 | The new lexer is valid, holds the given source and table, and is in the initial state. |
| Lexing.Open | src/lexer/Lexer.java:24-28 | Construction fails exactly on an empty source, where the first read throws; otherwise the lexer is fresh, valid and open. |
| Lexing.Lexer.Read | src/lexer/Lexer.java:153 | A read succeeds exactly when characters remain; it then advances by one and makes the next character current, and otherwise changes nothing. |
| Lexing.Lexer.NextToken | src/lexer/Lexer.java:143-162 | The method returns the token and leaves the state that ScanSpec.NextToken gives for the old state. |
| Lexing.Lexer.Dispatch | src/lexer/Lexer.java:163-314 | The method's token and new state are those of ScanSpec.Dispatch. |
| Lexing.Lexer.ScanIdentifier | src/lexer/Lexer.java:163-176 | The method's token and new state are those of ScanSpec.IdentifierScan. |
| Lexing.Lexer.ScanNumber | src/lexer/Lexer.java:177-218 | The method's token and new state are those of ScanSpec.NumberScan. |
| Lexing.Lexer.NumeralLoop | src/lexer/Lexer.java:183-208 | The loop's buffer, flags and cursor are those of ScanSpec.NumeralRun. |
| Lexing.Lexer.NumeralPass | src/lexer/Lexer.java:184-204 | One pass matches ScanSpec.NumeralStep, including the diagnostic of a bad exponent. |
| Lexing.Lexer.ExponentCheck | src/lexer/Lexer.java:193-204 | The exponent check matches ScanSpec.Exponent, including the diagnostic of a bad exponent. |
| Lexing.Lexer.ScanDotFloat | src/lexer/Lexer.java:219-239 | The method's token and new state are those of ScanSpec.DotScan. |
| Lexing.Lexer.ScanChar | src/lexer/Lexer.java:240-265 | The method's token and new state are those of ScanSpec.CharScan. |
| Lexing.Lexer.ScanString | src/lexer/Lexer.java:266-286 | The method's token and new state are those of ScanSpec.StringScan. |
| Lexing.Lexer.ScanOperator | src/lexer/Lexer.java:291-312 | The method's spelling and new state are those of ScanSpec.OperatorScan. |
| Lexing.Lexer.MakeToken | src/lexer/Lexer.java:118-137 | The method's token and new state are those of ScanSpec.MakeToken. |
| WhitespaceProps.SkipSpaceEnds | src/lexer/Lexer.java:152-158 | The whitespace loop stops at the first character after the whitespace run, or runs out exactly when the run reaches the end of the input. |
| WhitespaceProps.NextTokenSkipsWhitespace | src/lexer/Lexer.java:151-162 | nextToken dispatches on the first character after the whitespace, at that character's column and line, with endPosition one column before it; whitespace up to the end yields null, closes the source once and prints nothing. |
| IdentifierProps.IdentifierRunEnds | src/lexer/Lexer.java:167-174 | The identifier loop takes the current character and the whole run of identifier parts after it, and stops on the first character that is not one. |
| IdentifierProps.IdentifierToken | src/lexer/Lexer.java:163-176 | An identifier token is spelled by the maximal run from its first character, interned as Identifier unless reserved; it spans exactly that many columns from startPosition; the first character after the run is current. |
| NumeralProps.TakenEnds | src/lexer/Lexer.java:205 | A character that is neither a sign, a digit, a marker nor a first '.' ends the numeral. |
| NumeralProps.MarkerAtEnd | src/lexer/Lexer.java:193-195 | A marker at the end of the input counts as a column but is not spelled. |
| NumeralProps.MarkerAccepted | src/lexer/Lexer.java:193-198 | A marker followed by a sign or digit is spelled as the first digit and sets the scientific flag. |
| NumeralProps.ExponentKeeps | src/lexer/Lexer.java:193-205 | The exponent check and the loop test keep the description of what the numeral consumed. |
| NumeralProps.StepAtEnd | src/lexer/Lexer.java:184-186 | A pass at the end of the input takes the current character and stops. |
| NumeralProps.StepDot | src/lexer/Lexer.java:184-192 | A pass that meets the first '.' spells it and sets the float flag. |
| NumeralProps.StepPlain | src/lexer/Lexer.java:184-205 | A pass that meets no first '.' keeps the description of what the numeral consumed. |
| NumeralProps.NumeralStepKeeps | src/lexer/Lexer.java:183-205 | Every pass keeps that description, or ends the numeral as described, or meets a bad exponent. |
| NumeralProps.NumeralRunEnds | src/lexer/Lexer.java:183-208 | The whole loop ends with its spelling, columns, '.' count and scientific flag determined by the input it consumed. |
| NumeralProps.NumeralFromStart | src/lexer/Lexer.java:179-208 | That holds from the numeral's first digit onwards. |
| NumeralProps.NumberError | src/lexer/Lexer.java:193-203 | The numeral branch gives no token only on a marker followed by neither a sign nor a digit; it then prints one "Digit error" with the token's line and ends the stream. |
| NumeralProps.NumberToken | src/lexer/Lexer.java:177-218 | A numeral token is spelled by the consumed characters with markers replaced by the first digit; its columns run from startPosition over everything consumed; it holds at most one '.'; the character left current cannot continue it; it is Float exactly when a '.' was taken before the input ended, ScientificN exactly when it is not Float and holds a marker, and INTeger otherwise. |
| NumeralProps.SpellingOfMeans | src/lexer/Lexer.java:185-197 | The spelling holds each consumed character in order, with a marker replaced by the first digit. |
| NumeralProps.DotsInSpelling | src/lexer/Lexer.java:187-192 | The spelling contains a '.' exactly when the consumed characters do. |
| NumeralProps.NumericMeans | src/lexer/Lexer.java:183-205 | The consumed characters are signs, digits, '.' and markers, and every marker is followed by a sign or a digit. |
| NumeralProps.MarkerInMeans | src/lexer/Lexer.java:193-198 | The scientific flag is set exactly when a marker was consumed. |
| DotProps.DotRunDigits | src/lexer/Lexer.java:223-234 | After the first pass, the leading-dot loop takes the run of digits and stops on the first character that is not one. |
| DotProps.DotError | src/lexer/Lexer.java:227-230 | A '.' followed by a marker, a '.' or a blank gives no token, prints one "Float error" with the token's line and ends the stream. |
| DotProps.DotRunFirst | src/lexer/Lexer.java:223-234 | Otherwise the loop spells the '.' and the run of digits after it. |
| DotProps.DotToken | src/lexer/Lexer.java:219-239 | Otherwise the token is the Float spelled by the '.' and the digits after it, spans those columns, and leaves the first character after them current. |
| LiteralProps.EmptyCharLiteral | src/lexer/Lexer.java:240-264 | Two single quotes, or a quote at the end of the input, give the empty Char token; the current character becomes a blank. |
| LiteralProps.CharLiteral | src/lexer/Lexer.java:240-264 | A quote and one character give the Char token of that character when a quote or the end of the input follows; a blank after it gives "Missing single quote" and any other character "Multiple char", each ending the stream. |
| LiteralProps.StringRunBody | src/lexer/Lexer.java:270-281 | After the first character, the string loop skips up to the first double quote or blank; a blank reports "Missing double quote". |
| LiteralProps.EmptyStringLiteral | src/lexer/Lexer.java:266-285 | Two double quotes, or a quote at the end of the input, give the empty String token, with the second quote left current. |
| LiteralProps.StringLiteral | src/lexer/Lexer.java:266-285 | A string literal gives the String token of its first character only, spanning one column, with the closing quote left current; a blank before the closing quote gives "Missing double quote" and ends the stream. |
| OperatorProps.OperatorSpelling | src/lexer/Lexer.java:291-312 | The operator spelling is two characters exactly when the pair is declared in the table; otherwise it is one character and the lookahead stays current; at the end of the input it is one character and the stream ends. |
| OperatorProps.CommentSkipEnds | src/lexer/Lexer.java:120-127 | Skipping a comment reads up to the next line feed and stops on the character after it, or runs out at the end of the input. |
| OperatorProps.CommentSkipsLine | src/lexer/Lexer.java:119-129 | A comment gives the next token from the first character of the next line, at column 1 of a line one higher; without a next line it gives null and closes the source. |
| OperatorProps.CommentToNextLine | src/lexer/Lexer.java:119-128 | With a line after the comment, makeToken gives the next token from the first character of that line, which is at column 1 of a line one higher. |
| OperatorProps.CommentAtEnd | src/lexer/Lexer.java:119-128 | With no line after the comment, makeToken gives null, ends the stream and closes the source, with no diagnostic. |
| OperatorProps.DeclaredToken | src/lexer/Lexer.java:130-136 | A declared spelling gives its token with the declared kind and the current positions, and nothing else changes. |
| OperatorProps.IllegalSpelling | src/lexer/Lexer.java:130-135 | An undeclared spelling prints "illegal character" with that spelling, gives null, ends the stream and closes the source once. |
| SessionProps.Drain | src/lexer/Lexer.java:38-40 | Calling nextToken k times gives k results, keeps the invariant, and the first result is that of one call. |
| SessionProps.EndIsAbsorbing | src/lexer/Lexer.java:144-150 | Once the stream has ended, every later call returns null; the source is closed exactly once and nothing more is printed. |
| SessionProps.NullIsFinal | src/lexer/Lexer.java:144-150 | After the first null every later call returns null and the state no longer changes. |
| SessionProps.TokenAtEndThenNull | src/lexer/Lexer.java:172-175 | A token whose scan reached the end of the input is followed by null, which closes the source once. |
| SessionProps.BlankRestIsNull | src/lexer/Lexer.java:152-158 | When only whitespace is left, nextToken returns null without a diagnostic. |
| Quirks.FirstCall | src/lexer/Lexer.java:24-28 | The first call on an input that starts with a character that is not whitespace dispatches on it at column 1 of line 1. |
| Quirks.DotBeforeLetter | src/lexer/Lexer.java:219-238 | `.x` gives the Float `.` and leaves `x` current, without a diagnostic. |
| Quirks.SignsInNumeral | src/lexer/Lexer.java:205 | `1+2` is one INTeger token spelled `1+2`. |
| Quirks.ExponentSpelling | src/lexer/Lexer.java:193-198 | `1e5` is the ScientificN token spelled `115`. |
| Quirks.TrailingDotAtEnd | src/lexer/Lexer.java:186-191 | `1.` at the end of the input is the INTeger token spelled `1.`. |
| Quirks.TrailingMarkerAtEnd | src/lexer/Lexer.java:193-195 | `1e` at the end of the input is the INTeger token `1` spanning columns 1 to 2. |
| Quirks.BadExponentEndsStream | src/lexer/Lexer.java:199-202 | `1ex` gives null after one "Digit error" on line 1, with the source closed. |
| Quirks.EmptyChar | src/lexer/Lexer.java:240-264 | `''` gives the empty Char token spanning no column. |
| Quirks.ClosingQuoteReopens | src/lexer/Lexer.java:266-285 | `"ab"` gives the String `a`, then an empty String token at column 4. |
| Quirks.QuoteSwallowsOperator | src/lexer/Lexer.java:266-285 | `"a" + "b"` gives the String `a`; the next call reports "Missing double quote" on line 1 and returns null with the source closed, so `+` and `"b"` never become tokens. |

## Left out

- The `main` method and the `sourceList` queue, which only drive the scanner
  and print its output. SessionProps.Drain stands for repeated calls.
- SourceReader is not part of this model. The column and line of a character
  are derived from its index in the input. A line feed is delivered as an
  ordinary character, and a read past the end is the exception.
- Because a line feed arrives as an ordinary character, a line end inside a
  literal is not an error in the model. A line feed after one enclosed
  character of a character literal gives "Multiple char", and a string
  literal skips over it. What the real reader delivers at a line end is
  not modelled.
- The symbol table is the set of spellings declared before scanning, and it
  never grows while scanning. In the code, every factory call interns its
  spelling for the whole session through `Symbol.symbol`, and a spelling
  keeps the kind it was first interned with. Later lookups then find it.
  The model captures neither effect. Two inputs show the difference:
  - On `'x' x`, the code gives the identifier `x` the kind Char; the model
    gives it Identifier.
  - On `'#' #`, the code's probe finds `#`, so the second `#` becomes a Char
    token. In the model it is an illegal character, and the stream ends.
- `Character.isWhitespace`, `isJavaIdentifierStart`, `isJavaIdentifierPart`
  and `isDigit` are restricted to ASCII.
- Printed diagnostics are recorded as tags carrying the line or the spelling,
  not as text.
- The character source is a static field, shared by all Lexer objects. Each
  Lexer here owns its input.
- The `flag` field and the `digit` local are never used by the code and are
  not modelled.
- makeToken's position parameters are always the current fields at every call
  site, so the model reads the fields.
- Lexing.Lexer.constructor: the token-table initialisation `new TokenType()`
  is a parameter (the table).
- Constructing a lexer over a missing file is not modelled. Lexing.Open
  models only the empty source, where the first read throws.
