/**
 * Whole calls of nextToken() on short inputs, from the state the constructor
 * leaves, with a table that declares no spelling. Each shows one behaviour of
 * the scanner as written; the proofs step through the branch taken.
 */
module Quirks {
  import opened Wrappers
  import opened CharClass
  import opened Tokens
  import opened ScanSpec

  /** The first call on an input that starts with a character that is not
      whitespace dispatches on it at column 1 of line 1. */
  lemma FirstCall(s: seq<char>, table: SymbolTable)
    requires |s| > 0 && !IsWhitespace(s[0])
    ensures NextToken(s, table, Initial(s)) == Dispatch(s, table, Initial(s).(startPosition := 1, endPosition := 0, lineNum := 1))
  {
    assert SkipSpace(s, 1, s[0]) == At(1, s[0]);
  }

  /** ".x": a '.' before a letter is the Float ".", and the letter stays current. */
  lemma DotBeforeLetter(s: seq<char>)
    requires s == ".x"
    ensures var r := NextToken(s, map[], Initial(s));
      r.0 == Some(Token(1, 1, 1, Symbol(".", Float))) && r.1.ch == 'x' && r.1.diagnostics == []
  {
    var st := Initial(s).(startPosition := 1, endPosition := 0, lineNum := 1);
    FirstCall(s, map[]);
    var run := Scanned(".", 2, 'x', 1, false);
    assert DotRun(s, 1, '.', "", 0, false, 1) == Done(run);
    assert DotScan(s, map[], st) == (Some(Token(1, 1, 1, Symbol(".", Float))), Finish(st, run));
    assert Dispatch(s, map[], st) == DotScan(s, map[], st);
  }

  /** "1+2": signs are part of a numeral. */
  lemma SignsInNumeral(s: seq<char>)
    requires s == "1+2"
    ensures NextToken(s, map[], Initial(s)).0 == Some(Token(1, 3, 1, Symbol(s, INTeger)))
  {
    var st := Initial(s).(startPosition := 1, endPosition := 0, lineNum := 1);
    FirstCall(s, map[]);
    var ns1 := Numeral(2, '+', "1", 1, false, false);
    var ns2 := Numeral(3, '2', "1+", 2, false, false);
    assert NumeralStep(s, '1', Numeral(1, '1', "", 0, false, false)) == Again(ns1);
    assert NumeralStep(s, '1', ns1) == Again(ns2);
    assert NumeralStep(s, '1', ns2) == Stop(Numeral(3, '2', s, 3, false, false), true);
    assert NumeralRun(s, '1', ns1) == Stop(Numeral(3, '2', s, 3, false, false), true);
    assert Dispatch(s, map[], st) == NumberScan(s, map[], st);
  }

  /** "1e5": the marker is spelled as the first digit. */
  lemma ExponentSpelling(s: seq<char>)
    requires s == "1e5"
    ensures NextToken(s, map[], Initial(s)).0 == Some(Token(1, 3, 1, Symbol("115", ScientificN)))
  {
    var st := Initial(s).(startPosition := 1, endPosition := 0, lineNum := 1);
    FirstCall(s, map[]);
    var ns1 := Numeral(3, '5', "11", 2, false, true);
    var done := Stop(Numeral(3, '5', "115", 3, false, true), true);
    assert Exponent(s, '1', Numeral(2, 'e', "1", 1, false, false)) == Again(ns1);
    assert NumeralStep(s, '1', Numeral(1, '1', "", 0, false, false)) == Again(ns1);
    assert NumeralStep(s, '1', ns1) == done;
    assert NumeralRun(s, '1', ns1) == done;
    assert NumeralRun(s, '1', Numeral(1, '1', "", 0, false, false)) == done;
    assert NumberScan(s, map[], st).0 == Some(Token(1, 3, 1, Symbol("115", ScientificN)));
    assert Dispatch(s, map[], st) == NumberScan(s, map[], st);
  }

  /** "1.": at the end of the input the '.' is spelled but the numeral is an INTeger. */
  lemma TrailingDotAtEnd(s: seq<char>)
    requires s == "1."
    ensures NextToken(s, map[], Initial(s)).0 == Some(Token(1, 2, 1, Symbol(s, INTeger)))
  {
    var st := Initial(s).(startPosition := 1, endPosition := 0, lineNum := 1);
    FirstCall(s, map[]);
    assert NumeralStep(s, '1', Numeral(1, '1', "", 0, false, false)) == Stop(Numeral(2, '.', s, 2, false, false), true);
    assert Dispatch(s, map[], st) == NumberScan(s, map[], st);
  }

  /** "1e": at the end of the input the marker is a column of the token but not spelled. */
  lemma TrailingMarkerAtEnd(s: seq<char>)
    requires s == "1e"
    ensures NextToken(s, map[], Initial(s)).0 == Some(Token(1, 2, 1, Symbol("1", INTeger)))
  {
    var st := Initial(s).(startPosition := 1, endPosition := 0, lineNum := 1);
    FirstCall(s, map[]);
    assert Exponent(s, '1', Numeral(2, 'e', "1", 1, false, false)) == Stop(Numeral(2, 'e', "1", 2, false, false), true);
    assert NumeralStep(s, '1', Numeral(1, '1', "", 0, false, false)) == Stop(Numeral(2, 'e', "1", 2, false, false), true);
    assert Dispatch(s, map[], st) == NumberScan(s, map[], st);
  }

  /** "1ex": a marker without a sign or digit after it ends the token stream. */
  lemma BadExponentEndsStream(s: seq<char>)
    requires s == "1ex"
    ensures var r := NextToken(s, map[], Initial(s));
      r.0 == None && r.1.diagnostics == [DigitError(1)] && !r.1.sourceOpen
  {
    var st := Initial(s).(startPosition := 1, endPosition := 0, lineNum := 1);
    FirstCall(s, map[]);
    var bad := BadExponent(Numeral(3, 'x', "1", 2, false, false));
    assert Exponent(s, '1', Numeral(2, 'e', "1", 1, false, false)) == bad;
    assert NumeralStep(s, '1', Numeral(1, '1', "", 0, false, false)) == bad;
    assert NumeralRun(s, '1', Numeral(1, '1', "", 0, false, false)) == bad;
    var st1 := Fail(st, Scanned("1", 3, 'x', 2, false), DigitError(1));
    assert NumberScan(s, map[], st) == (None, st1);
    assert Dispatch(s, map[], st) == NextToken(s, map[], st1);
    assert NextToken(s, map[], st1) == (None, Close(st1));
  }

  /** "''": the empty character literal. */
  lemma EmptyChar(s: seq<char>)
    requires s == "''"
    ensures NextToken(s, map[], Initial(s)).0 == Some(Token(1, 0, 1, Symbol("", Char)))
  {
  }

  /** "\"ab\"": only the first character is kept, and the closing quote,
      left current, opens a second, empty string literal. */
  lemma ClosingQuoteReopens(s: seq<char>)
    requires s == "\"ab\""
    ensures var r1 := NextToken(s, map[], Initial(s));
      var r2 := NextToken(s, map[], r1.1);
      r1.0 == Some(Token(1, 1, 1, Symbol("a", String))) && r1.1.ch == '"'
      && r2.0 == Some(Token(4, 3, 1, Symbol("", String)))
  {
    var st := Initial(s).(startPosition := 1, endPosition := 0, lineNum := 1);
    FirstCall(s, map[]);
    var run := Scanned("a", 4, '"', 1, false);
    assert StringRun(s, 3, 'b', "a", 1, true, 1) == Done(run);
    assert StringRun(s, 2, 'a', "a", 1, true, 1) == Done(run);
    assert "" + [s[1]] == "a";
    assert StringRun(s, 1, '"', "", 0, false, 1) == Done(run);
    assert StringScan(s, map[], st) == (Some(Token(1, 1, 1, Symbol("a", String))), Finish(st, run));
    assert Dispatch(s, map[], st) == StringScan(s, map[], st);
    var st1 := Finish(st, run);
    assert SkipSpace(s, 4, '"') == At(4, '"');
    assert SourceText.ColumnAt(s, 1) == 2;
    assert SourceText.ColumnAt(s, 2) == 3;
    assert SourceText.ColumnAt(s, 3) == 4;
    assert SourceText.LineAt(s, 1) == 1;
    assert SourceText.LineAt(s, 2) == 1;
    assert SourceText.LineAt(s, 3) == 1;
    var st2 := Start(s, st1, 4, '"');
    assert st2 == st1.(startPosition := 4, endPosition := 3, lineNum := 1);
    assert NextToken(s, map[], st1) == Dispatch(s, map[], st2);
    var run2 := Scanned("", 4, '"', 3, true);
    assert StringRun(s, 4, '"', "", 3, false, 1) == Done(run2);
    assert StringScan(s, map[], st2) == (Some(Token(4, 3, 1, Symbol("", String))), Finish(st2, run2));
    assert Dispatch(s, map[], st2) == StringScan(s, map[], st2);
  }

  /** "\"a\" + \"b\"": the closing quote of the first literal opens a second
      one, which takes the blank, skips the '+' and meets the next blank: the
      stream ends with "Missing double quote" instead of giving '+' and "b". */
  lemma QuoteSwallowsOperator(s: seq<char>)
    requires s == "\"a\" + \"b\""
    ensures var r1 := NextToken(s, map[], Initial(s));
      var r2 := NextToken(s, map[], r1.1);
      r1.0 == Some(Token(1, 1, 1, Symbol("a", String)))
      && r2.0 == None && r2.1.diagnostics == [MissingDoubleQuote(1)] && !r2.1.sourceOpen
  {
    var st := Initial(s).(startPosition := 1, endPosition := 0, lineNum := 1);
    FirstCall(s, map[]);
    var run := Scanned("a", 3, '"', 1, false);
    assert "" + [s[1]] == "a";
    assert StringRun(s, 2, 'a', "a", 1, true, 1) == Done(run);
    assert StringRun(s, 1, '"', "", 0, false, 1) == Done(run);
    assert StringScan(s, map[], st) == (Some(Token(1, 1, 1, Symbol("a", String))), Finish(st, run));
    assert Dispatch(s, map[], st) == StringScan(s, map[], st);
    var st1 := Finish(st, run);
    assert SkipSpace(s, 3, '"') == At(3, '"');
    assert SourceText.ColumnAt(s, 1) == 2;
    assert SourceText.ColumnAt(s, 2) == 3;
    assert SourceText.LineAt(s, 1) == 1;
    assert SourceText.LineAt(s, 2) == 1;
    var st2 := Start(s, st1, 3, '"');
    assert st2 == st1.(startPosition := 3, endPosition := 2, lineNum := 1);
    assert NextToken(s, map[], st1) == Dispatch(s, map[], st2);
    var bad := Failed(Scanned(" ", 6, ' ', 3, false), MissingDoubleQuote(1));
    assert StringRun(s, 5, '+', " ", 3, true, 1) == bad;
    assert StringRun(s, 4, ' ', " ", 3, true, 1) == bad;
    assert "" + [s[3]] == " ";
    assert StringRun(s, 3, '"', "", 2, false, 1) == bad;
    var st3 := Fail(st2, bad.r, MissingDoubleQuote(1));
    assert StringScan(s, map[], st2) == (None, st3);
    assert Dispatch(s, map[], st2) == NextToken(s, map[], st3);
    assert NextToken(s, map[], st3) == (None, Close(st3));
  }
}
