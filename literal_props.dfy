/**
 * The branches of nextToken() for character and string literals.
 */
module LiteralProps {
  import opened Wrappers
  import opened Tokens
  import opened ScanSpec
  import opened Runs

  // ------------------------------------------------------- character literals

  /** '' and a quote at the end of the input give the empty Char token; the
      current character becomes a blank. */
  lemma EmptyCharLiteral(s: seq<char>, table: SymbolTable, st: LexState)
    requires Inv(s, st) && !st.atEOF && st.ch == '\''
    requires st.next == |s| || s[st.next] == '\''
    ensures var r := CharScan(s, table, st);
      r.0 == Some(Token(st.startPosition, st.endPosition, st.lineNum, Intern(table, "", Char)))
      && r.1.ch == ' ' && r.1.diagnostics == []
      && (r.1.atEOF <==> st.next == |s|)
      && (st.next < |s| ==> r.1.next == st.next + 1)
  {
  }

  /** A character literal keeps the one character after the opening quote.
      A closing quote after it (or the end of the input) completes the token
      and the current character becomes a blank; a blank after it is "Missing
      single quote", any other character "Multiple char". */
  lemma CharLiteral(s: seq<char>, table: SymbolTable, st: LexState)
    requires Inv(s, st) && !st.atEOF && st.ch == '\''
    requires st.next < |s| && s[st.next] != '\''
    ensures var n := st.next;
      var r := CharScan(s, table, st);
      (n + 1 == |s| || s[n + 1] == '\'' ==>
         r.0 == Some(Token(st.startPosition, st.endPosition + 1, st.lineNum, Intern(table, [s[n]], Char)))
         && r.1.ch == ' ' && r.1.diagnostics == []
         && (r.1.atEOF <==> n + 1 == |s|)
         && (n + 1 < |s| ==> r.1.next == n + 2))
      && (n + 1 < |s| && s[n + 1] == ' ' ==>
            r.0.None? && r.1.diagnostics == [MissingSingleQuote(st.lineNum)] && r.1.atEOF)
      && (n + 1 < |s| && s[n + 1] != ' ' && s[n + 1] != '\'' ==>
            r.0.None? && r.1.diagnostics == [MultipleChar(st.lineNum)] && r.1.atEOF)
  {
    var n := st.next;
    assert "" + [s[n]] == [s[n]];
    assert CharRun(s, n, '\'', "", st.endPosition, false, st.lineNum)
        == CharRun(s, n + 1, s[n], [s[n]], st.endPosition + 1, true, st.lineNum);
  }

  // ---------------------------------------------------------- string literals

  /** After its first character the string loop skips everything up to a
      double quote or a blank: the quote ends the literal and stays current, a
      blank is "Missing double quote". */
  lemma {:induction false} StringRunBody(s: seq<char>, n: nat, c: char, text: string, end: int, line: int)
    requires Cursor(s, n, c)
    decreases |s| - n
    ensures var q := RunEnd(s, n, InStringBody);
      StringRun(s, n, c, text, end, true, line) ==
        if q == |s| then Done(Scanned(text, |s|, if n == |s| then c else s[|s| - 1], end, true))
        else if s[q] == ' ' then Failed(Scanned(text, q + 1, ' ', end, false), MissingDoubleQuote(line))
        else Done(Scanned(text, q + 1, '"', end, false))
  {
    if n < |s| && InStringBody(s[n]) {
      StringRunBody(s, n + 1, s[n], text, end, line);
    }
  }

  /** "" and a double quote at the end of the input give the empty String
      token; the quote read last stays current. */
  lemma EmptyStringLiteral(s: seq<char>, table: SymbolTable, st: LexState)
    requires Inv(s, st) && !st.atEOF && st.ch == '"'
    requires st.next == |s| || s[st.next] == '"'
    ensures var r := StringScan(s, table, st);
      r.0 == Some(Token(st.startPosition, st.endPosition, st.lineNum, Intern(table, "", String)))
      && r.1.ch == '"' && r.1.diagnostics == []
      && (r.1.atEOF <==> st.next == |s|)
      && (st.next < |s| ==> r.1.next == st.next + 1)
  {
  }

  /** A string literal keeps only the character after the opening quote and
      skips the rest up to the closing quote, which stays current. A blank
      after the first character is "Missing double quote"; running out of
      input still yields the token. */
  lemma StringLiteral(s: seq<char>, table: SymbolTable, st: LexState)
    requires Inv(s, st) && !st.atEOF && st.ch == '"'
    requires st.next < |s| && s[st.next] != '"'
    ensures var n := st.next;
      var q := RunEnd(s, n + 1, InStringBody);
      var r := StringScan(s, table, st);
      (q < |s| && s[q] == ' ' ==>
         r.0.None? && r.1.diagnostics == [MissingDoubleQuote(st.lineNum)] && r.1.atEOF)
      && (!(q < |s| && s[q] == ' ') ==>
         r.0 == Some(Token(st.startPosition, st.endPosition + 1, st.lineNum, Intern(table, [s[n]], String)))
         && r.1.diagnostics == []
         && (r.1.atEOF <==> q == |s|)
         && (q < |s| ==> r.1.next == q + 1 && r.1.ch == '"'))
  {
    var n := st.next;
    StringRunBody(s, n + 1, s[n], [s[n]], st.endPosition + 1, st.lineNum);
    assert "" + [s[n]] == [s[n]];
  }
}
