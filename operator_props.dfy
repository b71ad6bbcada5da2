/**
 * The operator branch of nextToken() and makeToken(): one- and two-character
 * spellings, comments, and characters the table does not know.
 */
module OperatorProps {
  import opened Wrappers
  import opened SourceText
  import opened Tokens
  import opened ScanSpec
  import opened Runs

  /** The two-character spelling is kept only when the table holds it;
      otherwise the one-character spelling is used and the character read
      after it stays current, so the next call starts from it. */
  lemma OperatorSpelling(s: seq<char>, table: SymbolTable, st: LexState)
    requires Inv(s, st) && !st.atEOF && st.endPosition == st.startPosition - 1
    ensures var n := st.next;
      var c := st.ch;
      var r := OperatorScan(s, table, st);
      (n == |s| ==>
         r == ([c], st.(endPosition := st.startPosition, atEOF := true)))
      && (n < |s| && [c, s[n]] !in table ==>
         r == ([c], st.(next := n + 1, ch := s[n], endPosition := st.startPosition)))
      && (n < |s| && [c, s[n]] in table ==>
         r.0 == [c, s[n]] && r.1.endPosition == st.startPosition + 1
         && (r.1.atEOF <==> n + 1 == |s|)
         && (n + 1 < |s| ==> r.1.next == n + 2 && r.1.ch == s[n + 1]))
  {
    if st.next < |s| {
      assert [st.ch] + [s[st.next]] == [st.ch, s[st.next]];
    }
  }

  /** The comment loop reads on until it has read the first character of the
      next line; when there is none, the input runs out. */
  lemma {:induction false} CommentSkipEnds(s: seq<char>, n: nat, c: char)
    requires Cursor(s, n, c)
    decreases |s| - n
    ensures var k := RunEnd(s, n - 1, NotLineFeed);
      CommentSkip(s, n, c, LineAt(s, n - 1)) ==
        if k + 1 < |s| then At(k + 2, s[k + 1])
        else Exhausted(if n == |s| then c else s[|s| - 1])
  {
    if n < |s| && s[n - 1] != '\n' {
      assert LineAt(s, n) == LineAt(s, n - 1);
      CommentSkipEnds(s, n + 1, s[n]);
    }
  }

  /** "//" skips the rest of the line and returns what the next call would:
      scanning resumes at the first character after the line feed, at column
      1 of the next line. Without a further line, the result is null. */
  lemma CommentSkipsLine(s: seq<char>, table: SymbolTable, st: LexState)
    requires Inv(s, st) && st.diagnostics == []
    ensures var k := RunEnd(s, st.next - 1, NotLineFeed);
      var r := MakeToken(s, table, "//", st);
      if k + 1 < |s| then
        r == NextToken(s, table, st.(next := k + 2, ch := s[k + 1]))
        && LineAt(s, k + 1) == LineAt(s, st.next - 1) + 1 && ColumnAt(s, k + 1) == 1
      else
        r.0.None? && r.1.atEOF && !r.1.sourceOpen && r.1.diagnostics == []
  {
    if RunEnd(s, st.next - 1, NotLineFeed) + 1 < |s| {
      CommentToNextLine(s, table, st);
    } else {
      CommentAtEnd(s, table, st);
    }
  }

  /** A comment with a line after it: scanning resumes at its first character. */
  lemma CommentToNextLine(s: seq<char>, table: SymbolTable, st: LexState)
    requires Inv(s, st) && st.diagnostics == []
    requires RunEnd(s, st.next - 1, NotLineFeed) + 1 < |s|
    ensures var k := RunEnd(s, st.next - 1, NotLineFeed);
      MakeToken(s, table, "//", st) == NextToken(s, table, st.(next := k + 2, ch := s[k + 1]))
      && LineAt(s, k + 1) == LineAt(s, st.next - 1) + 1 && ColumnAt(s, k + 1) == 1
  {
    var k := RunEnd(s, st.next - 1, NotLineFeed);
    CommentSkipEnds(s, st.next, st.ch);
    assert CommentSkip(s, st.next, st.ch, LineAt(s, st.next - 1)) == At(k + 2, s[k + 1]);
    SameLine(s, st.next - 1, k);
  }

  /** A comment on the last line: the token stream ends. */
  lemma CommentAtEnd(s: seq<char>, table: SymbolTable, st: LexState)
    requires Inv(s, st) && st.diagnostics == []
    requires RunEnd(s, st.next - 1, NotLineFeed) + 1 >= |s|
    ensures var r := MakeToken(s, table, "//", st);
      r.0.None? && r.1.atEOF && !r.1.sourceOpen && r.1.diagnostics == []
  {
    CommentSkipEnds(s, st.next, st.ch);
    var skip := CommentSkip(s, st.next, st.ch, LineAt(s, st.next - 1));
    var st1 := st.(next := |s|, ch := skip.ch, atEOF := true);
    assert MakeToken(s, table, "//", st) == NextToken(s, table, st1);
  }

  /** A spelling the table holds becomes a token with its seeded kind. */
  lemma DeclaredToken(s: seq<char>, table: SymbolTable, spelling: string, st: LexState)
    requires Inv(s, st) && st.diagnostics == []
    requires spelling != "//" && spelling in table
    ensures MakeToken(s, table, spelling, st) ==
      (Some(Token(st.startPosition, st.endPosition, st.lineNum, Symbol(spelling, table[spelling]))), st)
  {
  }

  /** A spelling the table does not hold prints "illegal character" and ends
      the token stream: the result is null and the source is closed. */
  lemma IllegalSpelling(s: seq<char>, table: SymbolTable, spelling: string, st: LexState)
    requires Inv(s, st) && st.diagnostics == []
    requires spelling != "//" && spelling !in table
    ensures var r := MakeToken(s, table, spelling, st);
      r.0.None? && r.1.atEOF && !r.1.sourceOpen && r.1.closes == 1
      && r.1.diagnostics == [IllegalCharacter(spelling)]
  {
  }
}
