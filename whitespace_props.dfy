/**
 * The start of every call of nextToken(): whitespace is skipped, and the
 * start column and line are those of the first character of the token.
 */
module WhitespaceProps {
  import opened CharClass
  import opened SourceText
  import opened Tokens
  import opened ScanSpec
  import opened Runs

  /** The state in which the dispatch on the first character begins: the
      current character was read last and is not whitespace, the token starts
      at its column and line, and nothing of it has been taken yet. */
  predicate Started(s: seq<char>, st: LexState) {
    Inv(s, st) && !st.atEOF
    && st.ch == s[st.next - 1] && !IsWhitespace(st.ch)
    && st.startPosition == ColumnAt(s, st.next - 1)
    && st.endPosition == st.startPosition - 1
    && st.lineNum == LineAt(s, st.next - 1)
  }

  /** The whitespace loop stops at the first character that is not
      whitespace, or runs out with the last character read as current. */
  lemma {:induction false} SkipSpaceEnds(s: seq<char>, n: nat, c: char)
    requires Cursor(s, n, c)
    decreases |s| - n
    ensures var j := RunEnd(s, n, IsWhitespace);
      SkipSpace(s, n, c) ==
        if !IsWhitespace(c) then At(n, c)
        else if j == |s| then Exhausted(if n == |s| then c else s[|s| - 1])
        else At(j + 1, s[j])
  {
    if IsWhitespace(c) && n < |s| {
      SkipSpaceEnds(s, n + 1, s[n]);
    }
  }

  /** nextToken() skips the whitespace from the current character on: when
      only whitespace is left it closes the source and returns null, otherwise
      it dispatches on the first other character, from a Started state. */
  lemma NextTokenSkipsWhitespace(s: seq<char>, table: SymbolTable, st: LexState)
    requires Inv(s, st) && !st.atEOF
    ensures var j := RunEnd(s, st.next, IsWhitespace);
      var r := NextToken(s, table, st);
      if !IsWhitespace(st.ch) then
        Started(s, Start(s, st, st.next, st.ch))
        && r == Dispatch(s, table, Start(s, st, st.next, st.ch))
      else if j == |s| then
        r.0.None? && r.1.atEOF && !r.1.sourceOpen && r.1.closes == 1
        && r.1.next == |s| && r.1.diagnostics == []
      else
        Started(s, Start(s, st, j + 1, s[j]))
        && r == Dispatch(s, table, Start(s, st, j + 1, s[j]))
  {
    SkipSpaceEnds(s, st.next, st.ch);
  }
}
