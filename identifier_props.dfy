/**
 * The identifier branch of nextToken(): the token is the longest run of
 * identifier characters, and the character that ended the run stays current.
 */
module IdentifierProps {
  import opened CharClass
  import opened SourceText
  import opened Tokens
  import opened ScanSpec
  import opened Runs
  import opened WhitespaceProps

  /** The identifier loop takes the current character and then every
      identifier part after it; it stops on the first other character, which
      it keeps as current, or at the end of the input. */
  lemma {:induction false} IdentifierRunEnds(s: seq<char>, n: nat, c: char, text: string, end: int)
    requires Cursor(s, n, c)
    decreases |s| - n
    ensures var e := RunEnd(s, n, IsIdPart);
      var r := IdentifierRun(s, n, c, text, end);
      r.text == text + [c] + s[n..e]
      && r.end == end + 1 + (e - n)
      && (r.eof <==> e == |s|)
      && (e < |s| ==> r.next == e + 1 && r.ch == s[e])
      && (e == |s| ==> r.next == |s| && r.ch == (if n == |s| then c else s[|s| - 1]))
  {
    if n < |s| && IsIdPart(s[n]) {
      IdentifierRunEnds(s, n + 1, s[n], text + [c], end + 1);
      assert text + [c] + s[n..RunEnd(s, n, IsIdPart)]
          == (text + [c]) + [s[n]] + s[n + 1..RunEnd(s, n, IsIdPart)];
    }
  }

  /** An identifier or reserved word: its spelling is the maximal identifier
      run from the first character, its column span is its length and ends
      at the column of its last character, its kind is the seeded one or
      Identifier, and the character after it is current. */
  lemma IdentifierToken(s: seq<char>, table: SymbolTable, st: LexState)
    requires Started(s, st) && IsIdStart(st.ch)
    ensures var e := RunEnd(s, st.next, IsIdPart);
      var spelling := s[st.next - 1..e];
      var r := IdentifierScan(s, table, st);
      r.0.Some?
      && r.0.value.symbol == Intern(table, spelling, Identifier)
      && r.0.value.leftPosition == st.startPosition
      && r.0.value.rightPosition - r.0.value.leftPosition + 1 == |spelling|
      && r.0.value.rightPosition == ColumnAt(s, e - 1)
      && r.0.value.lineNum == st.lineNum
      && r.1.diagnostics == []
      && (r.1.atEOF <==> e == |s|)
      && (e < |s| ==> r.1.next == e + 1 && r.1.ch == s[e])
  {
    var n := st.next;
    var e := RunEnd(s, n, IsIdPart);
    var run := IdentifierRun(s, n, st.ch, "", st.endPosition);
    IdentifierRunEnds(s, n, st.ch, "", st.endPosition);
    assert n <= e;
    assert run.text == s[n - 1..e] by {
      assert s[n - 1..e][1..] == s[n..e];
    }
    SameLine(s, n - 1, e - 1);
  }
}
