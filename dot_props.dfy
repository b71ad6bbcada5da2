/**
 * The branch of nextToken() for a numeral that starts with '.'.
 */
module DotProps {
  import opened Wrappers
  import opened CharClass
  import opened Tokens
  import opened ScanSpec
  import opened Runs

  /** Once a character after the '.' was accepted, the loop takes the
      current character and every digit after it, and stops on the first
      other character, which stays current. */
  lemma {:induction false} DotRunDigits(s: seq<char>, n: nat, c: char, text: string, end: int, line: int)
    requires Cursor(s, n, c)
    decreases |s| - n
    ensures var d := RunEnd(s, n, IsDigit);
      var o := DotRun(s, n, c, text, end, true, line);
      o.Done?
      && o.r.text == text + [c] + s[n..d]
      && o.r.end == end + 1 + (d - n)
      && (o.r.eof <==> d == |s|)
      && (d < |s| ==> o.r.next == d + 1 && o.r.ch == s[d])
  {
    if n < |s| && IsDigit(s[n]) {
      DotRunDigits(s, n + 1, s[n], text + [c], end + 1, line);
      var d := RunEnd(s, n, IsDigit);
      assert text + [c] + s[n..d] == (text + [c]) + [s[n]] + s[n + 1..d];
    }
  }

  /** A '.' directly followed by 'e', 'E', '.' or a blank prints "Float
      error" and gives up. */
  lemma DotError(s: seq<char>, table: SymbolTable, st: LexState)
    requires Inv(s, st) && !st.atEOF && st.ch == '.'
    requires st.next < |s| && (IsMarker(s[st.next]) || s[st.next] == '.' || s[st.next] == ' ')
    ensures var r := DotScan(s, table, st);
      r.0.None? && r.1.diagnostics == [FloatError(st.lineNum)] && r.1.atEOF
  {
  }

  /** The loop from the '.' when no error is reported: the '.' and the digit
      run after it. */
  lemma DotRunFirst(s: seq<char>, n: nat, end: int, line: int)
    requires Cursor(s, n, '.')
    requires !(n < |s| && (IsMarker(s[n]) || s[n] == '.' || s[n] == ' '))
    ensures var d := RunEnd(s, n, IsDigit);
      var o := DotRun(s, n, '.', "", end, false, line);
      o.Done?
      && o.r.text == s[n - 1..d]
      && o.r.end == end + 1 + (d - n)
      && (o.r.eof <==> d == |s|)
      && (d < |s| ==> o.r.next == d + 1 && o.r.ch == s[d])
  {
    var d := RunEnd(s, n, IsDigit);
    assert "" + ['.'] == ".";
    assert s[n - 1..d] == ['.'] + s[n..d] by {
      assert s[n - 1..d][1..] == s[n..d];
    }
    if n < |s| && IsDigit(s[n]) {
      DotRunDigits(s, n + 1, s[n], ".", end + 1, line);
      assert ['.'] + s[n..d] == ['.'] + [s[n]] + s[n + 1..d];
    }
  }

  /** Otherwise the token is a Float spelled '.' and the run of digits after
      it, and the character after that run is current: '.' followed by any
      other character is the Float ".". */
  lemma DotToken(s: seq<char>, table: SymbolTable, st: LexState)
    requires Inv(s, st) && !st.atEOF && st.ch == '.'
    requires !(st.next < |s| && (IsMarker(s[st.next]) || s[st.next] == '.' || s[st.next] == ' '))
    ensures var n := st.next;
      var d := RunEnd(s, n, IsDigit);
      var r := DotScan(s, table, st);
      r.0.Some?
      && r.0.value.symbol == Intern(table, s[n - 1..d], Float)
      && r.0.value.leftPosition == st.startPosition && r.0.value.lineNum == st.lineNum
      && r.0.value.rightPosition == st.endPosition + 1 + (d - n)
      && r.1.diagnostics == []
      && (r.1.atEOF <==> d == |s|)
      && (d < |s| ==> r.1.next == d + 1 && r.1.ch == s[d])
  {
    DotRunFirst(s, st.next, st.endPosition, st.lineNum);
  }
}
