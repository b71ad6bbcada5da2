/**
 * The lexer over a sequence of calls: once the end is reached every call
 * returns null, the source is closed exactly once, and at most one
 * diagnostic is ever printed.
 */
module SessionProps {
  import opened Wrappers
  import opened CharClass
  import opened Tokens
  import opened ScanSpec
  import opened Runs
  import opened WhitespaceProps

  /** k successive calls of nextToken(), with the results in order and the
      state after the last one. */
  function Drain(s: seq<char>, table: SymbolTable, st: LexState, k: nat): (r: (seq<Option<Token>>, LexState))
    requires Inv(s, st)
    decreases k
    ensures |r.0| == k && Inv(s, r.1) && st.next <= r.1.next
    ensures k > 0 ==> r.0[0] == NextToken(s, table, st).0
  {
    if k == 0 then ([], st)
    else
      var (t, st1) := NextToken(s, table, st);
      var (ts, st2) := Drain(s, table, st1, k - 1);
      ([t] + ts, st2)
  }

  /** Once atEOF is set, every later call returns null, and the source is
      closed by the first of them and never again. */
  lemma {:induction false} EndIsAbsorbing(s: seq<char>, table: SymbolTable, st: LexState, k: nat)
    requires Inv(s, st) && st.atEOF && k > 0
    decreases k
    ensures var r := Drain(s, table, st, k);
      (forall i :: 0 <= i < k ==> r.0[i].None?)
      && r.1 == Close(st) && r.1.closes == 1 && !r.1.sourceOpen
      && r.1.diagnostics == st.diagnostics
  {
    if k > 1 {
      EndIsAbsorbing(s, table, Close(st), k - 1);
    }
  }

  /** A null from nextToken() is final: every call after it returns null
      and leaves the state as it is. */
  lemma NullIsFinal(s: seq<char>, table: SymbolTable, st: LexState, k: nat)
    requires Inv(s, st) && NextToken(s, table, st).0.None? && k > 0
    ensures var st1 := NextToken(s, table, st).1;
      var r := Drain(s, table, st1, k);
      (forall i :: 0 <= i < k ==> r.0[i].None?) && r.1 == st1
  {
    EndIsAbsorbing(s, table, NextToken(s, table, st).1, k);
  }

  /** A token completed when the input ran out is still returned; the call
      after it returns null and closes the source. */
  lemma TokenAtEndThenNull(s: seq<char>, table: SymbolTable, st: LexState)
    requires Inv(s, st)
    requires NextToken(s, table, st).0.Some? && NextToken(s, table, st).1.atEOF
    ensures var st1 := NextToken(s, table, st).1;
      NextToken(s, table, st1) == (None, Close(st1)) && Close(st1).closes == 1
  {
  }

  /** Input that holds nothing but whitespace from the cursor on yields null
      on the first call, with no diagnostic. */
  lemma BlankRestIsNull(s: seq<char>, table: SymbolTable, st: LexState)
    requires Inv(s, st) && !st.atEOF && IsWhitespace(st.ch)
    requires forall k :: st.next <= k < |s| ==> IsWhitespace(s[k])
    ensures NextToken(s, table, st).0.None? && NextToken(s, table, st).1.diagnostics == []
  {
    NextTokenSkipsWhitespace(s, table, st);
  }
}
