/**
 * The lexer as a state machine over values. A LexState holds what the Java
 * Lexer keeps in fields (the current character, the end-of-input flag, the
 * open source, the positions of the token being built) together with the
 * number of characters read from the source so far and the diagnostics
 * printed. NextToken and MakeToken follow nextToken() and makeToken() branch
 * for branch; the loops of each scanning branch are the recursive *Run
 * functions, one call per pass through the loop body.
 */
module ScanSpec {
  import opened Wrappers
  import opened CharClass
  import opened SourceText
  import opened Tokens

  /** The messages the lexer prints before it gives up. */
  datatype Diagnostic =
    | DigitError(line: int)
    | FloatError(line: int)
    | MissingSingleQuote(line: int)
    | MultipleChar(line: int)
    | MissingDoubleQuote(line: int)
    | IllegalCharacter(spelling: string)

  /** The lexer's state. `next` counts the characters read, so the character
      read last is s[next - 1]; `closes` counts calls of source.close(). */
  datatype LexState = LexState(
    next: nat,
    ch: char,
    atEOF: bool,
    sourceOpen: bool,
    closes: nat,
    startPosition: int,
    endPosition: int,
    lineNum: int,
    diagnostics: seq<Diagnostic>)

  /** The current character is the one read last, or the blank a character
      literal leaves behind. */
  predicate Cursor(s: seq<char>, n: nat, c: char) {
    1 <= n <= |s| && (c == s[n - 1] || c == ' ')
  }

  /** What holds between calls: the source is closed at most once, and only
      after the end; at most one diagnostic, and only after the end. */
  predicate Inv(s: seq<char>, st: LexState) {
    Cursor(s, st.next, st.ch)
    && st.closes == (if st.sourceOpen then 0 else 1)
    && (!st.sourceOpen ==> st.atEOF)
    && |st.diagnostics| <= 1
    && (!st.atEOF ==> st.diagnostics == [])
  }

  /** The state after the constructor: the first character has been read
      and the source is open. */
  function Initial(s: seq<char>): (st: LexState)
    requires |s| > 0
    ensures Inv(s, st) && !st.atEOF && st.sourceOpen && st.next == 1 && st.ch == s[0]
  {
    LexState(1, s[0], false, true, 0, 0, 0, 0, [])
  }

  /** source.close() and source = null, done once. */
  function Close(st: LexState): (r: LexState)
    ensures !r.sourceOpen
    ensures r.closes == st.closes + (if st.sourceOpen then 1 else 0)
    ensures r.(sourceOpen := st.sourceOpen, closes := st.closes) == st
  {
    if st.sourceOpen then st.(sourceOpen := false, closes := st.closes + 1) else st
  }

  // ---------------------------------------------------------------- whitespace

  /** Where a scan stopped: at a character that was read (with the count of
      characters read), or at the end of the input (with the character that
      was current when the read failed). */
  datatype Skip = At(next: nat, ch: char) | Exhausted(ch: char)

  /** The whitespace loop of nextToken. */
  function SkipSpace(s: seq<char>, n: nat, c: char): (r: Skip)
    requires Cursor(s, n, c)
    decreases |s| - n
    ensures r.At? ==> n <= r.next <= |s| && r.ch == s[r.next - 1] && !IsWhitespace(r.ch)
    ensures r.At? ==> r.next == n || IsWhitespace(c)
    ensures r.At? ==> forall k :: n <= k < r.next - 1 ==> IsWhitespace(s[k])
    ensures r.Exhausted? ==> Cursor(s, |s|, r.ch) && IsWhitespace(c)
    ensures r.Exhausted? ==> forall k :: n <= k < |s| ==> IsWhitespace(s[k])
  {
    if !IsWhitespace(c) then At(n, c)
    else if n == |s| then Exhausted(c)
    else SkipSpace(s, n + 1, s[n])
  }

  /** The state after the whitespace loop: startPosition and lineNum are those
      of the first character of the token, endPosition one column before it. */
  function Start(s: seq<char>, st: LexState, n: nat, c: char): (st1: LexState)
    requires 1 <= n <= |s|
    ensures 1 <= st1.startPosition <= n && st1.endPosition == st1.startPosition - 1
    ensures 1 <= st1.lineNum <= n
    ensures st1.next == n && st1.ch == c
    ensures Inv(s, st) && Cursor(s, n, c) ==> Inv(s, st1)
    ensures st1.(next := st.next, ch := st.ch, startPosition := st.startPosition,
                 endPosition := st.endPosition, lineNum := st.lineNum) == st
  {
    st.(next := n, ch := c, startPosition := ColumnAt(s, n - 1),
        endPosition := ColumnAt(s, n - 1) - 1, lineNum := LineAt(s, n - 1))
  }

  // ------------------------------------------------------------- shared shapes

  /** The outcome of a scanning loop: the buffer, the cursor, the last column
      and whether the input ran out. */
  datatype Scanned = Scanned(text: string, next: nat, ch: char, end: int, eof: bool)

  /** A scanning loop that ended normally or at the end of the input, or one
      that gave up with a diagnostic. */
  datatype Scan = Done(r: Scanned) | Failed(r: Scanned, diagnostic: Diagnostic)

  /** The cursor moved forward and still satisfies Cursor; at the end of the
      input everything has been read. */
  predicate Advanced(s: seq<char>, n: nat, r: Scanned) {
    n <= r.next && Cursor(s, r.next, r.ch) && (r.eof ==> r.next == |s|)
  }

  /** The state after a scanning loop that produced a token. */
  function Finish(st: LexState, r: Scanned): LexState {
    st.(next := r.next, ch := r.ch, endPosition := r.end, atEOF := st.atEOF || r.eof)
  }

  /** The state after a scanning loop that printed a diagnostic: atEOF is set. */
  function Fail(st: LexState, r: Scanned, d: Diagnostic): LexState {
    st.(next := r.next, ch := r.ch, endPosition := r.end, atEOF := true,
        diagnostics := st.diagnostics + [d])
  }

  // --------------------------------------------------------------- identifiers

  /** do { endPosition++; id += ch; ch = read(); } while (isJavaIdentifierPart(ch)) */
  function IdentifierRun(s: seq<char>, n: nat, c: char, text: string, end: int): (r: Scanned)
    requires Cursor(s, n, c)
    decreases |s| - n
    ensures Advanced(s, n, r)
  {
    if n == |s| then Scanned(text + [c], n, c, end + 1, true)
    else if IsIdPart(s[n]) then IdentifierRun(s, n + 1, s[n], text + [c], end + 1)
    else Scanned(text + [c], n + 1, s[n], end + 1, false)
  }

  /** The identifier branch of nextToken. */
  function IdentifierScan(s: seq<char>, table: SymbolTable, st: LexState): (r: (Option<Token>, LexState))
    requires Inv(s, st) && !st.atEOF
    ensures Inv(s, r.1) && st.next <= r.1.next && r.0.Some?
  {
    var run := IdentifierRun(s, st.next, st.ch, "", st.endPosition);
    (Some(NewIdToken(table, run.text, st.startPosition, run.end, st.lineNum)), Finish(st, run))
  }

  // ------------------------------------------------------------------ numerals

  /** The variables of the numeral loop: cursor, buffer, last column, and the
      flags fl ('.' taken) and sciNum (exponent taken). */
  datatype Numeral = Numeral(next: nat, ch: char, text: string, end: int, fl: bool, sci: bool)

  /** What one pass of the numeral loop body leads to. */
  datatype NumStep =
    | Again(ns: Numeral)
    | Stop(ns: Numeral, eof: bool)
    | BadExponent(ns: Numeral)

  predicate NumCursor(s: seq<char>, ns: Numeral) {
    Cursor(s, ns.next, ns.ch)
  }

  /** The loop condition: isDigit(ch) || ch == '+' || ch == '-'. */
  function LoopTest(ns: Numeral): (r: NumStep)
    ensures r.Again? <==> IsSignOrDigit(ns.ch)
    ensures !r.BadExponent? && r.ns == ns && (r.Stop? ==> !r.eof)
  {
    if IsSignOrDigit(ns.ch) then Again(ns) else Stop(ns, false)
  }

  /** The exponent check of the loop body. A marker counts as a column; when
      a sign or digit follows, the first digit of the numeral goes into the
      buffer in its place, otherwise the guard (ch != 'e' || ch != 'E'),
      which always holds, reports "Digit error". */
  function Exponent(s: seq<char>, first: char, ns: Numeral): (r: NumStep)
    requires NumCursor(s, ns)
    ensures r.Again? ==> ns.next <= r.ns.next && NumCursor(s, r.ns)
    ensures r.Stop? ==> ns.next <= r.ns.next && NumCursor(s, r.ns) && (r.eof ==> r.ns.next == |s|)
    ensures r.BadExponent? ==> ns.next <= r.ns.next && NumCursor(s, r.ns)
  {
    if IsMarker(ns.ch) then
      if ns.next == |s| then Stop(ns.(end := ns.end + 1), true)
      else
        var c := s[ns.next];
        var ns1 := ns.(next := ns.next + 1, ch := c, end := ns.end + 1);
        if IsSignOrDigit(c) then LoopTest(ns1.(text := ns.text + [first], sci := true))
        else BadExponent(ns1)
    else LoopTest(ns)
  }

  /** One pass of the numeral loop body: take the current character, read, take
      a first '.', then the exponent check and the loop condition. */
  function NumeralStep(s: seq<char>, first: char, ns: Numeral): (r: NumStep)
    requires NumCursor(s, ns)
    ensures r.Again? ==> ns.next < r.ns.next && NumCursor(s, r.ns)
    ensures r.Stop? ==> ns.next <= r.ns.next && NumCursor(s, r.ns) && (r.eof ==> r.ns.next == |s|)
    ensures r.BadExponent? ==> ns.next <= r.ns.next && NumCursor(s, r.ns)
  {
    var text := ns.text + [ns.ch];
    var end := ns.end + 1;
    if ns.next == |s| then Stop(ns.(text := text, end := end), true)
    else
      var c := s[ns.next];
      if c == '.' && !ns.fl then
        if ns.next + 1 == |s| then Stop(Numeral(ns.next + 1, c, text + [c], end + 1, ns.fl, ns.sci), true)
        else Exponent(s, first, Numeral(ns.next + 2, s[ns.next + 1], text + [c], end + 1, true, ns.sci))
      else Exponent(s, first, Numeral(ns.next + 1, c, text, end, ns.fl, ns.sci))
  }

  /** The numeral do-while loop, run to its end. */
  function NumeralRun(s: seq<char>, first: char, ns: Numeral): (r: NumStep)
    requires NumCursor(s, ns)
    decreases |s| - ns.next
    ensures !r.Again?
    ensures ns.next <= r.ns.next && NumCursor(s, r.ns)
    ensures r.Stop? && r.eof ==> r.ns.next == |s|
  {
    match NumeralStep(s, first, ns)
    case Again(ns1) => NumeralRun(s, first, ns1)
    case Stop(ns1, eof) => Stop(ns1, eof)
    case BadExponent(ns1) => BadExponent(ns1)
  }

  /** The numeral branch of nextToken: Float if a '.' was taken, ScientificN
      if an exponent was taken without one, INTeger otherwise. None stands for
      the error path, after which nextToken calls itself. */
  function NumberScan(s: seq<char>, table: SymbolTable, st: LexState): (r: (Option<Token>, LexState))
    requires Inv(s, st) && !st.atEOF
    ensures Inv(s, r.1) && st.next <= r.1.next && (r.0.None? ==> r.1.atEOF)
  {
    var o := NumeralRun(s, st.ch, Numeral(st.next, st.ch, "", st.endPosition, false, false));
    var ns := o.ns;
    var run := Scanned(ns.text, ns.next, ns.ch, ns.end, o.Stop? && o.eof);
    if o.BadExponent? then (None, Fail(st, run, DigitError(st.lineNum)))
    else
      var tok :=
        if ns.fl then NewFloatToken(table, ns.text, st.startPosition, ns.end, st.lineNum)
        else if ns.sci then NewSciNumToken(table, ns.text, st.startPosition, ns.end, st.lineNum)
        else NewNumberToken(table, ns.text, st.startPosition, ns.end, st.lineNum);
      (Some(tok), Finish(st, run))
  }

  // ------------------------------------------------------ floats with a leading dot

  /** The loop of the leading-dot branch: after the '.', a following 'e', 'E',
      '.' or blank reports "Float error"; after that, digits are taken. */
  function DotRun(s: seq<char>, n: nat, c: char, text: string, end: int, isFloat: bool, line: int): (r: Scan)
    requires Cursor(s, n, c)
    decreases |s| - n
    ensures Advanced(s, n, r.r)
  {
    var text1 := text + [c];
    if n == |s| then Done(Scanned(text1, n, c, end + 1, true))
    else
      var c1 := s[n];
      if (IsMarker(c1) || c1 == '.' || c1 == ' ') && !isFloat then
        Failed(Scanned(text1, n + 1, c1, end + 1, false), FloatError(line))
      else if IsDigit(c1) then DotRun(s, n + 1, c1, text1, end + 1, true, line)
      else Done(Scanned(text1, n + 1, c1, end + 1, false))
  }

  /** Turns the outcome of a literal loop into the branch's result. */
  function Conclude(st: LexState, o: Scan, tok: Token): (r: (Option<Token>, LexState))
  {
    match o
    case Done(run) => (Some(tok), Finish(st, run))
    case Failed(run, d) => (None, Fail(st, run, d))
  }

  /** The leading-dot branch of nextToken. */
  function DotScan(s: seq<char>, table: SymbolTable, st: LexState): (r: (Option<Token>, LexState))
    requires Inv(s, st) && !st.atEOF
    ensures Inv(s, r.1) && st.next <= r.1.next && (r.0.None? ==> r.1.atEOF)
  {
    var o := DotRun(s, st.next, st.ch, "", st.endPosition, false, st.lineNum);
    Conclude(st, o, NewFloatToken(table, o.r.text, st.startPosition, o.r.end, st.lineNum))
  }

  // ------------------------------------------------------- character literals

  /** The loop of the character-literal branch: the first character that is
      not a quote is kept; a blank after it reports "Missing single quote",
      any other character but a quote "Multiple char". */
  function CharRun(s: seq<char>, n: nat, c: char, text: string, end: int, isChar: bool, line: int): (r: Scan)
    requires Cursor(s, n, c)
    decreases |s| - n
    ensures Advanced(s, n, r.r)
  {
    if n == |s| then Done(Scanned(text, n, c, end, true))
    else
      var c1 := s[n];
      if c1 != '\'' && !isChar then CharRun(s, n + 1, c1, text + [c1], end + 1, true, line)
      else if c1 == ' ' then Failed(Scanned(text, n + 1, c1, end, false), MissingSingleQuote(line))
      else if isChar && c1 != '\'' && c1 != ' ' then Failed(Scanned(text, n + 1, c1, end, false), MultipleChar(line))
      else Done(Scanned(text, n + 1, c1, end, false))
  }

  /** The character-literal branch of nextToken; on success the closing quote
      is dropped by making the current character a blank. */
  function CharScan(s: seq<char>, table: SymbolTable, st: LexState): (r: (Option<Token>, LexState))
    requires Inv(s, st) && !st.atEOF
    ensures Inv(s, r.1) && st.next <= r.1.next && (r.0.None? ==> r.1.atEOF)
  {
    var o := CharRun(s, st.next, st.ch, "", st.endPosition, false, st.lineNum);
    var o1 := if o.Done? then Done(o.r.(ch := ' ')) else o;
    Conclude(st, o1, NewCharToken(table, o.r.text, st.startPosition, o.r.end, st.lineNum))
  }

  // ---------------------------------------------------------- string literals

  /** The loop of the string-literal branch: the first character that is not
      a double quote is kept, the rest skipped up to the closing quote; a blank
      on the way reports "Missing double quote". */
  function StringRun(s: seq<char>, n: nat, c: char, text: string, end: int, isStr: bool, line: int): (r: Scan)
    requires Cursor(s, n, c)
    decreases |s| - n
    ensures Advanced(s, n, r.r)
  {
    if n == |s| then Done(Scanned(text, n, c, end, true))
    else
      var c1 := s[n];
      if c1 != '"' && !isStr then StringRun(s, n + 1, c1, text + [c1], end + 1, true, line)
      else if c1 == ' ' then Failed(Scanned(text, n + 1, c1, end, false), MissingDoubleQuote(line))
      else if c1 != '"' then StringRun(s, n + 1, c1, text, end, isStr, line)
      else Done(Scanned(text, n + 1, c1, end, false))
  }

  /** The string-literal branch of nextToken; the closing quote stays current. */
  function StringScan(s: seq<char>, table: SymbolTable, st: LexState): (r: (Option<Token>, LexState))
    requires Inv(s, st) && !st.atEOF
    ensures Inv(s, r.1) && st.next <= r.1.next && (r.0.None? ==> r.1.atEOF)
  {
    var o := StringRun(s, st.next, st.ch, "", st.endPosition, false, st.lineNum);
    Conclude(st, o, NewStrToken(table, o.r.text, st.startPosition, o.r.end, st.lineNum))
  }

  // ---------------------------------------------------------------- operators

  /** The one- or two-character part of nextToken: read a second character and
      keep it in the spelling only if the two-character spelling is in the
      table; otherwise it stays the current character. */
  function OperatorScan(s: seq<char>, table: SymbolTable, st: LexState): (r: (string, LexState))
    requires Inv(s, st) && !st.atEOF
    ensures Inv(s, r.1) && st.next <= r.1.next && r.1.diagnostics == st.diagnostics
  {
    var charOld := [st.ch];
    var end1 := st.endPosition + 1;
    if st.next == |s| then
      // the read failed before op grew, so op is still charOld
      (charOld, st.(endPosition := end1, atEOF := true))
    else
      var c2 := s[st.next];
      var op := charOld + [c2];
      if Probe(table, op).None? then (charOld, st.(next := st.next + 1, ch := c2, endPosition := end1))
      else if st.next + 1 == |s| then
        var op1 := if st.startPosition == end1 + 1 then charOld else op;
        (op1, st.(next := st.next + 1, ch := c2, endPosition := end1 + 1, atEOF := true))
      else (op, st.(next := st.next + 2, ch := s[st.next + 1], endPosition := end1 + 1))
  }

  /** The comment loop of makeToken: read until the line number changes. */
  function CommentSkip(s: seq<char>, n: nat, c: char, oldLine: int): (r: Skip)
    requires Cursor(s, n, c)
    decreases |s| - n
    ensures r.At? ==> n < r.next <= |s| && r.ch == s[r.next - 1]
    ensures r.Exhausted? ==> Cursor(s, |s|, r.ch)
  {
    if n == |s| then Exhausted(c)
    else if oldLine != LineAt(s, n) then At(n + 1, s[n])
    else CommentSkip(s, n + 1, s[n], oldLine)
  }

  // ------------------------------------------------------------------ dispatch

  /** nextToken(): None is the null that ends the token stream. */
  function NextToken(s: seq<char>, table: SymbolTable, st: LexState): (r: (Option<Token>, LexState))
    requires Inv(s, st)
    decreases |s| - st.next, if st.atEOF then 0 else 1, 2
    ensures Inv(s, r.1) && st.next <= r.1.next
    ensures r.0.None? ==> r.1.atEOF && !r.1.sourceOpen
  {
    if st.atEOF then (None, Close(st))
    else
      match SkipSpace(s, st.next, st.ch)
      case Exhausted(c) => NextToken(s, table, st.(next := |s|, ch := c, atEOF := true))
      case At(n, c) => Dispatch(s, table, Start(s, st, n, c))
  }

  /** The dispatch of nextToken on the first character of the token; after a
      branch that printed a diagnostic, "return nextToken()". */
  function Dispatch(s: seq<char>, table: SymbolTable, st: LexState): (r: (Option<Token>, LexState))
    requires Inv(s, st) && !st.atEOF
    decreases |s| - st.next, 1, 1
    ensures Inv(s, r.1) && st.next <= r.1.next
    ensures r.0.None? ==> r.1.atEOF && !r.1.sourceOpen
  {
    var c := st.ch;
    if IsIdStart(c) then IdentifierScan(s, table, st)
    else if IsDigit(c) || c == '.' || c == '\'' || c == '"' then
      var r :=
        if IsDigit(c) then NumberScan(s, table, st)
        else if c == '.' then DotScan(s, table, st)
        else if c == '\'' then CharScan(s, table, st)
        else StringScan(s, table, st);
      if r.0.Some? then r else NextToken(s, table, r.1)
    else
      var (op, st2) := OperatorScan(s, table, st);
      MakeToken(s, table, op, st2)
  }

  /** makeToken(s): a comment skips to the next line and asks for the next
      token; a spelling not in the table reports "illegal character". */
  function MakeToken(s: seq<char>, table: SymbolTable, spelling: string, st: LexState): (r: (Option<Token>, LexState))
    requires Inv(s, st) && st.diagnostics == []
    decreases |s| - st.next, 1, 0
    ensures Inv(s, r.1) && st.next <= r.1.next
    ensures r.0.None? ==> r.1.atEOF && !r.1.sourceOpen
  {
    if spelling == "//" then
      match CommentSkip(s, st.next, st.ch, LineAt(s, st.next - 1))
      case Exhausted(c) => NextToken(s, table, st.(next := |s|, ch := c, atEOF := true))
      case At(n, c) => NextToken(s, table, st.(next := n, ch := c))
    else
      match Probe(table, spelling)
      case None => NextToken(s, table, st.(atEOF := true, diagnostics := st.diagnostics + [IllegalCharacter(spelling)]))
      case Some(sym) => (Some(Token(st.startPosition, st.endPosition, st.lineNum, sym)), st)
  }
}
