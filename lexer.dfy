/**
 * The Lexer class: the fields of the Java object and its methods, each proved
 * to leave the fields exactly as the matching ScanSpec function says. The
 * source file is the constant `input`, read through Read(); `next` counts the
 * characters read, and sourceOpen stands for the static `source` being
 * non-null.
 */
module Lexing {
  import opened Wrappers
  import opened CharClass
  import opened SourceText
  import opened Tokens
  import opened ScanSpec

  class Lexer {
    const input: seq<char>
    const table: SymbolTable
    var next: nat
    var ch: char
    var atEOF: bool
    var sourceOpen: bool
    var closes: nat
    var startPosition: int
    var endPosition: int
    var lineNum: int
    var diagnostics: seq<Diagnostic>

    /** The fields as a ScanSpec state. */
    function State(): LexState
      reads this
    {
      LexState(next, ch, atEOF, sourceOpen, closes, startPosition, endPosition, lineNum, diagnostics)
    }

    predicate Valid()
      reads this
    {
      Inv(input, State())
    }

    /** Lexer(sourceFile): open the source and read its first character. The
        Java constructor throws when that read fails; Open models that case. */
    constructor (source: seq<char>, tokenTable: SymbolTable)
      requires |source| > 0
      ensures Valid() && input == source && table == tokenTable
      ensures State() == Initial(source)
    {
      input, table := source, tokenTable;
      next, ch := 1, source[0];
      atEOF, sourceOpen, closes := false, true, 0;
      startPosition, endPosition, lineNum := 0, 0, 0;
      diagnostics := [];
    }

    /** source.read(): the next character, or the end-of-input signal, in
        which case ch is left as it was. */
    method Read() returns (ok: bool)
      modifies this`next, this`ch
      ensures ok == (old(next) < |input|)
      ensures ok ==> next == old(next) + 1 && ch == input[old(next)]
      ensures !ok ==> next == old(next) && ch == old(ch)
    {
      ok := next < |input|;
      if ok {
        ch := input[next];
        next := next + 1;
      }
    }

    /** nextToken(): the next token, or None (Java's null) once the input is
        exhausted or a diagnostic has been printed. */
    method NextToken() returns (tok: Option<Token>)
      requires Valid()
      modifies this
      decreases |input| - next, if atEOF then 0 else 1, 2
      ensures Valid()
      ensures (tok, State()) == ScanSpec.NextToken(input, table, old(State()))
    {
      if atEOF {
        if sourceOpen {
          sourceOpen, closes := false, closes + 1;
        }
        return None;
      }
      ghost var skip := SkipSpace(input, next, ch);
      while IsWhitespace(ch)
        invariant Cursor(input, next, ch) && old(next) <= next && !atEOF
        invariant SkipSpace(input, next, ch) == skip
        modifies this`next, this`ch, this`atEOF
        decreases |input| - next
      {
        var ok := Read();
        if !ok {
          atEOF := true;
          break;
        }
      }
      if atEOF {
        tok := NextToken();
        return;
      }
      startPosition := ColumnAt(input, next - 1);
      endPosition := startPosition - 1;
      lineNum := LineAt(input, next - 1);
      assert State() == Start(input, old(State()), next, ch);
      tok := Dispatch();
    }

    /** The dispatch of nextToken() on the first character of the token. */
    method Dispatch() returns (tok: Option<Token>)
      requires Valid() && !atEOF
      modifies this
      decreases |input| - next, 1, 1
      ensures Valid()
      ensures (tok, State()) == ScanSpec.Dispatch(input, table, old(State()))
    {
      if IsIdStart(ch) {
        var t := ScanIdentifier();
        return Some(t);
      }
      if IsDigit(ch) {
        tok := ScanNumber();
      } else if ch == '.' {
        tok := ScanDotFloat();
      } else if ch == '\'' {
        tok := ScanChar();
      } else if ch == '"' {
        tok := ScanString();
      } else {
        var op := ScanOperator();
        tok := MakeToken(op);
        return;
      }
      if tok.None? {
        tok := NextToken();
      }
    }

    /** The identifier branch of nextToken(). */
    method ScanIdentifier() returns (tok: Token)
      requires Valid() && !atEOF
      modifies this
      ensures (Some(tok), State()) == IdentifierScan(input, table, old(State()))
    {
      var id := "";
      ghost var run := IdentifierRun(input, next, ch, "", endPosition);
      while true
        invariant Cursor(input, next, ch) && !atEOF
        invariant IdentifierRun(input, next, ch, id, endPosition) == run
        modifies this`next, this`ch, this`endPosition, this`atEOF
        decreases |input| - next
      {
        endPosition := endPosition + 1;
        id := id + [ch];
        var ok := Read();
        if !ok {
          atEOF := true;
          break;
        }
        if !IsIdPart(ch) {
          break;
        }
      }
      tok := NewIdToken(table, id, startPosition, endPosition, lineNum);
    }

    /** The numeral branch of nextToken(); None after "Digit error". */
    method ScanNumber() returns (tok: Option<Token>)
      requires Valid() && !atEOF
      modifies this
      ensures (tok, State()) == NumberScan(input, table, old(State()))
    {
      var number, fl, sciNum, bad := NumeralLoop();
      if bad {
        return None;
      }
      if fl {
        tok := Some(NewFloatToken(table, number, startPosition, endPosition, lineNum));
      } else if sciNum {
        tok := Some(NewSciNumToken(table, number, startPosition, endPosition, lineNum));
      } else {
        tok := Some(NewNumberToken(table, number, startPosition, endPosition, lineNum));
      }
    }

    /** The do-while loop of the numeral branch: the buffer and the flags fl
        ('.' taken) and sciNum (exponent taken), or bad after "Digit error". */
    method NumeralLoop() returns (number: string, fl: bool, sciNum: bool, bad: bool)
      requires Valid() && !atEOF
      modifies this
      ensures var o := NumeralRun(input, old(ch), Numeral(old(next), old(ch), "", old(endPosition), false, false));
              var ns := Numeral(next, ch, number, endPosition, fl, sciNum);
              if bad then o == BadExponent(ns) && State() == Fail(old(State()), Scanned(number, next, ch, endPosition, false), DigitError(lineNum))
              else o == Stop(ns, atEOF) && State() == old(State()).(next := next, ch := ch, endPosition := endPosition, atEOF := atEOF)
    {
      fl, sciNum, bad := false, false, false;
      number := "";
      var tempCh := ch;
      ghost var run := NumeralRun(input, tempCh, Numeral(next, ch, "", endPosition, false, false));
      while true
        invariant Cursor(input, next, ch) && !atEOF && diagnostics == old(diagnostics)
        invariant NumeralRun(input, tempCh, Numeral(next, ch, number, endPosition, fl, sciNum)) == run
        modifies this`next, this`ch, this`endPosition, this`atEOF, this`diagnostics
        decreases |input| - next
      {
        var pass := NumeralPass(tempCh, number, fl, sciNum);
        number, fl, sciNum := pass.ns.text, pass.ns.fl, pass.ns.sci;
        if !pass.Again? {
          bad := pass.BadExponent?;
          return;
        }
      }
    }

    /** One pass of the numeral loop body: take ch, read, take a first '.',
        then the exponent check and the loop condition. */
    method NumeralPass(tempCh: char, number: string, fl: bool, sciNum: bool) returns (pass: NumStep)
      requires Cursor(input, next, ch) && !atEOF
      modifies this`next, this`ch, this`endPosition, this`atEOF, this`diagnostics
      ensures pass == NumeralStep(input, tempCh, Numeral(old(next), old(ch), number, old(endPosition), fl, sciNum))
      ensures next == pass.ns.next && ch == pass.ns.ch && endPosition == pass.ns.end
      ensures atEOF == (pass.BadExponent? || (pass.Stop? && pass.eof)) && diagnostics == old(diagnostics) + (if pass.BadExponent? then [DigitError(lineNum)] else [])
    {
      var text := number + [ch];
      endPosition := endPosition + 1;
      var ok := Read();
      if !ok {
        atEOF := true;
        return Stop(Numeral(next, ch, text, endPosition, fl, sciNum), true);
      }
      var taken := fl;
      if ch == '.' && !fl {
        endPosition := endPosition + 1;
        text := text + [ch];
        ok := Read();
        if !ok {
          atEOF := true;
          return Stop(Numeral(next, ch, text, endPosition, fl, sciNum), true);
        }
        taken := true;
      }
      pass := ExponentCheck(tempCh, text, taken, sciNum);
    }

    /** The exponent check and the loop condition of the numeral loop body. */
    method ExponentCheck(tempCh: char, number: string, fl: bool, sciNum: bool) returns (pass: NumStep)
      requires Cursor(input, next, ch) && !atEOF
      modifies this`next, this`ch, this`endPosition, this`atEOF, this`diagnostics
      ensures pass == Exponent(input, tempCh, Numeral(old(next), old(ch), number, old(endPosition), fl, sciNum))
      ensures next == pass.ns.next && ch == pass.ns.ch && endPosition == pass.ns.end
      ensures atEOF == (pass.BadExponent? || (pass.Stop? && pass.eof)) && diagnostics == old(diagnostics) + (if pass.BadExponent? then [DigitError(lineNum)] else [])
    {
      var text, sci := number, sciNum;
      if ch == 'e' || ch == 'E' {
        endPosition := endPosition + 1;
        var ok := Read();
        if !ok {
          atEOF := true;
          return Stop(Numeral(next, ch, text, endPosition, fl, sci), true);
        }
        if ch == '+' || ch == '-' || IsDigit(ch) {
          text := text + [tempCh];
          sci := true;
        } else {
          // the guard (ch != 'e' || ch != 'E') of the source always holds
          diagnostics := diagnostics + [DigitError(lineNum)];
          atEOF := true;
          return BadExponent(Numeral(next, ch, text, endPosition, fl, sci));
        }
      }
      var ns := Numeral(next, ch, text, endPosition, fl, sci);
      if IsDigit(ch) || ch == '+' || ch == '-' {
        return Again(ns);
      }
      return Stop(ns, false);
    }

    /** The leading-dot branch of nextToken(); None after "Float error". */
    method ScanDotFloat() returns (tok: Option<Token>)
      requires Valid() && !atEOF
      modifies this
      ensures (tok, State()) == DotScan(input, table, old(State()))
    {
      var number := "";
      var isFloat := false;
      ghost var run := DotRun(input, next, ch, "", endPosition, false, lineNum);
      while true
        invariant Cursor(input, next, ch) && !atEOF && diagnostics == old(diagnostics)
        invariant DotRun(input, next, ch, number, endPosition, isFloat, lineNum) == run
        modifies this`next, this`ch, this`endPosition, this`atEOF, this`diagnostics
        decreases |input| - next
      {
        endPosition := endPosition + 1;
        number := number + [ch];
        var ok := Read();
        if !ok {
          atEOF := true;
          break;
        }
        if (ch == 'e' || ch == 'E' || ch == '.' || ch == ' ') && !isFloat {
          diagnostics := diagnostics + [FloatError(lineNum)];
          atEOF := true;
          return None;
        }
        isFloat := true;
        if !IsDigit(ch) {
          break;
        }
      }
      tok := Some(NewFloatToken(table, number, startPosition, endPosition, lineNum));
    }

    /** The character-literal branch of nextToken(); None after "Missing single
        quote" or "Multiple char". */
    method ScanChar() returns (tok: Option<Token>)
      requires Valid() && !atEOF
      modifies this
      ensures (tok, State()) == CharScan(input, table, old(State()))
    {
      var tempChar := "";
      var isChar := false;
      ghost var run := CharRun(input, next, ch, "", endPosition, false, lineNum);
      while true
        invariant Cursor(input, next, ch) && !atEOF && diagnostics == old(diagnostics)
        invariant CharRun(input, next, ch, tempChar, endPosition, isChar, lineNum) == run
        modifies this`next, this`ch, this`endPosition, this`atEOF, this`diagnostics
        decreases |input| - next
      {
        var ok := Read();
        if !ok {
          atEOF := true;
          break;
        }
        if ch != '\'' && !isChar {
          endPosition := endPosition + 1;
          tempChar := tempChar + [ch];
          isChar := true;
        } else if ch == ' ' {
          diagnostics := diagnostics + [MissingSingleQuote(lineNum)];
          atEOF := true;
          return None;
        } else if isChar && ch != '\'' && ch != ' ' {
          diagnostics := diagnostics + [MultipleChar(lineNum)];
          atEOF := true;
          return None;
        }
        if ch == '\'' {
          break;
        }
      }
      ch := ' ';
      tok := Some(NewCharToken(table, tempChar, startPosition, endPosition, lineNum));
    }

    /** The string-literal branch of nextToken(); None after "Missing double
        quote". */
    method ScanString() returns (tok: Option<Token>)
      requires Valid() && !atEOF
      modifies this
      ensures (tok, State()) == StringScan(input, table, old(State()))
    {
      var str := "";
      var isStr := false;
      ghost var run := StringRun(input, next, ch, "", endPosition, false, lineNum);
      while true
        invariant Cursor(input, next, ch) && !atEOF && diagnostics == old(diagnostics)
        invariant StringRun(input, next, ch, str, endPosition, isStr, lineNum) == run
        modifies this`next, this`ch, this`endPosition, this`atEOF, this`diagnostics
        decreases |input| - next
      {
        var ok := Read();
        if !ok {
          atEOF := true;
          break;
        }
        if ch != '"' && !isStr {
          endPosition := endPosition + 1;
          str := str + [ch];
          isStr := true;
        } else if ch == ' ' {
          diagnostics := diagnostics + [MissingDoubleQuote(lineNum)];
          atEOF := true;
          return None;
        }
        if ch == '"' {
          break;
        }
      }
      tok := Some(NewStrToken(table, str, startPosition, endPosition, lineNum));
    }

    /** The one- or two-character part of nextToken(): the spelling to hand to
        makeToken. */
    method ScanOperator() returns (op: string)
      requires Valid() && !atEOF
      modifies this
      ensures (op, State()) == OperatorScan(input, table, old(State()))
    {
      var charOld := [ch];
      op := charOld;
      endPosition := endPosition + 1;
      var ok := Read();
      if ok {
        op := op + [ch];
        if Probe(table, op).None? {
          return charOld;
        }
        endPosition := endPosition + 1;
        ok := Read();
        if ok {
          return op;
        }
      }
      atEOF := true;
      if startPosition == endPosition {
        op := charOld;
      }
    }

    /** makeToken(s): skip a comment, reject an illegal spelling, or build the
        token for an operator or separator. */
    method MakeToken(s: string) returns (tok: Option<Token>)
      requires Valid() && diagnostics == []
      modifies this
      decreases |input| - next, 1, 0
      ensures Valid()
      ensures (tok, State()) == ScanSpec.MakeToken(input, table, s, old(State()))
    {
      if s == "//" {
        var oldLine := LineAt(input, next - 1);
        ghost var skip := CommentSkip(input, next, ch, oldLine);
        while true
          invariant Cursor(input, next, ch) && old(next) <= next && atEOF == old(atEOF)
          invariant CommentSkip(input, next, ch, oldLine) == skip
          invariant skip.At? ==> next < skip.next
          modifies this`next, this`ch, this`atEOF
          decreases |input| - next
        {
          var ok := Read();
          if !ok {
            atEOF := true;
            break;
          }
          if oldLine != LineAt(input, next - 1) {
            break;
          }
        }
        tok := NextToken();
        return;
      }
      var sym := Probe(table, s);
      if sym.None? {
        diagnostics := diagnostics + [IllegalCharacter(s)];
        atEOF := true;
        tok := NextToken();
        return;
      }
      tok := Some(Token(startPosition, endPosition, lineNum, sym.value));
    }
  }

  /** Constructing a Lexer over an empty source fails (the first read throws);
      None stands for that exception. */
  method Open(source: seq<char>, tokenTable: SymbolTable) returns (lex: Option<Lexer>)
    ensures lex.None? <==> |source| == 0
    ensures lex.Some? ==>
              fresh(lex.value) && lex.value.Valid() && lex.value.input == source
              && lex.value.table == tokenTable && !lex.value.atEOF && lex.value.sourceOpen
  {
    if |source| == 0 {
      return None;
    }
    var l := new Lexer(source, tokenTable);
    return Some(l);
  }
}
