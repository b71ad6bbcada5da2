/**
 * The numeral branch of nextToken(). The loop takes digits, signs, at most
 * one '.', and exponent markers followed by a sign or digit; each accepted
 * marker is spelled as the numeral's first digit. The kind is Float when the
 * '.' was taken, ScientificN when a marker was accepted without one, INTeger
 * otherwise.
 */
module NumeralProps {
  import opened Wrappers
  import opened CharClass
  import opened Tokens
  import opened ScanSpec
  import opened WhitespaceProps

  /** A character a numeral can consume. */
  predicate NumeralChar(c: char) {
    IsSignOrDigit(c) || c == '.' || IsMarker(c)
  }

  /** The spelling the loop builds from the characters s[b..j] it consumed:
      every exponent marker is replaced by the first digit. */
  function SpellingOf(s: seq<char>, first: char, b: nat, j: nat): (r: string)
    requires b <= j <= |s|
    decreases j - b
    ensures |r| == j - b
  {
    if j == b then [] else SpellingOf(s, first, b, j - 1) + [if IsMarker(s[j - 1]) then first else s[j - 1]]
  }

  /** Some exponent marker lies in s[b..j]. */
  predicate MarkerIn(s: seq<char>, b: nat, j: nat)
    requires b <= j <= |s|
    decreases j - b
  {
    j > b && (MarkerIn(s, b, j - 1) || IsMarker(s[j - 1]))
  }

  /** The number of '.' in s[b..j]. */
  function Dots(s: seq<char>, b: nat, j: nat): nat
    requires b <= j <= |s|
    decreases j - b
  {
    if j == b then 0 else Dots(s, b, j - 1) + (if s[j - 1] == '.' then 1 else 0)
  }

  /** s[b..j] holds only numeral characters, and every marker in it is
      followed by a sign or a digit. */
  predicate Numeric(s: seq<char>, b: nat, j: nat)
    requires b <= j <= |s|
    decreases j - b
  {
    j == b
    || (Numeric(s, b, j - 1) && NumeralChar(s[j - 1])
        && (IsMarker(s[j - 1]) ==> j < |s| && IsSignOrDigit(s[j])))
  }

  /** The loop variables describe the numeral that starts at index b with the
      characters before the current one taken: the buffer spells them, the
      last column counts them, fl records the one '.' and sciNum the accepted
      markers. */
  predicate Taken(s: seq<char>, b: nat, base: int, first: char, ns: Numeral) {
    b < ns.next <= |s| && ns.ch == s[ns.next - 1] && first == s[b] && IsDigit(first)
    && ns.text == SpellingOf(s, first, b, ns.next - 1)
    && ns.end == base + (ns.next - 1 - b)
    && Numeric(s, b, ns.next - 1)
    && Dots(s, b, ns.next - 1) == (if ns.fl then 1 else 0)
    && (ns.sci <==> MarkerIn(s, b, ns.next - 1))
  }

  /** Where a numeral that stopped with the cursor at `next` ends: the
      character before the current one, or the last one at the end of input. */
  function ConsumedTo(s: seq<char>, next: nat, eof: bool): nat
    requires 1 <= next <= |s|
  {
    if eof then |s| else next - 1
  }

  /** Where its spelling ends: a marker read last is not spelled. */
  function SpeltTo(s: seq<char>, next: nat, ch: char, eof: bool): nat
    requires 1 <= next <= |s|
  {
    if eof && IsMarker(ch) then |s| - 1 else ConsumedTo(s, next, eof)
  }

  /** Where the loop stopped without an error. Without the end of input, the
      current character ends the numeral: it cannot continue it. At the end of
      the input everything was consumed, but a final marker is not spelled,
      and a final '.' is spelled without fl being set. */
  predicate Ended(s: seq<char>, b: nat, base: int, first: char, ns: Numeral, eof: bool) {
    b < ns.next <= |s| && ns.ch == s[ns.next - 1] && first == s[b] && IsDigit(first)
    && (eof ==> ns.next == |s|)
    && var kept := SpeltTo(s, ns.next, ns.ch, eof);
       b < kept
       && ns.text == SpellingOf(s, first, b, kept)
       && ns.end == base + (ConsumedTo(s, ns.next, eof) - b)
       && Numeric(s, b, kept)
       && Dots(s, b, kept) == (if ns.fl || (eof && ns.ch == '.') then 1 else 0)
       && !(ns.fl && eof && ns.ch == '.')
       && (ns.sci <==> MarkerIn(s, b, kept))
       && (!eof ==> !IsSignOrDigit(ns.ch) && !IsMarker(ns.ch) && (ns.ch == '.' ==> ns.fl))
  }

  /** What the loop leads to after a pass: another pass from a Taken state
      on a sign or digit, an end described by Ended, or a marker that no sign
      or digit follows. */
  predicate Outcome(s: seq<char>, b: nat, base: int, first: char, r: NumStep) {
    match r
    case Again(ns) => Taken(s, b, base, first, ns) && IsSignOrDigit(ns.ch)
    case Stop(ns, eof) => Ended(s, b, base, first, ns, eof)
    case BadExponent(ns) =>
      b + 2 <= ns.next <= |s| && IsMarker(s[ns.next - 2]) && ns.ch == s[ns.next - 1] && !IsSignOrDigit(ns.ch)
  }

  /** A character that cannot continue the numeral ends it. */
  lemma TakenEnds(s: seq<char>, b: nat, base: int, first: char, ns: Numeral)
    requires Taken(s, b, base, first, ns)
    requires !IsSignOrDigit(ns.ch) && !IsMarker(ns.ch) && (ns.ch == '.' ==> ns.fl)
    ensures Ended(s, b, base, first, ns, false)
  {
  }

  /** A marker read last counts as a column but is not spelled. */
  lemma MarkerAtEnd(s: seq<char>, b: nat, base: int, first: char, ns: Numeral)
    requires Taken(s, b, base, first, ns) && IsMarker(ns.ch) && ns.next == |s|
    ensures Ended(s, b, base, first, ns.(end := ns.end + 1), true)
  {
  }

  /** A marker followed by a sign or digit is taken, spelled as the first digit. */
  lemma MarkerAccepted(s: seq<char>, b: nat, base: int, first: char, ns: Numeral)
    requires Taken(s, b, base, first, ns)
    requires IsMarker(ns.ch) && ns.next < |s| && IsSignOrDigit(s[ns.next])
    ensures Taken(s, b, base, first,
      ns.(next := ns.next + 1, ch := s[ns.next], end := ns.end + 1, text := ns.text + [first], sci := true))
  {
  }

  /** The exponent check, after the character following the taken ones was
      read: an accepted marker continues the loop when a sign or digit follows
      it, a rejected one is the "Digit error", and a character that is not a
      marker ends the numeral unless it is a sign or digit. */
  lemma ExponentKeeps(s: seq<char>, b: nat, base: int, first: char, ns: Numeral)
    requires Taken(s, b, base, first, ns)
    requires ns.ch == '.' ==> ns.fl
    ensures Outcome(s, b, base, first, Exponent(s, first, ns))
  {
    if IsMarker(ns.ch) {
      if ns.next == |s| {
        MarkerAtEnd(s, b, base, first, ns);
        assert Exponent(s, first, ns) == Stop(ns.(end := ns.end + 1), true);
      } else if IsSignOrDigit(s[ns.next]) {
        var ns1 := ns.(next := ns.next + 1, ch := s[ns.next], end := ns.end + 1, text := ns.text + [first], sci := true);
        MarkerAccepted(s, b, base, first, ns);
        assert Exponent(s, first, ns) == Again(ns1);
      } else {
        assert Exponent(s, first, ns) == BadExponent(ns.(next := ns.next + 1, ch := s[ns.next], end := ns.end + 1));
      }
    } else if IsSignOrDigit(ns.ch) {
      assert Exponent(s, first, ns) == Again(ns);
    } else {
      TakenEnds(s, b, base, first, ns);
      assert Exponent(s, first, ns) == Stop(ns, false);
    }
  }

  /** A pass at the end of the input takes the current sign or digit and ends. */
  lemma StepAtEnd(s: seq<char>, b: nat, base: int, first: char, ns: Numeral)
    requires Taken(s, b, base, first, ns) && IsSignOrDigit(ns.ch) && ns.next == |s|
    ensures Outcome(s, b, base, first, NumeralStep(s, first, ns))
  {
    assert NumeralStep(s, first, ns) == Stop(ns.(text := ns.text + [ns.ch], end := ns.end + 1), true);
  }

  /** A pass that meets the first '.' takes it and the character after it,
      then checks for an exponent; when the input ends at the '.', fl stays
      unset. */
  lemma StepDot(s: seq<char>, b: nat, base: int, first: char, ns: Numeral)
    requires Taken(s, b, base, first, ns) && IsSignOrDigit(ns.ch)
    requires ns.next < |s| && s[ns.next] == '.' && !ns.fl
    ensures Outcome(s, b, base, first, NumeralStep(s, first, ns))
  {
    var text := ns.text + [ns.ch] + ['.'];
    assert Dots(s, b, ns.next) == Dots(s, b, ns.next - 1);
    assert MarkerIn(s, b, ns.next) == MarkerIn(s, b, ns.next - 1);
    assert MarkerIn(s, b, ns.next + 1) == MarkerIn(s, b, ns.next - 1);
    assert Dots(s, b, ns.next + 1) == 1;
    assert Numeric(s, b, ns.next);
    if ns.next + 1 < |s| {
      var ns1 := Numeral(ns.next + 2, s[ns.next + 1], text, ns.end + 2, true, ns.sci);
      assert Taken(s, b, base, first, ns1);
      ExponentKeeps(s, b, base, first, ns1);
      assert NumeralStep(s, first, ns) == Exponent(s, first, ns1);
    } else {
      assert NumeralStep(s, first, ns) == Stop(Numeral(ns.next + 1, '.', text, ns.end + 2, false, ns.sci), true);
    }
  }

  /** Any other pass takes the current sign or digit, reads one character and
      checks for an exponent. */
  lemma StepPlain(s: seq<char>, b: nat, base: int, first: char, ns: Numeral)
    requires Taken(s, b, base, first, ns) && IsSignOrDigit(ns.ch)
    requires ns.next < |s| && !(s[ns.next] == '.' && !ns.fl)
    ensures Outcome(s, b, base, first, NumeralStep(s, first, ns))
  {
    var ns1 := Numeral(ns.next + 1, s[ns.next], ns.text + [ns.ch], ns.end + 1, ns.fl, ns.sci);
    assert Taken(s, b, base, first, ns1);
    ExponentKeeps(s, b, base, first, ns1);
    assert NumeralStep(s, first, ns) == Exponent(s, first, ns1);
  }

  /** One pass of the loop body keeps Taken until the loop ends. */
  lemma NumeralStepKeeps(s: seq<char>, b: nat, base: int, first: char, ns: Numeral)
    requires Taken(s, b, base, first, ns) && IsSignOrDigit(ns.ch)
    ensures Outcome(s, b, base, first, NumeralStep(s, first, ns))
  {
    if ns.next == |s| {
      StepAtEnd(s, b, base, first, ns);
    } else if s[ns.next] == '.' && !ns.fl {
      StepDot(s, b, base, first, ns);
    } else {
      StepPlain(s, b, base, first, ns);
    }
  }

  /** The loop run to its end: it stops where Ended says, or on a marker that
      is not followed by a sign or digit. */
  lemma {:induction false} NumeralRunEnds(s: seq<char>, b: nat, base: int, first: char, ns: Numeral)
    requires Taken(s, b, base, first, ns) && IsSignOrDigit(ns.ch)
    decreases |s| - ns.next
    ensures var r := NumeralRun(s, first, ns);
      !r.Again? && Outcome(s, b, base, first, r)
  {
    NumeralStepKeeps(s, b, base, first, ns);
    var step := NumeralStep(s, first, ns);
    if step.Again? {
      NumeralRunEnds(s, b, base, first, step.ns);
    }
  }

  /** The numeral loop as nextToken() starts it, run to its end. */
  lemma NumeralFromStart(s: seq<char>, st: LexState)
    requires Inv(s, st) && !st.atEOF && IsDigit(st.ch)
    ensures Outcome(s, st.next - 1, st.endPosition, st.ch,
                    NumeralRun(s, st.ch, Numeral(st.next, st.ch, "", st.endPosition, false, false)))
  {
    var ns0 := Numeral(st.next, st.ch, "", st.endPosition, false, false);
    assert Taken(s, st.next - 1, st.endPosition, st.ch, ns0);
    NumeralRunEnds(s, st.next - 1, st.endPosition, st.ch, ns0);
  }

  /** A numeral with a marker that no sign or digit follows prints "Digit
      error" and gives up; this is the only way the branch fails. */
  lemma NumberError(s: seq<char>, table: SymbolTable, st: LexState)
    requires Inv(s, st) && !st.atEOF && IsDigit(st.ch)
    ensures var r := NumberScan(s, table, st);
      r.0.None? ==>
        r.1.diagnostics == [DigitError(st.lineNum)] && r.1.atEOF
        && st.next + 1 <= r.1.next && IsMarker(s[r.1.next - 2]) && !IsSignOrDigit(s[r.1.next - 1])
  {
    NumeralFromStart(s, st);
  }

  /** The numeral branch of nextToken() when it produces a token: the token
      spells the consumed characters with each accepted marker replaced by
      the first digit, its columns cover every consumed character, it holds
      at most one '.', and the character after it cannot continue it. Its kind
      is Float exactly when it holds a '.', except when the input ends at that
      '.'; ScientificN when it holds an accepted marker and is no Float;
      INTeger otherwise. */
  lemma NumberToken(s: seq<char>, table: SymbolTable, st: LexState)
    requires Inv(s, st) && !st.atEOF && IsDigit(st.ch)
    ensures var b := st.next - 1;
      var r := NumberScan(s, table, st);
      r.0.Some? ==>
         var tok := r.0.value;
         var spelling := tok.symbol.spelling;
         var eof := r.1.atEOF;
         var kept := SpeltTo(s, r.1.next, r.1.ch, eof);
         b < kept <= ConsumedTo(s, r.1.next, eof)
         && spelling == SpellingOf(s, st.ch, b, kept)
         && tok.leftPosition == st.startPosition && tok.lineNum == st.lineNum
         && tok.rightPosition == st.endPosition + (ConsumedTo(s, r.1.next, eof) - b)
         && Numeric(s, b, kept) && Dots(s, b, kept) <= 1
         && r.1.diagnostics == []
         && (!eof ==> r.1.ch == s[r.1.next - 1] && !IsSignOrDigit(r.1.ch) && !IsMarker(r.1.ch)
                      && (r.1.ch == '.' ==> '.' in spelling))
         && (spelling !in table ==>
               (tok.symbol.kind == Float <==> '.' in spelling && !(eof && r.1.ch == '.'))
               && (tok.symbol.kind == ScientificN <==> tok.symbol.kind != Float && MarkerIn(s, b, kept))
               && (tok.symbol.kind == INTeger <==> tok.symbol.kind != Float && !MarkerIn(s, b, kept)))
  {
    var b := st.next - 1;
    NumeralFromStart(s, st);
    var o := NumeralRun(s, st.ch, Numeral(st.next, st.ch, "", st.endPosition, false, false));
    if o.Stop? {
      var ns := o.ns;
      var kept := SpeltTo(s, ns.next, ns.ch, o.eof);
      DotsInSpelling(s, st.ch, b, kept);
      var kind := if ns.fl then Float else if ns.sci then ScientificN else INTeger;
      var r := NumberScan(s, table, st);
      assert r == (Some(Token(st.startPosition, ns.end, st.lineNum, Intern(table, ns.text, kind))),
                   Finish(st, Scanned(ns.text, ns.next, ns.ch, ns.end, o.eof)));
      assert r.1.next == ns.next && r.1.ch == ns.ch && r.1.atEOF == o.eof;
    }
  }

  /** Character i of the spelling is character b + i of the input, or the
      first digit in place of a marker. */
  lemma {:induction false} SpellingOfMeans(s: seq<char>, first: char, b: nat, j: nat)
    requires b <= j <= |s|
    decreases j - b
    ensures forall i :: 0 <= i < j - b ==>
      SpellingOf(s, first, b, j)[i] == if IsMarker(s[b + i]) then first else s[b + i]
  {
    if j > b {
      SpellingOfMeans(s, first, b, j - 1);
    }
  }

  /** A '.' in the spelling is a '.' consumed from the input: the first digit
      written for a marker is no '.'. */
  lemma {:induction false} DotsInSpelling(s: seq<char>, first: char, b: nat, j: nat)
    requires b <= j <= |s| && IsDigit(first)
    decreases j - b
    ensures '.' in SpellingOf(s, first, b, j) <==> Dots(s, b, j) > 0
  {
    if j > b {
      DotsInSpelling(s, first, b, j - 1);
    }
  }

  /** Numeric, stated over the positions of the range. */
  lemma {:induction false} NumericMeans(s: seq<char>, b: nat, j: nat)
    requires b <= j <= |s|
    decreases j - b
    ensures Numeric(s, b, j) <==>
      (forall k :: b <= k < j ==> NumeralChar(s[k]))
      && (forall k :: b <= k < j && IsMarker(s[k]) ==> k + 1 < |s| && IsSignOrDigit(s[k + 1]))
  {
    if j > b {
      NumericMeans(s, b, j - 1);
    }
  }

  /** MarkerIn, stated over the positions of the range. */
  lemma {:induction false} MarkerInMeans(s: seq<char>, b: nat, j: nat)
    requires b <= j <= |s|
    decreases j - b
    ensures MarkerIn(s, b, j) <==> exists k :: b <= k < j && IsMarker(s[k])
  {
    if j > b {
      MarkerInMeans(s, b, j - 1);
    }
  }
}
