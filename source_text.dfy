/**
 * Positions in the source text. The character source reports, for the
 * character it returned last, its line (from 1) and its column (from 1); here
 * both are derived from the character's index in the input.
 */
module SourceText {

  /** The line of the character at index i: one more than the line feeds before it. */
  function LineAt(s: seq<char>, i: nat): (line: nat)
    requires i <= |s|
    ensures 1 <= line <= i + 1
  {
    if i == 0 then 1 else LineAt(s, i - 1) + (if s[i - 1] == '\n' then 1 else 0)
  }

  /** The column of the character at index i: one more than the characters
      between it and the line feed before it. */
  function ColumnAt(s: seq<char>, i: nat): (col: nat)
    requires i <= |s|
    ensures 1 <= col <= i + 1
  {
    if i == 0 || s[i - 1] == '\n' then 1 else ColumnAt(s, i - 1) + 1
  }

  /** Along a stretch without line feeds the line stays and the column moves
      one per character. */
  lemma {:induction false} SameLine(s: seq<char>, i: nat, j: nat)
    requires i <= j <= |s|
    requires forall k :: i <= k < j ==> s[k] != '\n'
    ensures LineAt(s, j) == LineAt(s, i)
    ensures ColumnAt(s, j) == ColumnAt(s, i) + (j - i)
  {
    if i < j {
      SameLine(s, i, j - 1);
    }
  }

  /** Two indices are on the same line exactly when no line feed lies between them. */
  lemma {:induction false} LineChangesAtLineFeed(s: seq<char>, i: nat, j: nat)
    requires i <= j <= |s|
    ensures LineAt(s, j) == LineAt(s, i) <==> forall k :: i <= k < j ==> s[k] != '\n'
  {
    if i < j {
      LineChangesAtLineFeed(s, i, j - 1);
      assert LineAt(s, i) <= LineAt(s, j - 1) by { LineMonotone(s, i, j - 1); }
    }
  }

  lemma {:induction false} LineMonotone(s: seq<char>, i: nat, j: nat)
    requires i <= j <= |s|
    ensures LineAt(s, i) <= LineAt(s, j)
  {
    if i < j {
      LineMonotone(s, i, j - 1);
    }
  }
}
