/**
 * Where a run of characters of one class ends. Every scanning loop of the
 * lexer reads such a run; the lemmas about the loops say what they return in
 * terms of the run's end.
 */
module Runs {

  /** The first index at or after i whose character is not in the class, or
      the length of the input when the run reaches the end. */
  function RunEnd(s: seq<char>, i: nat, inRun: char -> bool): (e: nat)
    requires i <= |s|
    decreases |s| - i
    ensures i <= e <= |s|
    ensures forall k :: i <= k < e ==> inRun(s[k])
    ensures e < |s| ==> !inRun(s[e])
  {
    if i == |s| || !inRun(s[i]) then i else RunEnd(s, i + 1, inRun)
  }

  /** Not a line feed: the characters a comment skips before the line ends. */
  predicate NotLineFeed(c: char) {
    c != '\n'
  }

  /** Neither a double quote nor a blank: what a string literal skips after
      its first character. */
  predicate InStringBody(c: char) {
    c != '"' && c != ' '
  }
}
