/**
 * Tokens and the symbol table they are interned in. The table holds the
 * spellings seeded before scanning starts (operators, separators, the comment
 * opener and reserved words), each with its own kind.
 */
module Tokens {
  import opened Wrappers

  /** The token kinds: the literal classes, plus one kind per spelling the
      token table declares (an operator, a separator or a reserved word). */
  datatype Kind = Identifier | INTeger | Float | ScientificN | Char | String | Declared(name: string)

  /** An interned spelling with its kind. */
  datatype Symbol = Symbol(spelling: string, kind: Kind)

  /** A token: first and last column, line, symbol. */
  datatype Token = Token(leftPosition: int, rightPosition: int, lineNum: int, symbol: Symbol)

  /** The pre-seeded spellings and their kinds. */
  type SymbolTable = map<string, Kind>

  /** Symbol.symbol(s, BogusToken): looks the spelling up without inserting it. */
  function Probe(table: SymbolTable, s: string): (sym: Option<Symbol>)
    ensures sym.Some? <==> s in table
    ensures sym.Some? ==> sym.value == Symbol(s, table[s])
  {
    if s in table then Some(Symbol(s, table[s])) else None
  }

  /** Symbol.symbol(s, kind): a seeded spelling keeps its seeded kind; any other
      spelling gets the proposed kind. */
  function Intern(table: SymbolTable, s: string, proposed: Kind): (sym: Symbol)
    ensures sym.spelling == s
    ensures s in table ==> sym.kind == table[s]
    ensures s !in table ==> sym.kind == proposed
  {
    Symbol(s, if s in table then table[s] else proposed)
  }

  /** newIdToken: an identifier, or the reserved word the spelling is seeded as. */
  function NewIdToken(table: SymbolTable, id: string, startPosition: int, endPosition: int, lineNum: int): (t: Token)
    ensures t.symbol.spelling == id && t.leftPosition == startPosition && t.rightPosition == endPosition && t.lineNum == lineNum
    ensures id in table ==> t.symbol.kind == table[id]
    ensures id !in table ==> t.symbol.kind == Identifier
  {
    Token(startPosition, endPosition, lineNum, Intern(table, id, Identifier))
  }

  /** newNumberToken: an integer numeral. */
  function NewNumberToken(table: SymbolTable, number: string, startPosition: int, endPosition: int, lineNum: int): (t: Token)
    ensures t.symbol.spelling == number && t.leftPosition == startPosition && t.rightPosition == endPosition && t.lineNum == lineNum
    ensures number in table ==> t.symbol.kind == table[number]
    ensures number !in table ==> t.symbol.kind == INTeger
  {
    Token(startPosition, endPosition, lineNum, Intern(table, number, INTeger))
  }

  /** newFloatToken: a numeral with a fraction. */
  function NewFloatToken(table: SymbolTable, number: string, startPosition: int, endPosition: int, lineNum: int): (t: Token)
    ensures t.symbol.spelling == number && t.leftPosition == startPosition && t.rightPosition == endPosition && t.lineNum == lineNum
    ensures number in table ==> t.symbol.kind == table[number]
    ensures number !in table ==> t.symbol.kind == Float
  {
    Token(startPosition, endPosition, lineNum, Intern(table, number, Float))
  }

  /** newSciNumToken: a numeral with an exponent. */
  function NewSciNumToken(table: SymbolTable, number: string, startPosition: int, endPosition: int, lineNum: int): (t: Token)
    ensures t.symbol.spelling == number && t.leftPosition == startPosition && t.rightPosition == endPosition && t.lineNum == lineNum
    ensures number in table ==> t.symbol.kind == table[number]
    ensures number !in table ==> t.symbol.kind == ScientificN
  {
    Token(startPosition, endPosition, lineNum, Intern(table, number, ScientificN))
  }

  /** newCharToken: a character literal. */
  function NewCharToken(table: SymbolTable, ch: string, startPosition: int, endPosition: int, lineNum: int): (t: Token)
    ensures t.symbol.spelling == ch && t.leftPosition == startPosition && t.rightPosition == endPosition && t.lineNum == lineNum
    ensures ch in table ==> t.symbol.kind == table[ch]
    ensures ch !in table ==> t.symbol.kind == Char
  {
    Token(startPosition, endPosition, lineNum, Intern(table, ch, Char))
  }

  /** newStrToken: a string literal. */
  function NewStrToken(table: SymbolTable, str: string, startPosition: int, endPosition: int, lineNum: int): (t: Token)
    ensures t.symbol.spelling == str && t.leftPosition == startPosition && t.rightPosition == endPosition && t.lineNum == lineNum
    ensures str in table ==> t.symbol.kind == table[str]
    ensures str !in table ==> t.symbol.kind == String
  {
    Token(startPosition, endPosition, lineNum, Intern(table, str, String))
  }
}
