/**
 * Symbols, character traits and the keyword table of the compiler.
 *
 * Every symbol is a single-bit flag in a 32-bit word, so that a follow set is
 * the bitwise union of its symbols and membership is a bitwise AND. The
 * character kinds live in high bits that no symbol uses, so one table entry
 * can carry either a kind or a punctuation symbol.
 */
module Symbols {

  // Symbols (symbol_t); kNul is the "invalid character" value and lies in no set.
  const Nul: bv32 := 0x0
  const Program: bv32 := 0x1
  const Begin: bv32 := 0x2
  const End: bv32 := 0x4
  const Ident: bv32 := 0x8
  const Number: bv32 := 0x10
  const Semicolon: bv32 := 0x20
  const Period: bv32 := 0x40
  const Eof: bv32 := 0x80

  /** The union of all symbols. */
  const AllSymbols: bv32 := 0xFF

  // Character kinds, chosen not to overlap with symbols.
  const Alpha: bv32 := 0x1000_0000
  const Digit: bv32 := 0x2000_0000
  const White: bv32 := 0x4000_0000

  /** The union of the three kinds. */
  const Kinds: bv32 := 0x7000_0000

  /** The value `fgetc` returns at end of input. */
  const EOF: int := -1
  const NL: int := 10

  /** Capacity of the identifier buffer, including the terminating NUL. */
  const IdLen: nat := 11
  const NumKw: nat := 3
  const Int32Max: int := 0x7fff_ffff

  /** True of the nine values a symbol can take. */
  predicate IsSymbol(s: bv32) {
    s == Nul || s == Program || s == Begin || s == End || s == Ident ||
    s == Number || s == Semicolon || s == Period || s == Eof
  }

  /** Membership of a symbol in a symbol set (a bit-union of symbols). */
  predicate In(s: bv32, fset: bv32) { s & fset != 0 }

  lemma PureUnion(s: bv32, a: bv32, b: bv32)
    ensures s & (a | b) != 0 <==> s & a != 0 || s & b != 0
  {
  }

  /** A symbol is in a union of sets exactly when it is in one of them. */
  lemma InUnion(s: bv32, a: bv32, b: bv32)
    ensures In(s, a | b) <==> In(s, a) || In(s, b)
  {
    PureUnion(s, a, b);
  }

  /**
   * The trait table: kind or punctuation symbol of each character code.
   * Codes 0..127 follow the 128-entry table of the source; EOF and codes
   * outside 0..127, which the source looks up out of bounds, have no traits.
   */
  function Traits(c: int): (t: bv32)
    ensures t == Nul || t == White || t == Digit || t == Alpha || t == Period || t == Semicolon
    ensures (t & Kinds != 0) ==> (t & AllSymbols == 0)
    ensures (t & AllSymbols != 0) <==> (c == 46 || c == 59)
    ensures (t & White != 0) <==> ((9 <= c <= 13) || c == 32)
    ensures (t & Digit != 0) <==> (48 <= c <= 57)
    ensures (t & Alpha != 0) <==> ((65 <= c <= 90) || (97 <= c <= 122))
    ensures t == Nul <==> !((9 <= c <= 13) || c == 32 || c == 46 || c == 59 ||
                            (48 <= c <= 57) || (65 <= c <= 90) || (97 <= c <= 122))
  {
    if 9 <= c <= 13 || c == 32 then White
    else if c == 46 then Period
    else if 48 <= c <= 57 then Digit
    else if c == 59 then Semicolon
    else if 65 <= c <= 90 || 97 <= c <= 122 then Alpha
    else Nul
  }

  predicate IsWhite(c: int) { Traits(c) & White != 0 }
  predicate IsAlpha(c: int) { Traits(c) & Alpha != 0 }
  predicate IsDigit(c: int) { Traits(c) & Digit != 0 }
  predicate IsAlnum(c: int) { Traits(c) & (Alpha | Digit) != 0 }

  /**
   * The symbol of a single character: its traits with the kind bits masked
   * off. Only '.' and ';' have one; every other character yields Nul.
   */
  function SymbolOf(c: int): (s: bv32)
    ensures s & Kinds == 0
    ensures s == Period <==> c == 46
    ensures s == Semicolon <==> c == 59
    ensures s == Nul <==> (c != 46 && c != 59)
  {
    Traits(c) & !(Alpha | Digit | White)
  }

  /** Character codes of a string. */
  function Bytes(s: string): (r: seq<int>)
    ensures |r| == |s| && forall i :: 0 <= i < |s| ==> r[i] == s[i] as int
  {
    seq(|s|, i requires 0 <= i < |s| => s[i] as int)
  }

  /** The reserved words and, at the same index, their symbols. */
  const Keywords: seq<seq<int>> := [Bytes("Begin"), Bytes("End"), Bytes("Program")]
  const KeywordSyms: seq<bv32> := [Begin, End, Program]

  /**
   * The symbol of an identifier text: a keyword's symbol on an exact,
   * case-sensitive match of the whole text, Ident otherwise.
   */
  function KeywordSym(id: seq<int>): (s: bv32)
    ensures s == Begin <==> id == Bytes("Begin")
    ensures s == End <==> id == Bytes("End")
    ensures s == Program <==> id == Bytes("Program")
    ensures s == Ident <==> id !in Keywords
    ensures s == Begin || s == End || s == Program || s == Ident
  {
    if id == Keywords[0] then KeywordSyms[0]
    else if id == Keywords[1] then KeywordSyms[1]
    else if id == Keywords[2] then KeywordSyms[2]
    else Ident
  }

  /** Keyword matching is case-sensitive: a lower-case spelling is an identifier. */
  lemma LowerCaseIsIdent()
    ensures KeywordSym(Bytes("begin")) == Ident
    ensures KeywordSym(Bytes("end")) == Ident
    ensures KeywordSym(Bytes("PROGRAM")) == Ident
  {
    assert Bytes("begin")[0] != Bytes("Begin")[0];
    assert Bytes("end")[0] != Bytes("End")[0];
    assert Bytes("PROGRAM")[1] != Bytes("Program")[1];
  }
}
