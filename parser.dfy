/**
 * The parser as a reference: recursive descent with panic-mode recovery
 * over the symbol stream, as functions from a position in the stream to
 * the position reached, the errors recorded and the lines emitted.
 */
module Parser {
  import opened Symbols
  import opened Lines
  import opened Scanner

  /**
   * The effect of parsing from some position: the position of the lookahead
   * symbol reached, the categories recorded and the values loaded, one per
   * expression, in order.
   */
  datatype Parse = Parse(i: nat, errs: set<int>, loads: seq<int>) {
    /** This effect followed by `b`. */
    function Then(b: Parse): Parse {
      Parse(b.i, errs + b.errs, loads + b.loads)
    }
  }

  /** A symbol stream ended by Eof; every follow set holds Eof, so parsing stops there at the latest. */
  predicate Tokens(ts: seq<Tok>) {
    |ts| >= 1 && ts[|ts| - 1].sym == Eof
  }

  /** The lexical categories recorded by reading the symbols at positions i+1..j. */
  function LexRange(ts: seq<Tok>, i: nat, j: nat): (r: set<int>)
    requires j < |ts|
    decreases j - i
    ensures r <= {1, 9}
  {
    if i >= j then {} else Lex(ts[i + 1]) + LexRange(ts, i + 1, j)
  }

  /** Reading the next symbol. */
  function Advance(ts: seq<Tok>, i: nat): (r: Parse)
    requires Tokens(ts) && i < |ts| && ts[i].sym != Eof
    ensures r.i == i + 1 < |ts| && r.loads == [] && r.errs <= {1, 9}
  {
    Parse(i + 1, Lex(ts[i + 1]), [])
  }

  /**
   * Synchronisation: delete symbols, recording category 11, until the
   * lookahead is in the follow set, which must contain Eof.
   */
  function TestF(ts: seq<Tok>, i: nat, fset: set<bv32>): (r: Parse)
    requires Tokens(ts) && i < |ts| && Eof in fset
    decreases |ts| - i
    ensures i <= r.i < |ts| && ts[r.i].sym in fset
    ensures r.loads == [] && r.errs <= {1, 9, 11}
  {
    if ts[i].sym in fset then Parse(i, {}, [])
    else Parse(i, {11}, []).Then(Advance(ts, i)).Then(TestF(ts, i + 1, fset))
  }

  /** One deletion: a lookahead outside the follow set records 11 and the categories of reading the next symbol. */
  lemma TestDeletes(ts: seq<Tok>, i: nat, fset: set<bv32>)
    requires Tokens(ts) && i < |ts| && Eof in fset && ts[i].sym !in fset
    ensures i + 1 < |ts| && TestF(ts, i, fset).i == TestF(ts, i + 1, fset).i
    ensures TestF(ts, i, fset).errs == {11} + Lex(ts[i + 1]) + TestF(ts, i + 1, fset).errs
  {
  }

  /** Accept the expected symbol, or record `e` as its insertion and consume nothing. */
  function ExpectF(ts: seq<Tok>, i: nat, exp: bv32, e: int): (r: Parse)
    requires Tokens(ts) && i < |ts| && exp != Eof
    ensures i <= r.i < |ts| && r.loads == [] && r.errs <= {1, 9, e}
  {
    if ts[i].sym == exp then Advance(ts, i) else Parse(i, {e}, [])
  }

  /**
   * Expression = number. The value loaded is the number last scanned after
   * advancing past this one: the next symbol's value when it is a number as
   * well, this one's otherwise.
   */
  function ExpressionF(ts: seq<Tok>, i: nat, fset: set<bv32>): (r: Parse)
    requires Tokens(ts) && i < |ts| && Eof in fset
    ensures i <= r.i < |ts| && ts[r.i].sym in fset
    ensures |r.loads| <= 1 && r.errs <= {1, 9, 11, 12}
    ensures ts[i].sym == Number ==> |r.loads| == 1 && 12 !in r.errs
  {
    var t := TestF(ts, i, {Number} + fset);
    if ts[t.i].sym == Number then
      var v := if ts[t.i + 1].sym == Number then ts[t.i + 1].num else ts[t.i].num;
      t.Then(Parse(t.i + 1, Lex(ts[t.i + 1]), [v])).Then(TestF(ts, t.i + 1, fset))
    else
      t.Then(Parse(t.i, {12}, []))
  }

  /** An expression that starts at a number consumes it. */
  lemma ExpressionAdvances(ts: seq<Tok>, i: nat, fset: set<bv32>)
    requires Tokens(ts) && i < |ts| && Eof in fset && ts[i].sym == Number
    ensures ExpressionF(ts, i, fset).i > i
  {
    TestStays(ts, i, {Number} + fset);
  }

  /** The loop of Block: one expression and ";" per number, until the lookahead is not a number. */
  function BlockLoopF(ts: seq<Tok>, i: nat, fset: set<bv32>): (r: Parse)
    requires Tokens(ts) && i < |ts| && Eof in fset
    decreases |ts| - i
    ensures i <= r.i < |ts| && ts[r.i].sym != Number && ts[r.i].sym in {End} + fset
    ensures r.errs <= {1, 5, 9, 11}
  {
    var t := TestF(ts, i, {Number, End} + fset);
    if ts[t.i].sym != Number then t
    else
      var x := ExpressionF(ts, t.i, {Semicolon, End} + fset);
      var y := ExpectF(ts, x.i, Semicolon, 5);
      t.Then(x).Then(y).Then(BlockLoopF(ts, y.i, fset))
  }

  /** Block = "Begin" { Expression ";" } "End". */
  function BlockF(ts: seq<Tok>, i: nat, fset: set<bv32>): (r: Parse)
    requires Tokens(ts) && i < |ts| && Eof in fset
    ensures i <= r.i < |ts| && ts[r.i].sym in fset
    ensures r.errs <= {1, 5, 6, 7, 9, 11}
  {
    var t := TestF(ts, i, {Begin, End} + fset);
    var b := ExpectF(ts, t.i, Begin, 6);
    var l := BlockLoopF(ts, b.i, fset);
    var e := ExpectF(ts, l.i, End, 7);
    t.Then(b).Then(l).Then(e).Then(TestF(ts, e.i, fset))
  }

  /** ProgramDeclaration = "Program" identifier ";". */
  function ProgramDeclarationF(ts: seq<Tok>, i: nat, fset: set<bv32>): (r: Parse)
    requires Tokens(ts) && i < |ts| && Eof in fset
    ensures i <= r.i < |ts| && ts[r.i].sym in fset
    ensures r.loads == [] && r.errs <= {1, 3, 4, 5, 9, 11}
  {
    var t := TestF(ts, i, {Program} + fset);
    var p := ExpectF(ts, t.i, Program, 3);
    var n := ExpectF(ts, p.i, Ident, 4);
    var s := ExpectF(ts, n.i, Semicolon, 5);
    t.Then(p).Then(n).Then(s).Then(TestF(ts, s.i, fset))
  }

  /** The check after the final ".": input left records 10. */
  function EndOfInput(ts: seq<Tok>, m: Parse): (r: Parse)
    requires m.i < |ts|
    ensures r.i == m.i && r.loads == m.loads
    ensures r.errs == m.errs + (if ts[m.i].sym != Eof then {10} else {})
  {
    m.Then(Parse(m.i, if ts[m.i].sym != Eof then {10} else {}, []))
  }

  /**
   * SourceFile up to the final ".": the first symbol scanned, the program
   * declaration, the block and the ".".
   */
  function ProgramTextF(ts: seq<Tok>): (r: Parse)
    requires Tokens(ts)
    ensures r.i < |ts| && r.errs <= {1, 3, 4, 5, 6, 7, 8, 9, 11}
  {
    var p := ProgramDeclarationF(ts, 0, {Begin, Eof});
    var b := BlockF(ts, p.i, {Period, Eof});
    Parse(0, Lex(ts[0]), []).Then(p).Then(b).Then(ExpectF(ts, b.i, Period, 8))
  }

  /** SourceFile = ProgramDeclaration Block "." EOF: input left after the "." records 10. */
  function SourceFileF(ts: seq<Tok>): (r: Parse)
    requires Tokens(ts)
    // categories 2 and 12 are never recorded
    ensures r.errs <= {1, 3, 4, 5, 6, 7, 8, 9, 10, 11}
  {
    EndOfInput(ts, ProgramTextF(ts))
  }

  /** Category 10 is recorded exactly when a symbol other than EOF follows the final ".". */
  lemma TrailingOnly(ts: seq<Tok>)
    requires Tokens(ts)
    ensures var r := SourceFileF(ts);
      r.i < |ts| && (10 in r.errs <==> ts[r.i].sym != Eof)
  {
    EndOfInputTrailing(ts, ProgramTextF(ts));
  }

  lemma EndOfInputTrailing(ts: seq<Tok>, m: Parse)
    requires m.i < |ts| && 10 !in m.errs
    ensures var r := EndOfInput(ts, m);
      r.i < |ts| && (10 in r.errs <==> ts[r.i].sym != Eof)
  {
  }

  /** The lines the compiler writes. */
  datatype Emit = Header | StartLabel | LoadEcx(value: int) | ExitSeq

  /**
   * The listing for the values loaded: the header, written before anything
   * is read, `_start:`, one load per value, and the exit sequence.
   */
  function Listing(loads: seq<int>): seq<Emit> {
    [Header, StartLabel] + LoadLines(loads) + [ExitSeq]
  }

  /** The `mov ecx` lines for the values, in order. */
  function LoadLines(loads: seq<int>): seq<Emit>
    decreases |loads|
  {
    if loads == [] then [] else [LoadEcx(loads[0])] + LoadLines(loads[1..])
  }

  /** There is one `mov ecx` line per value, in the order of the values. */
  lemma {:induction false} LoadLinesEach(loads: seq<int>)
    decreases |loads|
    ensures var r := LoadLines(loads);
      |r| == |loads| && forall k :: 0 <= k < |loads| ==> r[k] == LoadEcx(loads[k])
  {
    if loads != [] {
      LoadLinesEach(loads[1..]);
    }
  }

  /** The load lines of two runs of values, one after the other. */
  lemma {:induction false} LoadLinesAppend(a: seq<int>, b: seq<int>)
    decreases |a|
    ensures LoadLines(a + b) == LoadLines(a) + LoadLines(b)
  {
    if a == [] {
      assert a + b == b;
    } else {
      assert (a + b)[1..] == a[1..] + b;
      LoadLinesAppend(a[1..], b);
    }
  }

  /** The listing: header and `_start:` first, the exit sequence last, one load per value between them. */
  lemma ListingLines(loads: seq<int>)
    ensures var r := Listing(loads);
      |r| == |loads| + 3 && r[0] == Header && r[1] == StartLabel && r[|r| - 1] == ExitSeq &&
      forall k :: 0 <= k < |loads| ==> r[k + 2] == LoadEcx(loads[k])
  {
    LoadLinesEach(loads);
  }

  /** What the compiler writes for a symbol stream, whatever the errors. */
  function Output(ts: seq<Tok>): seq<Emit>
    requires Tokens(ts)
  {
    Listing(SourceFileF(ts).loads)
  }

  /** Synchronisation stops at the first symbol of the follow set, recording 11 iff it deleted any. */
  lemma {:induction false} TestSkips(ts: seq<Tok>, i: nat, fset: set<bv32>)
    requires Tokens(ts) && i < |ts| && Eof in fset
    decreases |ts| - i
    ensures var r := TestF(ts, i, fset);
      (forall j :: i <= j < r.i ==> ts[j].sym !in fset) &&
      r.errs == (if r.i > i then {11} else {}) + LexRange(ts, i, r.i)
  {
    if ts[i].sym !in fset {
      TestSkips(ts, i + 1, fset);
    }
  }

  /** An expression loads a value exactly when it finds a number, and records 12 otherwise. */
  lemma ExpressionLoads(ts: seq<Tok>, i: nat, fset: set<bv32>)
    requires Tokens(ts) && i < |ts| && Eof in fset
    ensures var r := ExpressionF(ts, i, fset);
      |r.loads| == 1 <==> 12 !in r.errs
  {
  }

  /** Positions i..j-1 hold pairs `number ;`. */
  predicate Pairs(ts: seq<Tok>, i: nat, j: nat)
    requires j <= |ts|
    decreases j - i
  {
    i == j || (i + 2 <= j && ts[i].sym == Number && ts[i + 1].sym == Semicolon && Pairs(ts, i + 2, j))
  }

  /** The numbers of the pairs at positions i..j-1. */
  function Values(ts: seq<Tok>, i: nat, j: nat): (r: seq<int>)
    requires j <= |ts| && Pairs(ts, i, j)
    decreases j - i
    ensures 2 * |r| == j - i
  {
    if i == j then [] else [ts[i].num] + Values(ts, i + 2, j)
  }

  /**
   * A symbol stream that is a sentence of the grammar
   * `"Program" identifier ";" "Begin" { number ";" } "End" "." EOF`.
   */
  predicate Sentence(ts: seq<Tok>) {
    |ts| >= 7 && ts[0].sym == Program && ts[1].sym == Ident && ts[2].sym == Semicolon &&
    ts[3].sym == Begin && Pairs(ts, 4, |ts| - 3) && ts[|ts| - 3].sym == End &&
    ts[|ts| - 2].sym == Period && ts[|ts| - 1].sym == Eof
  }

  /** A stream with EOF only at its end, as the scanner produces. */
  predicate EofOnlyLast(ts: seq<Tok>) {
    forall k :: 0 <= k < |ts| - 1 ==> ts[k].sym != Eof
  }

  /** At a symbol of the follow set, synchronisation deletes nothing. */
  lemma TestStays(ts: seq<Tok>, i: nat, fset: set<bv32>)
    requires Tokens(ts) && i < |ts| && Eof in fset && ts[i].sym in fset
    ensures var r := TestF(ts, i, fset);
      r.i == i && r.errs == {} && r.loads == []
  {
  }

  /** The expected symbol is accepted and the next one read. */
  lemma ExpectMatches(ts: seq<Tok>, i: nat, exp: bv32, e: int)
    requires Tokens(ts) && i < |ts| && exp != Eof && ts[i].sym == exp
    ensures var r := ExpectF(ts, i, exp, e);
      r.i == i + 1 && r.errs == Lex(ts[i + 1]) && r.errs <= {1, 9} && r.loads == []
  {
  }

  /** Any other symbol records the category of the insertion and consumes nothing. */
  lemma ExpectInserts(ts: seq<Tok>, i: nat, exp: bv32, e: int)
    requires Tokens(ts) && i < |ts| && exp != Eof && ts[i].sym != exp
    ensures ExpectF(ts, i, exp, e) == Parse(i, {e}, [])
  {
  }

  /**
   * An expression that starts at a number loads one value: that of the
   * number after it when there is one (`1 2;` loads 2), its own otherwise.
   */
  lemma ExpressionValue(ts: seq<Tok>, i: nat, fset: set<bv32>)
    requires Tokens(ts) && i < |ts| && Eof in fset && ts[i].sym == Number
    ensures i + 1 < |ts|
    ensures ts[i + 1].sym == Number ==> ExpressionF(ts, i, fset).loads == [ts[i + 1].num]
    ensures ts[i + 1].sym != Number ==> ExpressionF(ts, i, fset).loads == [ts[i].num]
  {
    TestStays(ts, i, {Number} + fset);
  }

  lemma ProgramDeclarationAccepts(ts: seq<Tok>)
    requires Tokens(ts) && Sentence(ts)
    ensures var r := ProgramDeclarationF(ts, 0, {Begin, Eof});
      r.i == 3 && r.errs <= {1, 9} && r.loads == []
  {
    TestStays(ts, 0, {Program} + {Begin, Eof});
    ExpectMatches(ts, 0, Program, 3);
    ExpectMatches(ts, 1, Ident, 4);
    ExpectMatches(ts, 2, Semicolon, 5);
    TestStays(ts, 3, {Begin, Eof});
  }

  lemma ExpressionAccepts(ts: seq<Tok>, i: nat, fset: set<bv32>)
    requires Tokens(ts) && i + 1 < |ts| && Eof in fset && Semicolon in fset
    requires ts[i].sym == Number && ts[i + 1].sym == Semicolon
    ensures var r := ExpressionF(ts, i, fset);
      r.i == i + 1 && r.errs <= {1, 9} && r.loads == [ts[i].num]
  {
    TestStays(ts, i, {Number} + fset);
    TestStays(ts, i + 1, fset);
  }

  lemma {:induction false} BlockLoopAccepts(ts: seq<Tok>, i: nat, j: nat, fset: set<bv32>)
    requires Tokens(ts) && j < |ts| && Pairs(ts, i, j) && ts[j].sym == End && Eof in fset
    decreases j - i
    ensures var r := BlockLoopF(ts, i, fset);
      r.i == j && r.errs <= {1, 9} && r.loads == Values(ts, i, j)
  {
    TestStays(ts, i, {Number, End} + fset);
    if i != j {
      ExpressionAccepts(ts, i, {Semicolon, End} + fset);
      ExpectMatches(ts, i + 1, Semicolon, 5);
      BlockLoopAccepts(ts, i + 2, j, fset);
    }
  }

  /** Proof helper: loads surrounded by parts that load nothing. */
  lemma Around(a: seq<int>, b: seq<int>, c: seq<int>)
    requires a == [] && c == []
    ensures a + b + c == b
  {
  }

  lemma BlockAccepts(ts: seq<Tok>, i: nat, j: nat, fset: set<bv32>)
    requires Tokens(ts) && i < j && j + 1 < |ts| && Eof in fset
    requires ts[i].sym == Begin && Pairs(ts, i + 1, j) && ts[j].sym == End && ts[j + 1].sym in fset
    ensures var r := BlockF(ts, i, fset);
      r.i == j + 1 && r.errs <= {1, 9}
  {
    TestStays(ts, i, {Begin, End} + fset);
    ExpectMatches(ts, i, Begin, 6);
    BlockLoopAccepts(ts, i + 1, j, fset);
    ExpectMatches(ts, j, End, 7);
    TestStays(ts, j + 1, fset);
  }

  lemma BlockLoads(ts: seq<Tok>, i: nat, j: nat, fset: set<bv32>)
    requires Tokens(ts) && i < j && j + 1 < |ts| && Eof in fset
    requires ts[i].sym == Begin && Pairs(ts, i + 1, j) && ts[j].sym == End && ts[j + 1].sym in fset
    ensures BlockF(ts, i, fset).loads == Values(ts, i + 1, j)
  {
    var t := TestF(ts, i, {Begin, End} + fset);
    var b := ExpectF(ts, t.i, Begin, 6);
    var l := BlockLoopF(ts, b.i, fset);
    var e := ExpectF(ts, l.i, End, 7);
    var u := TestF(ts, e.i, fset);
    assert BlockF(ts, i, fset).loads == t.loads + b.loads + l.loads + e.loads + u.loads;
    Around(t.loads + b.loads, l.loads, e.loads + u.loads);
    ExpectMatches(ts, i, Begin, 6);
    BlockLoopAccepts(ts, i + 1, j, fset);
  }

  lemma ProgramTextAccepts(ts: seq<Tok>)
    requires Tokens(ts) && Sentence(ts)
    ensures var r := ProgramTextF(ts);
      r.i == |ts| - 1 && r.errs <= {1, 9}
  {
    ProgramDeclarationAccepts(ts);
    BlockAccepts(ts, 3, |ts| - 3, {Period, Eof});
    ExpectMatches(ts, |ts| - 2, Period, 8);
  }

  lemma ProgramTextLoads(ts: seq<Tok>)
    requires Tokens(ts) && Sentence(ts)
    ensures ProgramTextF(ts).loads == Values(ts, 4, |ts| - 3)
  {
    ProgramDeclarationAccepts(ts);
    BlockLoads(ts, 3, |ts| - 3, {Period, Eof});
    var p := ProgramDeclarationF(ts, 0, {Begin, Eof});
    var b := BlockF(ts, p.i, {Period, Eof});
    var e := ExpectF(ts, b.i, Period, 8);
    assert ProgramTextF(ts).loads == p.loads + b.loads + e.loads;
    Around(p.loads, b.loads, e.loads);
  }

  /** A sentence is compiled without a syntax error, loading its numbers in order. */
  lemma SourceFileAccepts(ts: seq<Tok>)
    requires Tokens(ts) && Sentence(ts)
    ensures var r := SourceFileF(ts);
      r.i == |ts| - 1 && r.errs <= {1, 9} && r.loads == Values(ts, 4, |ts| - 3)
  {
    ProgramTextAccepts(ts);
    ProgramTextLoads(ts);
  }

  /** Synchronisation that records no deletion deletes nothing. */
  lemma TestNoDelete(ts: seq<Tok>, i: nat, fset: set<bv32>)
    requires Tokens(ts) && i < |ts| && Eof in fset && 11 !in TestF(ts, i, fset).errs
    ensures ts[i].sym in fset && TestF(ts, i, fset).i == i
  {
  }

  /** An expectation that records no insertion met the expected symbol. */
  lemma ExpectNoInsert(ts: seq<Tok>, i: nat, exp: bv32, e: int)
    requires Tokens(ts) && i < |ts| && exp != Eof && e != 1 && e != 9
    requires e !in ExpectF(ts, i, exp, e).errs
    ensures ts[i].sym == exp && ExpectF(ts, i, exp, e).i == i + 1
  {
  }

  lemma ProgramDeclarationOnly(ts: seq<Tok>)
    requires Tokens(ts) && ProgramDeclarationF(ts, 0, {Begin, Eof}).errs <= {1, 9}
    ensures ts[0].sym == Program && ts[1].sym == Ident && ts[2].sym == Semicolon
    ensures ProgramDeclarationF(ts, 0, {Begin, Eof}).i == 3
  {
    TestNoDelete(ts, 0, {Program} + {Begin, Eof});
    ExpectNoInsert(ts, 0, Program, 3);
    ExpectNoInsert(ts, 1, Ident, 4);
    ExpectNoInsert(ts, 2, Semicolon, 5);
    TestNoDelete(ts, 3, {Begin, Eof});
  }

  lemma ExpressionOnly(ts: seq<Tok>, i: nat, fset: set<bv32>)
    requires Tokens(ts) && i < |ts| && Eof in fset && ts[i].sym == Number
    requires 11 !in ExpressionF(ts, i, fset).errs
    ensures ExpressionF(ts, i, fset).i == i + 1
  {
    TestStays(ts, i, {Number} + fset);
    TestNoDelete(ts, i + 1, fset);
  }

  lemma {:induction false} BlockLoopOnly(ts: seq<Tok>, i: nat, fset: set<bv32>)
    requires Tokens(ts) && i < |ts| && Eof in fset && BlockLoopF(ts, i, fset).errs <= {1, 9}
    decreases |ts| - i
    ensures Pairs(ts, i, BlockLoopF(ts, i, fset).i)
  {
    TestNoDelete(ts, i, {Number, End} + fset);
    if ts[i].sym == Number {
      ExpressionOnly(ts, i, {Semicolon, End} + fset);
      ExpectNoInsert(ts, i + 1, Semicolon, 5);
      BlockLoopOnly(ts, i + 2, fset);
    }
  }

  /** Proof helper: no syntax error in a sequence of effects means none in either. */
  lemma ThenWithin(a: Parse, b: Parse)
    requires a.Then(b).errs <= {1, 9}
    ensures a.errs <= {1, 9} && b.errs <= {1, 9}
  {
  }

  /** A block without a syntax error starts with "Begin", ... */
  lemma BlockBeginOnly(ts: seq<Tok>, i: nat, fset: set<bv32>)
    requires Tokens(ts) && i < |ts| && Eof in fset && BlockF(ts, i, fset).errs <= {1, 9}
    ensures ts[i].sym == Begin
  {
    var t := TestF(ts, i, {Begin, End} + fset);
    var b := ExpectF(ts, t.i, Begin, 6);
    var l := BlockLoopF(ts, b.i, fset);
    var e := ExpectF(ts, l.i, End, 7);
    var u := TestF(ts, e.i, fset);
    ThenWithin(t.Then(b).Then(l).Then(e), u);
    ThenWithin(t.Then(b).Then(l), e);
    ThenWithin(t.Then(b), l);
    ThenWithin(t, b);
    TestNoDelete(ts, i, {Begin, End} + fset);
    ExpectNoInsert(ts, i, Begin, 6);
  }

  /** ... continues with the pairs of its loop ... */
  lemma BlockPairsOnly(ts: seq<Tok>, i: nat, fset: set<bv32>)
    requires Tokens(ts) && i < |ts| && Eof in fset && BlockF(ts, i, fset).errs <= {1, 9}
    ensures Pairs(ts, i + 1, BlockLoopF(ts, i + 1, fset).i)
  {
    var t := TestF(ts, i, {Begin, End} + fset);
    var b := ExpectF(ts, t.i, Begin, 6);
    var l := BlockLoopF(ts, b.i, fset);
    var e := ExpectF(ts, l.i, End, 7);
    var u := TestF(ts, e.i, fset);
    ThenWithin(t.Then(b).Then(l).Then(e), u);
    ThenWithin(t.Then(b).Then(l), e);
    ThenWithin(t.Then(b), l);
    ThenWithin(t, b);
    TestNoDelete(ts, i, {Begin, End} + fset);
    ExpectNoInsert(ts, i, Begin, 6);
    BlockLoopOnly(ts, i + 1, fset);
  }

  /** ... and ends with "End" right after the loop. */
  lemma BlockEndOnly(ts: seq<Tok>, i: nat, fset: set<bv32>)
    requires Tokens(ts) && i < |ts| && Eof in fset && BlockF(ts, i, fset).errs <= {1, 9}
    ensures var l := BlockLoopF(ts, i + 1, fset);
      ts[l.i].sym == End && BlockF(ts, i, fset).i == l.i + 1
  {
    var t := TestF(ts, i, {Begin, End} + fset);
    var b := ExpectF(ts, t.i, Begin, 6);
    var l := BlockLoopF(ts, b.i, fset);
    var e := ExpectF(ts, l.i, End, 7);
    var u := TestF(ts, e.i, fset);
    ThenWithin(t.Then(b).Then(l).Then(e), u);
    ThenWithin(t.Then(b).Then(l), e);
    ThenWithin(t.Then(b), l);
    ThenWithin(t, b);
    TestNoDelete(ts, i, {Begin, End} + fset);
    ExpectNoInsert(ts, i, Begin, 6);
    ExpectNoInsert(ts, l.i, End, 7);
    TestNoDelete(ts, l.i + 1, fset);
  }

  /** The program text up to the final "." without a syntax error has the shape of a sentence. */
  lemma ProgramTextOnly(ts: seq<Tok>)
    requires Tokens(ts) && ProgramTextF(ts).errs <= {1, 9}
    ensures ts[0].sym == Program && ts[1].sym == Ident && ts[2].sym == Semicolon
    ensures var l := BlockLoopF(ts, 4, {Period, Eof}); var b := BlockF(ts, 3, {Period, Eof});
      ts[3].sym == Begin && Pairs(ts, 4, l.i) && ts[l.i].sym == End && b.i == l.i + 1 &&
      ts[b.i].sym == Period && ProgramTextF(ts).i == b.i + 1
  {
    var h := Parse(0, Lex(ts[0]), []);
    var p := ProgramDeclarationF(ts, 0, {Begin, Eof});
    var b := BlockF(ts, p.i, {Period, Eof});
    var e := ExpectF(ts, b.i, Period, 8);
    ThenWithin(h.Then(p).Then(b), e);
    ThenWithin(h.Then(p), b);
    ThenWithin(h, p);
    ProgramDeclarationOnly(ts);
    BlockBeginOnly(ts, 3, {Period, Eof});
    BlockPairsOnly(ts, 3, {Period, Eof});
    BlockEndOnly(ts, 3, {Period, Eof});
    ExpectNoInsert(ts, b.i, Period, 8);
  }

  /** A stream compiled without a syntax error is a sentence. */
  lemma SourceFileOnly(ts: seq<Tok>)
    requires Tokens(ts) && EofOnlyLast(ts) && SourceFileF(ts).errs <= {1, 9}
    ensures Sentence(ts)
  {
    var m := ProgramTextF(ts);
    TextWithin(ts);
    ProgramTextOnly(ts);
    assert m.i == |ts| - 1;
  }

  /** Without a syntax error the program text has no error either and ends at EOF. */
  lemma TextWithin(ts: seq<Tok>)
    requires Tokens(ts) && SourceFileF(ts).errs <= {1, 9}
    ensures ProgramTextF(ts).errs <= {1, 9} && ts[ProgramTextF(ts).i].sym == Eof
  {
  }

  /**
   * On a stream with EOF only at its end, as the scanner produces, the
   * compiler records no syntax error exactly when the stream is a sentence.
   */
  lemma Recognizes(ts: seq<Tok>)
    requires Tokens(ts) && EofOnlyLast(ts)
    ensures Sentence(ts) <==> SourceFileF(ts).errs <= {1, 9}
  {
    if Sentence(ts) {
      SourceFileAccepts(ts);
    }
    if SourceFileF(ts).errs <= {1, 9} {
      SourceFileOnly(ts);
    }
  }

  /** The scanner's symbol streams are the ones the parser is defined on. */
  lemma StreamIsTokens(cs: seq<LChar>, a: nat)
    requires WellEnded(cs) && a < |cs|
    ensures Tokens(Stream(cs, a)) && EofOnlyLast(Stream(cs, a))
  {
  }

  /** The bit-mask follow set `fset` of the compiler holds exactly the symbols of `F`. */
  ghost predicate Agrees(fset: bv32, F: set<bv32>) {
    forall s {:trigger In(s, fset)} :: IsSymbol(s) ==> (In(s, fset) <==> s in F)
  }

  /** A symbol meets a follow set exactly when it is in the set the follow set stands for. */
  lemma Member(s: bv32, fset: bv32, F: set<bv32>)
    requires Agrees(fset, F) && IsSymbol(s)
    ensures s & fset != 0 <==> s in F
  {
    assert In(s, fset) <==> s in F;
  }

  /** Distinct symbols share no bit. */
  lemma SymbolMeets(x: bv32, s: bv32)
    requires IsSymbol(x) && IsSymbol(s) && s != Nul
    ensures In(x, s) <==> x == s
  {
  }

  lemma AgreesEof()
    ensures Agrees(Eof, {Eof})
  {
    forall x | IsSymbol(x) ensures In(x, Eof) <==> x in {Eof} {
      SymbolMeets(x, Eof);
    }
  }

  /** Adding a symbol to a follow set adds it to the set it stands for. */
  lemma AgreesAdd(s: bv32, fset: bv32, F: set<bv32>)
    requires IsSymbol(s) && s != Nul && Agrees(fset, F)
    ensures Agrees(s | fset, {s} + F)
  {
    forall x | IsSymbol(x) ensures In(x, s | fset) <==> x in {s} + F {
      InUnion(x, s, fset);
      SymbolMeets(x, s);
    }
  }

  lemma AgreesAddTwo(s: bv32, t: bv32, fset: bv32, F: set<bv32>)
    requires IsSymbol(s) && s != Nul && IsSymbol(t) && t != Nul && Agrees(fset, F)
    ensures Agrees(s | t | fset, {s, t} + F)
  {
    AgreesAdd(t, fset, F);
    AgreesAdd(s, t | fset, {t} + F);
    assert s | t | fset == s | (t | fset);
    assert {s, t} + F == {s} + ({t} + F);
  }
}
