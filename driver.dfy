/**
 * The compiler proper: the global state of the C program as one object, and
 * its procedures as methods that change that state step by step. Each
 * method is proved against the references of the scanner and the parser:
 * the lookahead character walks along the logical character stream, the
 * lookahead symbol along the symbol stream, and the parsing procedures
 * advance, record errors and write lines exactly as their references say.
 */
module Driver {
  import opened Symbols
  import opened Errors
  import opened Lines
  import opened Scanner
  import opened Parser
  import opened Refills

  /** Slots of the line buffer: 80 characters, the newline or EOF, and the terminating NUL. */
  const LineSlots: nat := LineMax + 2

  /** The logical character stream: the initial lookahead ' ', then what the refills deliver. */
  function Start(input: seq<byte>): (cs: seq<LChar>)
    ensures WellEnded(cs) && cs == [LChar(32, false)] + Lines.Lines(input)
  {
    LinesWellEnded(input);
    [LChar(32, false)] + Lines.Lines(input)
  }

  /**
   * The logical stream of a source, its plan of refills and its symbol
   * stream, as the compiler's state holds them before the first symbol is
   * read.
   */
  lemma Initially(input: seq<byte>)
    ensures var cs := Start(input); var ts := Stream(cs, 0); var ps := Places(cs, 0);
      cs[0].c == 32 && Holds(cs, 1, [], false) &&
      PlanOf(cs, input, Plan(input), Inputs(input), Starts(Plan(input), 1)) &&
      Tokens(ts) && EofOnlyLast(ts) && StreamOf(cs, ts, ps) && |ps| == |ts| && ps[0] == 0 &&
      forall k :: 0 <= k < |ts| ==> IsSymbol(ts[k].sym)
  {
    var cs := Start(input);
    PlanDescribes(cs, input);
    StreamDescribed(cs);
    StreamIsTokens(cs, 0);
  }

  /**
   * How the fill loop, the length check and the terminator make up one
   * refill of the input `src[p0..]`, which leaves the input at `p`.
   */
  lemma FillAssembles(src: seq<byte>, p0: nat, p: nat, k: nat, stored: seq<int>, c: int, d: int)
    requires p0 <= |src| && k == FillLen(src[p0..], 0) && stored == src[p0..][..k]
    requires c == (if k < |src| - p0 then src[p0 + k] as int else EOF)
    requires d == (if c != NL && c != EOF && k == LineMax then NL else c)
    requires p == p0 + (if k < |src| - p0 then k + 1 else k) - (if c != NL && c != EOF && k == LineMax then 1 else 0)
    ensures p <= |src|
    ensures Refill(src[p0..]) == Fill(stored, d, if d == EOF then [] else src[p..], c != NL && c != EOF && k == LineMax)
  {
    var raw := src[p0..];
    assert raw[p - p0..] == src[p..];
  }

  /** Proof helper: symbol k of the stream is scanned from place a, and unless it is Eof the next symbol is read where it stops. */
  lemma NextPlace(cs: seq<LChar>, ts: seq<Tok>, ps: seq<nat>, k: nat, a: nat)
    requires Tokens(ts) && EofOnlyLast(ts) && StreamOf(cs, ts, ps) && |ps| == |ts| && k < |ts| && ps[k] == a
    ensures WellEnded(cs) && a < |cs|
    ensures var s := Scan(cs, a);
      ts[k] == s.tok && (s.tok.sym != Eof ==> k + 1 < |ts| && ps[k + 1] == s.next)
  {
    assert Scanned(cs, ts, ps, k);
  }

  /** The identifier branch of the scanner, in the terms of its loop. */
  lemma WordScanned(cs: seq<LChar>, a: nat, w: nat, b: nat, n: nat, e: set<int>)
    requires WellEnded(cs) && a < |cs| && w == WhiteEnd(cs, a) && IsAlpha(cs[w].c)
    requires b == RunEnd(cs, w, Alpha | Digit) && n == Min(b, w + IdLen - 1) - w
    ensures var s := Scan(cs, a);
      s.next == b && s.tok.sym == KeywordSym(Text(cs, w, w + n)) &&
      e + (if Opened(cs, a, w) then {1} else {}) + (if Opened(cs, w, b) then {1} else {}) == e + Lex(s.tok)
  {
    OpenedSplit(cs, a, w, b);
  }

  /** The number branch of the scanner, in the terms of its loop. */
  lemma NumberScanned(cs: seq<LChar>, a: nat, w: nat, b: nat, e: set<int>)
    requires WellEnded(cs) && a < |cs| && w == WhiteEnd(cs, a) && IsDigit(cs[w].c)
    requires b == RunEnd(cs, w, Digit) && AllDigits(Text(cs, w, b))
    ensures var s, acc := Scan(cs, a), Accum(Text(cs, w, b));
      s.next == b && s.tok.sym == Number && s.tok.num == acc.value &&
      e + (if Opened(cs, a, w) then {1} else {}) + (if acc.overflow then {9} else {}) +
        (if Opened(cs, w, b) then {1} else {}) == e + Lex(s.tok)
  {
    OpenedSplit(cs, a, w, b);
  }

  /** The EOF branch of the scanner. */
  lemma EndScanned(cs: seq<LChar>, a: nat, w: nat, e: set<int>)
    requires WellEnded(cs) && a < |cs| && w == WhiteEnd(cs, a) && cs[w].c == EOF
    ensures var s := Scan(cs, a);
      s.next == w && s.tok.sym == Eof && e + (if Opened(cs, a, w) then {1} else {}) == e + Lex(s.tok)
  {
  }

  /** The branch of the scanner for any other character. */
  lemma SingleScanned(cs: seq<LChar>, a: nat, w: nat, e: set<int>)
    requires WellEnded(cs) && a < |cs| && w == WhiteEnd(cs, a)
    requires !IsAlpha(cs[w].c) && !IsDigit(cs[w].c) && cs[w].c != EOF
    ensures w + 1 < |cs|
    ensures var s := Scan(cs, a);
      s.next == w + 1 && s.tok.sym == SymbolOf(cs[w].c) &&
      e + (if Opened(cs, a, w) then {1} else {}) + (if cs[w + 1].opens then {1} else {}) == e + Lex(s.tok)
  {
    OpenedStep(cs, w, w);
    OpenedSplit(cs, a, w, w + 1);
  }

  /** Proof helper: recording category 1 once more, as a flag. */
  lemma Flags(e: set<int>, x: bool, y: bool)
    ensures e + (if x then {1} else {}) + (if y then {1} else {}) == e + (if x || y then {1} else {})
  {
  }

  /** Proof helper: recording category 9 after category 1 may have been. */
  lemma Flags9(e: set<int>, o: bool, x: bool)
    ensures e + (if o then {9} else {}) + (if x then {1} else {}) + {9} ==
      e + {9} + (if x then {1} else {})
  {
  }

  /** One more character of text. */
  lemma TextSnoc(cs: seq<LChar>, a: nat, b: nat)
    requires a <= b < |cs|
    ensures Text(cs, a, b + 1) == Text(cs, a, b) + [cs[b].c]
  {
  }

  /** From categories `e0` and lines `o0`, the parse `r` leads to `e1` and `o1`. */
  ghost predicate Did(e0: set<int>, o0: seq<Emit>, r: Parse, e1: set<int>, o1: seq<Emit>) {
    e1 == e0 + r.errs && o1 == o0 + LoadLines(r.loads)
  }

  /**
   * Part of the parse `whole`, begun at `e0` and `o0`, is done: `rest` is
   * what it still has to record and write to reach the end of `whole`.
   */
  ghost predicate Owes(e0: set<int>, o0: seq<Emit>, whole: Parse, e: set<int>, o: seq<Emit>, rest: Parse) {
    e + rest.errs == e0 + whole.errs && o + LoadLines(rest.loads) == o0 + LoadLines(whole.loads)
  }

  /** Two parses in sequence record and write what each of them does. */
  lemma DidThen(e0: set<int>, o0: seq<Emit>, a: Parse, e1: set<int>, o1: seq<Emit>, b: Parse, e2: set<int>, o2: seq<Emit>)
    requires Did(e0, o0, a, e1, o1) && Did(e1, o1, b, e2, o2)
    ensures Did(e0, o0, a.Then(b), e2, o2)
  {
    LoadLinesAppend(a.loads, b.loads);
  }

  /** A parse that loads nothing writes nothing. */
  lemma DidQuiet(e0: set<int>, o0: seq<Emit>, a: Parse, e1: set<int>)
    requires e1 == e0 + a.errs && a.loads == []
    ensures Did(e0, o0, a, e1, o0)
  {
    assert LoadLines(a.loads) == [];
  }

  /** Doing the first part `p` of what is owed leaves the rest `r` owed. */
  lemma Resume(e0: set<int>, o0: seq<Emit>, whole: Parse, e: set<int>, o: seq<Emit>, p: Parse, r: Parse, e1: set<int>, o1: seq<Emit>)
    requires Owes(e0, o0, whole, e, o, p.Then(r)) && Did(e, o, p, e1, o1)
    ensures Owes(e0, o0, whole, e1, o1, r)
  {
    LoadLinesAppend(p.loads, r.loads);
  }

  /** Doing all that is owed completes the whole parse. */
  lemma Settle(e0: set<int>, o0: seq<Emit>, whole: Parse, e: set<int>, o: seq<Emit>, r: Parse, e1: set<int>, o1: seq<Emit>)
    requires Owes(e0, o0, whole, e, o, r) && Did(e, o, r, e1, o1)
    ensures Did(e0, o0, whole, e1, o1)
  {
  }

  /**
   * Synchronisation begun at `t0` with categories `e0` has reached `t` with
   * categories `e`: it ends where it would have ended from `t0`, and what is
   * left to record completes what it records from `t0`.
   */
  ghost predicate Synchronising(ts: seq<Tok>, F: set<bv32>, t0: int, e0: set<int>, t: int, e: set<int>) {
    Tokens(ts) && Eof in F && 0 <= t0 <= t < |ts| &&
    TestF(ts, t, F).i == TestF(ts, t0, F).i && e + TestF(ts, t, F).errs == e0 + TestF(ts, t0, F).errs
  }

  /** A deletion records 11 and the categories of reading the next symbol, and synchronisation goes on from there. */
  lemma {:induction false} Deleted(ts: seq<Tok>, F: set<bv32>, t0: int, e0: set<int>, t: int, e: set<int>, e1: set<int>)
    requires Synchronising(ts, F, t0, e0, t, e) && ts[t].sym !in F && t + 1 < |ts| && e1 == e + {11} + Lex(ts[t + 1])
    ensures Synchronising(ts, F, t0, e0, t + 1, e1)
  {
    TestDeletes(ts, t, F);
  }

  /** Proof helper: synchronisation that deletes nothing records nothing. */
  lemma NothingAdded(e: set<int>, b: set<int>)
    requires b == {}
    ensures e + b == e
  {
  }

  /** Proof helper: the line written for the value an expression loads. */
  lemma LoadOne(o: seq<Emit>, v: int)
    ensures o + [LoadEcx(v)] == o + LoadLines([v])
  {
    assert LoadLines([v]) == [LoadEcx(v)];
  }

  /** Proof helper: the whole listing is the header, `_start:`, the loads, the exit sequence. */
  lemma Listed(o: seq<Emit>, l: seq<int>)
    ensures o + [Header] + [StartLabel] + LoadLines(l) + [ExitSeq] == o + Listing(l)
  {
  }

  /** Expression's steps when a number is found add up to its reference: the number read past, its value loaded, synchronisation. */
  lemma ExpressionLoaded(ts: seq<Tok>, F: set<bv32>, i: nat, e0: set<int>, o0: seq<Emit>, e1: set<int>, e2: set<int>, v: int, e3: set<int>)
    requires Tokens(ts) && i < |ts| && Eof in F
    requires var t := TestF(ts, i, {Number} + F);
      ts[t.i].sym == Number && e1 == e0 + t.errs && t.i + 1 < |ts| && e2 == e1 + Lex(ts[t.i + 1]) &&
      v == (if ts[t.i + 1].sym == Number then ts[t.i + 1].num else ts[t.i].num) && e3 == e2 + TestF(ts, t.i + 1, F).errs
    ensures var r := ExpressionF(ts, i, F);
      r.i == TestF(ts, TestF(ts, i, {Number} + F).i + 1, F).i && Did(e0, o0, r, e3, o0 + [LoadEcx(v)])
  {
    var t := TestF(ts, i, {Number} + F);
    LoadOne(o0, v);
    LoadLinesAppend([], [v]);
  }

  /** Expression's steps when no number is found add up to its reference: category 12, nothing loaded. */
  lemma ExpressionMissing(ts: seq<Tok>, F: set<bv32>, i: nat, e0: set<int>, o0: seq<Emit>, e1: set<int>, e2: set<int>)
    requires Tokens(ts) && i < |ts| && Eof in F
    requires var t := TestF(ts, i, {Number} + F); ts[t.i].sym != Number && e1 == e0 + t.errs && e2 == e1 + {12}
    ensures var r := ExpressionF(ts, i, F); r.i == TestF(ts, i, {Number} + F).i && Did(e0, o0, r, e2, o0)
  {
  }

  /**
   * The block's loop begun at `l0` with categories `e0` and lines `o0` has
   * reached `k` with `e` and `o`: it ends where it would have ended from
   * `l0`, and what is left owes the rest of what it does from `l0`.
   */
  ghost predicate Looping(ts: seq<Tok>, F: set<bv32>, l0: int, e0: set<int>, o0: seq<Emit>, k: int, e: set<int>, o: seq<Emit>) {
    Tokens(ts) && Eof in F && 0 <= l0 <= k < |ts| &&
    BlockLoopF(ts, k, F).i == BlockLoopF(ts, l0, F).i && Owes(e0, o0, BlockLoopF(ts, l0, F), e, o, BlockLoopF(ts, k, F))
  }

  /** Nothing of the loop is done yet. */
  lemma LoopBegins(ts: seq<Tok>, F: set<bv32>, l0: int, e0: set<int>, o0: seq<Emit>)
    requires Tokens(ts) && Eof in F && 0 <= l0 < |ts|
    ensures Looping(ts, F, l0, e0, o0, l0, e0, o0)
  {
  }

  /** A round of the loop: synchronisation at a number, the expression, the ";". */
  lemma LoopRound(ts: seq<Tok>, F: set<bv32>, l0: int, e0: set<int>, o0: seq<Emit>, k: int, e: set<int>, o: seq<Emit>,
                  k1: nat, e1: set<int>, k2: nat, e2: set<int>, o2: seq<Emit>, k3: nat, e3: set<int>)
    requires Looping(ts, F, l0, e0, o0, k, e, o)
    requires k1 == TestF(ts, k, {Number, End} + F).i && ts[k1].sym == Number && e1 == e + TestF(ts, k, {Number, End} + F).errs
    requires k2 == ExpressionF(ts, k1, {Semicolon, End} + F).i && Did(e1, o, ExpressionF(ts, k1, {Semicolon, End} + F), e2, o2)
    requires k3 == ExpectF(ts, k2, Semicolon, 5).i && e3 == e2 + ExpectF(ts, k2, Semicolon, 5).errs
    ensures Looping(ts, F, l0, e0, o0, k3, e3, o2) && k < k3
  {
    var w := TestF(ts, k, {Number, End} + F);
    var x := ExpressionF(ts, k1, {Semicolon, End} + F);
    var y := ExpectF(ts, k2, Semicolon, 5);
    ExpressionAdvances(ts, k1, {Semicolon, End} + F);
    DidQuiet(e, o, w, e1);
    DidThen(e, o, w, e1, o, x, e2, o2);
    DidQuiet(e2, o2, y, e3);
    DidThen(e, o, w.Then(x), e2, o2, y, e3, o2);
    Resume(e0, o0, BlockLoopF(ts, l0, F), e, o, w.Then(x).Then(y), BlockLoopF(ts, k3, F), e3, o2);
  }

  /** The loop stops when synchronisation does not find a number. */
  lemma LoopEnds(ts: seq<Tok>, F: set<bv32>, l0: int, e0: set<int>, o0: seq<Emit>, k: int, e: set<int>, o: seq<Emit>,
                 k1: nat, e1: set<int>)
    requires Looping(ts, F, l0, e0, o0, k, e, o)
    requires k1 == TestF(ts, k, {Number, End} + F).i && ts[k1].sym != Number && e1 == e + TestF(ts, k, {Number, End} + F).errs
    ensures var r := BlockLoopF(ts, l0, F); r.i == k1 && Did(e0, o0, r, e1, o)
  {
    var w := TestF(ts, k, {Number, End} + F);
    DidQuiet(e, o, w, e1);
    Settle(e0, o0, BlockLoopF(ts, l0, F), e, o, w, e1, o);
  }

  /** Block's steps add up to its reference: synchronisation, "Begin", the loop, "End", synchronisation. */
  lemma BlockDone(ts: seq<Tok>, F: set<bv32>, i: nat, e0: set<int>, o0: seq<Emit>, k1: nat, e1: set<int>, k2: nat, e2: set<int>,
                  k3: nat, e3: set<int>, o3: seq<Emit>, k4: nat, e4: set<int>, e5: set<int>)
    requires Tokens(ts) && Eof in F && i < |ts|
    requires k1 == TestF(ts, i, {Begin, End} + F).i && e1 == e0 + TestF(ts, i, {Begin, End} + F).errs
    requires k2 == ExpectF(ts, k1, Begin, 6).i && e2 == e1 + ExpectF(ts, k1, Begin, 6).errs
    requires k3 == BlockLoopF(ts, k2, F).i && Did(e2, o0, BlockLoopF(ts, k2, F), e3, o3)
    requires k4 == ExpectF(ts, k3, End, 7).i && e4 == e3 + ExpectF(ts, k3, End, 7).errs
    requires e5 == e4 + TestF(ts, k4, F).errs
    ensures var r := BlockF(ts, i, F); r.i == TestF(ts, k4, F).i && Did(e0, o0, r, e5, o3)
  {
    var t := TestF(ts, i, {Begin, End} + F);
    var b := ExpectF(ts, k1, Begin, 6);
    var l := BlockLoopF(ts, k2, F);
    var x := ExpectF(ts, k3, End, 7);
    var u := TestF(ts, k4, F);
    DidQuiet(e0, o0, t, e1);
    DidQuiet(e1, o0, b, e2);
    DidThen(e0, o0, t, e1, o0, b, e2, o0);
    DidThen(e0, o0, t.Then(b), e2, o0, l, e3, o3);
    DidQuiet(e3, o3, x, e4);
    DidThen(e0, o0, t.Then(b).Then(l), e3, o3, x, e4, o3);
    DidQuiet(e4, o3, u, e5);
    DidThen(e0, o0, t.Then(b).Then(l).Then(x), e4, o3, u, e5, o3);
  }

  /** The reference of ProgramDeclaration, in the order the method takes its steps. */
  lemma ProgramDeclarationSteps(ts: seq<Tok>, i: nat, F: set<bv32>, t: Parse, p: Parse, n: Parse, c: Parse)
    requires Tokens(ts) && i < |ts| && Eof in F && t == TestF(ts, i, {Program} + F)
    requires p == ExpectF(ts, t.i, Program, 3) && n == ExpectF(ts, p.i, Ident, 4) && c == ExpectF(ts, n.i, Semicolon, 5)
    ensures ProgramDeclarationF(ts, i, F) == t.Then(p).Then(n).Then(c).Then(TestF(ts, c.i, F))
  {
  }

  /**
   * The steps up to the final "." add up to their reference: the first
   * symbol, the program declaration, `_start:`, the block and the ".".
   */
  lemma ProgramTextDone(ts: seq<Tok>, p: Parse, b: Parse, e0: set<int>, e1: set<int>, e2: set<int>, e3: set<int>,
                        e4: set<int>, o0: seq<Emit>, o3: seq<Emit>)
    requires Tokens(ts) && p == ProgramDeclarationF(ts, 0, {Begin, Eof}) && b == BlockF(ts, p.i, {Period, Eof})
    requires e1 == e0 + Lex(ts[0]) && e2 == e1 + p.errs && Did(e2, o0 + [Header] + [StartLabel], b, e3, o3)
    requires e4 == e3 + ExpectF(ts, b.i, Period, 8).errs
    ensures var r := ProgramTextF(ts); r.i == ExpectF(ts, b.i, Period, 8).i
    ensures var r := ProgramTextF(ts); e4 == e0 + r.errs && o3 == o0 + [Header] + [StartLabel] + LoadLines(r.loads)
  {
    var o := o0 + [Header] + [StartLabel];
    var a := Parse(0, Lex(ts[0]), []);
    var x := ExpectF(ts, b.i, Period, 8);
    DidQuiet(e0, o, a, e1);
    DidQuiet(e1, o, p, e2);
    DidThen(e0, o, a, e1, o, p, e2, o);
    DidThen(e0, o, a.Then(p), e2, o, b, e3, o3);
    DidQuiet(e3, o3, x, e4);
    DidThen(e0, o, a.Then(p).Then(b), e3, o3, x, e4, o3);
  }

  /** SourceFile's steps add up to its reference: the text up to the ".", the check for input left, the exit sequence. */
  lemma SourceFileDone(ts: seq<Tok>, e0: set<int>, e1: set<int>, e2: set<int>, o0: seq<Emit>, o1: seq<Emit>)
    requires Tokens(ts) && var m := ProgramTextF(ts);
      e1 == e0 + m.errs && o1 == o0 + [Header] + [StartLabel] + LoadLines(m.loads) &&
      e2 == e1 + (if ts[m.i].sym != Eof then {10} else {})
    ensures var r := SourceFileF(ts); e2 == e0 + r.errs && o1 + [ExitSeq] == o0 + Listing(r.loads)
  {
    Listed(o0, ProgramTextF(ts).loads);
  }

  class Compiler {
    /** The source file, read front to back by `ReadByte`. */
    const src: seq<byte>
    var pos: nat

    /** The line buffer, the character count and the line length. */
    const line: array<int>
    var cc: int
    var ll: int

    /** The lookahead character and symbol; the last identifier and number read. */
    var ch: int
    var sym: bv32
    const id: array<int>
    var num: int

    /** The error bitset, and the categories it records. */
    var errs: bv32
    ghost var errors: set<int>

    /** The lines written to the destination so far. */
    var out: seq<Emit>

    /** The logical character stream of the whole source and its symbol stream. */
    ghost const chars: seq<LChar>
    ghost const toks: seq<Tok>
    ghost const places: seq<nat>

    /** Position of the lookahead character in `chars`, and of the lookahead symbol in `toks`. */
    ghost var at: nat
    ghost var tix: int

    /**
     * The refills of the whole source, where their lines start in `chars`,
     * and how many of them have been done.
     */
    ghost const plan: seq<Fill>
    ghost const inputs: seq<seq<byte>>
    ghost const starts: seq<nat>
    ghost var refills: nat

    /** Where the buffered line starts in `chars`, and whether it overflowed. */
    ghost var start: nat
    ghost var over: bool

    /** The buffer shape shared by every state of the character level. */
    ghost predicate Shape()
      reads this`pos, this`cc, this`ll, this`ch, this`at, line
    {
      line.Length == LineSlots && 0 <= cc <= ll <= LineMax + 1 && pos <= |src| &&
      (ll >= 1 ==> line[ll - 1] == NL || line[ll - 1] == EOF) &&
      WellEnded(chars) && at < |chars| && chars[at].c == ch
    }

    /**
     * The buffered line is the line of the last refill done, held in `chars`
     * from `start` on; the unread input is what that refill left, and the
     * next character to read is at `at + 1`.
     */
    ghost predicate Core()
      reads this`pos, this`cc, this`ll, this`ch, this`at, this`refills, this`start, this`over, line
    {
      Shape() && PlanOf(chars, src, plan, inputs, starts) && Holds(chars, start, line[..ll], over) &&
      at + 1 == start + cc && refills <= |plan| &&
      (refills < |plan| ==> src[pos..] == inputs[refills]) &&
      (refills == 0 ==> ll == 0 && start == 1) &&
      (refills > 0 ==>
        var f := plan[refills - 1];
        start == starts[refills - 1] && ll == |Buf(f)| && line[ll - 1] == f.term)
    }

    /** The character level between calls: the lookahead is the character last read. */
    ghost predicate BufferValid()
      reads this`pos, this`cc, this`ll, this`ch, this`at, this`refills, this`start, this`over, line
    {
      Core() && (cc == 0 ==> ll == 0 && ch == 32) && (cc >= 1 ==> ch == line[cc - 1])
    }

    /** What never changes: the identifier buffer, and the symbol stream of `chars` with its places. */
    ghost predicate Streams() {
      id.Length == IdLen && id != line &&
      Tokens(toks) && EofOnlyLast(toks) && StreamOf(chars, toks, places) && |places| == |toks| &&
      forall k :: 0 <= k < |toks| ==> IsSymbol(toks[k].sym)
    }

    /**
     * The symbol level: the lookahead is `toks[tix]`, scanned from its place
     * in `chars`, and unless it is Eof the lookahead character is where the
     * next symbol is scanned from. `num` holds the last number scanned.
     */
    ghost predicate Valid()
      reads this`pos, this`cc, this`ll, this`ch, this`at, this`refills, this`start, this`over, line
      reads this`sym, this`tix, this`num, this`errs, this`errors
    {
      var ok := BufferValid() && ErrsValid() && Streams() &&
        -1 <= tix < |toks| &&
        (tix == -1 ==> at == 0 && sym == Nul) &&
        (tix >= 0 ==> sym == toks[tix].sym) &&
        (tix >= 0 && sym == Number ==> num == toks[tix].num) &&
        ((tix == -1 || sym != Eof) ==> tix + 1 < |toks| && at == places[tix + 1]);
      ok
    }

    /** The state before the first symbol is read: lookahead ' ', empty buffer, no errors. */
    constructor (input: seq<byte>)
      ensures Valid() && src == input && tix == -1 && errs == 0 && errors == {} && out == []
      ensures fresh(line) && fresh(id)
      ensures chars == Start(input) && toks == Stream(chars, 0) && places == Places(chars, 0)
    {
      var cs := Start(input);
      Initially(input);
      Cleared();
      src := input;
      pos := 0;
      line := new int[LineSlots](_ => 0);
      cc := 0;
      ll := 0;
      ch := 32;
      sym := Nul;
      id := new int[IdLen](_ => 0);
      num := 0;
      errs := 0;
      errors := {};
      out := [];
      chars := cs;
      toks := Stream(cs, 0);
      places := Places(cs, 0);
      at := 0;
      tix := -1;
      plan := Plan(input);
      inputs := Inputs(input);
      starts := Starts(Plan(input), 1);
      refills := 0;
      start := 1;
      over := false;
      new;
      assert line[..ll] == [] && src[pos..] == src;
      assert Shape();
      assert Core();
      assert Streams();
    }

    /** `fgetc` on the source: the next byte, or EOF once the input is exhausted. */
    method ReadByte() returns (c: int)
      modifies this`pos
      ensures old(pos) < |src| ==> c == src[old(pos)] as int && pos == old(pos) + 1
      ensures old(pos) >= |src| ==> c == EOF && pos == old(pos)
    {
      if pos < |src| {
        c := src[pos];
        pos := pos + 1;
      } else {
        c := EOF;
      }
    }

    /** The bitset records exactly `errors`, all among the twelve categories. */
    ghost predicate ErrsValid()
      reads this`errs, this`errors
    {
      Records(errs, errors)
    }

    /** The report of the categories recorded: the loop over 1..11 testing bit i-1. */
    method PrintErrors() returns (report: seq<ReportLine>)
      requires ErrsValid()
      ensures Reports(report, errors)
    {
      report := [];
      var i := 1;
      while i <= 11
        invariant 1 <= i <= 12
        invariant forall k :: 0 <= k < |report| ==>
          1 <= report[k].code < i && report[k].code in errors && report[k].message == Messages[report[k].code]
        invariant forall j, k :: 0 <= j < k < |report| ==> report[j].code < report[k].code
        invariant forall n :: 1 <= n < i && n in errors ==> exists k :: 0 <= k < |report| && report[k].code == n
      {
        if Has(errs, i) {
          ghost var before := report;
          report := report + [ReportLine(i, Messages[i])];
          assert report[|before|].code == i;
          assert forall k :: 0 <= k < |before| ==> report[k] == before[k];
        }
        i := i + 1;
      }
    }

    /** Records category n by setting bit n-1. */
    method Error(n: int)
      requires 1 <= n <= 12 && ErrsValid()
      modifies this`errs, this`errors
      ensures errs == old(errs) | Bit(n)
      ensures ErrsValid() && errors == old(errors) + {n}
      ensures old(Valid()) ==> Valid()
    {
      Record(errs, errors, n);
      errs := errs | Bit(n);
      errors := errors + {n};
    }

    /**
     * The fill loop: stores characters until a newline, EOF or the 80th
     * character, always reading one character more than it stores.
     */
    method FillLoop() returns (c: int)
      requires line.Length == LineSlots && pos <= |src|
      modifies this`pos, this`ll, line
      ensures var raw, k := old(src[pos..]), FillLen(old(src[pos..]), 0);
        ll == k && line[..k] == raw[..k] && c == (if k < |raw| then raw[k] else EOF) &&
        pos == old(pos) + (if k < |raw| then k + 1 else k)
    {
      ghost var raw := src[pos..];
      ghost var p0 := pos;
      ll := 0;
      c := ReadByte();
      while c != NL && c != EOF && ll < LineMax
        invariant 0 <= ll <= LineMax && ll <= |raw|
        invariant forall i :: 0 <= i < ll ==> raw[i] != NL
        invariant line[..ll] == raw[..ll]
        invariant c == (if ll < |raw| then raw[ll] else EOF)
        invariant pos == p0 + (if ll < |raw| then ll + 1 else ll)
        invariant FillLen(raw, ll) == FillLen(raw, 0)
        decreases LineMax - ll
      {
        line[ll] := c;
        ll := ll + 1;
        c := ReadByte();
      }
    }

    /**
     * The length check after the fill loop: an 81st character that is neither
     * newline nor EOF makes the line over-long. Category 1 is recorded, the
     * character is pushed back onto the input and a newline ends the line.
     */
    method CheckLength(c: int) returns (d: int)
      requires ErrsValid() && (c != NL && c != EOF && ll == LineMax ==> pos >= 1)
      modifies this`pos, this`errs, this`errors
      ensures var over := c != NL && c != EOF && ll == LineMax;
        d == (if over then NL else c) && pos == old(pos) - (if over then 1 else 0) &&
        ErrsValid() && errors == old(errors) + (if over then {1} else {})
    {
      d := c;
      if c != NL && c != EOF && ll == LineMax {
        Error(1);
        // ungetc: the character is read again by the next refill
        pos := pos - 1;
        d := NL;
      }
    }

    /** Appends the newline or EOF and the terminating NUL, and rewinds the character count. */
    method EndLine(c: int)
      requires line.Length == LineSlots && 0 <= ll <= LineMax
      modifies this`cc, this`ll, line
      ensures ll == old(ll) + 1 && cc == 0 && line[..ll] == old(line[..ll]) + [c] && line[ll - 1] == c && line[ll] == 0
    {
      line[ll] := c;
      ll := ll + 1;
      ghost var full := line[..ll];
      line[ll] := 0;
      assert line[..ll] == full;
      cc := 0;
    }

    /**
     * Refills the line buffer from the unread input: up to 80 characters,
     * then the newline or EOF, of which an over-long line gets a newline.
     */
    method FillLine() returns (ghost f: Fill)
      requires line.Length == LineSlots && pos <= |src| && ErrsValid()
      modifies this`pos, this`cc, this`ll, this`errs, this`errors, line
      ensures f == Refill(old(src[pos..]))
      ensures cc == 0 && ll == |f.stored| + 1 && line[..ll] == f.stored + [f.term] && line[ll - 1] == f.term
      ensures pos <= |src| && (f.term == NL ==> src[pos..] == f.rest)
      ensures ErrsValid() && errors == old(errors) + (if f.overflow then {1} else {})
    {
      ghost var p0 := pos;
      var c0, c := LoadLine();
      FillAssembles(src, p0, pos, ll, line[..ll], c0, c);
      f := Fill(line[..ll], c, if c == EOF then [] else src[pos..], c0 != NL && c0 != EOF && ll == LineMax);
      EndLine(c);
    }

    /**
     * The fill loop and the length check: the characters stored, and the
     * character read after them (`c0`) as the length check leaves it (`c`).
     */
    method LoadLine() returns (c0: int, c: int)
      requires line.Length == LineSlots && pos <= |src| && ErrsValid()
      modifies this`pos, this`ll, this`errs, this`errors, line
      ensures var k := FillLen(old(src[pos..]), 0);
        var over := c0 != NL && c0 != EOF && k == LineMax;
        ll == k && line[..k] == old(src[pos..])[..k] &&
        c0 == (if k < |src| - old(pos) then src[old(pos) + k] as int else EOF) &&
        c == (if over then NL else c0) &&
        pos == old(pos) + (if k < |src| - old(pos) then k + 1 else k) - (if over then 1 else 0) &&
        ErrsValid() && errors == old(errors) + (if over then {1} else {})
    {
      c0 := FillLoop();
      c := CheckLength(c0);
    }

    /**
     * Refills the empty buffer. The lookahead is then the newline that ended
     * the previous line, or the initial blank: whitespace either way.
     */
    method Refresh()
      requires Core() && cc == ll && ErrsValid() && (refills == 0 || plan[refills - 1].term == NL)
      modifies this`pos, this`cc, this`ll, this`errs, this`errors, this`refills, this`start, this`over, line
      ensures Core() && cc == 0 < ll && at == old(at) && ch == old(ch) && refills == old(refills) + 1
      ensures ErrsValid() && errors == old(errors) + (if over then {1} else {})
    {
      ghost var m := refills;
      PlanNext(chars, src, plan, inputs, starts, m, start, ll);
      ghost var f := FillLine();
      Adopt(m);
    }

    /** Records that the buffer now holds the line of refill `m` of the plan. */
    ghost method Adopt(m: nat)
      requires PlanOf(chars, src, plan, inputs, starts) && m < |plan| && Entry(chars, plan, inputs, starts, m)
      requires line.Length == LineSlots && cc == 0 && ll == |Buf(plan[m])| && line[..ll] == Buf(plan[m])
      requires pos <= |src| && (m + 1 < |plan| ==> src[pos..] == inputs[m + 1])
      requires WellEnded(chars) && at < |chars| && chars[at].c == ch && at + 1 == starts[m]
      modifies this`refills, this`start, this`over
      ensures Core() && refills == m + 1 && start == starts[m] && over == plan[m].overflow
    {
      assert plan[m] == Refill(inputs[m]);
      assert line[ll - 1] == Buf(plan[m])[ll - 1] == plan[m].term;
      refills := m + 1;
      start := starts[m];
      over := plan[m].overflow;
    }

    /** Reads the next buffered character into the lookahead. */
    method NextChar()
      requires Core() && cc < ll
      modifies this`cc, this`ch, this`at
      ensures BufferValid() && at == old(at) + 1 && chars[at].opens == (over && old(cc) == 0)
    {
      HoldsSpells(chars, start, line[..ll], over);
      assert chars[start + cc] == LChar(line[..ll][cc], over && cc == 0);
      ch := line[cc];
      cc := cc + 1;
      at := at + 1;
    }

    /** Advances the lookahead character, refilling the buffer at the end of a line. */
    method GetChar()
      requires BufferValid() && ErrsValid() && ch != EOF
      modifies this`pos, this`cc, this`ll, this`ch, this`at, this`errs, this`errors, this`refills, this`start, this`over, line
      ensures BufferValid() && ErrsValid() && at == old(at) + 1
      ensures errors == old(errors) + (if chars[at].opens then {1} else {})
    {
      if cc == ll {
        // the lookahead is the newline that ended the previous line, or the initial blank
        assert refills == 0 || plan[refills - 1].term == NL;
        assert IsWhite(ch);
        Refresh();
      }
      NextChar();
    }

    /**
     * Advances the lookahead character within a symbol that started at `a`,
     * tracking whether an over-long line has been crossed since then.
     */
    method Step(ghost a: nat, ghost e: set<int>, ghost crossed: bool) returns (ghost crossed': bool)
      requires BufferValid() && ErrsValid() && ch != EOF && a <= at
      requires crossed == Opened(chars, a, at) && errors == e + (if crossed then {1} else {})
      modifies this`pos, this`cc, this`ll, this`ch, this`at, this`errs, this`errors, this`refills, this`start, this`over, line
      ensures BufferValid() && ErrsValid() && at == old(at) + 1
      ensures crossed' == Opened(chars, a, at) && errors == e + (if crossed' then {1} else {})
    {
      GetChar();
      OpenedStep(chars, a, at - 1);
      Flags(e, crossed, chars[at].opens);
      crossed' := crossed || chars[at].opens;
    }

    /** Skips whitespace: the lookahead becomes the first character that is not. */
    method SkipWhite()
      requires BufferValid() && ErrsValid()
      modifies this`pos, this`cc, this`ll, this`ch, this`at, this`errs, this`errors, this`refills, this`start, this`over, line
      ensures BufferValid() && ErrsValid() && at == WhiteEnd(chars, old(at))
      ensures errors == old(errors) + (if Opened(chars, old(at), at) then {1} else {})
    {
      ghost var a, e := at, errors;
      ghost var crossed := false;
      while IsWhite(ch)
        invariant BufferValid() && ErrsValid() && a <= at
        invariant WhiteEnd(chars, at) == WhiteEnd(chars, a)
        invariant crossed == Opened(chars, a, at) && errors == e + (if crossed then {1} else {})
        decreases |chars| - at
      {
        crossed := Step(a, e, crossed);
      }
    }

    /**
     * Reads an identifier into `id`: the whole letter/digit run is consumed,
     * its first IdLen-1 characters are kept, and a NUL ends them. The loop
     * runs at least once, since a letter is a letter or digit.
     */
    method ReadWord() returns (n: nat)
      requires BufferValid() && ErrsValid() && id.Length == IdLen && id != line && IsAlpha(ch)
      modifies this`pos, this`cc, this`ll, this`ch, this`at, this`errs, this`errors, this`refills, this`start, this`over, line, id
      ensures BufferValid() && ErrsValid() && at == RunEnd(chars, old(at), Alpha | Digit)
      ensures n == Min(at, old(at) + IdLen - 1) - old(at) && n < IdLen
      ensures id[..n] == Text(chars, old(at), old(at) + n) && id[n] == 0
      ensures errors == old(errors) + (if Opened(chars, old(at), at) then {1} else {})
    {
      ghost var a, e := at, errors;
      ghost var crossed := false;
      var i := 0;
      while IsAlnum(ch)
        invariant BufferValid() && ErrsValid() && a <= at
        invariant RunEnd(chars, at, Alpha | Digit) == RunEnd(chars, a, Alpha | Digit)
        invariant i == Min(at, a + IdLen - 1) - a && id[..i] == Text(chars, a, a + i)
        invariant crossed == Opened(chars, a, at) && errors == e + (if crossed then {1} else {})
        decreases |chars| - at
      {
        i, crossed := WordStep(a, e, i, crossed);
      }
      id[i] := 0;
      n := i;
    }

    /** One pass of the identifier loop: keep the character, then advance. */
    method WordStep(ghost a: nat, ghost e: set<int>, i: nat, ghost crossed: bool) returns (i': nat, ghost crossed': bool)
      requires BufferValid() && ErrsValid() && id.Length == IdLen && id != line && ch != EOF && a <= at
      requires i == Min(at, a + IdLen - 1) - a && id[..i] == Text(chars, a, a + i)
      requires crossed == Opened(chars, a, at) && errors == e + (if crossed then {1} else {})
      modifies this`pos, this`cc, this`ll, this`ch, this`at, this`errs, this`errors, this`refills, this`start, this`over, line, id
      ensures BufferValid() && ErrsValid() && at == old(at) + 1
      ensures i' == Min(at, a + IdLen - 1) - a && id[..i'] == Text(chars, a, a + i')
      ensures crossed' == Opened(chars, a, at) && errors == e + (if crossed' then {1} else {})
    {
      i' := Keep(a, i);
      crossed' := Step(a, e, crossed);
    }

    /** Stores the lookahead character in `id` unless IdLen-1 characters are already kept. */
    method Keep(ghost a: nat, i: nat) returns (i': nat)
      requires id.Length == IdLen && a <= at < |chars| && chars[at].c == ch
      requires i == Min(at, a + IdLen - 1) - a && id[..i] == Text(chars, a, a + i)
      modifies id
      ensures i' == Min(at + 1, a + IdLen - 1) - a && id[..i'] == Text(chars, a, a + i')
    {
      i' := i;
      if i != IdLen - 1 {
        TextSnoc(chars, a, a + i);
        id[i] := ch;
        i' := i + 1;
      }
    }

    /**
     * Reads a number: each digit extends `num` unless the overflow guard
     * fires, which records category 9 and resets `num` to 0.
     */
    method ReadNumber()
      requires BufferValid() && ErrsValid() && IsDigit(ch)
      modifies this`pos, this`cc, this`ll, this`ch, this`at, this`errs, this`errors, this`refills, this`start, this`over, line, this`num
      ensures BufferValid() && ErrsValid() && at == RunEnd(chars, old(at), Digit)
      ensures AllDigits(Text(chars, old(at), at)) && num == Accum(Text(chars, old(at), at)).value
      ensures errors == old(errors) + (if Accum(Text(chars, old(at), at)).overflow then {9} else {}) +
        (if Opened(chars, old(at), at) then {1} else {})
    {
      ghost var a, e := at, errors;
      ghost var crossed, over := false, false;
      num := 0;
      while IsDigit(ch)
        invariant BufferValid() && ErrsValid() && a <= at
        invariant RunEnd(chars, at, Digit) == RunEnd(chars, a, Digit)
        invariant AllDigits(Text(chars, a, at)) && Accum(Text(chars, a, at)) == Acc(num, over)
        invariant crossed == Opened(chars, a, at)
        invariant errors == e + (if over then {9} else {}) + (if crossed then {1} else {})
        decreases |chars| - at
      {
        over, crossed := DigitStep(a, e, over, crossed);
      }
    }

    /** One pass of the number loop: accumulate the digit, then advance. */
    method DigitStep(ghost a: nat, ghost e: set<int>, ghost over: bool, ghost crossed: bool)
      returns (ghost over': bool, ghost crossed': bool)
      requires BufferValid() && ErrsValid() && IsDigit(ch) && a <= at
      requires AllDigits(Text(chars, a, at)) && Accum(Text(chars, a, at)) == Acc(num, over)
      requires crossed == Opened(chars, a, at)
      requires errors == e + (if over then {9} else {}) + (if crossed then {1} else {})
      modifies this`pos, this`cc, this`ll, this`ch, this`at, this`errs, this`errors, this`refills, this`start, this`over, line, this`num
      ensures BufferValid() && ErrsValid() && at == old(at) + 1
      ensures AllDigits(Text(chars, a, at)) && Accum(Text(chars, a, at)) == Acc(num, over')
      ensures crossed' == Opened(chars, a, at)
      ensures errors == e + (if over' then {9} else {}) + (if crossed' then {1} else {})
    {
      over' := Accumulate(a, e, over, crossed);
      crossed' := Step(a, e + (if over' then {9} else {}), crossed);
    }

    /** One digit of a number: the guarded step of the accumulator. */
    method Accumulate(ghost a: nat, ghost e: set<int>, ghost over: bool, ghost crossed: bool) returns (ghost over': bool)
      requires ErrsValid() && a <= at < |chars| && chars[at].c == ch && IsDigit(ch)
      requires AllDigits(Text(chars, a, at)) && Accum(Text(chars, a, at)) == Acc(num, over)
      requires errors == e + (if over then {9} else {}) + (if crossed then {1} else {})
      modifies this`num, this`errs, this`errors
      ensures ErrsValid() && AllDigits(Text(chars, a, at + 1)) && Accum(Text(chars, a, at + 1)) == Acc(num, over')
      ensures errors == e + (if over' then {9} else {}) + (if crossed then {1} else {})
    {
      ghost var ds := Text(chars, a, at);
      TextSnoc(chars, a, at);
      AccumSnoc(ds, ch);
      over' := over;
      if num > (Int32Max - (ch - 48)) / 10 {
        Error(9);
        Flags9(e, over, crossed);
        num := 0;
        over' := true;
      } else {
        num := 10 * num + (ch - 48);
      }
    }

    /**
     * GetSymbol: skips whitespace and reads the next symbol. The lookahead
     * symbol becomes the next one of the stream, the categories its reading
     * records are added, and `num` changes only when a number is read.
     */
    method GetSymbol()
      requires Valid() && (tix == -1 || sym != Eof)
      modifies this`pos, this`cc, this`ll, this`ch, this`at, this`errs, this`errors, this`refills, this`start, this`over, line, id, this`sym, this`num, this`tix
      ensures Valid() && tix == old(tix) + 1 && sym == toks[tix].sym && IsSymbol(sym)
      ensures errors == old(errors) + Lex(toks[tix])
      ensures num == if sym == Number then toks[tix].num else old(num)
    {
      ghost var k := tix + 1;
      var s := ReadToken(k);
      assert IsSymbol(s);
      tix := k;
      sym := s;
      assert BufferValid() && ErrsValid();
    }

    /**
     * Reads the symbol scanned from the lookahead character: whitespace is
     * skipped, then an identifier or keyword, a number, EOF or a single
     * character is read.
     */
    method ReadToken(ghost k: nat) returns (s: bv32)
      requires BufferValid() && ErrsValid() && Streams() && k < |toks| && at == places[k]
      modifies this`pos, this`cc, this`ll, this`ch, this`at, this`errs, this`errors, this`refills, this`start, this`over, line, id, this`num
      ensures BufferValid() && ErrsValid()
      ensures s == toks[k].sym && errors == old(errors) + Lex(toks[k])
      ensures s != Eof ==> k + 1 < |toks| && at == places[k + 1]
      ensures num == (if s == Number then toks[k].num else old(num))
    {
      NextPlace(chars, toks, places, k, at);
      ghost var a, e := at, errors;
      SkipWhite();
      if IsAlpha(ch) {
        s := ReadSymbol(a, e);
      } else if IsDigit(ch) {
        s := ReadNumeral(a, e);
      } else if ch == EOF {
        s := Eof;
        EndScanned(chars, a, at, e);
      } else {
        s := ReadSingle(a, e);
      }
    }

    /** The identifier or keyword scanned from `a`, at its first letter. */
    method ReadSymbol(ghost a: nat, ghost e: set<int>) returns (s: bv32)
      requires BufferValid() && ErrsValid() && id.Length == IdLen && id != line && IsAlpha(ch)
      requires a <= at == WhiteEnd(chars, a) && errors == e + (if Opened(chars, a, at) then {1} else {})
      modifies this`pos, this`cc, this`ll, this`ch, this`at, this`errs, this`errors, this`refills, this`start, this`over, line, id
      ensures BufferValid() && ErrsValid()
      ensures var t := Scan(chars, a); at == t.next && s == t.tok.sym && errors == e + Lex(t.tok)
    {
      ghost var w := at;
      var n := ReadWord();
      // keyword table lookup, comparing whole texts
      var word := id[..n];
      var i := 0;
      while i != NumKw && Keywords[i] != word
        invariant 0 <= i <= NumKw && forall j :: 0 <= j < i ==> Keywords[j] != word
      {
        i := i + 1;
      }
      s := if i == NumKw then Ident else KeywordSyms[i];
      WordScanned(chars, a, w, at, n, e);
    }

    /** The number scanned from `a`, at its first digit. */
    method ReadNumeral(ghost a: nat, ghost e: set<int>) returns (s: bv32)
      requires BufferValid() && ErrsValid() && IsDigit(ch)
      requires a <= at == WhiteEnd(chars, a) && errors == e + (if Opened(chars, a, at) then {1} else {})
      modifies this`pos, this`cc, this`ll, this`ch, this`at, this`errs, this`errors, this`refills, this`start, this`over, line, this`num
      ensures BufferValid() && ErrsValid()
      ensures var t := Scan(chars, a);
        at == t.next && s == t.tok.sym && num == t.tok.num && errors == e + Lex(t.tok)
    {
      ghost var w := at;
      ReadNumber();
      s := Number;
      NumberScanned(chars, a, w, at, e);
    }

    /** Any other character, scanned from `a`, is one symbol by itself. */
    method ReadSingle(ghost a: nat, ghost e: set<int>) returns (s: bv32)
      requires BufferValid() && ErrsValid() && !IsAlpha(ch) && !IsDigit(ch) && ch != EOF
      requires a <= at == WhiteEnd(chars, a) && errors == e + (if Opened(chars, a, at) then {1} else {})
      modifies this`pos, this`cc, this`ll, this`ch, this`at, this`errs, this`errors, this`refills, this`start, this`over, line
      ensures BufferValid() && ErrsValid()
      ensures var t := Scan(chars, a); at == t.next && s == t.tok.sym && errors == e + Lex(t.tok)
    {
      ghost var w := at;
      s := Traits(ch) & !(Alpha | Digit | White);
      GetChar();
      SingleScanned(chars, a, w, e);
    }

    /**
     * Test: deletes symbols, recording category 11 for each, until the
     * lookahead is in the follow set `fset`, which holds EOF.
     */
    method Test(fset: bv32, ghost F: set<bv32>)
      requires Valid() && tix >= 0 && Agrees(fset, F) && Eof in F
      modifies this`pos, this`cc, this`ll, this`ch, this`at, this`errs, this`errors, this`refills, this`start, this`over, line, id, this`sym, this`num, this`tix
      ensures Valid() && var r := TestF(toks, old(tix), F); tix == r.i && errors == old(errors) + r.errs
      ensures sym == toks[tix].sym
    {
      ghost var t0, e0 := tix, errors;
      var s := sym;
      Member(s, fset, F);
      while s & fset == 0
        invariant Valid() && s == sym && (s & fset != 0 <==> s in F)
        invariant Synchronising(toks, F, t0, e0, tix, errors)
        decreases |toks| - tix
      {
        s := Delete(fset, F, t0, e0);
      }
      TestStays(toks, tix, F);
      NothingAdded(errors, TestF(toks, tix, F).errs);
    }

    /** One deletion: records category 11 and reads the next symbol, which it returns. */
    method Delete(fset: bv32, ghost F: set<bv32>, ghost t0: int, ghost e0: set<int>) returns (s: bv32)
      requires Valid() && Agrees(fset, F) && sym !in F && Synchronising(toks, F, t0, e0, tix, errors)
      modifies this`pos, this`cc, this`ll, this`ch, this`at, this`errs, this`errors, this`refills, this`start, this`over, line, id, this`sym, this`num, this`tix
      ensures Valid() && tix == old(tix) + 1 && s == sym && (s & fset != 0 <==> s in F)
      ensures Synchronising(toks, F, t0, e0, tix, errors)
    {
      ghost var t, e := tix, errors;
      TestDeletes(toks, t, F);
      Error(11);
      GetSymbol();
      s := sym;
      Member(s, fset, F);
      Deleted(toks, F, t0, e0, t, e, errors);
    }

    /** Expect: accepts the expected symbol, or records category `errno` as its insertion. */
    method Expect(exp: bv32, errno: int)
      requires Valid() && tix >= 0 && IsSymbol(exp) && exp != Eof && 1 <= errno <= 12
      modifies this`pos, this`cc, this`ll, this`ch, this`at, this`errs, this`errors, this`refills, this`start, this`over, line, id, this`sym, this`num, this`tix
      ensures Valid() && var r := ExpectF(toks, old(tix), exp, errno); tix == r.i && errors == old(errors) + r.errs
    {
      if exp == sym {
        GetSymbol();
      } else {
        Error(errno);
      }
    }

    /**
     * Expression = number: writes `mov ecx` with the number last scanned,
     * after the symbol following this one has been read.
     */
    method Expression(fset: bv32, ghost F: set<bv32>)
      requires Valid() && tix >= 0 && Agrees(fset, F) && Eof in F
      modifies this`pos, this`cc, this`ll, this`ch, this`at, this`errs, this`errors, this`refills, this`start, this`over, line, id, this`sym, this`num, this`tix, this`out
      ensures Valid() && var r := ExpressionF(toks, old(tix), F); tix == r.i && Did(old(errors), old(out), r, errors, out)
    {
      ghost var t0, e0, o0 := tix, errors, out;
      AgreesAdd(Number, fset, F);
      Test(Number | fset, {Number} + F);
      ghost var t := TestF(toks, t0, {Number} + F);
      ghost var e1 := errors;
      assert tix == t.i && out == o0;
      if sym == Number {
        assert num == toks[t.i].num;
        GetSymbol();
        ghost var e2, v := errors, num;
        assert tix == t.i + 1;
        Write(LoadEcx(num));
        assert tix == t.i + 1;
        Test(fset, F);
        ExpressionLoaded(toks, F, t0, e0, o0, e1, e2, v, errors);
      } else {
        Error(12);
        ExpressionMissing(toks, F, t0, e0, o0, e1, errors);
      }
    }

    /** Block = "Begin" { Expression ";" } "End". */
    method Block(fset: bv32, ghost F: set<bv32>)
      requires Valid() && tix >= 0 && Agrees(fset, F) && Eof in F
      modifies this`pos, this`cc, this`ll, this`ch, this`at, this`errs, this`errors, this`refills, this`start, this`over, line, id, this`sym, this`num, this`tix, this`out
      ensures Valid() && var r := BlockF(toks, old(tix), F); tix == r.i && Did(old(errors), old(out), r, errors, out)
    {
      ghost var t0, e0, o0 := tix, errors, out;
      AgreesAddTwo(Begin, End, fset, F);
      Test(Begin | End | fset, {Begin, End} + F);
      ghost var k1, e1 := tix, errors;
      Expect(Begin, 6);
      ghost var k2, e2 := tix, errors;
      assert out == o0;
      Loop(fset, F);
      ghost var k3, e3, o3 := tix, errors, out;
      Expect(End, 7);
      ghost var k4, e4 := tix, errors;
      Test(fset, F);
      assert out == o3;
      BlockDone(toks, F, t0, e0, o0, k1, e1, k2, e2, k3, e3, o3, k4, e4, errors);
    }

    /** The loop of Block: an expression and a ";" for as long as synchronisation finds a number. */
    method Loop(fset: bv32, ghost F: set<bv32>)
      requires Valid() && tix >= 0 && Agrees(fset, F) && Eof in F
      modifies this`pos, this`cc, this`ll, this`ch, this`at, this`errs, this`errors, this`refills, this`start, this`over, line, id, this`sym, this`num, this`tix, this`out
      ensures Valid() && var r := BlockLoopF(toks, old(tix), F); tix == r.i && Did(old(errors), old(out), r, errors, out)
    {
      ghost var l0, e0, o0 := tix, errors, out;
      AgreesAddTwo(Number, End, fset, F);
      AgreesAddTwo(Semicolon, End, fset, F);
      LoopBegins(toks, F, l0, e0, o0);
      while true
        invariant Valid() && Looping(toks, F, l0, e0, o0, tix, errors, out)
        decreases |toks| - tix
      {
        ghost var k, e, o := tix, errors, out;
        Test(Number | End | fset, {Number, End} + F);
        ghost var k1, e1 := tix, errors;
        assert out == o;
        if sym != Number {
          LoopEnds(toks, F, l0, e0, o0, k, e, o, k1, e1);
          break;
        }
        Expression(Semicolon | End | fset, {Semicolon, End} + F);
        ghost var k2, e2, o2 := tix, errors, out;
        Expect(Semicolon, 5);
        assert out == o2;
        LoopRound(toks, F, l0, e0, o0, k, e, o, k1, e1, k2, e2, o2, tix, errors);
      }
    }

    /** ProgramDeclaration = "Program" identifier ";". */
    method ProgramDeclaration(fset: bv32, ghost F: set<bv32>)
      requires Valid() && tix >= 0 && Agrees(fset, F) && Eof in F
      modifies this`pos, this`cc, this`ll, this`ch, this`at, this`errs, this`errors, this`refills, this`start, this`over, line, id, this`sym, this`num, this`tix
      ensures Valid() && var r := ProgramDeclarationF(toks, old(tix), F); tix == r.i && errors == old(errors) + r.errs
    {
      ghost var t0, e0, o := tix, errors, out;
      AgreesAdd(Program, fset, F);
      Test(Program | fset, {Program} + F);
      ghost var t := TestF(toks, t0, {Program} + F);
      ghost var e1 := errors;
      Expect(Program, 3);
      ghost var p := ExpectF(toks, t.i, Program, 3);
      ghost var e2 := errors;
      Expect(Ident, 4);
      ghost var n := ExpectF(toks, p.i, Ident, 4);
      ghost var e3 := errors;
      Expect(Semicolon, 5);
      ghost var c := ExpectF(toks, n.i, Semicolon, 5);
      ghost var e4 := errors;
      Test(fset, F);
      ghost var u := TestF(toks, c.i, F);
      ProgramDeclarationSteps(toks, t0, F, t, p, n, c);
      DidQuiet(e0, o, t, e1);
      DidQuiet(e1, o, p, e2);
      DidThen(e0, o, t, e1, o, p, e2, o);
      DidQuiet(e2, o, n, e3);
      DidThen(e0, o, t.Then(p), e2, o, n, e3, o);
      DidQuiet(e3, o, c, e4);
      DidThen(e0, o, t.Then(p).Then(n), e3, o, c, e4, o);
      DidQuiet(e4, o, u, errors);
      DidThen(e0, o, t.Then(p).Then(n).Then(c), e4, o, u, errors, o);
    }

    /** `fprintf` to the destination: appends one line of the listing. */
    method Write(e: Emit)
      requires Valid()
      modifies this`out
      ensures Valid() && out == old(out) + [e]
    {
      out := out + [e];
    }

    /** After the final ".": a symbol other than EOF is input left over, category 10. */
    method CheckEnd()
      requires Valid() && tix >= 0
      modifies this`errs, this`errors
      ensures Valid() && errors == old(errors) + (if toks[tix].sym != Eof then {10} else {})
    {
      if sym != Eof {
        Error(10);
      }
    }

    /**
     * SourceFile up to the final ".": writes the header, reads the first
     * symbol, parses the program declaration, writes `_start:` and parses
     * the block and the ".".
     */
    method ProgramText()
      requires Valid() && tix == -1
      modifies this`pos, this`cc, this`ll, this`ch, this`at, this`errs, this`errors, this`refills, this`start, this`over, line, id, this`sym, this`num, this`tix, this`out
      ensures Valid() && var r := ProgramTextF(toks);
        tix == r.i && errors == old(errors) + r.errs && out == old(out) + [Header] + [StartLabel] + LoadLines(r.loads)
    {
      ghost var e0, o0 := errors, out;
      Write(Header);
      GetSymbol();
      ghost var e1 := errors;
      assert tix == 0 && out == o0 + [Header];
      AgreesEof();
      AgreesAdd(Begin, Eof, {Eof});
      AgreesAdd(Period, Eof, {Eof});
      ProgramDeclaration(Begin | Eof, {Begin, Eof});
      ghost var p := ProgramDeclarationF(toks, 0, {Begin, Eof});
      ghost var e2 := errors;
      assert tix == p.i && out == o0 + [Header];
      Write(StartLabel);
      assert out == o0 + [Header] + [StartLabel];
      Block(Period | Eof, {Period, Eof});
      ghost var b := BlockF(toks, p.i, {Period, Eof});
      ghost var e3, o3 := errors, out;
      assert tix == b.i;
      Expect(Period, 8);
      ProgramTextDone(toks, p, b, e0, e1, e2, e3, errors, o0, o3);
    }

    /**
     * SourceFile = ProgramDeclaration Block "." EOF: the text up to the ".",
     * then a symbol other than EOF records category 10, then the exit
     * sequence is written.
     */
    method SourceFile()
      requires Valid() && tix == -1
      modifies this`pos, this`cc, this`ll, this`ch, this`at, this`errs, this`errors, this`refills, this`start, this`over, line, id, this`sym, this`num, this`tix, this`out
      ensures Valid()
      ensures var r := SourceFileF(toks); errors == old(errors) + r.errs && out == old(out) + Listing(r.loads)
    {
      ghost var e0, o0 := errors, out;
      ProgramText();
      ghost var e1, o1 := errors, out;
      CheckEnd();
      SourceFileDone(toks, e0, e1, errors, o0, o1);
      Write(ExitSeq);
    }
  }

  /**
   * A whole compilation: the listing written, the exit status (1 exactly
   * when some category was recorded) and, on failure, the report.
   */
  method Compile(input: seq<byte>) returns (sc: int, listing: seq<Emit>, report: seq<ReportLine>)
    ensures var r := SourceFileF(Stream(Start(input), 0));
      listing == Listing(r.loads) && (sc == 0 || sc == 1) && (sc == 1 <==> r.errs != {}) &&
      (sc == 1 ==> Reports(report, r.errs)) && (sc == 0 ==> report == [])
  {
    var c := new Compiler(input);
    c.SourceFile();
    NoneRecorded(c.errs, c.errors);
    if c.errs != 0 {
      sc := 1;
      report := c.PrintErrors();
    } else {
      sc := 0;
      report := [];
    }
    listing := c.out;
  }
}
