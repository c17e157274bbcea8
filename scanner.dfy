/**
 * The scanner as a reference: the symbol read from a logical character
 * stream starting at a given lookahead position, and the whole stream of
 * symbols an input yields.
 */
module Scanner {
  import opened Symbols
  import opened Lines

  /**
   * A scanned symbol with its payload and what went wrong while it was
   * read: `overlong` when reading it crossed into an over-long line, and
   * `overflow` when its digits overflowed. `id` is meaningful for
   * identifiers and keywords, `num` for numbers.
   */
  datatype Tok = Tok(sym: bv32, id: seq<int>, num: int, overlong: bool, overflow: bool)

  /** The error categories reading a symbol records: 1 for an over-long line, 9 for overflow. */
  function Lex(t: Tok): (r: set<int>)
    ensures r <= {1, 9}
    ensures 1 in r <==> t.overlong
    ensures 9 in r <==> t.overflow
  {
    (if t.overlong then {1} else {}) + (if t.overflow then {9} else {})
  }

  /** A symbol and the position of the lookahead character left after it. */
  datatype Step = Step(tok: Tok, next: nat)

  /** The accumulated value of a digit run and whether the guard ever fired. */
  datatype Acc = Acc(value: int, overflow: bool)

  /** The first position at or after i whose character is not whitespace. */
  function WhiteEnd(cs: seq<LChar>, i: nat): (r: nat)
    requires WellEnded(cs) && i < |cs|
    decreases |cs| - i
    ensures i <= r < |cs| && !IsWhite(cs[r].c)
    ensures forall j :: i <= j < r ==> IsWhite(cs[j].c)
  {
    if IsWhite(cs[i].c) then WhiteEnd(cs, i + 1) else i
  }

  /** The first position at or after i whose character has none of the kinds in `mask`. */
  function RunEnd(cs: seq<LChar>, i: nat, mask: bv32): (r: nat)
    requires WellEnded(cs) && i < |cs|
    decreases |cs| - i
    ensures i <= r < |cs| && Traits(cs[r].c) & mask == 0
    ensures forall j :: i <= j < r ==> Traits(cs[j].c) & mask != 0
  {
    if Traits(cs[i].c) & mask != 0 then RunEnd(cs, i + 1, mask) else i
  }

  /** The character codes at positions a..b-1. */
  function Text(cs: seq<LChar>, a: nat, b: nat): (r: seq<int>)
    requires a <= b <= |cs|
    ensures |r| == b - a && forall j :: 0 <= j < b - a ==> r[j] == cs[a + j].c
  {
    seq(b - a, j requires 0 <= j < b - a => cs[a + j].c)
  }

  function Min(a: int, b: int): int { if a < b then a else b }

  predicate AllDigits(ds: seq<int>) {
    forall i :: 0 <= i < |ds| ==> 48 <= ds[i] <= 57
  }

  /** The overflow guard of the digit loop; its operands are never negative, so C's division agrees. */
  predicate Guard(n: int, d: int)
    requires 0 <= d <= 9
  {
    n > (Int32Max - d) / 10
  }

  /** The guard fires exactly when the next step would exceed INT32_MAX. */
  lemma GuardExact(n: int, d: int)
    requires 0 <= n && 0 <= d <= 9
    ensures Guard(n, d) <==> 10 * n + d > Int32Max
  {
    var q := (Int32Max - d) / 10;
    assert Int32Max - d == 10 * q + (Int32Max - d) % 10;
  }

  /**
   * The accumulator after a run of digits, left to right: each digit either
   * extends the value or, when the guard fires, resets it to 0 and is dropped.
   */
  function Accum(ds: seq<int>): (a: Acc)
    requires AllDigits(ds)
    ensures 0 <= a.value <= Int32Max
    decreases |ds|
  {
    if ds == [] then Acc(0, false)
    else
      var p := Accum(ds[..|ds| - 1]);
      var d := ds[|ds| - 1] - 48;
      if Guard(p.value, d) then Acc(0, true)
      else
        GuardExact(p.value, d);
        Acc(10 * p.value + d, p.overflow)
  }

  /** The decimal value of a digit run. */
  function Value(ds: seq<int>): nat
    requires AllDigits(ds)
    decreases |ds|
  {
    if ds == [] then 0 else 10 * Value(ds[..|ds| - 1]) + (ds[|ds| - 1] - 48)
  }

  /**
   * The guard fires within a run exactly when the run's decimal value
   * exceeds INT32_MAX; otherwise the accumulator holds that value.
   */
  lemma {:induction false} AccumValue(ds: seq<int>)
    requires AllDigits(ds)
    ensures Accum(ds).overflow <==> Value(ds) > Int32Max
    ensures !Accum(ds).overflow ==> Accum(ds).value == Value(ds)
    decreases |ds|
  {
    if ds != [] {
      var pre := ds[..|ds| - 1];
      var d := ds[|ds| - 1] - 48;
      AccumValue(pre);
      GuardExact(Accum(pre).value, d);
      if !Accum(pre).overflow {
        assert Value(ds) == 10 * Value(pre) + d;
      } else {
        assert Value(ds) >= 10 * Value(pre);
      }
    }
  }

  /** One more digit: the accumulator takes one guarded step. */
  lemma AccumSnoc(ds: seq<int>, d: int)
    requires AllDigits(ds) && 48 <= d <= 57
    ensures AllDigits(ds + [d])
    ensures var p := Accum(ds);
      Accum(ds + [d]) == if Guard(p.value, d - 48) then Acc(0, true) else Acc(10 * p.value + d - 48, p.overflow)
  {
    assert (ds + [d])[..|ds|] == ds;
  }

  lemma AccumDigits4()
    ensures Accum([50, 49, 52, 55]) == Acc(2147, false)
  {
    assert Accum([50]) == Acc(2, false) by {
      AccumSnoc([], 50);
      assert [] + [50] == [50];
    }
    assert Accum([50, 49]) == Acc(21, false) by {
      AccumSnoc([50], 49);
      assert [50] + [49] == [50, 49];
    }
    assert Accum([50, 49, 52]) == Acc(214, false) by {
      AccumSnoc([50, 49], 52);
      assert [50, 49] + [52] == [50, 49, 52];
    }
    assert Accum([50, 49, 52, 55]) == Acc(2147, false) by {
      AccumSnoc([50, 49, 52], 55);
      assert [50, 49, 52] + [55] == [50, 49, 52, 55];
    }
  }

  lemma AccumDigits8()
    ensures Accum([50, 49, 52, 55, 52, 56, 51, 54]) == Acc(21474836, false)
  {
    AccumDigits4();
    assert Accum([50, 49, 52, 55, 52]) == Acc(21474, false) by {
      AccumSnoc([50, 49, 52, 55], 52);
      assert [50, 49, 52, 55] + [52] == [50, 49, 52, 55, 52];
    }
    assert Accum([50, 49, 52, 55, 52, 56]) == Acc(214748, false) by {
      AccumSnoc([50, 49, 52, 55, 52], 56);
      assert [50, 49, 52, 55, 52] + [56] == [50, 49, 52, 55, 52, 56];
    }
    assert Accum([50, 49, 52, 55, 52, 56, 51]) == Acc(2147483, false) by {
      AccumSnoc([50, 49, 52, 55, 52, 56], 51);
      assert [50, 49, 52, 55, 52, 56] + [51] == [50, 49, 52, 55, 52, 56, 51];
    }
    assert Accum([50, 49, 52, 55, 52, 56, 51, 54]) == Acc(21474836, false) by {
      AccumSnoc([50, 49, 52, 55, 52, 56, 51], 54);
      assert [50, 49, 52, 55, 52, 56, 51] + [54] == [50, 49, 52, 55, 52, 56, 51, 54];
    }
  }

  lemma AccumDigits11()
    ensures Accum([50, 49, 52, 55, 52, 56, 51, 54, 52, 56, 49]) == Acc(1, true)
  {
    AccumDigits8();
    assert Accum([50, 49, 52, 55, 52, 56, 51, 54, 52]) == Acc(214748364, false) by {
      AccumSnoc([50, 49, 52, 55, 52, 56, 51, 54], 52);
      assert [50, 49, 52, 55, 52, 56, 51, 54] + [52] == [50, 49, 52, 55, 52, 56, 51, 54, 52];
    }
    assert Accum([50, 49, 52, 55, 52, 56, 51, 54, 52, 56]) == Acc(0, true) by {
      AccumSnoc([50, 49, 52, 55, 52, 56, 51, 54, 52], 56);
      assert [50, 49, 52, 55, 52, 56, 51, 54, 52] + [56] == [50, 49, 52, 55, 52, 56, 51, 54, 52, 56];
    }
    assert Accum([50, 49, 52, 55, 52, 56, 51, 54, 52, 56, 49]) == Acc(1, true) by {
      AccumSnoc([50, 49, 52, 55, 52, 56, 51, 54, 52, 56], 49);
      assert [50, 49, 52, 55, 52, 56, 51, 54, 52, 56] + [49] == [50, 49, 52, 55, 52, 56, 51, 54, 52, 56, 49];
    }
  }

  /**
   * An overflowing literal does not read as 0: digits after the one that
   * tripped the guard are accumulated again from 0, and that digit is lost.
   */
  lemma OverflowKeepsAccumulating()
    ensures Accum(Bytes("21474836481")) == Acc(1, true)
  {
    AccumDigits11();
    assert Bytes("21474836481") == [50, 49, 52, 55, 52, 56, 51, 54, 52, 56, 49];
  }

  /** Whether a character delivered at positions a+1..k opened an over-long line. */
  predicate Opened(cs: seq<LChar>, a: nat, k: nat)
    requires k < |cs|
  {
    exists p :: a < p <= k && cs[p].opens
  }

  /** The lexical categories of one more delivered character. */
  lemma OpenedStep(cs: seq<LChar>, a: nat, k: nat)
    requires a <= k && k + 1 < |cs|
    ensures Opened(cs, a, k + 1) <==> Opened(cs, a, k) || cs[k + 1].opens
  {
    if cs[k + 1].opens { assert a < k + 1 <= k + 1; }
  }

  /** True of identifiers and keywords, the symbols whose text is kept. */
  predicate IsWord(s: bv32) { s == Ident || s == Begin || s == End || s == Program }

  /**
   * One symbol read from `cs`, whose character at `a` is the lookahead:
   * whitespace is skipped, then an identifier or keyword, a number, EOF or
   * one other character is read.
   */
  function Scan(cs: seq<LChar>, a: nat): (s: Step)
    requires WellEnded(cs) && a < |cs|
    ensures a <= s.next < |cs| && IsSymbol(s.tok.sym)
    ensures s.tok.overflow ==> s.tok.sym == Number
    ensures IsWord(s.tok.sym) <==> IsAlpha(cs[WhiteEnd(cs, a)].c)
    ensures s.tok.sym == Number <==> IsDigit(cs[WhiteEnd(cs, a)].c)
    ensures s.tok.sym == Eof <==> cs[WhiteEnd(cs, a)].c == EOF
    // progress: every symbol but EOF consumes at least one character
    ensures s.tok.sym != Eof ==> s.next > a
  {
    var w := WhiteEnd(cs, a);
    var c := cs[w].c;
    if IsAlpha(c) then
      var e := RunEnd(cs, w, Alpha | Digit);
      var id := Text(cs, w, Min(e, w + IdLen - 1));
      Step(Tok(KeywordSym(id), id, 0, Opened(cs, a, e), false), e)
    else if IsDigit(c) then
      var e := RunEnd(cs, w, Digit);
      var ds := Text(cs, w, e);
      var acc := Accum(ds);
      AccumValue(ds);
      Step(Tok(Number, [], acc.value, Opened(cs, a, e), acc.overflow), e)
    else if c == EOF then
      Step(Tok(Eof, [], 0, Opened(cs, a, w), false), w)
    else
      Step(Tok(SymbolOf(c), [], 0, Opened(cs, a, w + 1), false), w + 1)
  }

  /** The symbols read from position a of `cs` up to and including Eof. */
  function Stream(cs: seq<LChar>, a: nat): (ts: seq<Tok>)
    requires WellEnded(cs) && a < |cs|
    decreases |cs| - a
    ensures |ts| >= 1 && ts[|ts| - 1].sym == Eof
    ensures forall i :: 0 <= i < |ts| - 1 ==> ts[i].sym != Eof
    ensures forall i :: 0 <= i < |ts| ==> IsSymbol(ts[i].sym)
  {
    var s := Scan(cs, a);
    if s.tok.sym == Eof then [s.tok] else [s.tok] + Stream(cs, s.next)
  }

  /**
   * An identifier or keyword is the maximal letter/digit run at the first
   * non-whitespace character; its first IdLen-1 characters are kept and
   * decide the symbol.
   */
  lemma ScanWord(cs: seq<LChar>, a: nat)
    requires WellEnded(cs) && a < |cs| && IsAlpha(cs[WhiteEnd(cs, a)].c)
    ensures var w, s := WhiteEnd(cs, a), Scan(cs, a);
      w < s.next && !IsAlnum(cs[s.next].c) && (forall j :: w <= j < s.next ==> IsAlnum(cs[j].c)) &&
      s.tok.id == Text(cs, w, Min(s.next, w + IdLen - 1)) &&
      (s.tok.sym == Ident <==> s.tok.id !in Keywords) &&
      (forall k :: 0 <= k < NumKw && s.tok.id == Keywords[k] ==> s.tok.sym == KeywordSyms[k]) &&
      (s.tok.overlong <==> Opened(cs, a, s.next)) && !s.tok.overflow
  {
  }

  /**
   * A number is the maximal digit run at the first non-whitespace
   * character; it records category 9 exactly when its value exceeds
   * INT32_MAX, and otherwise carries that value.
   */
  lemma ScanNumber(cs: seq<LChar>, a: nat)
    requires WellEnded(cs) && a < |cs| && IsDigit(cs[WhiteEnd(cs, a)].c)
    ensures var w, s := WhiteEnd(cs, a), Scan(cs, a);
      w < s.next && !IsDigit(cs[s.next].c) && (forall j :: w <= j < s.next ==> IsDigit(cs[j].c)) &&
      AllDigits(Text(cs, w, s.next)) && 0 <= s.tok.num <= Int32Max &&
      (s.tok.overflow <==> Value(Text(cs, w, s.next)) > Int32Max) &&
      (!s.tok.overflow ==> s.tok.num == Value(Text(cs, w, s.next))) &&
      (s.tok.overlong <==> Opened(cs, a, s.next))
  {
    var w := WhiteEnd(cs, a);
    var e := RunEnd(cs, w, Digit);
    AccumValue(Text(cs, w, e));
  }

  /** At EOF the scanner stops on the EOF itself and consumes nothing more. */
  lemma ScanEnd(cs: seq<LChar>, a: nat)
    requires WellEnded(cs) && a < |cs| && cs[WhiteEnd(cs, a)].c == EOF
    ensures var s := Scan(cs, a);
      s.next == WhiteEnd(cs, a) == |cs| - 1 && (s.tok.overlong <==> Opened(cs, a, s.next))
  {
  }

  /** Any other character is one symbol by itself: '.', ';' or Nul. */
  lemma ScanSingle(cs: seq<LChar>, a: nat)
    requires WellEnded(cs) && a < |cs|
    requires var c := cs[WhiteEnd(cs, a)].c; !IsAlpha(c) && !IsDigit(c) && c != EOF
    ensures var w, s := WhiteEnd(cs, a), Scan(cs, a);
      s.next == w + 1 && s.tok.sym == SymbolOf(cs[w].c) &&
      (s.tok.overlong <==> Opened(cs, a, w + 1))
  {
  }

  /** The lookahead positions from which the symbols of `Stream(cs, a)` are read. */
  function Places(cs: seq<LChar>, a: nat): (ps: seq<nat>)
    requires WellEnded(cs) && a < |cs|
    decreases |cs| - a
    ensures |ps| == |Stream(cs, a)| && ps[0] == a
  {
    var s := Scan(cs, a);
    if s.tok.sym == Eof then [a] else [a] + Places(cs, s.next)
  }

  /** Symbol k of `ts` is the one scanned from position `ps[k]`, and symbol k+1 is read where it stops. */
  ghost predicate Scanned(cs: seq<LChar>, ts: seq<Tok>, ps: seq<nat>, k: nat) {
    WellEnded(cs) && k < |ts| == |ps| && ps[k] < |cs| && ts[k] == Scan(cs, ps[k]).tok &&
    (k + 1 < |ts| ==> ps[k + 1] == Scan(cs, ps[k]).next)
  }

  /** Every symbol of `ts` is scanned from its place in `ps`. */
  ghost predicate StreamOf(cs: seq<LChar>, ts: seq<Tok>, ps: seq<nat>) {
    forall k: nat :: k < |ts| ==> Scanned(cs, ts, ps, k)
  }

  /** Each symbol of the stream is the one scanned at its place. */
  lemma {:induction false} StreamPlaces(cs: seq<LChar>, a: nat, k: nat)
    requires WellEnded(cs) && a < |cs| && k < |Stream(cs, a)|
    ensures Scanned(cs, Stream(cs, a), Places(cs, a), k)
    decreases k
  {
    var s := Scan(cs, a);
    if k > 0 {
      StreamPlaces(cs, s.next, k - 1);
      assert Stream(cs, a) == [s.tok] + Stream(cs, s.next);
      assert Places(cs, a) == [a] + Places(cs, s.next);
    } else if 1 < |Stream(cs, a)| {
      assert Places(cs, a)[1] == Places(cs, s.next)[0];
    }
  }

  lemma StreamDescribed(cs: seq<LChar>)
    requires WellEnded(cs)
    ensures StreamOf(cs, Stream(cs, 0), Places(cs, 0))
  {
    forall k: nat | k < |Stream(cs, 0)| ensures Scanned(cs, Stream(cs, 0), Places(cs, 0), k) {
      StreamPlaces(cs, 0, k);
    }
  }

  /** An over-long line opened in a..e exactly when it opened in a..w or in w..e. */
  lemma OpenedSplit(cs: seq<LChar>, a: nat, w: nat, e: nat)
    requires a <= w <= e < |cs|
    ensures Opened(cs, a, e) <==> Opened(cs, a, w) || Opened(cs, w, e)
  {
    if Opened(cs, a, e) {
      var p :| a < p <= e && cs[p].opens;
      if p <= w { assert a < p <= w; } else { assert w < p <= e; }
    }
    if Opened(cs, a, w) {
      var p :| a < p <= w && cs[p].opens;
      assert a < p <= e;
    }
    if Opened(cs, w, e) {
      var p :| w < p <= e && cs[p].opens;
      assert a < p <= e;
    }
  }

  /** The categories of a symbol: an over-long line opened while skipping whitespace or while reading it, and overflow. */
  lemma ScanLex(cs: seq<LChar>, a: nat)
    requires WellEnded(cs) && a < |cs|
    ensures var w, s := WhiteEnd(cs, a), Scan(cs, a);
      w <= s.next &&
      Lex(s.tok) == (if Opened(cs, a, w) || Opened(cs, w, s.next) then {1} else {}) +
        (if s.tok.overflow then {9} else {})
  {
    var w, s := WhiteEnd(cs, a), Scan(cs, a);
    OpenedSplit(cs, a, w, s.next);
  }
}
