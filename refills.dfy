/**
 * The refills of a whole source laid out in advance: the line each refill
 * buffers and where that line sits in the logical character stream. The
 * line buffer of the compiler walks along this plan one refill at a time.
 */
module Refills {
  import opened Symbols
  import opened Lines

  /** The line a refill buffers: its visible characters, then the newline or EOF. */
  function Buf(f: Fill): (b: seq<int>)
    ensures |b| == |f.stored| + 1
  {
    f.stored + [f.term]
  }

  /** The refills of `raw`, in order; the last one ends with EOF. */
  function Plan(raw: seq<byte>): (p: seq<Fill>)
    decreases |raw|
    ensures |p| > 0 && p[0] == Refill(raw)
  {
    var f := Refill(raw);
    [f] + (if f.term == EOF then [] else Plan(f.rest))
  }

  /** What each refill of `raw` reads: the whole of `raw`, then what the refill before left. */
  function Inputs(raw: seq<byte>): (u: seq<seq<byte>>)
    decreases |raw|
    ensures |u| == |Plan(raw)| && u[0] == raw
  {
    var f := Refill(raw);
    [raw] + (if f.term == EOF then [] else Inputs(f.rest))
  }

  /** Where each planned line starts, the first at `k`, each right after the one before. */
  function Starts(p: seq<Fill>, k: nat): (s: seq<nat>)
    decreases |p|
    ensures |s| == |p| && (|p| > 0 ==> s[0] == k)
  {
    if p == [] then [] else [k] + Starts(p[1..], k + |Buf(p[0])|)
  }

  /**
   * `cs` holds the line `buf` from position `s`; `over` marks its first
   * character. Stated one character at a time, so that it unfolds only as
   * far as a proof needs.
   */
  ghost predicate Holds(cs: seq<LChar>, s: nat, buf: seq<int>, over: bool)
    decreases |buf|
  {
    if buf == [] then s <= |cs|
    else s < |cs| && cs[s] == LChar(buf[0], over) && Holds(cs, s + 1, buf[1..], false)
  }

  /** The same, stated for all positions at once. */
  ghost predicate Spells(cs: seq<LChar>, s: nat, buf: seq<int>, over: bool) {
    s + |buf| <= |cs| && forall j :: 0 <= j < |buf| ==> cs[s + j] == LChar(buf[j], over && j == 0)
  }

  lemma {:induction false} SpellsHolds(cs: seq<LChar>, s: nat, buf: seq<int>, over: bool)
    requires Spells(cs, s, buf, over)
    ensures Holds(cs, s, buf, over)
    decreases |buf|
  {
    if buf != [] {
      assert Spells(cs, s + 1, buf[1..], false) by {
        forall j | 0 <= j < |buf| - 1 ensures cs[s + 1 + j] == LChar(buf[1..][j], false) {
          assert cs[s + (j + 1)] == LChar(buf[j + 1], over && j + 1 == 0);
        }
      }
      SpellsHolds(cs, s + 1, buf[1..], false);
      assert cs[s + 0] == LChar(buf[0], over && 0 == 0);
    }
  }

  lemma {:induction false} HoldsSpells(cs: seq<LChar>, s: nat, buf: seq<int>, over: bool)
    requires Holds(cs, s, buf, over)
    ensures Spells(cs, s, buf, over)
    decreases |buf|
  {
    if buf != [] {
      HoldsSpells(cs, s + 1, buf[1..], false);
      forall j | 0 <= j < |buf| ensures cs[s + j] == LChar(buf[j], over && j == 0) {
        if j > 0 {
          assert cs[s + 1 + (j - 1)] == LChar(buf[1..][j - 1], false);
        }
      }
    }
  }

  /**
   * Entry `n` of the plan `p`, with what each refill reads in `u` and where
   * each line starts in `s`: refill `n` reads `u[n]` and its line is held in
   * `cs` from `s[n]` on; unless it is the last, it ends with a newline, the
   * next refill reads what it left and the next line starts right after it.
   */
  ghost predicate Entry(cs: seq<LChar>, p: seq<Fill>, u: seq<seq<byte>>, s: seq<nat>, n: nat) {
    n < |p| == |u| == |s| &&
    p[n] == Refill(u[n]) && Holds(cs, s[n], Buf(p[n]), p[n].overflow) &&
    (n + 1 < |p| ==> p[n].term == NL && u[n + 1] == p[n].rest && s[n + 1] == s[n] + |Buf(p[n])|)
  }

  /**
   * The plan describes the stream `cs` of the source `src`: the first refill
   * reads the whole source, every entry is as above, and the EOF that ends
   * the last line is the last character of the stream.
   */
  ghost predicate PlanOf(cs: seq<LChar>, src: seq<byte>, p: seq<Fill>, u: seq<seq<byte>>, s: seq<nat>) {
    0 < |p| == |u| == |s| && u[0] == src && s[0] == 1 &&
    (forall n: nat :: n < |p| ==> Entry(cs, p, u, s, n)) &&
    p[|p| - 1].term == EOF && s[|p| - 1] + |Buf(p[|p| - 1])| == |cs|
  }

  /**
   * After `m` refills of the plan, the last of which did not end with EOF,
   * there is a next refill, and its line starts right after the current one.
   */
  lemma PlanNext(cs: seq<LChar>, src: seq<byte>, p: seq<Fill>, u: seq<seq<byte>>, s: seq<nat>,
                 m: nat, start: nat, len: nat)
    requires PlanOf(cs, src, p, u, s) && m <= |p|
    requires m == 0 ==> start == 1 && len == 0
    requires m > 0 ==> start == s[m - 1] && len == |Buf(p[m - 1])| && p[m - 1].term == NL
    ensures m < |p| && start + len == s[m] && Entry(cs, p, u, s, m)
  {
    if m > 0 {
      assert Entry(cs, p, u, s, m - 1);
    }
  }

  /** A line held in `t` is held in `m + t`, shifted by the length of `m`. */
  lemma HoldsShift(m: seq<LChar>, t: seq<LChar>, s: nat, buf: seq<int>, over: bool)
    requires Holds(t, s, buf, over)
    ensures Holds(m + t, |m| + s, buf, over)
  {
    HoldsSpells(t, s, buf, over);
    forall j | 0 <= j < |buf| ensures (m + t)[|m| + s + j] == LChar(buf[j], over && j == 0) {
      assert (m + t)[|m| + s + j] == t[s + j];
    }
    SpellsHolds(m + t, |m| + s, buf, over);
  }

  /** The stream of `raw` begins with the line of its first refill. */
  lemma HoldsHead(raw: seq<byte>)
    ensures var f := Refill(raw); Holds(Lines.Lines(raw), 0, Buf(f), f.overflow)
  {
    var f := Refill(raw);
    var m := Mark(Buf(f), f.overflow);
    assert Lines.Lines(raw) == m + (if f.term == EOF then [] else Lines.Lines(f.rest));
    forall j | 0 <= j < |Buf(f)| ensures Lines.Lines(raw)[j] == LChar(Buf(f)[j], f.overflow && j == 0) {
      assert Lines.Lines(raw)[j] == m[j];
    }
    SpellsHolds(Lines.Lines(raw), 0, Buf(f), f.overflow);
  }

  /** Every refill but the last ends with a newline, and the next one reads what it left. */
  lemma {:induction false} PlanStep(raw: seq<byte>, n: nat)
    requires n < |Plan(raw)| - 1
    ensures Plan(raw)[n].term == NL && Plan(raw)[n + 1] == Refill(Plan(raw)[n].rest)
    decreases |raw|
  {
    var f := Refill(raw);
    if n > 0 {
      PlanStep(f.rest, n - 1);
    }
  }

  /** The last refill ends with EOF. */
  lemma {:induction false} PlanLast(raw: seq<byte>)
    ensures Plan(raw)[|Plan(raw)| - 1].term == EOF
    decreases |raw|
  {
    var f := Refill(raw);
    if f.term != EOF {
      PlanLast(f.rest);
    }
  }

  /** Each line starts right after the one before. */
  lemma {:induction false} StartsStep(p: seq<Fill>, k: nat, n: nat)
    requires n < |p| - 1
    ensures Starts(p, k)[n + 1] == Starts(p, k)[n] + |Buf(p[n])|
    decreases |p|
  {
    if n > 0 {
      StartsStep(p[1..], k + |Buf(p[0])|, n - 1);
    }
  }

  /** After the first refill, the plan goes on with the plan of what it left. */
  lemma PlanTail(raw: seq<byte>)
    requires Refill(raw).term != EOF
    ensures Plan(raw)[1..] == Plan(Refill(raw).rest)
  {
  }

  /** The starts after the first are those of the rest of the plan. */
  lemma StartsTail(p: seq<Fill>, k: nat, n: nat)
    requires 0 < n < |p|
    ensures Starts(p, k)[n] == Starts(p[1..], k + |Buf(p[0])|)[n - 1]
  {
  }

  /** Starting the plan at `k` shifts every start by `k`. */
  lemma {:induction false} StartsShift(p: seq<Fill>, k: nat, n: nat)
    requires n < |p|
    ensures Starts(p, k)[n] == k + Starts(p, 0)[n]
    decreases |p|
  {
    if n > 0 {
      StartsShift(p[1..], k + |Buf(p[0])|, n - 1);
      StartsShift(p[1..], |Buf(p[0])|, n - 1);
    }
  }

  /** The starts of a plan `[x] + q` from 0: 0, then those of `q` shifted by the length of x's line. */
  lemma StartsCons(x: Fill, q: seq<Fill>, n: nat)
    requires 0 < n <= |q|
    ensures Starts([x] + q, 0)[n] == |Buf(x)| + Starts(q, 0)[n - 1]
  {
    var p := [x] + q;
    assert p[0] == x && p[1..] == q;
    assert Starts(p, 0) == [0] + Starts(q, |Buf(x)|);
    StartsShift(q, |Buf(x)|, n - 1);
  }

  /** A first refill that ends with a newline is followed by the plan of what it left. */
  lemma PlanUnfold(raw: seq<byte>)
    requires Refill(raw).term == NL
    ensures Plan(raw) == [Refill(raw)] + Plan(Refill(raw).rest)
  {
  }

  /** Entry `n > 0` of the plan of `raw` is entry `n - 1` of the plan of what the first refill left. */
  lemma PlanShift(raw: seq<byte>, n: nat)
    requires 0 < n < |Plan(raw)|
    ensures var f := Refill(raw); var q := Plan(f.rest);
      f.term == NL && n - 1 < |q| && Plan(raw)[n] == q[n - 1] &&
      Starts(Plan(raw), 0)[n] == |Buf(f)| + Starts(q, 0)[n - 1]
  {
    var f := Refill(raw);
    PlanUnfold(raw);
    StartsCons(f, Plan(f.rest), n);
  }

  /** The stream of `raw` is the first refill's line, then the stream of what it left. */
  lemma LinesSplit(raw: seq<byte>)
    requires Refill(raw).term == NL
    ensures var f := Refill(raw);
      Lines.Lines(raw) == Mark(Buf(f), f.overflow) + Lines.Lines(f.rest)
  {
  }

  /** A line held in the stream of what the first refill left is held in the stream of `raw`, after the first line. */
  lemma HoldsLater(raw: seq<byte>, i: nat, buf: seq<int>, over: bool)
    requires Refill(raw).term == NL && Holds(Lines.Lines(Refill(raw).rest), i, buf, over)
    ensures Holds(Lines.Lines(raw), |Buf(Refill(raw))| + i, buf, over)
  {
    var f := Refill(raw);
    LinesSplit(raw);
    HoldsShift(Mark(Buf(f), f.overflow), Lines.Lines(f.rest), i, buf, over);
  }

  /** The same, for a refill planned at position `j` of the longer stream. */
  lemma HoldsLaterAt(raw: seq<byte>, i: nat, x: Fill, j: nat, y: Fill)
    requires Refill(raw).term == NL && Holds(Lines.Lines(Refill(raw).rest), i, Buf(x), x.overflow)
    requires j == |Buf(Refill(raw))| + i && y == x
    ensures Holds(Lines.Lines(raw), j, Buf(y), y.overflow)
  {
    HoldsLater(raw, i, Buf(x), x.overflow);
  }

  /** Holding the line of a refill depends only on the position and the refill. */
  lemma HoldsSame(t: seq<LChar>, i: nat, x: Fill, i': nat, y: Fill)
    requires Holds(t, i, Buf(x), x.overflow) && i == i' && x == y
    ensures Holds(t, i', Buf(y), y.overflow)
  {
  }

  /** The stream of `raw` holds the first planned line at its start. */
  lemma PlanHoldsFirst(raw: seq<byte>)
    ensures Holds(Lines.Lines(raw), Starts(Plan(raw), 0)[0], Buf(Plan(raw)[0]), Plan(raw)[0].overflow)
  {
    var f := Refill(raw);
    HoldsHead(raw);
    HoldsSame(Lines.Lines(raw), 0, f, Starts(Plan(raw), 0)[0], Plan(raw)[0]);
  }

  /** A later planned line held in the stream of what the first refill left is held in the stream of `raw`. */
  lemma PlanHoldsNext(raw: seq<byte>, n: nat)
    requires 0 < n < |Plan(raw)|
    requires var q := Plan(Refill(raw).rest);
      n - 1 < |q| && Holds(Lines.Lines(Refill(raw).rest), Starts(q, 0)[n - 1], Buf(q[n - 1]), q[n - 1].overflow)
    ensures Holds(Lines.Lines(raw), Starts(Plan(raw), 0)[n], Buf(Plan(raw)[n]), Plan(raw)[n].overflow)
  {
    var p, f := Plan(raw), Refill(raw);
    var q := Plan(f.rest);
    var i := Starts(q, 0)[n - 1];
    PlanShift(raw, n);
    HoldsLaterAt(raw, i, q[n - 1], Starts(p, 0)[n], p[n]);
  }

  /** The stream of `raw` holds each planned line at its start. */
  lemma {:induction false} PlanHolds(raw: seq<byte>, n: nat)
    requires n < |Plan(raw)|
    ensures Holds(Lines.Lines(raw), Starts(Plan(raw), 0)[n], Buf(Plan(raw)[n]), Plan(raw)[n].overflow)
    decreases |raw|
  {
    if n == 0 {
      PlanHoldsFirst(raw);
    } else {
      PlanShift(raw, n);
      PlanHolds(Refill(raw).rest, n - 1);
      PlanHoldsNext(raw, n);
    }
  }

  /** The last planned line ends where the stream of `raw` ends. */
  lemma {:induction false} PlanEnd(raw: seq<byte>)
    ensures var p := Plan(raw); Starts(p, 0)[|p| - 1] + |Buf(p[|p| - 1])| == |Lines.Lines(raw)|
    decreases |raw|
  {
    var f := Refill(raw);
    var p := Plan(raw);
    var m := Mark(Buf(f), f.overflow);
    if f.term == EOF {
      assert |p| == 1;
      assert Lines.Lines(raw) == m;
    } else {
      var q := Plan(f.rest);
      PlanTail(raw);
      StartsTail(p, 0, |p| - 1);
      StartsShift(q, |Buf(f)|, |q| - 1);
      PlanEnd(f.rest);
      assert p[|p| - 1] == q[|q| - 1];
      assert Lines.Lines(raw) == m + Lines.Lines(f.rest);
    }
  }

  /** Each planned line is held in the stream that starts with ' ' and goes on with the lines. */
  lemma PlanHoldsAt(cs: seq<LChar>, src: seq<byte>, n: nat)
    requires cs == [LChar(32, false)] + Lines.Lines(src) && n < |Plan(src)|
    ensures Holds(cs, Starts(Plan(src), 1)[n], Buf(Plan(src)[n]), Plan(src)[n].overflow)
  {
    var p := Plan(src);
    PlanHolds(src, n);
    StartsShift(p, 1, n);
    HoldsShift([LChar(32, false)], Lines.Lines(src), Starts(p, 0)[n], Buf(p[n]), p[n].overflow);
  }

  /** Each entry of the plan of a source, given that its line is held at its start. */
  lemma PlanEntry(cs: seq<LChar>, src: seq<byte>, n: nat)
    requires n < |Plan(src)| && Holds(cs, Starts(Plan(src), 1)[n], Buf(Plan(src)[n]), Plan(src)[n].overflow)
    ensures Entry(cs, Plan(src), Inputs(src), Starts(Plan(src), 1), n)
  {
    var p := Plan(src);
    InputsStep(src, n);
    if n + 1 < |p| {
      PlanStep(src, n);
      StartsStep(p, 1, n);
    }
  }

  /** Each refill of the plan reads its input, then the next reads what it left. */
  lemma {:induction false} InputsStep(raw: seq<byte>, n: nat)
    requires n < |Plan(raw)|
    ensures Plan(raw)[n] == Refill(Inputs(raw)[n])
    ensures n < |Plan(raw)| - 1 ==> Inputs(raw)[n + 1] == Plan(raw)[n].rest
    decreases |raw|
  {
    var f := Refill(raw);
    if n > 0 {
      InputsStep(f.rest, n - 1);
    }
  }

  /** Every entry of the plan of a source holds. */
  lemma PlanEntries(cs: seq<LChar>, src: seq<byte>)
    requires cs == [LChar(32, false)] + Lines.Lines(src)
    ensures forall n: nat :: n < |Plan(src)| ==> Entry(cs, Plan(src), Inputs(src), Starts(Plan(src), 1), n)
  {
    forall n: nat | n < |Plan(src)| ensures Entry(cs, Plan(src), Inputs(src), Starts(Plan(src), 1), n) {
      PlanHoldsAt(cs, src, n);
      PlanEntry(cs, src, n);
    }
  }

  /** The last line of the plan of a source ends with EOF, at the end of the stream. */
  lemma PlanFinal(cs: seq<LChar>, src: seq<byte>)
    requires cs == [LChar(32, false)] + Lines.Lines(src)
    ensures var p, s := Plan(src), Starts(Plan(src), 1);
      p[|p| - 1].term == EOF && s[|p| - 1] + |Buf(p[|p| - 1])| == |cs|
  {
    var p := Plan(src);
    PlanLast(src);
    PlanEnd(src);
    StartsShift(p, 1, |p| - 1);
  }

  /** The plan of a source describes the stream that starts with ' ' and goes on with its lines. */
  lemma PlanDescribes(cs: seq<LChar>, src: seq<byte>)
    requires cs == [LChar(32, false)] + Lines.Lines(src)
    ensures PlanOf(cs, src, Plan(src), Inputs(src), Starts(Plan(src), 1))
  {
    PlanEntries(cs, src);
    PlanFinal(cs, src);
  }
}
