/**
 * The line buffer as a reference: how one refill splits the unread input into
 * the next buffered line, and the stream of characters that successive
 * refills hand to the scanner.
 */
module Lines {
  import opened Symbols

  type byte = b: int | 0 <= b < 256

  /** Visible characters one line may hold. */
  const LineMax: nat := 80

  /**
   * One character of the logical stream. `opens` marks the first character
   * of a line whose refill reported "maximum line size exceeded".
   */
  datatype LChar = LChar(c: int, opens: bool)

  /**
   * The outcome of one refill: the visible characters buffered, the
   * character appended after them (newline or EOF), the input left unread,
   * and whether the line overflowed.
   */
  datatype Fill = Fill(stored: seq<int>, term: int, rest: seq<byte>, overflow: bool)

  /** How many bytes the fill loop stores, starting with k already stored. */
  function FillLen(raw: seq<byte>, k: nat): (n: nat)
    requires k <= |raw| && k <= LineMax
    requires forall i :: 0 <= i < k ==> raw[i] != NL
    decreases LineMax - k
    ensures k <= n <= |raw| && n <= LineMax
    ensures forall i :: 0 <= i < n ==> raw[i] != NL
    ensures n < |raw| && n < LineMax ==> raw[n] == NL
  {
    if k < |raw| && raw[k] != NL && k < LineMax then FillLen(raw, k + 1) else k
  }

  /** One refill of the line buffer from the unread input `raw`. */
  function Refill(raw: seq<byte>): (f: Fill)
    ensures |f.stored| <= LineMax
    ensures f.term == NL || f.term == EOF
    ensures |f.rest| <= |raw| && (f.term == NL ==> |f.rest| < |raw|)
  {
    var k := FillLen(raw, 0);
    if k < |raw| && raw[k] == NL then
      Fill(raw[..k], NL, raw[k + 1..], false)
    else if k == |raw| then
      Fill(raw, EOF, [], false)
    else
      Fill(raw[..k], NL, raw[k..], true)
  }

  /** How one refill splits the unread input. */
  lemma RefillSplits(raw: seq<byte>)
    ensures var f := Refill(raw);
      NL !in f.stored && EOF !in f.stored &&
      (f.term == EOF ==> f.rest == [] && f.stored == raw && !f.overflow) &&
      // error 1 exactly when 80 characters are followed by one that is neither newline nor EOF
      (f.overflow <==> (|raw| > LineMax && NL !in raw[..LineMax + 1])) &&
      // the overflowing character is pushed back: it is read first by the next refill
      (f.overflow ==> f.stored == raw[..LineMax] && f.rest == raw[LineMax..]) &&
      // a line ended by a newline consumes that newline and nothing more
      (!f.overflow && f.term == NL ==> f.stored + [NL] + f.rest == raw)
  {
    var k := FillLen(raw, 0);
    if !(k < |raw| && raw[k] == NL) && k != |raw| {
      assert NL !in raw[..LineMax + 1] by {
        forall i | 0 <= i <= LineMax ensures raw[i] != NL { }
      }
    }
  }

  /** The characters of one buffered line, marking its first if it overflowed. */
  function Mark(cs: seq<int>, overflow: bool): (r: seq<LChar>)
    ensures |r| == |cs|
    ensures forall i :: 0 <= i < |cs| ==> r[i] == LChar(cs[i], overflow && i == 0)
  {
    seq(|cs|, i requires 0 <= i < |cs| => LChar(cs[i], overflow && i == 0))
  }

  /** The characters successive refills deliver from the unread input `raw`. */
  function Lines(raw: seq<byte>): seq<LChar>
    decreases |raw|
  {
    var f := Refill(raw);
    Mark(f.stored + [f.term], f.overflow) + (if f.term == EOF then [] else Lines(f.rest))
  }

  /** A character stream that ends with EOF and has no EOF before its end. */
  predicate WellEnded(cs: seq<LChar>) {
    |cs| > 0 && cs[|cs| - 1].c == EOF && forall i :: 0 <= i < |cs| - 1 ==> cs[i].c != EOF
  }

  /** Every input, however it is split into lines, yields one EOF, at the very end. */
  lemma {:induction false} LinesWellEnded(raw: seq<byte>)
    ensures WellEnded(Lines(raw))
    decreases |raw|
  {
    var f := Refill(raw);
    var head: seq<LChar> := Mark(f.stored + [f.term], f.overflow);
    if f.term == EOF {
      assert Lines(raw) == head;
    } else {
      LinesWellEnded(f.rest);
      var tail: seq<LChar> := Lines(f.rest);
      assert Lines(raw) == head + tail;
      forall i | 0 <= i < |head| + |tail| - 1 ensures (head + tail)[i].c != EOF {
        if i < |head| {
          assert head[i].c == (f.stored + [f.term])[i];
        }
      }
    }
  }

  /** Index of the NUL written after the line's newline or EOF. */
  function TerminatorIndex(raw: seq<byte>): (n: nat)
  {
    |Refill(raw).stored| + 1
  }

  /** Slots of the C line buffer `g_line`. */
  const CLineSlots: nat := 81

  /**
   * A full line of 80 visible characters puts its terminating NUL at index
   * 81, one past the end of the 81-slot C buffer, whether the line ends
   * there or overflows. Any shorter line fits.
   */
  lemma {:induction false} TerminatorOverrun(raw: seq<byte>)
    ensures TerminatorIndex(raw) <= LineMax + 1
    ensures TerminatorIndex(raw) >= CLineSlots <==> (|raw| >= LineMax && NL !in raw[..LineMax])
  {
    var f := Refill(raw);
    var k := FillLen(raw, 0);
    if |raw| >= LineMax && NL !in raw[..LineMax] {
      assert forall i :: 0 <= i < LineMax ==> raw[i] != NL by {
        forall i | 0 <= i < LineMax ensures raw[i] != NL { assert raw[..LineMax][i] == raw[i]; }
      }
      FillFull(raw, 0);
    }
  }

  lemma {:induction false} FillFull(raw: seq<byte>, k: nat)
    requires k <= LineMax <= |raw|
    requires forall i :: 0 <= i < LineMax ==> raw[i] != NL
    ensures FillLen(raw, k) == LineMax
    decreases LineMax - k
  {
    if k < LineMax { FillFull(raw, k + 1); }
  }

  /** The concrete case: 80 letters and a newline. */
  lemma EightyCharacterLine()
    ensures TerminatorIndex(seq(LineMax, _ => 97) + [NL]) == CLineSlots
  {
    var raw: seq<byte> := seq(LineMax, _ => 97) + [NL];
    assert raw[..LineMax] == seq(LineMax, _ => 97);
    TerminatorOverrun(raw);
  }

  /**
   * The refill as written for a source opened from a named file: the
   * overflowing character is pushed back onto standard input, which is
   * never read again, so it is not part of the rest of the file.
   */
  function RefillFromFile(raw: seq<byte>): (f: Fill)
  {
    var g := Refill(raw);
    if g.overflow then g.(rest := raw[LineMax + 1..]) else g
  }

  /** Reading a named file, every over-long line loses its 81st character. */
  lemma {:induction false} OverflowLosesCharacter(raw: seq<byte>)
    requires Refill(raw).overflow
    ensures var f := RefillFromFile(raw);
      f.stored + f.rest == raw[..LineMax] + raw[LineMax + 1..] &&
      |f.stored + f.rest| == |raw| - 1
  {
  }

  /** With the pushed-back character replayed, an over-long line loses nothing. */
  lemma {:induction false} OverflowKeepsCharacter(raw: seq<byte>)
    requires Refill(raw).overflow
    ensures var f := Refill(raw); f.stored + f.rest == raw && f.rest[0] == raw[LineMax]
  {
    var f := Refill(raw);
    assert raw[..LineMax] + raw[LineMax..] == raw;
  }
}
