/**
 * The error bitset: category n (1..12) is recorded by setting bit n-1 of a
 * 32-bit word; a category is recorded at most once however often it occurs.
 */
module Errors {

  /** The bit that records category n, computed as `1 << (n-1)`. */
  function Bit(n: int): bv32
    requires 1 <= n <= 32
  {
    (1 as bv32) << ((n - 1) as bv5)
  }

  /** Whether category n is recorded in `e`. */
  predicate Has(e: bv32, n: int)
    requires 1 <= n <= 32
  {
    e & Bit(n) != 0
  }

  lemma PureDistinct(k: bv5, j: bv5)
    requires k != j
    ensures (1 as bv32 << k) & (1 as bv32 << j) == 0
  {
  }

  lemma PureNonzero(k: bv5)
    ensures 1 as bv32 << k != 0
  {
  }

  /** Each category has a bit of its own: exactly one bit is set, and no other category shares it. */
  lemma {:induction false} BitSingle(n: int, m: int)
    requires 1 <= n <= 32 && 1 <= m <= 32
    ensures Bit(n) != 0 && Bit(n) & (Bit(n) - 1) == 0
    ensures n != m ==> Bit(n) & Bit(m) == 0
  {
    PureNonzero((n - 1) as bv5);
    PureSingleBit((n - 1) as bv5);
    ShiftAmountInjective(n, m);
    if n != m {
      PureDistinct((n - 1) as bv5, (m - 1) as bv5);
    }
  }

  /** The bits above the twelve categories the compiler knows. */
  const Unused: bv32 := 0xFFFF_F000

  lemma PureOr(e: bv32, n: bv5, m: bv5)
    ensures (e | (1 << n)) & (1 << m) != 0 <==> e & (1 << m) != 0 || n == m
  {
  }

  lemma ShiftAmountInjective(n: int, m: int)
    requires 1 <= n <= 32 && 1 <= m <= 32
    ensures ((n - 1) as bv5 == (m - 1) as bv5) <==> n == m
  {
  }

  lemma {:induction false} SetBitMeets(e: bv32, n: int, m: int)
    requires 1 <= n <= 32 && 1 <= m <= 32
    ensures (e | Bit(n)) & Bit(m) != 0 <==> e & Bit(m) != 0 || m == n
  {
    PureOr(e, (n - 1) as bv5, (m - 1) as bv5);
    ShiftAmountInjective(n, m);
  }

  lemma PureLowBit(k: bv5)
    requires k <= 11
    ensures (1 as bv32 << k) & Unused == 0
  {
  }

  lemma PureOrUnused(e: bv32, b: bv32)
    requires e & Unused == 0 && b & Unused == 0
    ensures (e | b) & Unused == 0
  {
  }

  /** Recording one of the twelve categories never touches the unused bits. */
  lemma {:induction false} RecordKeepsUnused(e: bv32, n: int)
    requires 1 <= n <= 12 && e & Unused == 0
    ensures (e | Bit(n)) & Unused == 0
  {
    PureLowBit((n - 1) as bv5);
    PureOrUnused(e, Bit(n));
  }

  /**
   * `e` records exactly the categories in `s`, all of them among the twelve,
   * and no bit above them is set.
   */
  ghost predicate Records(e: bv32, s: set<int>) {
    e & Unused == 0 &&
    (forall n {:trigger n in s} :: n in s ==> 1 <= n <= 12) &&
    (forall n {:trigger Has(e, n)} :: 1 <= n <= 12 ==> (Has(e, n) <==> n in s))
  }

  /** The cleared word records nothing. */
  lemma Cleared()
    ensures Records(0, {})
  {
    forall n | 1 <= n <= 12 ensures !Has(0, n) {
    }
  }

  /** Setting bit n-1 records exactly category n and keeps every other one. */
  lemma {:induction false} Record(e: bv32, s: set<int>, n: int)
    requires 1 <= n <= 12 && Records(e, s)
    ensures Records(e | Bit(n), s + {n})
  {
    RecordKeepsUnused(e, n);
    forall m | 1 <= m <= 12 ensures Has(e | Bit(n), m) <==> m in s + {n} {
      SetBitMeets(e, n, m);
      assert Has(e, m) <==> m in s;
    }
  }

  lemma PureSingleBit(k: bv5)
    ensures (1 as bv32 << k) & ((1 as bv32 << k) - 1) == 0
  {
  }

  lemma PureAbsorb(e: bv32, b: bv32)
    requires b & (b - 1) == 0 && e & b != 0
    ensures e | b == e
  {
  }

  lemma {:induction false} AbsorbBit(e: bv32, n: int)
    requires 1 <= n <= 12 && e & Bit(n) != 0
    ensures e | Bit(n) == e
  {
    PureSingleBit((n - 1) as bv5);
    PureAbsorb(e, Bit(n));
  }

  /** Recording a category already recorded leaves the word as it is: `Error` is idempotent. */
  lemma {:induction false} RecordAgain(e: bv32, s: set<int>, n: int)
    requires 1 <= n <= 12 && Records(e, s) && n in s
    ensures e | Bit(n) == e
  {
    assert Has(e, n);
    AbsorbBit(e, n);
  }

  /** No category is recorded exactly when the word is 0. */
  lemma {:induction false} NoneRecorded(e: bv32, s: set<int>)
    requires Records(e, s)
    ensures s == {} <==> e == 0
  {
    if e == 0 {
      forall n ensures n !in s {
        if 1 <= n <= 12 {
          assert !Has(e, n);
        }
      }
    } else {
      var n := LowestRecorded(e);
      assert Has(e, n);
    }
  }

  function LowestRecorded(e: bv32): (n: int)
    requires e != 0 && e & Unused == 0
    ensures 1 <= n <= 12 && e & Bit(n) != 0
  {
    if e & 0x1 != 0 then (assert Bit(1) == 0x1; 1)
    else if e & 0x2 != 0 then (assert Bit(2) == 0x2; 2)
    else if e & 0x4 != 0 then (assert Bit(3) == 0x4; 3)
    else if e & 0x8 != 0 then (assert Bit(4) == 0x8; 4)
    else if e & 0x10 != 0 then (assert Bit(5) == 0x10; 5)
    else if e & 0x20 != 0 then (assert Bit(6) == 0x20; 6)
    else if e & 0x40 != 0 then (assert Bit(7) == 0x40; 7)
    else if e & 0x80 != 0 then (assert Bit(8) == 0x80; 8)
    else if e & 0x100 != 0 then (assert Bit(9) == 0x100; 9)
    else if e & 0x200 != 0 then (assert Bit(10) == 0x200; 10)
    else if e & 0x400 != 0 then (assert Bit(11) == 0x400; 11)
    else (assert e & 0x800 != 0; assert Bit(12) == 0x800; 12)
  }

  /**
   * The messages of the final report, indexed by category. Index 0 is unused;
   * index 2 is never recorded (deletions are category 11).
   */
  const Messages: seq<string> := [
    "",                      "maximum line size exceeded",
    "symbol deleted",        "\"Program\" inserted",
    "identifier inserted",   "\";\" inserted",
    "\"Begin\" inserted",    "\"End\" inserted",
    "\".\" inserted",        "overflow",
    "EOF inserted",          "symbol deleted",
    "number inserted"
  ]

  /** One line of the final report: a recorded category and its message. */
  datatype ReportLine = ReportLine(code: int, message: string)

  /**
   * `report` lists each category 1..11 of `s` once, in ascending order, with
   * its message, and nothing else. Category 12 lies outside the listed range.
   */
  ghost predicate Reports(report: seq<ReportLine>, s: set<int>) {
    (forall k :: 0 <= k < |report| ==>
      1 <= report[k].code <= 11 && report[k].code in s && report[k].message == Messages[report[k].code]) &&
    (forall j, k :: 0 <= j < k < |report| ==> report[j].code < report[k].code) &&
    (forall n :: 1 <= n <= 11 && n in s ==> exists k :: 0 <= k < |report| && report[k].code == n)
  }
}
