/**
 * The day's prize slots: 18 numbered slots for the first half of the day
 * (11:00-14:00) and 9 for the second half (14:00-17:00), each with a `used`
 * flag. This module holds the slots as values, the queries the scheduler asks
 * of them, and the "mark the slot with this number used" step that both the
 * award and the replay of stored numbers perform.
 */
module SlotPool {

  const FIRST_HALF_WIN_COUNT := 18
  const SECOND_HALF_WIN_COUNT := 9
  /** Number carried by the first second-half slot. */
  const SECOND_HALF_FIRST_NUMBER := FIRST_HALF_WIN_COUNT + 1

  /** One prize slot; the source's `timeSlot` field is never read and is not kept. */
  datatype Slot = Slot(number: int, used: bool)

  datatype Period = FirstHalf | SecondHalf

  /** The value of `lotterySlots`. */
  datatype Pool = Pool(firstHalf: seq<Slot>, secondHalf: seq<Slot>)
  {
    function Half(p: Period): seq<Slot>
    {
      if p == FirstHalf then firstHalf else secondHalf
    }
  }

  /** `slots.filter(slot => !slot.used)`: the unused slots, in order. */
  function Unused(s: seq<Slot>): (r: seq<Slot>)
    ensures |r| <= |s|
    ensures forall x :: x in r <==> x in s && !x.used
  {
    if s == [] then []
    else if s[0].used then Unused(s[1..])
    else [s[0]] + Unused(s[1..])
  }

  /** `slots.filter(slot => !slot.used).length` */
  function CountUnused(s: seq<Slot>): nat
  {
    |Unused(s)|
  }

  /** `getRemainingWins`: unused slots over both halves. */
  function Remaining(p: Pool): (r: nat)
    ensures r <= |p.firstHalf| + |p.secondHalf|
  {
    CountUnused(p.firstHalf) + CountUnused(p.secondHalf)
  }

  /** Slot i of `s` carries number base + i. */
  predicate Laid(s: seq<Slot>, base: int)
  {
    forall i :: 0 <= i < |s| ==> s[i].number == base + i
  }

  /** The layout built by a reset: first-half slot i is number i+1, second-half slot i is number i+19. */
  predicate WellLaid(p: Pool)
  {
    && |p.firstHalf| == FIRST_HALF_WIN_COUNT && Laid(p.firstHalf, 1)
    && |p.secondHalf| == SECOND_HALF_WIN_COUNT && Laid(p.secondHalf, SECOND_HALF_FIRST_NUMBER)
  }

  function FreshHalf(count: nat, base: int): seq<Slot>
  {
    seq(count, i => Slot(base + i, false))
  }

  /** The pool as the page builds it at start-up and on every reset. */
  function Fresh(): Pool
  {
    Pool(FreshHalf(FIRST_HALF_WIN_COUNT, 1), FreshHalf(SECOND_HALF_WIN_COUNT, SECOND_HALF_FIRST_NUMBER))
  }

  /** `slots.findIndex(slot => slot.number === n)`: the first index carrying n, or -1. */
  function FindIndex(s: seq<Slot>, n: int): (r: int)
    ensures -1 <= r < |s|
    ensures r == -1 <==> forall i :: 0 <= i < |s| ==> s[i].number != n
    ensures r != -1 ==> s[r].number == n && forall i :: 0 <= i < r ==> s[i].number != n
  {
    if s == [] then -1
    else if s[0].number == n then 0
    else
      var k := FindIndex(s[1..], n);
      if k == -1 then -1 else k + 1
  }

  /** Sets `used` on the first slot of `s` numbered n, if there is one. */
  function MarkIn(s: seq<Slot>, n: int): seq<Slot>
  {
    var i := FindIndex(s, n);
    if i == -1 then s else s[i := s[i].(used := true)]
  }

  /**
   * The step shared by the award and by the replay of stored numbers: a
   * number up to 18 is looked up in the first half, any other in the second.
   */
  function MarkNumber(p: Pool, n: int): (q: Pool)
    ensures SameNumbers(p.firstHalf, q.firstHalf) && FlagsGrow(p.firstHalf, q.firstHalf)
    ensures SameNumbers(p.secondHalf, q.secondHalf) && FlagsGrow(p.secondHalf, q.secondHalf)
  {
    if n <= FIRST_HALF_WIN_COUNT then p.(firstHalf := MarkIn(p.firstHalf, n))
    else p.(secondHalf := MarkIn(p.secondHalf, n))
  }

  /** MarkNumber applied to each of ns in order (the `forEach` of the replay). */
  function MarkAll(p: Pool, ns: seq<int>): (q: Pool)
    ensures SameNumbers(p.firstHalf, q.firstHalf) && FlagsGrow(p.firstHalf, q.firstHalf)
    ensures SameNumbers(p.secondHalf, q.secondHalf) && FlagsGrow(p.secondHalf, q.secondHalf)
  {
    if ns == [] then p else MarkNumber(MarkAll(p, ns[..|ns| - 1]), ns[|ns| - 1])
  }

  /** Marking n again changes nothing. */
  predicate Marked(p: Pool, n: int)
  {
    MarkNumber(p, n) == p
  }

  /** Same length and the same number at every index. */
  predicate SameNumbers(s: seq<Slot>, t: seq<Slot>)
  {
    |s| == |t| && forall i :: 0 <= i < |s| ==> s[i].number == t[i].number
  }

  /** Every flag set in s is set in t. */
  predicate FlagsGrow(s: seq<Slot>, t: seq<Slot>)
    requires |s| == |t|
  {
    forall i :: 0 <= i < |s| && s[i].used ==> t[i].used
  }

  // ---------------------------------------------------------------------------
  // Counting

  lemma {:induction false} AllUnusedCount(s: seq<Slot>)
    requires forall i :: 0 <= i < |s| ==> !s[i].used
    ensures CountUnused(s) == |s|
  {
    if s != [] {
      AllUnusedCount(s[1..]);
    }
  }

  lemma {:induction false} NoneUnused(s: seq<Slot>)
    ensures CountUnused(s) == 0 <==> forall i :: 0 <= i < |s| ==> s[i].used
  {
    if s != [] {
      NoneUnused(s[1..]);
      assert forall i :: 1 <= i < |s| ==> s[i] == s[1..][i - 1];
    }
  }

  /** Setting the flag of an unused slot takes exactly one off the count. */
  lemma {:induction false} CountAfterSet(s: seq<Slot>, i: int)
    requires 0 <= i < |s| && !s[i].used
    ensures CountUnused(s[i := s[i].(used := true)]) == CountUnused(s) - 1
  {
    var t := s[i := s[i].(used := true)];
    if i == 0 {
      assert t[1..] == s[1..];
    } else {
      assert t[1..] == s[1..][i - 1 := s[i].(used := true)];
      CountAfterSet(s[1..], i - 1);
    }
  }

  lemma MarkInShape(s: seq<Slot>, n: int)
    ensures SameNumbers(s, MarkIn(s, n)) && FlagsGrow(s, MarkIn(s, n))
  {
  }

  /** MarkIn takes one off the count exactly when it flags a slot that was unused. */
  lemma MarkInCount(s: seq<Slot>, n: int)
    ensures var i := FindIndex(s, n);
      CountUnused(MarkIn(s, n)) == if i != -1 && !s[i].used then CountUnused(s) - 1 else CountUnused(s)
  {
    var i := FindIndex(s, n);
    if i != -1 {
      if s[i].used {
        assert s[i := s[i].(used := true)] == s;
      } else {
        CountAfterSet(s, i);
      }
    }
  }

  /** Marking never raises the remaining count. */
  lemma MarkNumberRemaining(p: Pool, n: int)
    ensures Remaining(MarkNumber(p, n)) <= Remaining(p)
  {
    MarkInCount(p.firstHalf, n);
    MarkInCount(p.secondHalf, n);
  }

  lemma {:induction false} MarkAllRemaining(p: Pool, ns: seq<int>)
    ensures Remaining(MarkAll(p, ns)) <= Remaining(p)
  {
    if ns != [] {
      MarkAllRemaining(p, ns[..|ns| - 1]);
      MarkNumberRemaining(MarkAll(p, ns[..|ns| - 1]), ns[|ns| - 1]);
    }
  }

  // ---------------------------------------------------------------------------
  // Layout

  /** A reset builds the layout with every slot unused: 27 wins remain. */
  lemma FreshPool()
    ensures WellLaid(Fresh())
    ensures forall i :: 0 <= i < |Fresh().firstHalf| ==> !Fresh().firstHalf[i].used
    ensures forall i :: 0 <= i < |Fresh().secondHalf| ==> !Fresh().secondHalf[i].used
    ensures Remaining(Fresh()) == FIRST_HALF_WIN_COUNT + SECOND_HALF_WIN_COUNT
  {
    var p := Fresh();
    assert Laid(p.firstHalf, 1);
    assert Laid(p.secondHalf, SECOND_HALF_FIRST_NUMBER);
    AllUnusedCount(p.firstHalf);
    AllUnusedCount(p.secondHalf);
  }

  /** The remaining count of a well-laid pool lies in 0..27. */
  lemma RemainingBounds(p: Pool)
    requires WellLaid(p)
    ensures Remaining(p) <= FIRST_HALF_WIN_COUNT + SECOND_HALF_WIN_COUNT
    ensures Remaining(p) == 0 <==> (forall i :: 0 <= i < |p.firstHalf| ==> p.firstHalf[i].used)
                                   && (forall i :: 0 <= i < |p.secondHalf| ==> p.secondHalf[i].used)
  {
    NoneUnused(p.firstHalf);
    NoneUnused(p.secondHalf);
  }

  /** In a laid-out half, number n sits at index n - base, and nowhere if out of range. */
  lemma LaidFind(s: seq<Slot>, base: int, n: int)
    requires Laid(s, base)
    ensures FindIndex(s, n) == if base <= n < base + |s| then n - base else -1
  {
    if base <= n < base + |s| {
      assert s[n - base].number == n;
    }
  }

  /** On a well-laid pool, marking n flags index n - 1 of the first half, or index n - 19 of the second. */
  lemma MarkNumberAt(p: Pool, n: int)
    requires WellLaid(p)
    ensures 1 <= n <= FIRST_HALF_WIN_COUNT ==>
      MarkNumber(p, n) == p.(firstHalf := p.firstHalf[n - 1 := p.firstHalf[n - 1].(used := true)])
    ensures SECOND_HALF_FIRST_NUMBER <= n < SECOND_HALF_FIRST_NUMBER + SECOND_HALF_WIN_COUNT ==>
      MarkNumber(p, n) == p.(secondHalf := p.secondHalf[n - SECOND_HALF_FIRST_NUMBER :=
                                                        p.secondHalf[n - SECOND_HALF_FIRST_NUMBER].(used := true)])
  {
    LaidFind(p.firstHalf, 1, n);
    LaidFind(p.secondHalf, SECOND_HALF_FIRST_NUMBER, n);
  }

  /** What MarkNumber does to a well-laid pool: it flags the one slot numbered n, if any. */
  lemma MarkNumberLaid(p: Pool, n: int)
    requires WellLaid(p)
    ensures var q := MarkNumber(p, n);
      && WellLaid(q)
      && (forall i :: 0 <= i < FIRST_HALF_WIN_COUNT ==>
            q.firstHalf[i].used == (p.firstHalf[i].used || i + 1 == n))
      && (forall i :: 0 <= i < SECOND_HALF_WIN_COUNT ==>
            q.secondHalf[i].used == (p.secondHalf[i].used || i + SECOND_HALF_FIRST_NUMBER == n))
  {
    LaidFind(p.firstHalf, 1, n);
    LaidFind(p.secondHalf, SECOND_HALF_FIRST_NUMBER, n);
  }

  /** In a well-laid pool, an unused slot numbered n of a half sits at index n - 1 or n - 19 of that half. */
  lemma UnusedSlotAt(p: Pool, per: Period, n: int)
    requires WellLaid(p)
    requires Slot(n, false) in p.Half(per)
    ensures per == FirstHalf ==> 1 <= n <= FIRST_HALF_WIN_COUNT && p.firstHalf[n - 1] == Slot(n, false)
    ensures per == SecondHalf ==> SECOND_HALF_FIRST_NUMBER <= n < SECOND_HALF_FIRST_NUMBER + SECOND_HALF_WIN_COUNT
                                  && p.secondHalf[n - SECOND_HALF_FIRST_NUMBER] == Slot(n, false)
  {
    var h := p.Half(per);
    var j :| 0 <= j < |h| && h[j] == Slot(n, false);
  }

  /**
   * Awarding an unused slot of a well-laid pool: its number lies in the range
   * of its half, the slot goes from unused to used, every other flag is
   * unchanged, and the remaining count drops by exactly one.
   */
  lemma AwardSlot(p: Pool, per: Period, n: int)
    requires WellLaid(p)
    requires Slot(n, false) in p.Half(per)
    ensures per == FirstHalf ==> 1 <= n <= FIRST_HALF_WIN_COUNT && !p.firstHalf[n - 1].used
    ensures per == SecondHalf ==> SECOND_HALF_FIRST_NUMBER <= n < SECOND_HALF_FIRST_NUMBER + SECOND_HALF_WIN_COUNT
                                  && !p.secondHalf[n - SECOND_HALF_FIRST_NUMBER].used
    ensures var q := MarkNumber(p, n);
      && WellLaid(q)
      && (forall i :: 0 <= i < FIRST_HALF_WIN_COUNT ==>
            q.firstHalf[i].used == (p.firstHalf[i].used || i + 1 == n))
      && (forall i :: 0 <= i < SECOND_HALF_WIN_COUNT ==>
            q.secondHalf[i].used == (p.secondHalf[i].used || i + SECOND_HALF_FIRST_NUMBER == n))
      && Remaining(q) == Remaining(p) - 1
  {
    var h := p.Half(per);
    var j :| 0 <= j < |h| && h[j] == Slot(n, false);
    MarkNumberLaid(p, n);
    if per == FirstHalf {
      assert n == j + 1;
      LaidFind(p.firstHalf, 1, n);
      CountAfterSet(p.firstHalf, j);
    } else {
      assert n == j + SECOND_HALF_FIRST_NUMBER;
      LaidFind(p.secondHalf, SECOND_HALF_FIRST_NUMBER, n);
      CountAfterSet(p.secondHalf, j);
    }
  }

  /**
   * Replaying a list of numbers onto a well-laid pool flags exactly the slots
   * whose numbers are listed, and leaves every other flag as it was; numbers
   * that name no slot are ignored.
   */
  lemma {:induction false} MarkAllLaid(p: Pool, ns: seq<int>)
    requires WellLaid(p)
    ensures var q := MarkAll(p, ns);
      && WellLaid(q)
      && (forall i :: 0 <= i < FIRST_HALF_WIN_COUNT ==>
            q.firstHalf[i].used == (p.firstHalf[i].used || i + 1 in ns))
      && (forall i :: 0 <= i < SECOND_HALF_WIN_COUNT ==>
            q.secondHalf[i].used == (p.secondHalf[i].used || i + SECOND_HALF_FIRST_NUMBER in ns))
  {
    if ns != [] {
      var init := ns[..|ns| - 1];
      var last := ns[|ns| - 1];
      MarkAllLaid(p, init);
      MarkNumberLaid(MarkAll(p, init), last);
      assert forall m :: m in ns <==> m in init || m == last by {
        assert ns == init + [last];
      }
    }
  }

  // ---------------------------------------------------------------------------
  // Replaying is idempotent, whatever the layout

  /** findIndex only looks at the numbers. */
  lemma FindIndexByNumbers(s: seq<Slot>, t: seq<Slot>, n: int)
    requires SameNumbers(s, t)
    ensures FindIndex(s, n) == FindIndex(t, n)
  {
  }

  lemma MarkInTwice(s: seq<Slot>, n: int)
    ensures MarkIn(MarkIn(s, n), n) == MarkIn(s, n)
  {
    FindIndexByNumbers(s, MarkIn(s, n), n);
  }

  /** A number already marked stays marked whatever else is marked. */
  lemma MarkInStable(s: seq<Slot>, n: int, m: int)
    requires MarkIn(s, n) == s
    ensures MarkIn(MarkIn(s, m), n) == MarkIn(s, m)
  {
    var t := MarkIn(s, m);
    MarkInShape(s, m);
    FindIndexByNumbers(s, t, n);
  }

  lemma MarkedAfterMark(p: Pool, n: int, m: int)
    requires Marked(p, n)
    ensures Marked(MarkNumber(p, m), n)
  {
    if n <= FIRST_HALF_WIN_COUNT {
      MarkInStable(p.firstHalf, n, m);
    } else {
      MarkInStable(p.secondHalf, n, m);
    }
  }

  lemma {:induction false} MarkAllMarks(p: Pool, ns: seq<int>)
    ensures forall n :: n in ns ==> Marked(MarkAll(p, ns), n)
  {
    if ns != [] {
      var init := ns[..|ns| - 1];
      var last := ns[|ns| - 1];
      var q := MarkAll(p, init);
      MarkAllMarks(p, init);
      assert Marked(MarkNumber(q, last), last) by {
        MarkInTwice(q.firstHalf, last);
        MarkInTwice(q.secondHalf, last);
      }
      forall n | n in ns
        ensures Marked(MarkNumber(q, last), n)
      {
        assert ns == init + [last];
        if n != last {
          MarkedAfterMark(q, n, last);
        }
      }
    }
  }

  lemma {:induction false} MarkAllOfMarked(p: Pool, ns: seq<int>)
    requires forall n :: n in ns ==> Marked(p, n)
    ensures MarkAll(p, ns) == p
  {
    if ns != [] {
      var init := ns[..|ns| - 1];
      assert ns == init + [ns[|ns| - 1]];
      MarkAllOfMarked(p, init);
      assert Marked(p, ns[|ns| - 1]);
    }
  }

  /** Replaying the same numbers a second time changes nothing. */
  lemma MarkAllIdempotent(p: Pool, ns: seq<int>)
    ensures MarkAll(MarkAll(p, ns), ns) == MarkAll(p, ns)
  {
    MarkAllMarks(p, ns);
    MarkAllOfMarked(MarkAll(p, ns), ns);
  }
}
