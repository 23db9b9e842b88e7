/**
 * The page's global lottery state as an object: the two slot arrays of
 * `lotterySlots`, `lastWinTime`, `usedNumbers`, the history held in
 * `lotteryData.winningNumbers`, and the browser storage. Every method is
 * proved against the matching transition of module DailyState (through
 * Abs()) or the decision of module Schedule. The clock is passed in as
 * minutes since midnight (`now`) and as today's date; the random choice of a
 * slot is a nondeterministic choice among the unused ones.
 */
module Scheduler {
  import opened Wrappers
  import opened SlotPool
  import opened Schedule
  import opened DailyState

  /** A new array holding s. */
  method NewSlots(s: seq<Slot>) returns (a: array<Slot>)
    ensures fresh(a) && a[..] == s
  {
    a := new Slot[|s|](i requires 0 <= i < |s| => s[i]);
  }

  class Lottery {
    var firstHalf: array<Slot>
    var secondHalf: array<Slot>
    var lastWinTime: Option<int>
    var usedNumbers: seq<int>
    /** `lotteryData.winningNumbers`: the history carried across a reset. */
    var winningNumbers: seq<WinRecord>
    var store: Store

    /** The two halves are separate arrays, so flagging a slot in one leaves the other alone. */
    ghost predicate Valid()
      reads this
    {
      firstHalf != secondHalf
    }

    function Slots(): Pool
      reads this, firstHalf, secondHalf
    {
      Pool(firstHalf[..], secondHalf[..])
    }

    function Abs(): State
      reads this, firstHalf, secondHalf
    {
      State(Slots(), lastWinTime, usedNumbers, winningNumbers, store)
    }

    /** The script's globals as the page loads, over the storage left by earlier visits. */
    constructor (stored: Store)
      ensures Valid() && fresh(firstHalf) && fresh(secondHalf)
      ensures Abs() == State(Fresh(), None, [], [], stored)
    {
      firstHalf := new Slot[FIRST_HALF_WIN_COUNT](i => Slot(i + 1, false));
      secondHalf := new Slot[SECOND_HALF_WIN_COUNT](i => Slot(i + SECOND_HALF_FIRST_NUMBER, false));
      lastWinTime := None;
      usedNumbers := [];
      winningNumbers := [];
      store := stored;
    }

    /** `saveLotteryData` */
    method SaveLotteryData(today: Date)
      modifies this`store
      ensures Abs() == old(Abs()).(store := Saved(old(Abs()), today))
    {
      store := store.(lotteryData := Some(Record(Slots(), today, lastWinTime, winningNumbers)));
    }

    /** `saveUsedNumbers` */
    method SaveUsedNumbers()
      modifies this`store
      ensures Abs() == old(Abs()).(store := old(store).(usedNumbers := Some(usedNumbers)))
    {
      store := store.(usedNumbers := Some(usedNumbers));
    }

    /** `resetLotteryData(kept)` */
    method ResetLotteryData(kept: seq<WinRecord>, today: Date)
      modifies this
      ensures Valid() && fresh(firstHalf) && fresh(secondHalf)
      ensures Abs() == Reset(kept, today)
      ensures Ledger(Abs()) && Remaining(Slots()) == FIRST_HALF_WIN_COUNT + SECOND_HALF_WIN_COUNT
    {
      lastWinTime := None;
      firstHalf := NewSlots(Fresh().firstHalf);
      secondHalf := NewSlots(Fresh().secondHalf);
      usedNumbers := [];
      SaveUsedNumbers();
      winningNumbers := kept;
      SaveLotteryData(today);
      store := store.(winningNumbers := None);
      ResetLedger(kept, today);
    }

    /** `loadLotteryData`: reset on a missing or stale record, otherwise adopt it as stored. */
    method LoadLotteryData(today: Date)
      modifies this
      ensures Valid() && fresh(firstHalf) && fresh(secondHalf)
      ensures Abs() == Load(old(Abs()), today)
    {
      match store.lotteryData
      case None =>
        ResetLotteryData([], today);
      case Some(parsed) =>
        if IsNewDay(parsed.lastUpdated, today) {
          ResetLotteryData(parsed.winningNumbers, today);
        } else {
          firstHalf := NewSlots(parsed.slots.firstHalf);
          secondHalf := NewSlots(parsed.slots.secondHalf);
          winningNumbers := parsed.winningNumbers;
          lastWinTime := StoredLastWin(parsed.lastWinTime);
        }
    }

    /** Flags the slot numbered n in the half its number selects, found by `findIndex`. */
    method MarkUsed(n: int)
      requires Valid()
      modifies firstHalf, secondHalf
      ensures Slots() == MarkNumber(old(Slots()), n)
    {
      if n <= FIRST_HALF_WIN_COUNT {
        var slotIndex := FindIndex(firstHalf[..], n);
        if slotIndex != -1 {
          firstHalf[slotIndex] := firstHalf[slotIndex].(used := true);
        }
      } else {
        var slotIndex := FindIndex(secondHalf[..], n);
        if slotIndex != -1 {
          secondHalf[slotIndex] := secondHalf[slotIndex].(used := true);
        }
      }
    }

    /** `loadUsedNumbers`: adopt the stored list and flag each listed number's slot. */
    method LoadUsedNumbers()
      requires Valid()
      modifies this`usedNumbers, firstHalf, secondHalf
      ensures Abs() == ReplayUsed(old(Abs()))
    {
      match store.usedNumbers
      case None =>
      case Some(saved) =>
        usedNumbers := saved;
        var i := 0;
        while i < |saved|
          invariant 0 <= i <= |saved|
          invariant Slots() == MarkAll(old(Slots()), saved[..i])
          invariant usedNumbers == saved
        {
          MarkUsed(saved[i]);
          assert saved[..i + 1][..i] == saved[..i];
          i := i + 1;
        }
        assert saved[..|saved|] == saved;
    }

    /** `saveWinningNumber` */
    method SaveWinningNumber(number: int, timestamp: string)
      modifies this`store
      ensures Abs() == AppendWin(old(Abs()), number, timestamp)
    {
      if number == 0 {
        return;
      }
      var prior := if store.winningNumbers.Some? then store.winningNumbers.value else [];
      store := store.(winningNumbers := Some(prior + [WinRecord(number, timestamp)]));
    }

    /**
     * `determineWin`: the source's own branch structure, proved equal to
     * Schedule.Decide. Only the first draw of the day changes state: it
     * anchors the last win time at 11:00.
     */
    method DetermineWin(now: int) returns (win: bool)
      modifies this`lastWinTime
      ensures win == Decide(now, old(lastWinTime), CountUnused(firstHalf[..]), CountUnused(secondHalf[..]))
      ensures lastWinTime == if win && old(lastWinTime).None? then Some(START_TIME) else old(lastWinTime)
    {
      if now < START_TIME || now >= END_TIME {
        return false;
      }
      var remainingWins := Remaining(Slots());
      if remainingWins <= 0 {
        return false;
      }
      if lastWinTime.None? {
        lastWinTime := Some(START_TIME);
        return true;
      }
      var minutesSinceLastWin := now - lastWinTime.value;
      if now < FIRST_HALF_END {
        var firstHalfRemaining := CountUnused(firstHalf[..]);
        var remainingTime := FIRST_HALF_END - now;
        if firstHalfRemaining > 0 && remainingTime < firstHalfRemaining * 10 {
          var adjustedInterval := remainingTime / firstHalfRemaining;
          return minutesSinceLastWin >= adjustedInterval;
        }
        return firstHalfRemaining > 0 && minutesSinceLastWin >= 10;
      } else {
        var secondHalfRemaining := CountUnused(secondHalf[..]);
        var remainingTime := END_TIME - now;
        if secondHalfRemaining > 0 && remainingTime < secondHalfRemaining * 20 {
          var adjustedInterval := remainingTime / secondHalfRemaining;
          return minutesSinceLastWin >= adjustedInterval;
        }
        return secondHalfRemaining > 0 && minutesSinceLastWin >= 20;
      }
    }

    /**
     * `generateRandomWinningNumber`: stamps the last win time with `now`
     * (even when it then finds nothing), picks an unused slot of the active
     * half, flags it, and records its number.
     */
    method GenerateRandomWinningNumber(now: int, today: Date) returns (n: Option<int>)
      requires Valid()
      modifies this, firstHalf, secondHalf
      ensures firstHalf == old(firstHalf) && secondHalf == old(secondHalf)
      ensures lastWinTime == Some(now)
      ensures n.None? <==> CountUnused(old(Slots()).Half(ActivePeriod(now))) == 0
      ensures n.Some? ==> Slot(n.value, false) in old(Slots()).Half(ActivePeriod(now))
      ensures Abs() == Commit(old(Abs()), now, today, n)
      ensures old(WellLaid(Slots())) && n.Some? ==>
        && (now < FIRST_HALF_END ==> 1 <= n.value <= FIRST_HALF_WIN_COUNT)
        && (now >= FIRST_HALF_END ==>
              SECOND_HALF_FIRST_NUMBER <= n.value < SECOND_HALF_FIRST_NUMBER + SECOND_HALF_WIN_COUNT)
        && Remaining(Slots()) == old(Remaining(Slots())) - 1
      ensures old(Ledger(Abs())) ==> Ledger(Abs())
    {
      lastWinTime := Some(now);
      SaveLotteryData(today);
      var slots := if now < FIRST_HALF_END then firstHalf else secondHalf;
      var availableSlots := Unused(slots[..]);
      if |availableSlots| == 0 {
        return None;
      }
      var randomIndex :| 0 <= randomIndex < |availableSlots|;
      var selectedSlot := availableSlots[randomIndex];
      assert selectedSlot == Slot(selectedSlot.number, false);
      ghost var before := Abs();
      MarkUsed(selectedSlot.number);
      usedNumbers := usedNumbers + [selectedSlot.number];
      SaveUsedNumbers();
      SaveLotteryData(today);
      n := Some(selectedSlot.number);
      if WellLaid(before.slots) {
        AwardSlot(before.slots, ActivePeriod(now), selectedSlot.number);
      }
      if Ledger(before) {
        CommitKeepsLedger(old(Abs()), now, today, ActivePeriod(now), selectedSlot.number);
      }
    }

    /**
     * `getCurrentTimeSlotWin`: a random unused slot of the half `now` falls
     * in, or nothing outside the hours or when that half is used up.
     */
    method GetCurrentTimeSlotWin(now: int) returns (slot: Option<Slot>)
      ensures slot.None? <==> !InWindow(now) || CountUnused(Slots().Half(ActivePeriod(now))) == 0
      ensures slot.Some? ==> !slot.value.used && slot.value in Slots().Half(ActivePeriod(now))
    {
      var timeSlot := CurrentTimeSlot(now);
      if timeSlot.None? {
        return None;
      }
      var slots := if timeSlot.value.period == FirstHalf then firstHalf else secondHalf;
      var availableSlots := Unused(slots[..]);
      if |availableSlots| == 0 {
        return None;
      }
      var randomIndex :| 0 <= randomIndex < |availableSlots|;
      return Some(availableSlots[randomIndex]);
    }

    /**
     * `getRandomSlot`: flags the slot returned by GetCurrentTimeSlotWin by
     * indexing with its number (number - 1, or number - 19), which is right
     * only for the reset layout. The source returns that very slot object,
     * so the caller sees it already flagged; the result here is the slot as
     * it stands in the array afterwards.
     */
    method GetRandomSlot(now: int) returns (slot: Option<Slot>)
      requires Valid() && WellLaid(Slots())
      modifies firstHalf, secondHalf
      ensures slot.None? <==> !InWindow(now) || old(CountUnused(Slots().Half(ActivePeriod(now)))) == 0
      ensures slot.Some? ==> slot.value.used && Slot(slot.value.number, false) in old(Slots()).Half(ActivePeriod(now))
      ensures slot.Some? ==> slot.value in Slots().Half(ActivePeriod(now))
      ensures Slots() == if slot.None? then old(Slots()) else MarkNumber(old(Slots()), slot.value.number)
    {
      var currentSlot := GetCurrentTimeSlotWin(now);
      if currentSlot.Some? {
        var number := currentSlot.value.number;
        ghost var before := Slots();
        assert Slot(number, false) in before.Half(ActivePeriod(now));
        UnusedSlotAt(before, ActivePeriod(now), number);
        MarkNumberAt(before, number);
        if number <= FIRST_HALF_WIN_COUNT {
          firstHalf[number - 1] := firstHalf[number - 1].(used := true);
          slot := Some(firstHalf[number - 1]);
        } else {
          secondHalf[number - SECOND_HALF_FIRST_NUMBER] := secondHalf[number - SECOND_HALF_FIRST_NUMBER].(used := true);
          slot := Some(secondHalf[number - SECOND_HALF_FIRST_NUMBER]);
        }
        return;
      }
      return None;
    }

    /**
     * One draw: `determineWin`, then on a win `generateRandomWinningNumber`,
     * and a drawn number is appended to the stored history. On a win the new
     * state is the award commit followed by the history append.
     */
    method Draw(now: int, today: Date, timestamp: string) returns (n: Option<int>)
      requires Valid()
      modifies this, firstHalf, secondHalf
      ensures Valid() && firstHalf == old(firstHalf) && secondHalf == old(secondHalf)
      ensures n.Some? ==> Decide(now, old(lastWinTime), old(CountUnused(firstHalf[..])), old(CountUnused(secondHalf[..])))
      ensures !Decide(now, old(lastWinTime), old(CountUnused(firstHalf[..])), old(CountUnused(secondHalf[..])))
              ==> n.None? && Abs() == old(Abs())
      ensures Decide(now, old(lastWinTime), old(CountUnused(firstHalf[..])), old(CountUnused(secondHalf[..])))
              ==> lastWinTime == Some(now) && (n.None? <==> CountUnused(old(Slots()).Half(ActivePeriod(now))) == 0)
      ensures Decide(now, old(lastWinTime), old(CountUnused(firstHalf[..])), old(CountUnused(secondHalf[..])))
              ==> Abs() == AppendWin(Commit(old(Abs()), now, today, n), if n.Some? then n.value else 0, timestamp)
      ensures n.Some? ==> Slot(n.value, false) in old(Slots()).Half(ActivePeriod(now))
      ensures Remaining(Slots()) <= old(Remaining(Slots()))
      ensures old(WellLaid(Slots())) && n.Some? ==>
        && (now < FIRST_HALF_END ==> 1 <= n.value <= FIRST_HALF_WIN_COUNT)
        && (now >= FIRST_HALF_END ==>
              SECOND_HALF_FIRST_NUMBER <= n.value < SECOND_HALF_FIRST_NUMBER + SECOND_HALF_WIN_COUNT)
        && Remaining(Slots()) == old(Remaining(Slots())) - 1
      ensures old(Ledger(Abs())) ==> Ledger(Abs())
    {
      var isWin := DetermineWin(now);
      n := None;
      if isWin {
        ghost var before := Abs();
        n := GenerateRandomWinningNumber(now, today);
        if n.Some? {
          MarkNumberRemaining(before.slots, n.value);
        }
        if n.Some? && n.value != 0 {
          SaveWinningNumber(n.value, timestamp);
        }
      }
    }
  }

  /**
   * The first draw of the day on a fresh page: nothing is stored, loading
   * resets the pool, and a draw at 11:00 wins one of the numbers 1-18 and
   * leaves the last win time at 11:00.
   */
  method OpeningDraw(today: Date, timestamp: string) returns (n: Option<int>, lastWin: Option<int>)
    ensures n.Some? && 1 <= n.value <= FIRST_HALF_WIN_COUNT
    ensures lastWin == Some(START_TIME)
  {
    var lottery := new Lottery(Store(None, None, None));
    lottery.LoadLotteryData(today);
    assert lottery.Abs() == Reset([], today);
    assert lottery.Slots() == Fresh();
    FreshPool();
    AllUnusedCount(Fresh().firstHalf);
    assert Decide(START_TIME, None, CountUnused(lottery.firstHalf[..]), CountUnused(lottery.secondHalf[..]));
    n := lottery.Draw(START_TIME, today, timestamp);
    lastWin := lottery.lastWinTime;
  }
}
