/**
 * The lottery page's state as a value, and what each daily-housekeeping and
 * award step does to it. The browser's storage is three keys: the combined
 * daily record ('lotteryData'), the list of used numbers ('usedNumbers') and
 * the win history ('winningNumbers'); each is absent or holds a parsed value.
 */
module DailyState {
  import opened Wrappers
  import opened SlotPool

  /** A calendar date in local time. */
  datatype Date = Date(year: int, month: int, day: int)

  /** One entry of a win history; the timestamp is the page's formatted local date and time. */
  datatype WinRecord = WinRecord(number: int, timestamp: string)

  /** The record saved under 'lotteryData'. */
  datatype Record = Record(slots: Pool, lastUpdated: Date, lastWinTime: Option<int>, winningNumbers: seq<WinRecord>)

  datatype Store = Store(
    lotteryData: Option<Record>,
    usedNumbers: Option<seq<int>>,
    winningNumbers: Option<seq<WinRecord>>)

  /**
   * The in-memory state: `lotterySlots`, `lastWinTime`, `usedNumbers`, the
   * history carried in `lotteryData.winningNumbers`, and the storage.
   */
  datatype State = State(
    slots: Pool,
    lastWinTime: Option<int>,
    usedNumbers: seq<int>,
    winningNumbers: seq<WinRecord>,
    store: Store)

  /** `isNewDay`: the date differs in day, month or year. */
  function IsNewDay(lastUpdated: Date, today: Date): (r: bool)
    ensures r <==> lastUpdated != today
  {
    lastUpdated.day != today.day || lastUpdated.month != today.month || lastUpdated.year != today.year
  }

  /** `saveLotteryData`: the storage after writing the daily record, stamped with today. */
  function Saved(s: State, today: Date): Store
  {
    s.store.(lotteryData := Some(Record(s.slots, today, s.lastWinTime, s.winningNumbers)))
  }

  /**
   * `resetLotteryData(kept)`: a fresh pool, no last win, no used numbers, the
   * given history kept in the daily record, and the separate history key
   * removed from storage.
   */
  function Reset(kept: seq<WinRecord>, today: Date): State
  {
    State(Fresh(), None, [], kept, Store(Some(Record(Fresh(), today, None, kept)), Some([]), None))
  }

  /** `parsedData.lastWinTime || null`: a stored 0 reads back as no last win. */
  function StoredLastWin(t: Option<int>): (r: Option<int>)
    ensures t == Some(0) ==> r.None?
    ensures t != Some(0) ==> r == t
  {
    if t == Some(0) then None else t
  }

  /** `loadLotteryData`: reset when nothing is stored or the record is from another day, else adopt it. */
  function Load(s: State, today: Date): State
  {
    match s.store.lotteryData
    case None => Reset([], today)
    case Some(rec) =>
      if IsNewDay(rec.lastUpdated, today) then Reset(rec.winningNumbers, today)
      else s.(slots := rec.slots, lastWinTime := StoredLastWin(rec.lastWinTime), winningNumbers := rec.winningNumbers)
  }

  /** `loadUsedNumbers`: adopt the stored list and mark each of its numbers used. */
  function ReplayUsed(s: State): State
  {
    match s.store.usedNumbers
    case None => s
    case Some(ns) => s.(usedNumbers := ns, slots := MarkAll(s.slots, ns))
  }

  /** `saveWinningNumber`: append to the stored history; a 0 number is not saved. */
  function AppendWin(s: State, number: int, timestamp: string): State
  {
    if number == 0 then s
    else
      var prior := if s.store.winningNumbers.Some? then s.store.winningNumbers.value else [];
      s.(store := s.store.(winningNumbers := Some(prior + [WinRecord(number, timestamp)])))
  }

  /**
   * The effect of `generateRandomWinningNumber` once its choice `n` is known:
   * the last win time is stamped and saved whatever happens; when a number
   * was drawn its slot is marked, it is appended to the used numbers, and
   * both are saved.
   */
  function Commit(s: State, now: int, today: Date, n: Option<int>): State
  {
    var stamped := s.(lastWinTime := Some(now));
    var s1 := stamped.(store := Saved(stamped, today));
    match n
    case None => s1
    case Some(k) =>
      var used := s1.usedNumbers + [k];
      var s2 := s1.(slots := MarkNumber(s1.slots, k), usedNumbers := used, store := s1.store.(usedNumbers := Some(used)));
      s2.(store := Saved(s2, today))
  }

  predicate NoDuplicates(ns: seq<int>)
  {
    forall i, j :: 0 <= i < j < |ns| ==> ns[i] != ns[j]
  }

  /** Some slot numbered n is flagged used. */
  predicate IsUsed(p: Pool, n: int)
  {
    Slot(n, true) in p.firstHalf || Slot(n, true) in p.secondHalf
  }

  /**
   * The award ledger is consistent: the pool has its reset layout, no number
   * was awarded twice, and every awarded number's slot is used.
   */
  predicate Ledger(s: State)
  {
    && WellLaid(s.slots)
    && NoDuplicates(s.usedNumbers)
    && forall n :: n in s.usedNumbers ==> IsUsed(s.slots, n)
  }

  /**
   * Storage holds today's daily record with the in-memory slots, and the
   * in-memory used numbers: what a reload of the page reads back.
   */
  predicate Persisted(s: State, today: Date)
  {
    && s.store.lotteryData.Some?
    && s.store.lotteryData.value.slots == s.slots
    && s.store.lotteryData.value.lastUpdated == today
    && s.store.usedNumbers == Some(s.usedNumbers)
  }

  /** The state of a page just opened over `store`, before any loading. */
  function Opened(store: Store): State
  {
    State(Fresh(), None, [], [], store)
  }

  // ---------------------------------------------------------------------------
  // Daily housekeeping

  /** Loading twice in a row gives the same state as loading once. */
  lemma LoadIdempotent(s: State, today: Date)
    ensures Load(Load(s, today), today) == Load(s, today)
  {
  }

  /**
   * A record from another day is replaced by a fresh pool with all 27 wins
   * left and no last win; the daily record keeps its history, while the
   * separate history key is wiped.
   */
  lemma DayRollover(s: State, today: Date)
    requires s.store.lotteryData.Some? && s.store.lotteryData.value.lastUpdated != today
    ensures var r := Load(s, today);
      && Ledger(r)
      && Remaining(r.slots) == FIRST_HALF_WIN_COUNT + SECOND_HALF_WIN_COUNT
      && r.lastWinTime.None? && r.usedNumbers == []
      && r.winningNumbers == s.store.lotteryData.value.winningNumbers
      && r.store.winningNumbers.None?
  {
    FreshPool();
  }

  /** A reset establishes the ledger with the full count of wins left. */
  lemma ResetLedger(kept: seq<WinRecord>, today: Date)
    ensures Ledger(Reset(kept, today))
    ensures Remaining(Reset(kept, today).slots) == FIRST_HALF_WIN_COUNT + SECOND_HALF_WIN_COUNT
  {
    FreshPool();
  }

  /**
   * Saving today and loading again restores the in-memory pool, last win
   * time and history (a last win of 0 is the one value not restored).
   */
  lemma SaveLoadRoundTrip(s: State, today: Date)
    requires s.lastWinTime != Some(0)
    ensures var saved := s.(store := Saved(s, today));
      Load(saved, today) == saved
  {
  }

  /** At start-up on a new day the replay finds the emptied list: every slot stays unused. */
  lemma RolloverStartup(s: State, today: Date)
    requires s.store.lotteryData.Some? && s.store.lotteryData.value.lastUpdated != today
    ensures Remaining(ReplayUsed(Load(s, today)).slots) == FIRST_HALF_WIN_COUNT + SECOND_HALF_WIN_COUNT
  {
    FreshPool();
  }

  /** Replaying never raises the remaining count, and replaying the same list twice changes nothing more. */
  lemma ReplayUsedSettles(s: State)
    ensures Remaining(ReplayUsed(s).slots) <= Remaining(s.slots)
    ensures ReplayUsed(ReplayUsed(s)) == ReplayUsed(s)
  {
    if s.store.usedNumbers.Some? {
      MarkAllRemaining(s.slots, s.store.usedNumbers.value);
      MarkAllIdempotent(s.slots, s.store.usedNumbers.value);
    }
  }

  // ---------------------------------------------------------------------------
  // The award keeps the ledger

  /** Every slot flagged in a well-laid pool carries its own number. */
  lemma UsedSlotIndex(p: Pool, n: int)
    requires WellLaid(p)
    ensures IsUsed(p, n) <==>
      || (1 <= n <= FIRST_HALF_WIN_COUNT && p.firstHalf[n - 1].used)
      || (SECOND_HALF_FIRST_NUMBER <= n < SECOND_HALF_FIRST_NUMBER + SECOND_HALF_WIN_COUNT
          && p.secondHalf[n - SECOND_HALF_FIRST_NUMBER].used)
  {
    if 1 <= n <= FIRST_HALF_WIN_COUNT && p.firstHalf[n - 1].used {
      assert p.firstHalf[n - 1] == Slot(n, true);
    }
    if SECOND_HALF_FIRST_NUMBER <= n < SECOND_HALF_FIRST_NUMBER + SECOND_HALF_WIN_COUNT
       && p.secondHalf[n - SECOND_HALF_FIRST_NUMBER].used {
      assert p.secondHalf[n - SECOND_HALF_FIRST_NUMBER] == Slot(n, true);
    }
  }

  /**
   * Awarding an unused slot of the ledger's pool: the number has not been
   * awarded before, the ledger still holds afterwards, and one win fewer
   * remains.
   */
  lemma CommitKeepsLedger(s: State, now: int, today: Date, per: Period, k: int)
    requires Ledger(s)
    requires Slot(k, false) in s.slots.Half(per)
    ensures k !in s.usedNumbers
    ensures Ledger(Commit(s, now, today, Some(k)))
    ensures Remaining(Commit(s, now, today, Some(k)).slots) == Remaining(s.slots) - 1
  {
    var p := s.slots;
    var q := MarkNumber(p, k);
    AwardSlot(p, per, k);
    UsedSlotIndex(p, k);
    assert !IsUsed(p, k);
    var used := s.usedNumbers + [k];
    assert NoDuplicates(used) by {
      forall i, j | 0 <= i < j < |used|
        ensures used[i] != used[j]
      {
        if j == |used| - 1 {
          assert used[i] in s.usedNumbers;
        }
      }
    }
    forall n | n in used
      ensures IsUsed(q, n)
    {
      UsedSlotIndex(q, n);
      if n != k {
        UsedSlotIndex(p, n);
      }
    }
  }

  // ---------------------------------------------------------------------------
  // The ledger survives a reload within the day

  /** Every reset, every award and every history append leaves storage in step with memory. */
  lemma StepsPersist(s: State, kept: seq<WinRecord>, now: int, today: Date, k: int, number: int, timestamp: string)
    ensures Persisted(Reset(kept, today), today)
    ensures Persisted(Commit(s, now, today, Some(k)), today)
    ensures Persisted(s, today) ==> Persisted(Commit(s, now, today, None), today)
    ensures Persisted(s, today) ==> Persisted(AppendWin(s, number, timestamp), today)
  {
  }

  /**
   * A page left open past midnight: its next award saves the old pool stamped
   * with the new date, so a load later that day adopts that pool (with the new
   * number flagged) instead of rebuilding a fresh one.
   */
  lemma OpenPastMidnight(s: State, now: int, today: Date, k: int)
    ensures var r := Load(Opened(Commit(s, now, today, Some(k)).store), today);
      && r.slots == MarkNumber(s.slots, k)
      && r.lastWinTime == StoredLastWin(Some(now))
  {
  }

  /** On a well-laid pool, a number whose slot is already used is marked: flagging it again changes nothing. */
  lemma UsedIsMarked(p: Pool, n: int)
    requires WellLaid(p) && IsUsed(p, n)
    ensures Marked(p, n)
  {
    var q := MarkNumber(p, n);
    UsedSlotIndex(p, n);
    MarkNumberLaid(p, n);
    assert q.firstHalf == p.firstHalf by {
      assert forall i :: 0 <= i < FIRST_HALF_WIN_COUNT ==> q.firstHalf[i] == p.firstHalf[i];
    }
    assert q.secondHalf == p.secondHalf by {
      assert forall i :: 0 <= i < SECOND_HALF_WIN_COUNT ==> q.secondHalf[i] == p.secondHalf[i];
    }
  }

  /**
   * Reopening the page on the same day, over storage in step with a state
   * that keeps the ledger: load followed by the replay of used numbers gives
   * back the same pool and used numbers, so the ledger still holds and no
   * number can be awarded a second time that day.
   */
  lemma ReloadKeepsLedger(s: State, today: Date)
    requires Ledger(s) && Persisted(s, today)
    ensures var r := ReplayUsed(Load(Opened(s.store), today));
      && r.slots == s.slots
      && r.usedNumbers == s.usedNumbers
      && Ledger(r)
      && Persisted(r, today)
  {
    forall n | n in s.usedNumbers
      ensures Marked(s.slots, n)
    {
      UsedIsMarked(s.slots, n);
    }
    MarkAllOfMarked(s.slots, s.usedNumbers);
  }
}
