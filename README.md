# Festival lottery draw scheduler

A model of the scheduler behind a browser lottery page (`script.js`). A
visitor draws a ticket, and the page decides whether the draw wins.

The day has 27 numbered prize slots:
- 18 slots, numbered 1–18, for the first half (11:00–14:00).
- 9 slots, numbered 19–27, for the second half (14:00–17:00).

A draw outside 11:00–17:00 loses. A draw also loses when no slot is left.
The first draw of the day wins. After that, wins are paced 10 minutes apart
in the first half and 20 minutes apart in the second. When that pace could
not hand out the half's remaining slots before the half ends, the pace is
shortened to `floor(minutes left / slots left)` (the "catch-up" rule).

A win picks a random unused slot of the current half. It flags that slot
used and records its number. The state persists in browser storage and is
rebuilt when the page is loaded on a different date from the saved record.

Time is minutes since local midnight, passed in as `now`; today's date is
passed in as a `Date`. The random choice becomes a nondeterministic choice
among the unused slots. Storage is three optional values, one per storage
key.

Modules:
- `SlotPool` holds the slots as values. It defines the unused-slot filter and
  its count, `findIndex`, and the "flag the slot with this number" step used
  by the award and by the replay of stored numbers. Its lemmas cover
  counting, the reset layout, and the replay.
- `Schedule` holds the operating-window constants, `getCurrentTimeSlot`, and
  `Decide`. `Decide` is a reference definition of the win rule: the window
  gate, the exhaustion gate, the first-draw rule, and the pacing interval.
  Its lemmas cover pacing.
- `DailyState` gives the whole page state as a value. It defines each
  storage and housekeeping step as a function on that value: save, reset,
  load, replay of used numbers, history append, and award commit. It also
  defines the award ledger invariant: no number awarded twice, and every
  awarded number's slot used.
- `Scheduler` holds the class `Lottery`, which keeps the two slot arrays and
  the other globals as fields. Each method follows the source function it
  models and is proved against the matching `DailyState` or `Schedule`
  function through `Abs()`.

Behaviours of the code worth knowing, all modelled as written:
- Marking a number used (inside `loadUsedNumbers` and
  `generateRandomWinningNumber`) does not fail on a missing or already-used
  slot: a number `findIndex` does not find is ignored, and a used slot is
  flagged again without complaint.
- There are two win histories:
  - `lotteryData.winningNumbers` is carried across a day reset.
  - The storage key `winningNumbers` is appended to by `saveWinningNumber`
    and removed by every reset.
- When a win is decided but the current half has no unused slot,
  `generateRandomWinningNumber` still stamps the last win time with `now`
  and saves it, then returns nothing. It never falls back to the other half.
- The date is checked only when the page loads. A page left open past
  midnight keeps yesterday's pool, and its next award saves that pool stamped
  with the new date; every later load that day adopts it, so the 27 fresh
  wins do not come that day (`OpenPastMidnight`).
- `getRandomSlot` returns the very slot object it has just flagged, so the
  caller sees it with `used` already true.

## Model

| member | source | states |
|---|---|---|
| `SlotPool.Unused` | script.js:331-335 | the filter keeps exactly the unused slots of the half and is no longer than it |
| `SlotPool.Remaining` | script.js:329-357 | `getRemainingWins` counts at most one win per slot; its exact value on the reset layout is in `RemainingBounds` and `FreshPool`, its change under an award in `AwardSlot` |
| `SlotPool.MarkNumber` | script.js:760-773 | flagging a number changes no slot number and clears no flag, in either half; `MarkNumberLaid`, `MarkNumberAt` and `MarkInCount` give its exact effect |
| `SlotPool.MarkAll` | script.js:607-619 | replaying a list changes no slot number and clears no flag; `MarkAllLaid` gives its exact effect and `MarkAllIdempotent` its idempotence |
| `SlotPool.MarkNumberAt` | script.js:1076-1080 | on the reset layout, marking n is the same as flagging index n-1 of the first half or n-19 of the second, which is what `getRandomSlot` does directly |
| `SlotPool.FindIndex` | script.js:608-617 | `findIndex` gives -1 exactly when no slot has the number, and otherwise the first index that has it |
| `SlotPool.NoneUnused` | script.js:651-655 | a half's unused count is 0 exactly when every slot of it is used |
| `SlotPool.RemainingBounds` | script.js:329-357 | on the reset layout, the remaining wins (unused first-half plus unused second-half) lie in 0..27, and are 0 exactly when every slot is used |
| `SlotPool.FreshPool` | script.js:225-236 | the rebuilt pool has first-half slot i numbered i+1 (18 slots) and second-half slot i numbered i+19 (9 slots), all unused, so 27 wins remain |
| `SlotPool.CountAfterSet` | script.js:760-773 | flagging an unused slot lowers the unused count by exactly one |
| `SlotPool.MarkInCount` | script.js:760-773 | flagging the slot `findIndex` finds lowers the count by one if that slot was unused, and otherwise leaves it unchanged |
| `SlotPool.MarkNumberRemaining` | script.js:760-773 | marking a number never raises the remaining wins |
| `SlotPool.MarkAllRemaining` | script.js:600-621 | replaying used numbers never raises the remaining wins |
| `SlotPool.LaidFind` | script.js:1072-1084 | on the reset layout, number n sits at index n-1 (first half) or n-19 (second half), the indexing `getRandomSlot` relies on; a number outside the range is not found |
| `SlotPool.MarkNumberLaid` | script.js:760-773 | on the reset layout, marking n flags only the slot numbered n and keeps the layout |
| `SlotPool.UnusedSlotAt` | script.js:1076-1080 | on the reset layout, an unused slot numbered n of a half is at index n-1 (first half, n in 1..18) or n-19 (second half, n in 19..27), so `getRandomSlot`'s indexing lands on it |
| `SlotPool.AwardSlot` | script.js:719-786 | awarding an unused slot of a half: the number is in 1..18 (first half) or 19..27 (second half), the slot was unused, afterwards only that slot's flag has changed, and exactly one win fewer remains |
| `SlotPool.MarkAllLaid` | script.js:600-621 | replaying a list flags exactly the slots whose numbers are listed (numbers up to 18 in the first half, others in the second) and leaves every other flag unchanged; unknown numbers are ignored |
| `SlotPool.MarkAllIdempotent` | script.js:600-621 | replaying the same list a second time changes nothing, whatever the slot layout |
| `SlotPool.FindIndexByNumbers` | script.js:608-617 | `findIndex` depends only on the slot numbers, not on the flags |
| `SlotPool.MarkInTwice` | script.js:760-773 | flagging the same number twice equals flagging it once |
| `SlotPool.MarkInStable` | script.js:607-619 | a slot already flagged for n stays flagged when another number is flagged |
| `Schedule.CurrentTimeSlot` | script.js:285-301 | gives a slot exactly inside 11:00–17:00: the half `now` falls in, and the 10- or 20-minute tick within it, which is below 18 or 9 |
| `Schedule.PacingInterval` | script.js:671-676 | the interval between wins is never negative and never longer than the nominal 10 or 20 minutes while the half has not ended; `CatchUpShorter` and `PacingFitsHalf` state its catch-up properties |
| `Schedule.Decide` | script.js:644-715 | reference definition of `determineWin`'s verdict; its properties are in `DecideGates`, `FirstHalfPacing`, `SecondHalfPacing` and `EmptyActiveHalfLoses`, and `Lottery.DetermineWin` is proved equal to it |
| `Schedule.DecideGates` | script.js:644-662 | a draw before 11:00 or from 17:00 loses; a draw with no remaining slot loses; the first draw in the window with a slot left wins |
| `Schedule.FirstHalfPacing` | script.js:665-689 | first half, with r unused first-half slots and T = 840 − now: if r > 0 and T < 10·r the result is elapsed ≥ T div r, otherwise r > 0 and elapsed ≥ 10 |
| `Schedule.SecondHalfPacing` | script.js:691-715 | the same rule for the second half, with 1020 and 20 |
| `Schedule.EmptyActiveHalfLoses` | script.js:665-715 | after the first win, an empty current half loses even when the other half has slots |
| `Schedule.CatchUpShorter` | script.js:672-676 | in the catch-up branch the adjusted interval is at least 0 and strictly below the nominal 10 or 20 |
| `Schedule.PacingFitsHalf` | script.js:672-676 | the slots left, spaced one pacing interval apart, fit in the time left in the half, in both branches |
| `Schedule.CatchUpExample` | script.js:665-689 | at 13:50 with 3 first-half slots left the interval is 3: a win 3 minutes after the last wins, 2 minutes after loses |
| `Schedule.LastMinuteExample` | script.js:691-715 | at 16:59 with 1 second-half slot left and the last win at 16:40, the draw wins |
| `DailyState.IsNewDay` | script.js:210-216 | true exactly when the stored date differs from today in year, month or day |
| `DailyState.StoredLastWin` | script.js:200 | `lastWinTime || null`: a stored 0 reads back as no last win, every other value as itself |
| `DailyState.Saved` | script.js:260-269 | the record written by `saveLotteryData`; `SaveLoadRoundTrip` shows loading it back today restores the state |
| `DailyState.Reset` | script.js:219-257 | the state after `resetLotteryData`; `ResetLedger` gives its ledger and 27 wins, `StepsPersist` its storage |
| `DailyState.Load` | script.js:188-207 | the state after `loadLotteryData`; `LoadIdempotent`, `DayRollover` and `SaveLoadRoundTrip` state its properties |
| `DailyState.ReplayUsed` | script.js:600-621 | the state after `loadUsedNumbers`; `ReplayUsedSettles`, `RolloverStartup` and `ReloadKeepsLedger` state its properties |
| `DailyState.AppendWin` | script.js:557-585 | the storage after `saveWinningNumber`; `StepsPersist` shows it leaves the daily record and used numbers in step |
| `DailyState.Commit` | script.js:719-786 | the state after `generateRandomWinningNumber` chose n; `CommitKeepsLedger` and `StepsPersist` state its properties |
| `DailyState.LoadIdempotent` | script.js:188-207 | loading twice in a row gives the same state as loading once |
| `DailyState.DayRollover` | script.js:188-207 | a record from another day loads as a fresh pool with 27 wins, no last win and no used numbers; the record's history is kept, and the separate history key is removed |
| `DailyState.ResetLedger` | script.js:219-257 | a reset leaves a consistent award ledger with 27 wins remaining |
| `DailyState.SaveLoadRoundTrip` | script.js:260-269 | saving today and loading again gives back the same state, unless the last win time was 0 |
| `DailyState.RolloverStartup` | script.js:1042-1046 | at page start on a new day, loading and then replaying the used numbers leaves all 27 wins |
| `DailyState.ReplayUsedSettles` | script.js:600-621 | the replay never raises the remaining wins and is idempotent |
| `DailyState.UsedSlotIndex` | script.js:1072-1084 | on the reset layout, the slot for number n is used exactly when the slot at index n-1 or n-19 is flagged |
| `DailyState.CommitKeepsLedger` | script.js:719-786 | awarding an unused slot: the number was never awarded before, the ledger stays consistent, and one win fewer remains |
| `DailyState.StepsPersist` | script.js:219-269 | after a reset, after an award of a number, and (when storage was already in step) after a fruitless award or a history append, storage holds today's record with the in-memory slots and the in-memory used numbers |
| `DailyState.OpenPastMidnight` | script.js:188-207 | an award made by a page open since before midnight saves its pool under today's date, so a later load today adopts that pool (with the new number flagged) instead of a fresh one |
| `DailyState.UsedIsMarked` | script.js:607-619 | on the reset layout, replaying a number whose slot is already used changes nothing |
| `DailyState.ReloadKeepsLedger` | script.js:1042-1046 | reopening the page the same day over storage in step with a ledger-keeping state: load then replay gives back the same pool and used numbers, so the ledger (no number awarded twice) still holds and storage stays in step, ready for the next reload |
| `Scheduler.NewSlots` | script.js:198 | the adopted slot array holds the stored slots |
| `Scheduler.Lottery.constructor` | script.js:13-38 | the page starts with the fresh pool, no last win, no used numbers, an empty history, and storage as earlier visits left it |
| `Scheduler.Lottery.SaveLotteryData` | script.js:260-269 | writes the daily record (slots, today, last win time, history) and changes nothing else |
| `Scheduler.Lottery.SaveUsedNumbers` | script.js:624-627 | writes the used numbers to storage and changes nothing else |
| `Scheduler.Lottery.ResetLotteryData` | script.js:219-257 | the state becomes `Reset(kept, today)`: new arrays, a consistent ledger, 27 wins remaining |
| `Scheduler.Lottery.LoadLotteryData` | script.js:188-207 | the state becomes `Load(old state, today)`: reset on a missing or stale record, otherwise adopt the stored slots, last win time and history |
| `Scheduler.Lottery.MarkUsed` | script.js:760-773 | the in-place flag update equals `MarkNumber` on the old slots |
| `Scheduler.Lottery.LoadUsedNumbers` | script.js:600-621 | the loop over the stored list leaves the state `ReplayUsed(old state)` |
| `Scheduler.Lottery.SaveWinningNumber` | script.js:557-585 | appends the number and timestamp to the stored history; a 0 number is skipped |
| `Scheduler.Lottery.DetermineWin` | script.js:630-716 | the source's branches give exactly `Decide(now, lastWinTime, unused first, unused second)`; only a first-draw win changes state, setting the last win time to 660 |
| `Scheduler.Lottery.GenerateRandomWinningNumber` | script.js:719-786 | always stamps the last win time with now. Returns nothing exactly when the current half has no unused slot; otherwise returns the number of a slot that was unused, flags it in place and appends the number to the used numbers. On the reset layout the number is in the current half's range and one win fewer remains. Keeps the ledger |
| `Scheduler.Lottery.GetCurrentTimeSlotWin` | script.js:304-316 | returns nothing exactly when outside the window or when the current half is used up; otherwise returns an unused slot of the current half; changes nothing |
| `Scheduler.Lottery.GetRandomSlot` | script.js:1072-1084 | on the reset layout, flags the chosen unused slot of the current half by indexing with number−1 or number−19, which equals marking that number; returns that slot as it now stands, flagged used; returns nothing exactly when outside the window or the current half is used up |
| `Scheduler.Lottery.Draw` | script.js:990-1007 | a losing decision changes nothing; a winning decision leaves exactly `AppendWin(Commit(old state, now, today, n), n, timestamp)`: the last win time stamped, the drawn slot flagged, the number added to the used numbers and to the stored history, everything saved. The remaining count never rises and on the reset layout drops by one per number drawn; the ledger is kept |
| `Scheduler.OpeningDraw` | script.js:655-662 | on a fresh page, the first draw at 11:00 wins a number in 1..18 and leaves the last win time at 11:00 |

## Left out

- Rendering, fireworks, rain, dice, sound and the timers that drive them
  (`createStars`, the firework functions, `createRain`, `showDice`,
  `updateRemainingDisplay`, `toggleDrawButton`, `updateRemainingCount`,
  `initAudioContext`, the `play*Sound` functions, `startBackgroundFireworks`,
  the `setTimeout` delays). These are presentation only, run through browser
  APIs, and use floating-point values.
- Event wiring: the page-load listener and the click and touch listeners
  themselves. The start-up sequence they run (load, then replay of the used
  numbers) is covered by `RolloverStartup` on a new day and by
  `ReloadKeepsLedger` on the same day.
- `drawLottery`'s own window and exhaustion checks (script.js:953-988)
  repeat the first two gates of `determineWin`. Only the draw itself is
  modelled, by `Draw`.
- `isWithinOperatingHours` and `isLotteryTime` compute the same window test
  as `Schedule.InWindow`. They read the clock themselves and are not called
  by the core.
- JSON encoding and parsing, including the source's missing parse-error
  handling. Storage is modelled as three already-parsed optional values.
  A stored record of the wrong shape is not modelled.
- The clock. `now` is an integer parameter. Dates are (year, month, day)
  triples, so time zones and the conversion of the ISO timestamp are not
  modelled.
- `Math.random`. It becomes a nondeterministic choice, so the model says
  nothing about uniformity.
- The `timeSlot` field of each slot. It holds epoch milliseconds and is
  never read.
- `WIN_PROBABILITY`, which is unused.
- The `toLocaleString` timestamp text. It is a string parameter.
- `loadWinningNumbers`, and `displayWinningNumbers` with its sort. These are
  read-only display of the stored history.
- `handleReset`'s `confirm` and `alert` dialogs.
- The in-memory `lotteryData.lastUpdated` and `lotteryData.lastWinTime`.
  They are written but never read; only the saved copies matter.
- The slot layout is not checked when a stored record is adopted, because
  the source does not check it. The claims about slot numbers and ranges
  therefore hold under `WellLaid`, which every reset establishes.
- `Scheduler.Lottery.GetRandomSlot` requires `WellLaid`. The source indexes
  with `number - 1` and `number - 19`, and on any other layout that index
  could miss the array.
- Several pages open at once. The model has one page owning the storage. In
  the source each open page keeps its own slots, last win time and used
  numbers, and each overwrites the other's saved record, so two pages can
  award the same number, and the stored history (re-read before each append)
  then holds it twice. `CommitKeepsLedger` and `ReloadKeepsLedger` hold for a
  single open page only.
- `Draw` reads the clock once. In the source `determineWin` and
  `generateRandomWinningNumber` each read it, so a draw straddling 14:00 can
  pass the first-half pacing test and then award a second-half slot or find
  nothing; `Draw`'s contract, stated for one `now`, does not cover that case.
