/**
 * The scheduler's clock arithmetic. Time is minutes since local midnight.
 * Draws are open from 11:00 to 17:00. The first half runs to 14:00 and
 * releases its slots nominally every 10 minutes; the second half releases
 * every 20 minutes. When the nominal pace could not use up a half's remaining
 * slots before the half ends, the interval is shortened to
 * floor(time left / slots left).
 */
module Schedule {
  import opened Wrappers
  import opened SlotPool

  const START_TIME := 11 * 60
  const END_TIME := 17 * 60
  const FIRST_HALF_END := 14 * 60

  /** Inside the operating hours, 11:00 inclusive to 17:00 exclusive. */
  predicate InWindow(now: int)
  {
    START_TIME <= now < END_TIME
  }

  /** The half whose slots a draw at `now` uses. */
  function ActivePeriod(now: int): Period
  {
    if now < FIRST_HALF_END then FirstHalf else SecondHalf
  }

  function PeriodStart(p: Period): int
  {
    if p == FirstHalf then START_TIME else FIRST_HALF_END
  }

  function PeriodEnd(p: Period): int
  {
    if p == FirstHalf then FIRST_HALF_END else END_TIME
  }

  function NominalInterval(p: Period): nat
  {
    if p == FirstHalf then 10 else 20
  }

  function SlotCount(p: Period): nat
  {
    if p == FirstHalf then FIRST_HALF_WIN_COUNT else SECOND_HALF_WIN_COUNT
  }

  datatype TimeSlot = TimeSlot(period: Period, index: int)

  /**
   * `getCurrentTimeSlot`: the half and the nominal tick that `now` falls in,
   * or nothing outside the operating hours.
   */
  function CurrentTimeSlot(now: int): (r: Option<TimeSlot>)
    ensures r.Some? <==> InWindow(now)
    ensures r.Some? ==> var p := r.value.period;
      && p == ActivePeriod(now)
      && 0 <= r.value.index < SlotCount(p)
      && PeriodStart(p) + r.value.index * NominalInterval(p) <= now
      && now < PeriodStart(p) + (r.value.index + 1) * NominalInterval(p)
  {
    if now >= START_TIME && now < FIRST_HALF_END then
      Some(TimeSlot(FirstHalf, (now - START_TIME) / 10))
    else if now >= FIRST_HALF_END && now < END_TIME then
      Some(TimeSlot(SecondHalf, (now - FIRST_HALF_END) / 20))
    else
      None
  }

  /** The nominal pace cannot release all `left` slots before the half ends. */
  predicate CatchUp(p: Period, now: int, left: int)
  {
    left > 0 && PeriodEnd(p) - now < left * NominalInterval(p)
  }

  /** Minimum minutes since the last win before the next may occur. */
  function PacingInterval(p: Period, now: int, left: int): (r: int)
    requires left > 0
    ensures now <= PeriodEnd(p) ==> 0 <= r <= NominalInterval(p)
  {
    if CatchUp(p, now, left) then (PeriodEnd(p) - now) / left else NominalInterval(p)
  }

  /**
   * Whether a draw at `now` wins, given the last win time and the unused
   * counts of the two halves: inside the window, with some slot left, and
   * either the first draw of the day or, with the active half not empty,
   * at least the pacing interval after the last win.
   */
  function Decide(now: int, lastWinTime: Option<int>, firstLeft: nat, secondLeft: nat): bool
  {
    var p := ActivePeriod(now);
    var left := if p == FirstHalf then firstLeft else secondLeft;
    && InWindow(now)
    && firstLeft + secondLeft > 0
    && (lastWinTime.None? || (left > 0 && now - lastWinTime.value >= PacingInterval(p, now, left)))
  }

  /** The gates: closed hours and an exhausted pool lose, the first draw of the day wins. */
  lemma DecideGates(now: int, lastWinTime: Option<int>, firstLeft: nat, secondLeft: nat)
    ensures !InWindow(now) ==> !Decide(now, lastWinTime, firstLeft, secondLeft)
    ensures firstLeft + secondLeft == 0 ==> !Decide(now, lastWinTime, firstLeft, secondLeft)
    ensures InWindow(now) && firstLeft + secondLeft > 0 && lastWinTime.None?
            ==> Decide(now, lastWinTime, firstLeft, secondLeft)
  {
  }

  /**
   * Pacing in the first half: with r first-half slots left and T minutes to
   * 14:00, the catch-up branch wins after T div r minutes, otherwise a win
   * needs r > 0 and 10 minutes.
   */
  lemma FirstHalfPacing(now: int, last: int, firstLeft: nat, secondLeft: nat)
    requires START_TIME <= now < FIRST_HALF_END
    ensures var r, t := firstLeft, FIRST_HALF_END - now;
      Decide(now, Some(last), firstLeft, secondLeft) ==
        if r > 0 && t < 10 * r then now - last >= t / r
        else r > 0 && now - last >= 10
  {
  }

  /** Pacing in the second half, the same with 17:00 and 20 minutes. */
  lemma SecondHalfPacing(now: int, last: int, firstLeft: nat, secondLeft: nat)
    requires FIRST_HALF_END <= now < END_TIME
    ensures var r, t := secondLeft, END_TIME - now;
      Decide(now, Some(last), firstLeft, secondLeft) ==
        if r > 0 && t < 20 * r then now - last >= t / r
        else r > 0 && now - last >= 20
  {
  }

  /** Once a win has been recorded, an empty active half loses even if the other half has slots. */
  lemma EmptyActiveHalfLoses(now: int, last: int, firstLeft: nat, secondLeft: nat)
    requires (if ActivePeriod(now) == FirstHalf then firstLeft else secondLeft) == 0
    ensures !Decide(now, Some(last), firstLeft, secondLeft)
  {
  }

  /** In the catch-up branch the adjusted interval is strictly shorter than the nominal one. */
  lemma CatchUpShorter(now: int, left: int)
    requires InWindow(now)
    requires CatchUp(ActivePeriod(now), now, left)
    ensures var p := ActivePeriod(now);
      0 <= PacingInterval(p, now, left) < NominalInterval(p)
  {
    var p := ActivePeriod(now);
    var t := PeriodEnd(p) - now;
    var q := t / left;
    assert q * left <= t;
  }

  /**
   * The pace never asks for more time than the half has left: `left` wins
   * spaced one pacing interval apart fit before the half ends.
   */
  lemma PacingFitsHalf(now: int, left: int)
    requires InWindow(now) && left > 0
    ensures var p := ActivePeriod(now);
      left * PacingInterval(p, now, left) <= PeriodEnd(p) - now
  {
    var p := ActivePeriod(now);
    var t := PeriodEnd(p) - now;
    if CatchUp(p, now, left) {
      assert (t / left) * left <= t;
    }
  }

  /**
   * At 13:50 with 3 first-half slots left there are 10 minutes to go: the
   * interval shrinks to 3, so a win is possible 3 minutes after the last one
   * but not 2.
   */
  lemma CatchUpExample()
    ensures PacingInterval(FirstHalf, 13 * 60 + 50, 3) == 3
    ensures Decide(13 * 60 + 50, Some(13 * 60 + 47), 3, 0)
    ensures !Decide(13 * 60 + 50, Some(13 * 60 + 48), 3, 0)
  {
  }

  /** At 16:59 with one second-half slot left and the last win at 16:40, the draw wins. */
  lemma LastMinuteExample()
    ensures PacingInterval(SecondHalf, 16 * 60 + 59, 1) == 1
    ensures Decide(16 * 60 + 59, Some(16 * 60 + 40), 0, 1)
  {
  }
}
