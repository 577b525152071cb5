/**
  The dashboard's two shared counters, the water intake of the day and the
  week streak, and the three click handlers of the `App` component that
  change them (src/App.tsx). Every handler is one atomic transition on the
  pair of counters: the value a handler's closure reads is the state before
  the click.
 */
module Counters {

  /** Initial value of `waterCount` (src/App.tsx:7). */
  const InitialWater: int := 2
  /** Number of cups that makes the daily water goal; the click handler's guard. */
  const MaxWater: int := 10
  /** Initial value of `weekStreak` (src/App.tsx:9). */
  const InitialStreak: int := 3
  /** Number of days in a week; the streak's ceiling. */
  const MaxStreak: int := 7

  /** The counters owned by the dashboard: `waterCount` and `weekStreak`. */
  datatype Counts = Counts(water: int, streak: int)

  /** The counters when the dashboard is mounted. */
  function Initial(): (c: Counts)
    ensures InRange(c)
  {
    Counts(InitialWater, InitialStreak)
  }

  /** The ranges the dashboard displays: 0..10 cups and 0..7 days. */
  predicate InRange(c: Counts)
  {
    0 <= c.water <= MaxWater && 0 <= c.streak <= MaxStreak
  }

  /**
    `updateStreak`: the streak rises by one below the ceiling and stays put
    at (or above) it.
   */
  function UpdateStreak(streak: int): (r: int)
    ensures r == streak + 1 <==> streak < MaxStreak
    ensures r != streak + 1 ==> r == streak
    ensures 0 <= streak <= MaxStreak ==> 0 <= r <= MaxStreak
  {
    if streak < MaxStreak then streak + 1 else streak
  }

  /**
    `handleWaterClick`: below the goal one cup is added, and the first cup
    (a click from exactly 0) also advances the streak; at the goal the click
    changes nothing at all.
   */
  function WaterClick(c: Counts): (r: Counts)
    ensures r.water == c.water + 1 <==> c.water < MaxWater
    ensures c.water >= MaxWater ==> r == c
    ensures r.streak == (if c.water == 0 then UpdateStreak(c.streak) else c.streak)
    ensures InRange(c) ==> InRange(r)
  {
    if c.water < MaxWater then
      var streak := if c.water == 0 then UpdateStreak(c.streak) else c.streak;
      Counts(c.water + 1, streak)
    else
      c
  }

  /**
    `handleWaterDecrement`: one cup is removed when there is one to remove;
    at 0 the click is ignored. The streak is never touched.
   */
  function WaterDecrement(c: Counts): (r: Counts)
    ensures r.water == c.water - 1 <==> c.water > 0
    ensures c.water <= 0 ==> r == c
    ensures r.streak == c.streak
    ensures InRange(c) ==> InRange(r)
  {
    if c.water > 0 then c.(water := c.water - 1) else c
  }

  /** Outside the first cup, adding and removing a cup undo each other. */
  lemma ClickThenDecrement(c: Counts)
    requires 0 < c.water < MaxWater
    ensures WaterDecrement(WaterClick(c)) == c
  {
  }

  /** Removing a cup and adding it back restores the counters unless the
      removal emptied the glass, in which case the streak moves too. */
  lemma DecrementThenClick(c: Counts)
    requires 0 < c.water <= MaxWater
    ensures WaterClick(WaterDecrement(c)).water == c.water
    ensures WaterClick(WaterDecrement(c)).streak ==
            (if c.water == 1 then UpdateStreak(c.streak) else c.streak)
  {
  }

  /**
    There is no day check: emptying the glass and adding a cup again bumps
    the streak once more, every time.
   */
  lemma RefillBumpsStreakAgain(c: Counts)
    requires c.water == 1 && c.streak < MaxStreak
    ensures WaterClick(WaterDecrement(c)) == c.(streak := c.streak + 1)
  {
  }
}
