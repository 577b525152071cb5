/**
  The two stateful components of src/App.tsx as objects whose fields the
  click handlers update in place: the `App` dashboard (`waterCount`,
  `weekStreak`) and an `ActivityCard` (`currentProgress`), which holds the
  dashboard whose `updateStreak` it calls on completion. Each method is one
  click handled atomically, and is tied to the transition of `Counters` or
  `Progress` that specifies it.
 */
module Components {
  import opened Counters
  import opened Progress

  class Dashboard {
    var water: int
    var streak: int

    /** The counters as a value. */
    function State(): (c: Counts)
      reads this
    {
      Counts(water, streak)
    }

    ghost predicate Valid()
      reads this
    {
      InRange(State())
    }

    /** Mounting the dashboard: `useState(2)` and `useState(3)`. */
    constructor ()
      ensures State() == Initial() && Valid()
    {
      water := InitialWater;
      streak := InitialStreak;
    }

    /** `updateStreak` (src/App.tsx:63-67). */
    method UpdateStreak()
      modifies this
      ensures streak == Counters.UpdateStreak(old(streak))
      ensures water == old(water)
      ensures old(Valid()) ==> Valid()
    {
      if streak < MaxStreak {
        streak := streak + 1;
      }
    }

    /** `handleWaterClick` (src/App.tsx:46-54). */
    method HandleWaterClick()
      modifies this
      ensures State() == WaterClick(old(State()))
      ensures old(Valid()) ==> Valid()
    {
      var waterCount := water;
      if waterCount < MaxWater {
        water := water + 1;
        if waterCount == 0 {
          UpdateStreak();
        }
      }
    }

    /** `handleWaterDecrement` (src/App.tsx:56-60). */
    method HandleWaterDecrement()
      modifies this
      ensures State() == WaterDecrement(old(State()))
      ensures old(Valid()) ==> Valid()
    {
      if water > 0 {
        water := water - 1;
      }
    }
  }

  class ActivityCard {
    /** `currentProgress`. */
    var progress: int
    /** The dashboard whose `updateStreak` is the card's `onComplete`. */
    const onComplete: Dashboard
    /** The `progress` prop the card was seeded with. */
    ghost const seed: int
    /** Clicks handled so far, and `onComplete` calls made so far. */
    ghost var clicks: nat
    ghost var notified: nat

    /** The card's progress and notifications are those of `clicks` clicks from its seed. */
    ghost predicate Valid()
      reads this
    {
      progress == Clicks(seed, clicks) && notified == Notifications(seed, clicks)
    }

    /** `useState(progress)` (src/App.tsx:307), with the notifier passed as a prop. */
    constructor (initial: int, dashboard: Dashboard)
      ensures Valid() && seed == initial && progress == initial
      ensures onComplete == dashboard && clicks == 0 && notified == 0
    {
      progress := initial;
      onComplete := dashboard;
      seed := initial;
      clicks := 0;
      notified := 0;
    }

    /**
      `incrementProgress` (src/App.tsx:310-320): the card takes one step
      towards 100; `fired` says whether it called `onComplete`, which it
      does at most once over the card's lifetime.
     */
    method IncrementProgress() returns (fired: bool)
      requires Valid()
      modifies this, onComplete
      ensures Valid() && clicks == old(clicks) + 1
      ensures Outcome(progress, fired) == Increment(old(progress))
      ensures notified == old(notified) + (if fired then 1 else 0) && notified <= 1
      ensures onComplete.State() ==
              if fired then old(onComplete.State()).(streak := Counters.UpdateStreak(old(onComplete.streak)))
              else old(onComplete.State())
      ensures old(onComplete.Valid()) ==> onComplete.Valid()
    {
      ClicksSnoc(seed, clicks);
      NotifiesAtMostOnce(seed, clicks + 1);
      fired := false;
      var currentProgress := progress;
      if currentProgress < Complete {
        var newProgress := Min(currentProgress + Step, Complete);
        progress := newProgress;
        if newProgress == Complete {
          onComplete.UpdateStreak();
          fired := true;
          notified := notified + 1;
        }
      }
      clicks := clicks + 1;
    }
  }

  /**
    Mounting the `App` component: the dashboard and the three activity cards
    it renders, each wired to the dashboard's `updateStreak`
    (src/App.tsx:274-299).
   */
  method Mount() returns (dashboard: Dashboard, cycling: ActivityCard, running: ActivityCard, steps: ActivityCard)
    ensures fresh(dashboard) && fresh(cycling) && fresh(running) && fresh(steps)
    ensures dashboard.State() == Initial() && dashboard.Valid()
    ensures cycling.Valid() && cycling.progress == CyclingSeed && cycling.onComplete == dashboard
    ensures cycling.seed == CyclingSeed && cycling.clicks == 0 && cycling.notified == 0
    ensures running.Valid() && running.progress == RunningSeed && running.onComplete == dashboard
    ensures running.seed == RunningSeed && running.clicks == 0 && running.notified == 0
    ensures steps.Valid() && steps.progress == StepsSeed && steps.onComplete == dashboard
    ensures steps.seed == StepsSeed && steps.clicks == 0 && steps.notified == 0
  {
    dashboard := new Dashboard();
    cycling := new ActivityCard(CyclingSeed, dashboard);
    running := new ActivityCard(RunningSeed, dashboard);
    steps := new ActivityCard(StepsSeed, dashboard);
  }

  /**
    Clicking the steps card of a freshly mounted dashboard twice: the first
    click completes it and bumps the streak from 3 to 4, the second changes
    nothing.
   */
  method ClickStepsCardTwice() returns (first: bool, second: bool)
    ensures first && !second
  {
    var dashboard, cycling, running, steps := Mount();
    first := steps.IncrementProgress();
    assert steps.progress == Complete && dashboard.streak == InitialStreak + 1;
    second := steps.IncrementProgress();
    assert steps.progress == Complete && dashboard.streak == InitialStreak + 1;
  }
}
