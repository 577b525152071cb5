/**
  A whole dashboard session as a sequence of clicks: the water card's add
  and remove buttons and clicks on the activity cards. The state is the
  dashboard's counters together with the progress of every rendered card;
  each click is one atomic step built from the handlers of `Counters` and
  `Progress`, and a card's completion calls `updateStreak`
  (`onComplete={updateStreak}`, src/App.tsx:280, 289, 298).
 */
module Session {
  import opened Counters
  import opened Progress

  datatype AppState = AppState(counts: Counts, cards: seq<int>)

  /** A click on the dashboard. */
  datatype Event = AddWater | RemoveWater | ClickCard(card: nat)

  /** The dashboard as mounted: water 2, streak 3, cards at 55, 75 and 95. */
  function Mounted(): (s: AppState)
    ensures Safe(s)
  {
    AppState(Initial(), [CyclingSeed, RunningSeed, StepsSeed])
  }

  /** Every counter is in the range the dashboard displays. */
  predicate Safe(s: AppState)
  {
    InRange(s.counts) && forall i :: 0 <= i < |s.cards| ==> 0 <= s.cards[i] <= Complete
  }

  /**
    One click. A card click advances that card and, when the card notifies,
    runs `updateStreak` on the dashboard counters; a click on a card the
    dashboard does not render changes nothing.
   */
  function Dispatch(s: AppState, e: Event): (r: AppState)
    ensures |r.cards| == |s.cards|
    ensures Safe(s) ==> Safe(r)
    ensures s.counts.streak <= r.counts.streak
  {
    match e
    case AddWater => s.(counts := WaterClick(s.counts))
    case RemoveWater => s.(counts := WaterDecrement(s.counts))
    case ClickCard(i) =>
      if i < |s.cards| then
        var o := Increment(s.cards[i]);
        var counts := if o.notify then s.counts.(streak := UpdateStreak(s.counts.streak)) else s.counts;
        AppState(counts, s.cards[i := o.progress])
      else
        s
  }

  /** The state after a sequence of clicks. */
  function Run(s: AppState, es: seq<Event>): (r: AppState)
    decreases |es|
  {
    if es == [] then s else Run(Dispatch(s, es[0]), es[1..])
  }

  /** How many clicks of `es` land on card `i`. */
  function ClicksOn(es: seq<Event>, i: nat): (count: nat)
    decreases |es|
  {
    if es == [] then 0
    else (if es[0] == ClickCard(i) then 1 else 0) + ClicksOn(es[1..], i)
  }

  /** How many times card `i` calls `onComplete` during `es`. */
  function NotifiedBy(s: AppState, es: seq<Event>, i: nat): (count: nat)
    decreases |es|
  {
    if es == [] then 0
    else
      var note := if es[0] == ClickCard(i) && i < |s.cards| && Increment(s.cards[i]).notify then 1 else 0;
      note + NotifiedBy(Dispatch(s, es[0]), es[1..], i)
  }

  /** Every counter stays in range across any sequence of clicks. */
  lemma {:induction false} RunStaysSafe(s: AppState, es: seq<Event>)
    requires Safe(s)
    ensures Safe(Run(s, es)) && |Run(s, es).cards| == |s.cards|
    decreases |es|
  {
    if es != [] {
      RunStaysSafe(Dispatch(s, es[0]), es[1..]);
    }
  }

  /** The streak never goes down, whatever is clicked. */
  lemma {:induction false} RunStreakNeverFalls(s: AppState, es: seq<Event>)
    ensures s.counts.streak <= Run(s, es).counts.streak
    decreases |es|
  {
    if es != [] {
      RunStreakNeverFalls(Dispatch(s, es[0]), es[1..]);
    }
  }

  /**
    From the mounted dashboard, water stays in 0..10, the streak in 3..7 and
    every card between its seed and 100, for every sequence of clicks.
   */
  lemma MountedStaysSafe(es: seq<Event>)
    ensures 0 <= Run(Mounted(), es).counts.water <= MaxWater
    ensures InitialStreak <= Run(Mounted(), es).counts.streak <= MaxStreak
    ensures |Run(Mounted(), es).cards| == 3
    ensures forall i :: 0 <= i < 3 ==> Mounted().cards[i] <= Run(Mounted(), es).cards[i] <= Complete
  {
    RunStaysSafe(Mounted(), es);
    RunStreakNeverFalls(Mounted(), es);
    forall i | 0 <= i < 3
      ensures Mounted().cards[i] <= Run(Mounted(), es).cards[i] <= Complete
    {
      CardIsolated(Mounted(), es, i);
      ClicksBounded(Mounted().cards[i], ClicksOn(es, i));
    }
  }

  /**
    Each card evolves on its own: its progress and its notifications depend
    only on how many of the clicks landed on it, whatever else happened in
    between.
   */
  lemma {:induction false} CardIsolated(s: AppState, es: seq<Event>, i: nat)
    requires i < |s.cards|
    ensures |Run(s, es).cards| == |s.cards|
    ensures Run(s, es).cards[i] == Clicks(s.cards[i], ClicksOn(es, i))
    ensures NotifiedBy(s, es, i) == Notifications(s.cards[i], ClicksOn(es, i))
    decreases |es|
  {
    if es != [] {
      var s' := Dispatch(s, es[0]);
      CardIsolated(s', es[1..], i);
    }
  }

  /** In any session, each rendered card calls `onComplete` at most once. */
  lemma SessionNotifiesAtMostOnce(es: seq<Event>, i: nat)
    requires i < 3
    ensures NotifiedBy(Mounted(), es, i) <= 1
  {
    CardIsolated(Mounted(), es, i);
    NotifiesAtMostOnce(Mounted().cards[i], ClicksOn(es, i));
  }
}
