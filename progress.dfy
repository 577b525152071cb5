/**
  The progress of one `ActivityCard` (src/App.tsx:306-320): a percentage
  seeded from the card's `progress` prop that each click on the card
  advances by a fixed step, capped at 100, notifying `onComplete` on the
  click that lands on exactly 100.
 */
module Progress {

  /** Percentage points added per click. */
  const Step: int := 5
  /** The completed percentage. */
  const Complete: int := 100

  /** Seeds of the three cards the dashboard renders (src/App.tsx:278, 287, 296). */
  const CyclingSeed: int := 55
  const RunningSeed: int := 75
  const StepsSeed: int := 95

  function Min(a: int, b: int): (m: int)
    ensures m <= a && m <= b && (m == a || m == b)
  {
    if a <= b then a else b
  }

  /** What one click does: the new progress and whether `onComplete` is called. */
  datatype Outcome = Outcome(progress: int, notify: bool)

  /**
    `incrementProgress`: below 100 the progress moves up one step without
    passing 100 and the notifier fires exactly when it lands on 100; at or
    above 100 the click is a no-op.
   */
  function Increment(p: int): (r: Outcome)
    ensures p < Complete ==> r.progress == Min(p + Step, Complete)
    ensures p >= Complete ==> r == Outcome(p, false)
    ensures r.notify <==> p < Complete && r.progress == Complete
    ensures p <= Complete ==> p <= r.progress <= Complete
  {
    if p < Complete then
      var next := Min(p + Step, Complete);
      Outcome(next, next == Complete)
    else
      Outcome(p, false)
  }

  /** The progress after `n` clicks on a card showing `p`. */
  function Clicks(p: int, n: nat): (q: int)
    decreases n
  {
    if n == 0 then p else Clicks(Increment(p).progress, n - 1)
  }

  /** How many times `onComplete` is called during `n` clicks on a card showing `p`. */
  function Notifications(p: int, n: nat): (count: nat)
    decreases n
  {
    if n == 0 then 0
    else (if Increment(p).notify then 1 else 0) + Notifications(Increment(p).progress, n - 1)
  }

  /** Whether click number `k + 1` (after `k` earlier clicks) notifies. */
  function NotifiesOnClick(p: int, k: nat): (b: bool)
  {
    Increment(Clicks(p, k)).notify
  }

  /**
    Closed form of the progress: below 100 it is the seed plus one step per
    click, capped at 100; a card seeded at or above 100 never moves.
   */
  lemma {:induction false} ClicksClosedForm(p: int, n: nat)
    ensures Clicks(p, n) == if p < Complete then Min(p + Step * n, Complete) else p
    decreases n
  {
    if n > 0 {
      ClicksClosedForm(Increment(p).progress, n - 1);
    }
  }

  /** A card seeded at or below 100 never shows more than 100, and never goes backwards. */
  lemma ClicksBounded(p: int, n: nat)
    requires p <= Complete
    ensures p <= Clicks(p, n) <= Complete
  {
    ClicksClosedForm(p, n);
  }

  /**
    Closed form of the notifications: exactly one if the card started below
    100 and the clicks were enough to reach it, none otherwise.
   */
  lemma {:induction false} NotificationsClosedForm(p: int, n: nat)
    ensures Notifications(p, n) == if p < Complete && p + Step * n >= Complete then 1 else 0
    decreases n
  {
    if n > 0 {
      NotificationsClosedForm(Increment(p).progress, n - 1);
    }
  }

  /** Each card notifies at most once, however often it is clicked. */
  lemma NotifiesAtMostOnce(p: int, n: nat)
    ensures Notifications(p, n) <= 1
  {
    NotificationsClosedForm(p, n);
  }

  /**
    The notifying click is the one that lands on 100: click `k + 1` notifies
    exactly when the card was short of 100 before it and one step covers the
    remaining gap.
   */
  lemma NotifiesOnLandingClick(p: int, k: nat)
    ensures NotifiesOnClick(p, k) <==> p < Complete && p + Step * k < Complete <= p + Step * (k + 1)
  {
    ClicksClosedForm(p, k);
  }

  /** Extending a run of clicks by one more click, seen from its end. */
  lemma {:induction false} ClicksSnoc(p: int, n: nat)
    ensures Clicks(p, n + 1) == Increment(Clicks(p, n)).progress
    ensures Notifications(p, n + 1) ==
            Notifications(p, n) + (if Increment(Clicks(p, n)).notify then 1 else 0)
    decreases n
  {
    if n > 0 {
      ClicksSnoc(Increment(p).progress, n - 1);
    }
  }

  /**
    A card seeded below 100 completes after exactly `need` clicks: one click
    fewer leaves it short of 100 without any notification, and the notifier
    fires on click number `need` and on no other.
   */
  lemma CompletesAfter(p: int, need: nat)
    requires need >= 1 && p + Step * (need - 1) < Complete <= p + Step * need
    ensures Clicks(p, need - 1) < Complete && Notifications(p, need - 1) == 0
    ensures Clicks(p, need) == Complete && Notifications(p, need) == 1
    ensures forall k: nat :: NotifiesOnClick(p, k) <==> k == need - 1
  {
    ClicksClosedForm(p, need - 1);
    ClicksClosedForm(p, need);
    NotificationsClosedForm(p, need - 1);
    NotificationsClosedForm(p, need);
    forall k: nat ensures NotifiesOnClick(p, k) <==> k == need - 1 {
      NotifiesOnLandingClick(p, k);
    }
  }

  /** The cycling card (seed 55) completes on its 9th click, and notifies only then. */
  lemma CyclingCardCompletesAfterNine()
    ensures Clicks(CyclingSeed, 8) < Complete && Clicks(CyclingSeed, 9) == Complete
    ensures forall k: nat :: NotifiesOnClick(CyclingSeed, k) <==> k == 8
  {
    CompletesAfter(CyclingSeed, 9);
  }

  /** The running card (seed 75) completes on its 5th click, and notifies only then. */
  lemma RunningCardCompletesAfterFive()
    ensures Clicks(RunningSeed, 4) < Complete && Clicks(RunningSeed, 5) == Complete
    ensures forall k: nat :: NotifiesOnClick(RunningSeed, k) <==> k == 4
  {
    CompletesAfter(RunningSeed, 5);
  }

  /** The steps card (seed 95) completes on its first click; a second click changes nothing. */
  lemma StepsCardCompletesAfterOne()
    ensures Clicks(StepsSeed, 1) == Complete && Notifications(StepsSeed, 1) == 1
    ensures Clicks(StepsSeed, 2) == Complete && Notifications(StepsSeed, 2) == 1
    ensures forall k: nat :: NotifiesOnClick(StepsSeed, k) <==> k == 0
  {
    CompletesAfter(StepsSeed, 1);
    ClicksClosedForm(StepsSeed, 2);
    NotificationsClosedForm(StepsSeed, 2);
  }

  /** A card seeded at 0 needs exactly 20 clicks. */
  lemma EmptyCardCompletesAfterTwenty()
    ensures Clicks(0, 19) < Complete && Clicks(0, 20) == Complete
    ensures Notifications(0, 20) == 1
  {
    CompletesAfter(0, 20);
  }
}
