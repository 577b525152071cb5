# ElevateFit dashboard counters in Dafny

This project models the click-driven state of the ElevateFit user dashboard,
a single React component tree in `src/App.tsx`. The `App` component owns two
bounded counters. The water count starts at 2 and runs from 0 to 10 cups. The
week streak starts at 3 and runs from 0 to 7 days. Three handlers change them:

- `handleWaterClick` adds a cup below 10. A click made while the count is
  exactly 0 also calls `updateStreak`. There is no day check.
- `handleWaterDecrement` removes a cup above 0.
- `updateStreak` bumps the streak below 7.

Each of the three `ActivityCard`s keeps its own progress percentage. The
cards are seeded at 55, 75 and 95. `incrementProgress` steps a card by 5,
capped at 100. It calls the card's `onComplete` (the dashboard's
`updateStreak`) on the click that lands on exactly 100.

The files:

- `counters.dfy` (module `Counters`): the dashboard handlers as transitions
  on the pair of counters.
- `progress.dfy` (module `Progress`): one card's click as a transition. It
  also gives closed forms for the progress and the notifications after any
  number of clicks, and the exact click counts for the rendered cards.
- `session.dfy` (module `Session`): a session as any sequence of clicks on
  the water buttons and the cards. It proves that every counter stays in
  range, that the streak never falls, and that each card notifies at most
  once however its clicks interleave with the others.
- `components.dfy` (module `Components`): the components as classes whose
  methods update fields in place. `Dashboard` has `water` and `streak`.
  `ActivityCard` has `progress` and holds the dashboard it notifies. Each
  method's postcondition is the transition of `Counters` or `Progress`. A
  card's ghost bookkeeping (`clicks`, `notified`) is tied to
  `Progress.Clicks` and `Progress.Notifications`, so "notified at most once"
  is a postcondition of every click.

Each handler is one atomic transition. The value a handler's closure reads
(`waterCount`, `weekStreak`, `currentProgress`) is the state before the
click.

## Model

| member | source | states |
|---|---|---|
| Counters.Initial | src/App.tsx:7-9 | the mounted counters (water 2, streak 3) are within range |
| Counters.UpdateStreak | src/App.tsx:63-67 | the streak rises by exactly one iff it is below 7, otherwise it is unchanged; 0..7 is preserved |
| Counters.WaterClick | src/App.tsx:46-54 | water rises by exactly one iff it is below 10; at 10 nothing changes, streak included; the streak is advanced iff the click was made at water 0; ranges are preserved |
| Counters.WaterDecrement | src/App.tsx:56-60 | water falls by exactly one iff it is above 0; at 0 nothing changes; the streak is never touched; ranges are preserved |
| Counters.ClickThenDecrement | src/App.tsx:46-60 | away from the first cup and the goal, adding then removing a cup restores the counters |
| Counters.DecrementThenClick | src/App.tsx:46-60 | removing then re-adding a cup restores the water; the streak moves only if the glass was emptied |
| Counters.RefillBumpsStreakAgain | src/App.tsx:49-52 | with no day check, emptying the glass and adding a cup bumps the streak again |
| Progress.Increment | src/App.tsx:310-319 | below 100 progress becomes min(p+5, 100); at or above 100 nothing changes and nothing fires; the notifier fires iff the new progress is exactly 100; a card at or below 100 stays at or below 100 |
| Progress.ClicksClosedForm | src/App.tsx:310-313 | after n clicks a card seeded below 100 shows min(seed+5n, 100); a card seeded at or above 100 never moves |
| Progress.ClicksBounded | src/App.tsx:310-313 | a card seeded at or below 100 never exceeds 100 and never goes backwards |
| Progress.NotificationsClosedForm | src/App.tsx:310-319 | n clicks notify exactly once if the seed was below 100 and seed+5n reaches 100, and never otherwise |
| Progress.NotifiesAtMostOnce | src/App.tsx:311-318 | however often a card is clicked, it calls `onComplete` at most once |
| Progress.NotifiesOnLandingClick | src/App.tsx:312-318 | a click notifies iff the card was below 100 before it and that click reaches 100 |
| Progress.CompletesAfter | src/App.tsx:310-318 | a card needing `need` steps is short of 100 with no notification after need-1 clicks, at 100 with one notification after need clicks, and click `need` is the only one that notifies |
| Progress.CyclingCardCompletesAfterNine | src/App.tsx:278 | the card seeded at 55 reaches 100 on its 9th click and notifies on that click only |
| Progress.RunningCardCompletesAfterFive | src/App.tsx:287 | the card seeded at 75 reaches 100 on its 5th click and notifies on that click only |
| Progress.StepsCardCompletesAfterOne | src/App.tsx:296 | the card seeded at 95 reaches 100 on its first click and notifies then; a second click changes nothing |
| Progress.EmptyCardCompletesAfterTwenty | src/App.tsx:310-318 | a card seeded at 0 needs exactly 20 clicks and notifies once |
| Session.Mounted | src/App.tsx:7-9 | the mounted dashboard with cards at 55, 75 and 95 is within range |
| Session.Dispatch | src/App.tsx:187-299 | one click on a click target (the water card and its buttons at 187, 199-202 and 211-214, running the handlers of 46-60; or a card, wired at 274-299, whose notification runs `updateStreak`) keeps water in 0..10, the streak in 0..7 and every card in 0..100, keeps the card count, and never lowers the streak |
| Session.RunStaysSafe | src/App.tsx:46-67 | any sequence of clicks from an in-range state keeps water in 0..10, the streak in 0..7 and every card in 0..100 |
| Session.RunStreakNeverFalls | src/App.tsx:63-67 | across any sequence of clicks the streak never decreases |
| Session.MountedStaysSafe | src/App.tsx:7-9 | from the mounted dashboard, water stays in 0..10, the streak in 3..7 and every card between its seed and 100, for every click sequence |
| Session.CardIsolated | src/App.tsx:306-320 | a card's progress and notifications in a session depend only on how many clicks landed on it |
| Session.SessionNotifiesAtMostOnce | src/App.tsx:316-318 | in any session each rendered card calls `onComplete` at most once |
| Components.Dashboard.constructor | src/App.tsx:7-9 | a new dashboard holds water 2 and streak 3 |
| Components.Dashboard.UpdateStreak | src/App.tsx:63-67 | the streak field becomes `Counters.UpdateStreak` of its old value; water is untouched; the ranges are kept |
| Components.Dashboard.HandleWaterClick | src/App.tsx:46-54 | the fields become `Counters.WaterClick` of the old fields; the ranges are kept |
| Components.Dashboard.HandleWaterDecrement | src/App.tsx:56-60 | the fields become `Counters.WaterDecrement` of the old fields; the ranges are kept |
| Components.ActivityCard.constructor | src/App.tsx:306-307 | a new card shows its seed, holds its notifier and has notified nobody |
| Components.ActivityCard.IncrementProgress | src/App.tsx:310-320 | progress and `fired` are `Progress.Increment` of the old progress; the dashboard's streak is advanced iff the card fired; total notifications stay at most one |
| Components.Mount | src/App.tsx:274-299 | mounting gives a fresh dashboard and three fresh cards at 55, 75 and 95, all wired to that dashboard, none clicked and none having notified |
| Components.ClickStepsCardTwice | src/App.tsx:292-298 | on a mounted dashboard the steps card fires on its first click and not on its second |

## Left out

- Profile picture upload and loading (src/App.tsx:12-17, 32-43). These are browser I/O through `FileReader` and `localStorage`, with an opaque payload.
- The weight-loss timer (src/App.tsx:20-29). It is a `setInterval` callback that adds the floating-point step 0.01 and clears the timer on teardown.
- `calculatePieChartStyle` (src/App.tsx:70-74), the `toFixed` and width formatting, all JSX, the static leaderboard, the search input and the `lucide-react` icons. These are presentational only.
- React's batching, re-rendering and stale closures. Each handler is modelled as one atomic transition that reads the state before the click.
- JavaScript numbers are doubles. All counters here are unbounded integers, because every value the handlers produce is a small integer. A non-integer `progress` prop is not modelled.
- The `&& onComplete` test at src/App.tsx:316. Every rendered card receives `updateStreak`, so the notifier is always present in the model.
- Session.Dispatch: a click on a card index the dashboard does not render is a no-op. Such a click cannot happen in the source.
