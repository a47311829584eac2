# Prize wheel session state machine, in Dafny

This project models the spin-session logic of a browser "wheel of fortune" widget. It covers both live variants:

- **main.js**: an image wheel. It keeps the counter and a prize flag in `localStorage`.
- **base-main.js**: a canvas wheel. It keeps only the counter, in the host's asynchronous `window.storage`, and falls back to keeping nothing when the host has no storage.

In both variants:

- A visitor may spin while the counter `spinsUsed` is below 2 and no spin is running (`isSpinning`). In main.js the prize must also not have been opened (`prizeOpened`).
- An accepted spin increments the counter before it animates.
- The outcome is scripted by attempt number. Attempt 1 lands on segment 2, "Try again", after 4 full turns. Any other attempt lands on segment 0, "500%", after 8 turns.
- When the animation timer fires, the attempt is either saved or rolled back.

Modules:

- `Numbers`: `toString`/`parseInt` on non-negative integers as decimal numerals, and JavaScript's truncating `%`.
- `Persistence`: the store as `map<string, string>`, plus the rules for reading a stored count.
- `Presenter`: the signals sent to the page. These are the error dialog, the prize dialog, the button label, the wheel rotation, and an uncaught rejection of the timer callback.
- `Schedule`: the attempt-to-outcome script that both files share.
- `ImageWheel` (main.js) and `CanvasWheel` (base-main.js).

Each variant module has three parts:

1. Pure step functions over a `Model` value. Each returns the new state and the signals it sent, in order.
2. A `Run` over event sequences, which keeps an invariant, plus lemmas about runs.
3. A `Session` class whose fields are the module-level variables. Its methods do the same work in place, step by step. Each method's postcondition equates the new `Snapshot()` and its signals with the step function applied to the old state.

Environment inputs are method parameters:

- connectivity: `online`
- storage read and write failures: `readOk`, `writeOk`, `WriteFault`
- whether the host provides `window.storage`: `backend`

Timers are not modelled as waits. Each timer callback is a separate operation that can only run once it has been scheduled.

The model follows the code as written, including these points a reader might not expect:

- Both variants clear `isSpinning` before the save is awaited (main.js:153, base-main.js:242).
- base-main.js does not re-check connectivity after the animation.
- In main.js the second save of the prize flag is not inside try/catch (main.js:180). If it throws, the callback's promise rejects, the prize is never shown, and `prizeOpened` stays true in memory.
- In main.js a throw on the second key of the first save leaves the incremented count in storage, while the in-memory count is rolled back.

In main.js the store is synchronous, so its `await`s only yield to microtasks and no click can run in between. The completion callback is therefore one atomic step (`Complete`).

In base-main.js the save really is asynchronous, so the callback is split into two steps:

- `FireTimer`: clears the flag and issues the save with the count it captured.
- `SettleSave`: the save settles later, in any order relative to clicks and other saves.

This makes the window after `isSpinning` clears visible. `ThirdSpinThroughWindow` exhibits a run with three accepted spins and two prize dialogs. `SpinsStayWithinLimit` shows that the counter still never exceeds 2 in any interleaving.

## Model

| member | source | states |
|---|---|---|
| Numbers.NatToString | main.js:84 | `toString` of a count is a non-empty digit string, with a leading 0 only for 0 |
| Numbers.ParseNat | main.js:69 | a string parses exactly when it is a non-empty run of decimal digits |
| Numbers.ParseNatToString | main.js:84-86 | parsing what `toString` wrote gives back the same count |
| Numbers.DigitsValueToString | main.js:69 | the digit value of `toString(n)` is `n` (induction on `n`) |
| Numbers.JsRem | main.js:150 | `a % n` with a truncated quotient: `a == n * q + r`, and `r` has the sign of `a` |
| Persistence.Lookup | main.js:68 | `getItem` returns a value exactly when the key is stored, and that value is the stored string |
| Persistence.ReadCount | main.js:69 | `saved ? parseInt(saved) : 0`: an absent or empty value reads as 0, and a numeral reads as its value |
| Persistence.BoolToString | main.js:86 | the stored flag is "true" exactly when the flag is true |
| Persistence.ReadCountRoundTrip | main.js:65-92 | a count written with `toString` reads back unchanged |
| Schedule.TargetFor | main.js:144 | the scripted target is always segment 0 or segment 2 |
| Schedule.TurnsFor | main.js:145 | the scripted number of full turns is always 4 or 8 |
| ImageWheel.RotationForIndex | main.js:61-63 | the rotation is `360 - 60*index`; for the six segments it lies in (0, 360] and is a multiple of the segment angle |
| ImageWheel.ScheduledAngles | main.js:144-150 | attempt 1 gives target 2, 4 turns and rest angle 240; attempt 2 gives target 0, 8 turns and rest angle 0 |
| ImageWheel.ButtonLabel | main.js:94-108 | the button is enabled exactly when `spinsUsed < 2` and the prize is not opened; the label is never "Spinning..." |
| ImageWheel.Load | main.js:65-79 | a read error yields 0 and false; an absent or empty count yields 0; only the exact string "true" opens the prize |
| ImageWheel.Save | main.js:81-92 | succeeds exactly without a fault; a throw on the count key writes nothing; a throw on the prize key leaves the count written and the flag untouched |
| ImageWheel.SaveTouchesOnlyItsKeys | main.js:81-92 | no key other than the two is changed by a save |
| ImageWheel.Startup | main.js:256-308 | loads the counters, rests the wheel at `rotationForIndex(0)`, shows the prize exactly when it was opened, and finishes with the button state |
| ImageWheel.RequestSpin | main.js:126-150 | a guarded request changes and signals nothing; offline shows the error and changes nothing; otherwise the counter rises by exactly 1, the target is captured, the rest angle is 240 or 0, and the next request is blocked |
| ImageWheel.RollBack | main.js:155-173 | the rollback path: not spinning, the counter back to its pre-attempt value, the prize flag unchanged, the error shown, no prize shown |
| ImageWheel.Commit | main.js:175-182 | the commit path: the counter is kept and no error is shown; the flag is set exactly for target 0; the prize is shown exactly when target is 0 and the second save returned; otherwise there is an uncaught rejection; when shown, the prize comes last and after "true" is stored |
| ImageWheel.Complete | main.js:152-183 | offline rolls back without writing; a throw on the count key rolls back without writing; a throw on the prize key rolls back with the count written; a successful first save commits |
| ImageWheel.Apply | main.js:126-183 | every click or timer event keeps the session invariant |
| ImageWheel.Run | main.js:126-183 | every sequence of events keeps the session invariant |
| ImageWheel.ReentrantClickIgnored | main.js:128-139 | once a spin is accepted, a further click before the callback is a no-op |
| ImageWheel.SpinsStayWithinLimit | main.js:128-142 | starting from at most 2, no sequence of events takes the counter above 2 |
| ImageWheel.PrizeOpenedIsTerminal | main.js:127-128 | once `prizeOpened` holds, every sequence of events changes nothing and signals nothing |
| ImageWheel.PrizeShownAtMostOnce | main.js:177-182 | in one page session the prize is shown at most once, and never after it was opened |
| ImageWheel.PrizeShownOnlyOnOpening | main.js:177-182 | a single click or callback shows the prize at most once, and only when it sets `prizeOpened` |
| ImageWheel.SaveLoadRoundTrip | main.js:65-92 | `saveGameState` then `loadGameState` restores the same counter and flag |
| ImageWheel.OpenedPrizeReplaysOnReload | main.js:265-268 | a stored "true" locks the wheel after reload and shows the prize again |
| ImageWheel.WinSurvivesReload | main.js:164-182 | after the winning spin's first save, a reload is locked at count 2 whatever the second save did, and it replays the prize if that save succeeded |
| ImageWheel.PartialSaveCountsOnReload | main.js:84-86 | a throw on the prize key rolls back in memory, but a reload counts the attempt |
| ImageWheel.FreshVisitorScenario | main.js:126-183 | fresh visitor: "Try again" at 240, then "500%" at 0 with the prize, then a third click does nothing |
| ImageWheel.FailedSaveScenario | main.js:164-173 | a first spin whose save throws ends with count 0, not spinning, the error shown, and nothing stored |
| ImageWheel.Session.constructor | main.js:6-9 | the module-level variables start at 0, false, 0 and false |
| ImageWheel.Session.LoadGameState | main.js:65-79 | sets the counter and the flag to what `Load` reads |
| ImageWheel.Session.SaveGameState | main.js:81-92 | the store and the outcome are those of `Save` |
| ImageWheel.Session.UpdateButtonState | main.js:94-108 | the label is enabled exactly when `spinsUsed < 2` and the prize is not opened |
| ImageWheel.Session.OnContentLoaded | main.js:256-308 | performs `Startup` in place |
| ImageWheel.Session.SpinWheel | main.js:126-150 | performs `RequestSpin` in place and keeps the invariant |
| ImageWheel.Session.GiveSpinBack | main.js:155-172 | performs `RollBack` in place: the error, the spin given back, the button |
| ImageWheel.Session.KeepSpin | main.js:175-182 | performs `Commit` in place |
| ImageWheel.Session.OnSpinTimeout | main.js:152-183 | performs `Complete` in place and keeps the invariant |
| CanvasWheel.RotationForIndex | base-main.js:17-19 | the rotation is `330 - 60*index`; for the six segments it lies in (0, 360) at a segment's middle |
| CanvasWheel.ScheduledPrizes | base-main.js:233-239 | attempt 1 targets "Try again" with 4 turns and rest angle 210; any other attempt targets "500%" with 8 turns and rest angle 330; the startup rest angle is 330 |
| CanvasWheel.ButtonLabel | base-main.js:58-71 | the button is disabled exactly when `spinsUsed >= 2` |
| CanvasWheel.Load | base-main.js:27-40 | no backend or a read error yields 0; an absent or empty value yields 0 |
| CanvasWheel.Save | base-main.js:42-56 | without a backend the save is a successful no-op; with one it either fails and writes nothing, or stores the count |
| CanvasWheel.SaveLoadRoundTrip | base-main.js:27-56 | with a backend, a successful save then a load restores the count |
| CanvasWheel.SaveTouchesOnlyItsKey | base-main.js:42-56 | no other key is changed by a save |
| CanvasWheel.CheckInternetConnection | base-main.js:315-321 | returns false exactly when offline, and shows the error exactly then |
| CanvasWheel.Startup | base-main.js:333-404 | loads the count, rests at 330, never shows the prize, and finishes with the button state |
| CanvasWheel.RequestSpin | base-main.js:216-239 | a guarded request is a no-op; offline shows the error and changes nothing; otherwise the counter rises by 1, the target is captured, the rest angle is 210 or 330, and the next request is blocked |
| CanvasWheel.FireTimer | base-main.js:241-246 | the timer clears `isSpinning` and issues a save of the current count; nothing is shown yet |
| CanvasWheel.SettleSave | base-main.js:245-262 | a failed save gives one spin back and signals exactly the error then the refreshed button; a successful one keeps the count and stores it, signals the refreshed button first, and shows the prize exactly for target 0, as the last signal; there is no connectivity re-check |
| CanvasWheel.Apply | base-main.js:216-263 | every click, timer or settlement event keeps the invariant (every unsettled attempt is still counted) |
| CanvasWheel.Run | base-main.js:216-263 | every interleaving of events keeps that invariant |
| CanvasWheel.SpinsStayWithinLimit | base-main.js:217-231 | starting from at most 2, no interleaving takes the counter above 2 |
| CanvasWheel.NoBackendWritesNothing | base-main.js:45-50 | without `window.storage`, nothing is ever written |
| CanvasWheel.ReentrantClickIgnored | base-main.js:217-227 | while the animation runs, a further click is a no-op |
| CanvasWheel.FailedSaveRestoresCount | base-main.js:245-254 | a save failing right after its timer restores the pre-attempt count, the pending saves and the store, and shows the error |
| CanvasWheel.SpinAcceptedWhileSaveInFlight | base-main.js:241-246 | with `window.storage` present, once the timer has fired a click is accepted while the previous save is still pending |
| CanvasWheel.ThirdSpinThroughWindow | base-main.js:216-263 | from a fresh visitor, one interleaving accepts three spins and shows the prize twice |
| CanvasWheel.WindowFirstSaveFails | base-main.js:245-254 | first part of that run: spin 2 starts while save 1 is pending, then save 1 fails |
| CanvasWheel.WindowThirdSpin | base-main.js:216-262 | second part: spin 2's timer fires, spin 3 is accepted, and spin 2's save succeeds and shows the prize while spin 3 is still running |
| CanvasWheel.WindowLastSave | base-main.js:241-262 | last part: spin 3's timer fires and its save succeeds, ending at count 2 with nothing pending, the button at "No spins" and the prize shown again |
| CanvasWheel.RunAppend | base-main.js:216-263 | running two event sequences one after the other is the same as running their concatenation |
| CanvasWheel.Session.constructor | base-main.js:12-15 | the module-level variables start at 0, false and 0, with nothing pending |
| CanvasWheel.Session.LoadGameState | base-main.js:27-40 | sets the counter to what `Load` reads |
| CanvasWheel.Session.SaveGameState | base-main.js:42-56 | the store and the outcome are those of `Save` |
| CanvasWheel.Session.UpdateButtonState | base-main.js:58-71 | the label is enabled exactly when `spinsUsed < 2` |
| CanvasWheel.Session.OnContentLoaded | base-main.js:333-404 | performs `Startup` in place |
| CanvasWheel.Session.SpinWheel | base-main.js:216-239 | performs `RequestSpin` in place and keeps the invariant |
| CanvasWheel.Session.OnSpinTimeout | base-main.js:241-246 | performs `FireTimer` in place |
| CanvasWheel.Session.OnSaveSettled | base-main.js:245-262 | performs `SettleSave` in place and keeps the invariant |

## Left out

- Persistence.ReadCount: a stored count that is not a plain decimal numeral reads as 0 here. `parseInt` would instead give `NaN`, a negative number, or the value of a numeric prefix. A `NaN` count would pass every guard, so such storage corruption is not modelled.
- Rendering and page chrome are reduced to `Signal`s: the light bulbs (main.js:11-59), canvas drawing and image preloading (base-main.js:21-25, 73-214), the modal dialogs' DOM and overflow handling, audio, and resize handling. The early return of `updateButtonState` when the button element is missing is also left out, as is a missing wheel element.
- The 7000 ms and 4000 ms timers and the CSS transition are not modelled as waits. Each timer callback is a separate operation.
- The `online`/`offline` listeners only open or close the error dialog and change no state. Connectivity is a boolean input to each operation instead.
- The actual `localStorage` and `window.storage` backends are not modelled. The store is a map, and the success or failure of each read and write is an input. In main.js a throw from either `getItem` resets both values, so a single `readOk` covers both reads.
- CanvasWheel.Session.OnSaveSettled: without a backend the save settles within the same task, but the model lets it settle at any later point. This over-approximates the interleavings. Properties stated for every run therefore also hold for the real order: the invariant kept by `Run`, `SpinsStayWithinLimit` and `NoBackendWritesNothing`. Lemmas that exhibit one particular interleaving assume a backend: `SpinAcceptedWhileSaveInFlight` and `ThirdSpinThroughWindow`.
- The commented-out earlier variants (main.js:310-873) are not part of this model.
- The colours and images of the `prizes` table are not modelled, only its labels.
