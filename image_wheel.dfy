/**
 * The image wheel of main.js: a pre-rendered wheel image rotated by CSS,
 * counters kept in `localStorage` under two keys, and a prize flag that
 * locks the wheel for good once the winning spin has been saved.
 *
 * The module-level variables `spinsUsed`, `isSpinning`, `currentRotation`
 * and `prizeOpened` are the fields of `Model`; `timer` is the completion
 * callback scheduled by `spinWheel`, with the `targetIndex` it captured.
 * The functions below give the meaning of each step on a `Model`; the class
 * `Session` at the end performs the same steps in place.
 */
module ImageWheel {
  import opened Wrappers
  import opened Numbers
  import opened Persistence
  import opened Presenter
  import opened Schedule

  const TOTAL_SEGMENTS: int := 6
  const SEGMENT_DEG: int := 360 / TOTAL_SEGMENTS
  const MAX_SPINS: int := 2
  const PRIZE_KEY: string := "prize_opened"

  /** Angle that brings segment `index` under the pointer; the image's own offset cancels the half segment. */
  function RotationForIndex(index: int): (r: int)
    ensures r == 360 - 60 * index
    ensures 0 <= index < TOTAL_SEGMENTS ==> 0 < r <= 360 && r % SEGMENT_DEG == 0
  {
    360 - (index * SEGMENT_DEG + SEGMENT_DEG / 2) + 30
  }

  /** The transform a spin of attempt `attempt` animates to. */
  function FinalRotation(attempt: int): int {
    TurnsFor(attempt) * 360 + RotationForIndex(TargetFor(attempt))
  }

  /** The scripted schedule: "Try again" at rest angle 240 first, then "500%" at rest angle 0. */
  lemma ScheduledAngles()
    ensures TargetFor(1) == 2 && TurnsFor(1) == 4 && JsRem(FinalRotation(1), 360) == 240
    ensures TargetFor(2) == 0 && TurnsFor(2) == 8 && JsRem(FinalRotation(2), 360) == 0
  {
  }

  datatype Model = Model(
    spinsUsed: nat,
    isSpinning: bool,
    currentRotation: int,
    prizeOpened: bool,
    timer: Option<int>,
    store: Store)

  /** The values the module starts with, before the page has loaded. */
  function Initial(store: Store): Model {
    Model(0, false, 0, false, None, store)
  }

  /**
   * A completion callback is pending exactly while the wheel spins; it belongs
   * to an accepted attempt 1 or 2, captured that attempt's target, and was
   * only ever scheduled while the prize was unopened.
   */
  predicate Inv(m: Model) {
    && (m.isSpinning <==> m.timer.Some?)
    && (m.timer.Some? ==>
          && 1 <= m.spinsUsed <= MAX_SPINS
          && m.timer.value == TargetFor(m.spinsUsed)
          && !m.prizeOpened)
  }

  /** The guard at the top of `spinWheel`. */
  predicate Blocked(m: Model) {
    m.isSpinning || m.spinsUsed >= MAX_SPINS || m.prizeOpened
  }

  /** `updateButtonState`: the button is usable only below the limit and before the prize is opened. */
  function ButtonLabel(spinsUsed: int, prizeOpened: bool): (l: Label)
    ensures Enabled(l) <==> spinsUsed < MAX_SPINS && !prizeOpened
    ensures l != Spinning
  {
    if spinsUsed >= MAX_SPINS || prizeOpened then NoSpins else Spin
  }

  datatype Saved = Saved(spinsUsed: nat, prizeOpened: bool)

  /** `loadGameState`: any read error yields 0 and false; only the exact string "true" opens the prize. */
  function Load(store: Store, readOk: bool): (r: Saved)
    ensures !readOk ==> r == Saved(0, false)
    ensures readOk ==> (r.prizeOpened <==> Lookup(store, PRIZE_KEY) == Some("true"))
    ensures readOk && Lookup(store, SPINS_KEY) in {None, Some("")} ==> r.spinsUsed == 0
  {
    if !readOk then Saved(0, false)
    else Saved(ReadCount(Lookup(store, SPINS_KEY)), Lookup(store, PRIZE_KEY) == Some("true"))
  }

  /** Which of the two `setItem` calls of `saveGameState`, if any, throws. */
  datatype WriteFault = NoFault | SpinsKeyThrows | PrizeKeyThrows

  datatype Written = Written(store: Store, ok: bool)

  /**
   * `saveGameState`: writes the counter, then the prize flag, and rethrows the
   * first error; a throw on the second key leaves the counter written.
   */
  function Save(store: Store, spinsUsed: nat, prizeOpened: bool, fault: WriteFault): (w: Written)
    ensures w.ok <==> fault == NoFault
    ensures fault == SpinsKeyThrows ==> w.store == store
    ensures fault != SpinsKeyThrows ==> Lookup(w.store, SPINS_KEY) == Some(NatToString(spinsUsed))
    ensures fault == NoFault ==> Lookup(w.store, PRIZE_KEY) == Some(BoolToString(prizeOpened))
    ensures fault == PrizeKeyThrows ==> Lookup(w.store, PRIZE_KEY) == Lookup(store, PRIZE_KEY)
  {
    assert SPINS_KEY != PRIZE_KEY by { assert |SPINS_KEY| != |PRIZE_KEY|; }
    match fault
    case SpinsKeyThrows => Written(store, false)
    case PrizeKeyThrows => Written(store[SPINS_KEY := NatToString(spinsUsed)], false)
    case NoFault => Written(store[SPINS_KEY := NatToString(spinsUsed)][PRIZE_KEY := BoolToString(prizeOpened)], true)
  }

  /** `saveGameState` touches no key but its two. */
  lemma SaveTouchesOnlyItsKeys(store: Store, spinsUsed: nat, prizeOpened: bool, fault: WriteFault, k: string)
    requires k != SPINS_KEY && k != PRIZE_KEY
    ensures Lookup(Save(store, spinsUsed, prizeOpened, fault).store, k) == Lookup(store, k)
  {
  }

  /** A state change together with the signals it sends, in order. */
  datatype Step = Step(next: Model, effects: seq<Signal>)

  /**
   * The `DOMContentLoaded` handler: load the counters, put the wheel at rest
   * on segment 0, show the prize again if it was opened before, set the button.
   */
  function Startup(m: Model, readOk: bool): (s: Step)
    requires !m.isSpinning && m.timer == None
    ensures Inv(s.next)
    ensures s.next.store == m.store && s.next.currentRotation == RotationForIndex(0)
    ensures Saved(s.next.spinsUsed, s.next.prizeOpened) == Load(m.store, readOk)
    ensures ShowPrize in s.effects <==> s.next.prizeOpened
    ensures |s.effects| > 0 && s.effects[|s.effects| - 1] == SetButton(ButtonLabel(s.next.spinsUsed, s.next.prizeOpened))
    ensures ShowError !in s.effects
  {
    var loaded := Load(m.store, readOk);
    var rest := RotationForIndex(0);
    var next := m.(spinsUsed := loaded.spinsUsed, prizeOpened := loaded.prizeOpened, currentRotation := rest);
    var replay := if next.prizeOpened then [ShowPrize] else [];
    Step(next, [Rotate(rest)] + replay + [SetButton(ButtonLabel(next.spinsUsed, next.prizeOpened))])
  }

  /**
   * The synchronous part of `spinWheel`: the guard, the connectivity check,
   * then the provisional increment, the scripted target and the animation.
   */
  function RequestSpin(m: Model, online: bool): (s: Step)
    requires Inv(m)
    ensures Inv(s.next)
    ensures Blocked(m) ==> s == Step(m, [])
    ensures !Blocked(m) && !online ==> s == Step(m, [ShowError])
    ensures !Blocked(m) && online ==>
      && s.next.isSpinning
      && s.next.spinsUsed == m.spinsUsed + 1
      && s.next.prizeOpened == m.prizeOpened
      && s.next.store == m.store
      && s.next.timer == Some(TargetFor(s.next.spinsUsed))
      && s.next.currentRotation == (if s.next.spinsUsed == 1 then 240 else 0)
      && s.effects == [SetButton(Spinning), Rotate(FinalRotation(s.next.spinsUsed))]
      && Blocked(s.next)
  {
    if Blocked(m) then Step(m, [])
    else if !online then Step(m, [ShowError])
    else
      var attempt := m.spinsUsed + 1;
      var targetIndex := TargetFor(attempt);
      var finalRotation := TurnsFor(attempt) * 360 + RotationForIndex(targetIndex);
      var next := m.(isSpinning := true, spinsUsed := attempt,
                     currentRotation := JsRem(finalRotation, 360), timer := Some(targetIndex));
      Step(next, [SetButton(Spinning), Rotate(finalRotation)])
  }

  /**
   * The error path of the `setTimeout` callback (offline after the animation,
   * or the first save threw): the attempt is rolled back and an error shown.
   * `store` is what the store holds after the failed save.
   */
  function RollBack(m: Model, store: Store): (s: Step)
    requires Inv(m) && m.timer.Some?
    ensures Inv(s.next) && !s.next.isSpinning && s.next.store == store
    ensures s.next.spinsUsed + 1 == m.spinsUsed
    ensures s.next.prizeOpened == m.prizeOpened && s.next.currentRotation == m.currentRotation
    ensures ShowError in s.effects && ShowPrize !in s.effects
    ensures s.effects[|s.effects| - 1] == SetButton(ButtonLabel(s.next.spinsUsed, s.next.prizeOpened))
  {
    var back := m.(isSpinning := false, timer := None, store := store, spinsUsed := m.spinsUsed - 1);
    Step(back, [ShowError, SetButton(ButtonLabel(back.spinsUsed, back.prizeOpened))])
  }

  /**
   * The success path of the `setTimeout` callback, once the first save has
   * stored `store`: the counter stays, the button is updated, and a winning
   * target sets `prizeOpened`, saves again outside any try/catch, and shows
   * the prize only once that save has returned.
   */
  function Commit(m: Model, store: Store, second: WriteFault): (s: Step)
    requires Inv(m) && m.timer.Some?
    ensures Inv(s.next) && !s.next.isSpinning
    ensures s.next.spinsUsed == m.spinsUsed && s.next.currentRotation == m.currentRotation
    ensures m.timer.value != 0 ==> s.next.store == store
    ensures ShowError !in s.effects
    ensures |s.effects| > 0 && s.effects[0] == SetButton(ButtonLabel(m.spinsUsed, m.prizeOpened))
    ensures multiset(s.effects)[ShowPrize] <= 1
    ensures s.next.prizeOpened <==> m.timer.value == 0
    ensures ShowPrize in s.effects <==> m.timer.value == 0 && second == NoFault
    ensures UncaughtRejection in s.effects <==> m.timer.value == 0 && second != NoFault
    ensures ShowPrize in s.effects ==>
      Lookup(s.next.store, PRIZE_KEY) == Some("true") && s.effects[|s.effects| - 1] == ShowPrize
  {
    var committed := m.(isSpinning := false, timer := None, store := store);
    var button := SetButton(ButtonLabel(committed.spinsUsed, committed.prizeOpened));
    if m.timer.value != 0 then Step(committed, [button])
    else
      var claimed := committed.(prizeOpened := true);
      var w := Save(claimed.store, claimed.spinsUsed, true, second);
      var last := if w.ok then ShowPrize else UncaughtRejection;
      Step(claimed.(store := w.store), [button, last])
  }

  /**
   * The `setTimeout` callback of `spinWheel`. It clears `isSpinning` first,
   * rolls back when offline (writing nothing) or when the first save throws,
   * and commits otherwise.
   */
  function Complete(m: Model, online: bool, first: WriteFault, second: WriteFault): (s: Step)
    requires Inv(m) && m.timer.Some?
    ensures Inv(s.next) && !s.next.isSpinning
    ensures s.next.spinsUsed <= m.spinsUsed
    ensures ShowPrize in s.effects ==> s.next.prizeOpened
    ensures !online ==> s == RollBack(m, m.store)
    ensures online && first == SpinsKeyThrows ==> s == RollBack(m, m.store)
    ensures online && first == PrizeKeyThrows ==>
      s == RollBack(m, m.store[SPINS_KEY := NatToString(m.spinsUsed)])
    ensures online && first == NoFault ==> s == Commit(m, Save(m.store, m.spinsUsed, m.prizeOpened, NoFault).store, second)
  {
    if !online then RollBack(m, m.store)
    else
      var w := Save(m.store, m.spinsUsed, m.prizeOpened, first);
      if !w.ok then RollBack(m, w.store) else Commit(m, w.store, second)
  }

  /** A user click on the spin button, or the completion timer firing. */
  datatype Event =
    | Click(online: bool)
    | TimerFires(online: bool, first: WriteFault, second: WriteFault)

  /** One event; a timer event with no callback scheduled changes nothing. */
  function Apply(m: Model, e: Event): (s: Step)
    requires Inv(m)
    ensures Inv(s.next)
  {
    match e
    case Click(online) => RequestSpin(m, online)
    case TimerFires(online, first, second) =>
      if m.timer.Some? then Complete(m, online, first, second) else Step(m, [])
  }

  /** A session after a sequence of events, with every signal sent on the way. */
  function Run(m: Model, events: seq<Event>): (s: Step)
    requires Inv(m)
    ensures Inv(s.next)
    decreases |events|
  {
    if events == [] then Step(m, [])
    else
      var first := Apply(m, events[0]);
      var rest := Run(first.next, events[1..]);
      Step(rest.next, first.effects + rest.effects)
  }

  /** Any further click before the callback has run is a no-op. */
  lemma ReentrantClickIgnored(m: Model, again: bool)
    requires Inv(m) && !Blocked(m)
    ensures var s := RequestSpin(m, true);
            RequestSpin(s.next, again) == Step(s.next, [])
  {
  }

  /** Starting at or below the limit, no sequence of events pushes the counter past 2. */
  lemma {:induction false} SpinsStayWithinLimit(m: Model, events: seq<Event>)
    requires Inv(m) && m.spinsUsed <= MAX_SPINS
    ensures Run(m, events).next.spinsUsed <= MAX_SPINS
    decreases |events|
  {
    if events != [] {
      var first := Apply(m, events[0]);
      assert first.next.spinsUsed <= MAX_SPINS;
      SpinsStayWithinLimit(first.next, events[1..]);
    }
  }

  /** Terminal lock: once the prize is opened, no event changes anything or signals anything. */
  lemma {:induction false} PrizeOpenedIsTerminal(m: Model, events: seq<Event>)
    requires Inv(m) && m.prizeOpened
    ensures Run(m, events) == Step(m, [])
    decreases |events|
  {
    if events != [] {
      assert Apply(m, events[0]) == Step(m, []);
      PrizeOpenedIsTerminal(m, events[1..]);
    }
  }

  /** Within one page session the prize is shown at most once, and never again once opened. */
  lemma {:induction false} PrizeShownAtMostOnce(m: Model, events: seq<Event>)
    requires Inv(m)
    ensures multiset(Run(m, events).effects)[ShowPrize] <= (if m.prizeOpened then 0 else 1)
    decreases |events|
  {
    if m.prizeOpened {
      PrizeOpenedIsTerminal(m, events);
    } else if events != [] {
      var first := Apply(m, events[0]);
      var rest := Run(first.next, events[1..]);
      PrizeShownOnlyOnOpening(m, events[0]);
      PrizeShownAtMostOnce(first.next, events[1..]);
      assert multiset(first.effects + rest.effects) == multiset(first.effects) + multiset(rest.effects);
    }
  }

  /** A single event shows the prize at most once, and only when it opens the prize. */
  lemma PrizeShownOnlyOnOpening(m: Model, e: Event)
    requires Inv(m) && !m.prizeOpened
    ensures var s := Apply(m, e);
            multiset(s.effects)[ShowPrize] <= (if s.next.prizeOpened then 1 else 0)
  {
    var s := Apply(m, e);
    if ShowPrize !in s.effects {
      assert multiset(s.effects)[ShowPrize] == 0;
    }
  }

  /** `saveGameState` followed by `loadGameState` restores the same counter and flag. */
  lemma SaveLoadRoundTrip(store: Store, spinsUsed: nat, prizeOpened: bool)
    ensures Load(Save(store, spinsUsed, prizeOpened, NoFault).store, true) == Saved(spinsUsed, prizeOpened)
  {
    ReadCountRoundTrip(spinsUsed);
  }

  /** After a reload, a stored prize flag locks the wheel and shows the prize again. */
  lemma OpenedPrizeReplaysOnReload(store: Store)
    requires Lookup(store, PRIZE_KEY) == Some("true")
    ensures var s := Startup(Initial(store), true);
            Blocked(s.next) && ShowPrize in s.effects
            && s.effects[|s.effects| - 1] == SetButton(NoSpins)
  {
  }

  /**
   * Once the winning spin's first save has succeeded, a reload finds the wheel
   * locked whether or not the second save went through; if it did, the prize
   * is shown again.
   */
  lemma WinSurvivesReload(m: Model, second: WriteFault)
    requires Inv(m) && m.timer == Some(0)
    ensures var s := Complete(m, true, NoFault, second);
            var r := Startup(Initial(s.next.store), true);
            && Blocked(r.next)
            && r.next.spinsUsed == MAX_SPINS
            && (second == NoFault ==> ShowPrize in r.effects)
  {
    ReadCountRoundTrip(m.spinsUsed);
  }

  /**
   * When the second `setItem` of the first save throws, the attempt is rolled
   * back in memory but the incremented counter is already stored, so a reload
   * counts the attempt as used.
   */
  lemma PartialSaveCountsOnReload(m: Model)
    requires Inv(m) && m.timer.Some?
    ensures var s := Complete(m, true, PrizeKeyThrows, NoFault);
            && s.next.spinsUsed + 1 == m.spinsUsed
            && Load(s.next.store, true).spinsUsed == m.spinsUsed
  {
    ReadCountRoundTrip(m.spinsUsed);
  }

  /** A fresh visitor: "Try again", then "500%" with the prize, then nothing. */
  lemma FreshVisitorScenario()
    ensures var boot := Startup(Initial(map[]), true);
            var one := Run(boot.next, [Click(true), TimerFires(true, NoFault, NoFault)]);
            var two := Run(one.next, [Click(true), TimerFires(true, NoFault, NoFault)]);
            var three := Run(two.next, [Click(true)]);
            && boot.effects == [Rotate(360), SetButton(Spin)]
            && one.next.spinsUsed == 1 && !one.next.prizeOpened && one.next.currentRotation == 240
            && one.effects == [SetButton(Spinning), Rotate(1680), SetButton(Spin)]
            && two.next.spinsUsed == 2 && two.next.prizeOpened && two.next.currentRotation == 0
            && two.effects == [SetButton(Spinning), Rotate(3240), SetButton(NoSpins), ShowPrize]
            && three == Step(two.next, [])
  {
    var boot := Startup(Initial(map[]), true);
    assert Lookup(map[], SPINS_KEY) == None;
    var a := Apply(boot.next, Click(true));
    var b := Apply(a.next, TimerFires(true, NoFault, NoFault));
    assert Run(boot.next, [Click(true), TimerFires(true, NoFault, NoFault)]) == Step(b.next, a.effects + b.effects) by {
      assert [Click(true), TimerFires(true, NoFault, NoFault)][1..] == [TimerFires(true, NoFault, NoFault)];
    }
    var c := Apply(b.next, Click(true));
    var d := Apply(c.next, TimerFires(true, NoFault, NoFault));
    assert Run(b.next, [Click(true), TimerFires(true, NoFault, NoFault)]) == Step(d.next, c.effects + d.effects) by {
      assert [Click(true), TimerFires(true, NoFault, NoFault)][1..] == [TimerFires(true, NoFault, NoFault)];
    }
  }

  /** A first attempt whose save throws: the counter is back at 0, an error is shown, no prize. */
  lemma FailedSaveScenario()
    ensures var boot := Startup(Initial(map[]), true);
            var t := Run(boot.next, [Click(true), TimerFires(true, SpinsKeyThrows, NoFault)]);
            && t.next.spinsUsed == 0 && !t.next.isSpinning && !t.next.prizeOpened
            && t.next.store == map[]
            && t.effects == [SetButton(Spinning), Rotate(1680), ShowError, SetButton(Spin)]
  {
    var boot := Startup(Initial(map[]), true);
    assert Lookup(map[], SPINS_KEY) == None;
    var a := Apply(boot.next, Click(true));
    var b := Apply(a.next, TimerFires(true, SpinsKeyThrows, NoFault));
    assert Run(boot.next, [Click(true), TimerFires(true, SpinsKeyThrows, NoFault)]) == Step(b.next, a.effects + b.effects) by {
      assert [Click(true), TimerFires(true, SpinsKeyThrows, NoFault)][1..] == [TimerFires(true, SpinsKeyThrows, NoFault)];
    }
  }

  /** The module's state, updated in place as main.js does. */
  class Session {
    var spinsUsed: nat
    var isSpinning: bool
    var currentRotation: int
    var prizeOpened: bool
    var timer: Option<int>  // the scheduled completion callback and its captured target
    var store: Store        // localStorage

    function Snapshot(): Model
      reads this
    {
      Model(spinsUsed, isSpinning, currentRotation, prizeOpened, timer, store)
    }

    ghost predicate Valid()
      reads this
    {
      Inv(Snapshot())
    }

    constructor (store: Store)
      ensures Snapshot() == Initial(store) && Valid()
    {
      spinsUsed, isSpinning, currentRotation, prizeOpened := 0, false, 0, false;
      timer := None;
      this.store := store;
    }

    method LoadGameState(readOk: bool)
      modifies this`spinsUsed, this`prizeOpened
      ensures Saved(spinsUsed, prizeOpened) == Load(store, readOk)
    {
      if !readOk {
        spinsUsed := 0;
        prizeOpened := false;
        return;
      }
      var savedSpins := Lookup(store, SPINS_KEY);
      spinsUsed := ReadCount(savedSpins);
      var savedPrize := Lookup(store, PRIZE_KEY);
      prizeOpened := savedPrize == Some("true");
    }

    method SaveGameState(fault: WriteFault) returns (ok: bool)
      modifies this`store
      ensures Written(store, ok) == Save(old(store), spinsUsed, prizeOpened, fault)
    {
      if fault == SpinsKeyThrows {
        return false;
      }
      store := store[SPINS_KEY := NatToString(spinsUsed)];
      if fault == PrizeKeyThrows {
        return false;
      }
      store := store[PRIZE_KEY := BoolToString(prizeOpened)];
      ok := true;
    }

    method UpdateButtonState() returns (l: Label)
      ensures Enabled(l) <==> spinsUsed < MAX_SPINS && !prizeOpened
      ensures l != Spinning
    {
      if spinsUsed >= MAX_SPINS || prizeOpened {
        l := NoSpins;
      } else {
        l := Spin;
      }
    }

    method OnContentLoaded(readOk: bool) returns (effects: seq<Signal>)
      requires !isSpinning && timer == None
      modifies this
      ensures Valid()
      ensures Step(Snapshot(), effects) == Startup(old(Snapshot()), readOk)
    {
      LoadGameState(readOk);
      currentRotation := RotationForIndex(0);
      effects := [Rotate(currentRotation)];
      if prizeOpened {
        effects := effects + [ShowPrize];
      }
      var l := UpdateButtonState();
      effects := effects + [SetButton(l)];
    }

    method SpinWheel(online: bool) returns (effects: seq<Signal>)
      requires Valid()
      modifies this
      ensures Valid()
      ensures Step(Snapshot(), effects) == RequestSpin(old(Snapshot()), online)
    {
      if isSpinning || spinsUsed >= MAX_SPINS || prizeOpened {
        return [];
      }
      if !online {
        return [ShowError];
      }
      isSpinning := true;
      effects := [SetButton(Spinning)];
      spinsUsed := spinsUsed + 1;
      var targetIndex := TargetFor(spinsUsed);
      var spins := TurnsFor(spinsUsed);
      var finalRotation := spins * 360 + RotationForIndex(targetIndex);
      effects := effects + [Rotate(finalRotation)];
      currentRotation := JsRem(finalRotation, 360);
      timer := Some(targetIndex);
    }

    /**
     * The shared catch path of the callback, run once `isSpinning` is cleared:
     * show the error, give the spin back, update the button.
     */
    method GiveSpinBack(ghost before: Model) returns (effects: seq<Signal>)
      requires Inv(before) && before.timer.Some?
      requires Snapshot() == before.(isSpinning := false, timer := None, store := store)
      modifies this`spinsUsed
      ensures Step(Snapshot(), effects) == RollBack(before, store)
    {
      effects := [ShowError];
      spinsUsed := spinsUsed - 1;
      var l := UpdateButtonState();
      effects := effects + [SetButton(l)];
    }

    /**
     * The rest of the callback once the first save has returned: update the
     * button and, for the winning target, open the prize, save again and show it.
     */
    method KeepSpin(ghost before: Model, targetIndex: int, second: WriteFault) returns (effects: seq<Signal>)
      requires Inv(before) && before.timer == Some(targetIndex)
      requires Snapshot() == before.(isSpinning := false, timer := None, store := store)
      modifies this`prizeOpened, this`store
      ensures Step(Snapshot(), effects) == Commit(before, old(store), second)
    {
      var l := UpdateButtonState();
      effects := [SetButton(l)];
      if targetIndex == 0 {
        prizeOpened := true;
        var saved := SaveGameState(second);
        if !saved {
          effects := effects + [UncaughtRejection];
          return;
        }
        effects := effects + [ShowPrize];
      }
    }

    method OnSpinTimeout(online: bool, first: WriteFault, second: WriteFault) returns (effects: seq<Signal>)
      requires Valid() && timer.Some?
      modifies this
      ensures Valid()
      ensures Step(Snapshot(), effects) == Complete(old(Snapshot()), online, first, second)
    {
      ghost var before := Snapshot();
      var targetIndex := timer.value;
      timer := None;
      isSpinning := false;
      if !online {
        effects := GiveSpinBack(before);
        return;
      }
      var ok := SaveGameState(first);
      if !ok {
        effects := GiveSpinBack(before);
        return;
      }
      effects := KeepSpin(before, targetIndex, second);
    }
  }
}
