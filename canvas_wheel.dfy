/**
 * The canvas wheel of base-main.js: six labelled sectors drawn on a canvas,
 * a single spin counter kept in the host's asynchronous `window.storage`
 * (or nowhere, when the host offers none), and no prize flag: only the
 * counter locks the wheel.
 *
 * Here the save in the completion callback is awaited on a genuinely
 * asynchronous store, and `isSpinning` is cleared before it. The callback is
 * therefore two events: the timer firing (flag cleared, save issued with the
 * count it captured) and the save settling later, in any order with other
 * events. `inFlight` holds the callbacks waiting on their save.
 */
module CanvasWheel {
  import opened Wrappers
  import opened Numbers
  import opened Persistence
  import opened Presenter
  import opened Schedule

  /** The labels of the `prizes` table, in wheel order. */
  const PRIZE_LABELS: seq<string> := ["500%", "100 FS", "Try again", "10 CAP", "200%", "50 FS"]
  const SEGMENT_DEG: int := 360 / |PRIZE_LABELS|
  const MAX_SPINS: int := 2

  /** Angle that brings the middle of segment `index` under the pointer. */
  function RotationForIndex(index: int): (r: int)
    ensures r == 330 - 60 * index
    ensures 0 <= index < |PRIZE_LABELS| ==> 0 < r < 360 && r % SEGMENT_DEG == SEGMENT_DEG / 2
  {
    360 - (index * SEGMENT_DEG + SEGMENT_DEG / 2)
  }

  /** The transform a spin of attempt `attempt` animates to. */
  function FinalRotation(attempt: int): int {
    TurnsFor(attempt) * 360 + RotationForIndex(TargetFor(attempt))
  }

  /** Attempt 1 lands on "Try again" after 4 turns, every other attempt on "500%" after 8; the rest angle is 330. */
  lemma ScheduledPrizes(attempt: int)
    ensures PRIZE_LABELS[TargetFor(1)] == "Try again" && TurnsFor(1) == 4
    ensures JsRem(FinalRotation(1), 360) == 210
    ensures attempt != 1 ==> PRIZE_LABELS[TargetFor(attempt)] == "500%" && TurnsFor(attempt) == 8
    ensures attempt != 1 ==> JsRem(FinalRotation(attempt), 360) == 330
    ensures RotationForIndex(0) == 330
  {
  }

  /** A completion callback waiting on its save: its captured `targetIndex` and the count it is writing. */
  datatype Flight = Flight(target: int, value: nat)

  datatype Model = Model(
    spinsUsed: nat,
    isSpinning: bool,
    currentRotation: int,
    timer: Option<int>,
    inFlight: seq<Flight>,
    store: Store,
    backend: bool)   // whether `window.storage` exists

  function Initial(store: Store, backend: bool): Model {
    Model(0, false, 0, None, [], store, backend)
  }

  /** Accepted attempts not yet settled: the scheduled callback and those awaiting their save. */
  function Outstanding(m: Model): nat {
    (if m.timer.Some? then 1 else 0) + |m.inFlight|
  }

  /**
   * A callback is scheduled exactly while the wheel spins, and every
   * unsettled attempt is still counted, so a rollback never drives the
   * counter below zero.
   */
  predicate Inv(m: Model) {
    (m.isSpinning <==> m.timer.Some?) && Outstanding(m) <= m.spinsUsed
  }

  /** The guard at the top of `spinWheel`: there is no prize flag in this variant. */
  predicate Blocked(m: Model) {
    m.isSpinning || m.spinsUsed >= MAX_SPINS
  }

  /** `updateButtonState`: the button is disabled exactly at the limit. */
  function ButtonLabel(spinsUsed: int): (l: Label)
    ensures Enabled(l) <==> spinsUsed < MAX_SPINS
    ensures l != Spinning
  {
    if spinsUsed >= MAX_SPINS then NoSpins else Spin
  }

  /** `loadGameState`: with no backend, or when the read throws, the count is 0. */
  function Load(store: Store, backend: bool, readOk: bool): (n: nat)
    ensures !backend || !readOk ==> n == 0
    ensures Lookup(store, SPINS_KEY) in {None, Some("")} ==> n == 0
  {
    if backend && readOk then ReadCount(Lookup(store, SPINS_KEY)) else 0
  }

  datatype Written = Written(store: Store, ok: bool)

  /** `saveGameState` writing `value`: without a backend a successful no-op, otherwise a write that may throw. */
  function Save(store: Store, backend: bool, value: nat, writeOk: bool): (w: Written)
    ensures w.ok <==> !backend || writeOk
    ensures !(backend && writeOk) ==> w.store == store
    ensures backend && writeOk ==> Lookup(w.store, SPINS_KEY) == Some(NatToString(value))
  {
    if !backend then Written(store, true)
    else if !writeOk then Written(store, false)
    else Written(store[SPINS_KEY := NatToString(value)], true)
  }

  /** A successful save followed by a load with a backend restores the count. */
  lemma SaveLoadRoundTrip(store: Store, value: nat)
    ensures Load(Save(store, true, value, true).store, true, true) == value
  {
    ReadCountRoundTrip(value);
  }

  /** `saveGameState` touches no other key. */
  lemma SaveTouchesOnlyItsKey(store: Store, backend: bool, value: nat, writeOk: bool, k: string)
    requires k != SPINS_KEY
    ensures Lookup(Save(store, backend, value, writeOk).store, k) == Lookup(store, k)
  {
  }

  datatype Check = Check(ok: bool, effects: seq<Signal>)

  /** `checkInternetConnection`: false, with the error shown, exactly when offline. */
  function CheckInternetConnection(online: bool): (c: Check)
    ensures c.ok == online
    ensures c.ok <==> c.effects == []
    ensures !c.ok ==> c.effects == [ShowError]
  {
    if !online then Check(false, [ShowError]) else Check(true, [])
  }

  datatype Step = Step(next: Model, effects: seq<Signal>)

  /** The `DOMContentLoaded` handler: load the count, rest the wheel on segment 0, set the button. */
  function Startup(m: Model, readOk: bool): (s: Step)
    requires !m.isSpinning && m.timer == None && m.inFlight == []
    ensures Inv(s.next)
    ensures s.next.spinsUsed == Load(m.store, m.backend, readOk)
    ensures s.next.store == m.store && s.next.currentRotation == 330
    ensures ShowPrize !in s.effects && ShowError !in s.effects
    ensures |s.effects| > 0 && s.effects[|s.effects| - 1] == SetButton(ButtonLabel(s.next.spinsUsed))
  {
    var rest := RotationForIndex(0);
    var next := m.(spinsUsed := Load(m.store, m.backend, readOk), currentRotation := rest);
    Step(next, [Rotate(rest), SetButton(ButtonLabel(next.spinsUsed))])
  }

  /** The synchronous part of `spinWheel`: guard, connectivity check, provisional increment, animation. */
  function RequestSpin(m: Model, online: bool): (s: Step)
    requires Inv(m)
    ensures Inv(s.next)
    ensures Blocked(m) ==> s == Step(m, [])
    ensures !Blocked(m) && !online ==> s == Step(m, [ShowError])
    ensures !Blocked(m) && online ==>
      && s.next.isSpinning
      && s.next.spinsUsed == m.spinsUsed + 1
      && s.next.inFlight == m.inFlight && s.next.store == m.store
      && s.next.timer == Some(TargetFor(s.next.spinsUsed))
      && s.next.currentRotation == (if s.next.spinsUsed == 1 then 210 else 330)
      && s.effects == [SetButton(Spinning), Rotate(FinalRotation(s.next.spinsUsed))]
      && Blocked(s.next)
  {
    if Blocked(m) then Step(m, [])
    else
      var check := CheckInternetConnection(online);
      if !check.ok then Step(m, check.effects)
      else
        var attempt := m.spinsUsed + 1;
        var targetIndex := TargetFor(attempt);
        var finalRotation := TurnsFor(attempt) * 360 + RotationForIndex(targetIndex);
        var next := m.(isSpinning := true, spinsUsed := attempt,
                       currentRotation := JsRem(finalRotation, 360), timer := Some(targetIndex));
        Step(next, [SetButton(Spinning), Rotate(finalRotation)])
  }

  /**
   * The `setTimeout` callback up to its `await`: `isSpinning` is cleared and
   * the save of the current count is issued; nothing is shown yet.
   */
  function FireTimer(m: Model): (s: Step)
    requires Inv(m) && m.timer.Some?
    ensures Inv(s.next) && !s.next.isSpinning
    ensures !Blocked(s.next) <==> s.next.spinsUsed < MAX_SPINS
    ensures s.next.spinsUsed == m.spinsUsed && s.next.store == m.store
    ensures s.next.inFlight == m.inFlight + [Flight(m.timer.value, m.spinsUsed)]
    ensures s.effects == []
  {
    var issued := Flight(m.timer.value, m.spinsUsed);
    Step(m.(isSpinning := false, timer := None, inFlight := m.inFlight + [issued]), [])
  }

  /**
   * The callback resuming after its save (the `i`-th pending one) settles: on
   * failure the error is shown and one spin is given back; on success the
   * button is updated and the prize shown exactly when the target was 0.
   * There is no connectivity re-check here.
   */
  function SettleSave(m: Model, i: nat, writeOk: bool): (s: Step)
    requires Inv(m) && i < |m.inFlight|
    ensures Inv(s.next)
    ensures s.next.isSpinning == m.isSpinning && s.next.timer == m.timer
    ensures s.next.inFlight == m.inFlight[..i] + m.inFlight[i + 1..]
    ensures m.backend && !writeOk ==>
      && s.next.spinsUsed + 1 == m.spinsUsed && s.next.store == m.store
      && s.effects == [ShowError, SetButton(ButtonLabel(s.next.spinsUsed))]
    ensures !m.backend || writeOk ==>
      && s.next.spinsUsed == m.spinsUsed
      && s.next.store == Save(m.store, m.backend, m.inFlight[i].value, writeOk).store
      && |s.effects| > 0 && s.effects[0] == SetButton(ButtonLabel(s.next.spinsUsed))
      && ShowError !in s.effects
      && (ShowPrize in s.effects <==> m.inFlight[i].target == 0)
      && (ShowPrize in s.effects ==> s.effects[|s.effects| - 1] == ShowPrize)
  {
    var pending := m.inFlight[i];
    var rest := m.inFlight[..i] + m.inFlight[i + 1..];
    var w := Save(m.store, m.backend, pending.value, writeOk);
    if !w.ok then
      var back := m.(inFlight := rest, spinsUsed := m.spinsUsed - 1);
      Step(back, [ShowError, SetButton(ButtonLabel(back.spinsUsed))])
    else
      var kept := m.(inFlight := rest, store := w.store);
      var prize := if pending.target == 0 then [ShowPrize] else [];
      Step(kept, [SetButton(ButtonLabel(kept.spinsUsed))] + prize)
  }

  datatype Event =
    | Click(online: bool)
    | TimerFires
    | SaveSettles(index: nat, writeOk: bool)

  /** One event; an event for a callback that does not exist changes nothing. */
  function Apply(m: Model, e: Event): (s: Step)
    requires Inv(m)
    ensures Inv(s.next)
  {
    match e
    case Click(online) => RequestSpin(m, online)
    case TimerFires => if m.timer.Some? then FireTimer(m) else Step(m, [])
    case SaveSettles(i, writeOk) => if i < |m.inFlight| then SettleSave(m, i, writeOk) else Step(m, [])
  }

  function Run(m: Model, events: seq<Event>): (s: Step)
    requires Inv(m)
    ensures Inv(s.next)
    decreases |events|
  {
    if events == [] then Step(m, [])
    else
      var first := Apply(m, events[0]);
      var rest := Run(first.next, events[1..]);
      Step(rest.next, first.effects + rest.effects)
  }

  /** Starting at or below the limit, no interleaving of events pushes the counter past 2. */
  lemma {:induction false} SpinsStayWithinLimit(m: Model, events: seq<Event>)
    requires Inv(m) && m.spinsUsed <= MAX_SPINS
    ensures Run(m, events).next.spinsUsed <= MAX_SPINS
    decreases |events|
  {
    if events != [] {
      var first := Apply(m, events[0]);
      assert first.next.spinsUsed <= MAX_SPINS;
      SpinsStayWithinLimit(first.next, events[1..]);
    }
  }

  /** Without a backend nothing is ever written, whatever happens. */
  lemma {:induction false} NoBackendWritesNothing(m: Model, events: seq<Event>)
    requires Inv(m) && !m.backend
    ensures Run(m, events).next.store == m.store && !Run(m, events).next.backend
    decreases |events|
  {
    if events != [] {
      var first := Apply(m, events[0]);
      assert first.next.store == m.store && !first.next.backend;
      NoBackendWritesNothing(first.next, events[1..]);
    }
  }

  /** While the first spin animates, a second click does nothing. */
  lemma ReentrantClickIgnored(m: Model, again: bool)
    requires Inv(m) && !Blocked(m)
    ensures var s := RequestSpin(m, true);
            RequestSpin(s.next, again) == Step(s.next, [])
  {
  }

  /**
   * When the save fails right after the timer, the counter is back at its
   * pre-attempt value, the wheel accepts spins again, and the error is shown.
   */
  lemma FailedSaveRestoresCount(m: Model)
    requires Inv(m) && !Blocked(m) && m.backend
    ensures var a := RequestSpin(m, true);
            var b := FireTimer(a.next);
            var c := SettleSave(b.next, |b.next.inFlight| - 1, false);
            && c.next.spinsUsed == m.spinsUsed && !c.next.isSpinning
            && c.next.inFlight == m.inFlight && c.next.store == m.store
            && ShowError in c.effects && ShowPrize !in c.effects
  {
    var a := RequestSpin(m, true);
    var b := FireTimer(a.next);
    assert b.next.inFlight[..|b.next.inFlight| - 1] == m.inFlight;
  }

  /**
   * The window: once the timer has fired, a click is accepted although the
   * previous attempt's save has not settled.
   */
  lemma SpinAcceptedWhileSaveInFlight(m: Model)
    requires Inv(m) && m.timer.Some? && m.spinsUsed < MAX_SPINS && m.backend
    ensures var b := FireTimer(m);
            var c := RequestSpin(b.next, true);
            && c.next.isSpinning && c.next.spinsUsed == m.spinsUsed + 1
            && |c.next.inFlight| == |m.inFlight| + 1
  {
  }

  /**
   * A concrete run through that window from a fresh visitor: the first save
   * fails after the second spin has started, which gives a spin back and lets
   * a third spin through; the prize is shown twice.
   */
  lemma ThirdSpinThroughWindow()
    ensures var boot := Startup(Initial(map[], true), true);
            var t := Run(boot.next, WindowPhaseOne() + WindowPhaseTwo() + WindowPhaseThree());
            && multiset(t.effects)[SetButton(Spinning)] == 3
            && multiset(t.effects)[ShowPrize] == 2
            && t.next.spinsUsed == 2 && t.next.inFlight == [] && !t.next.isSpinning
  {
    var boot := Startup(Initial(map[], true), true);
    assert Lookup(map[], SPINS_KEY) == None;
    var s0 := Model(0, false, 330, None, [], map[], true);
    assert boot.next == s0;
    var s4 := Model(1, true, 330, Some(0), [], map[], true);
    var one := WindowFirstSaveFails();
    var s7, two := WindowThirdSpin(s4);
    var three := WindowLastSave(s7);
    RunAppend(s0, WindowPhaseOne(), WindowPhaseTwo());
    RunAppend(s0, WindowPhaseOne() + WindowPhaseTwo(), WindowPhaseThree());
    var t := Run(s0, WindowPhaseOne() + WindowPhaseTwo() + WindowPhaseThree());
    assert t.effects == one + two + three;
    assert multiset(t.effects) == multiset(one) + multiset(two) + multiset(three);
    assert multiset(three)[SetButton(Spinning)] == 0 && multiset(three)[ShowPrize] == 1;
  }

  function WindowPhaseOne(): seq<Event> {
    [Click(true), TimerFires, Click(true), SaveSettles(0, false)]
  }

  function WindowPhaseTwo(): seq<Event> {
    [TimerFires, Click(true), SaveSettles(0, true)]
  }

  function WindowPhaseThree(): seq<Event> {
    [TimerFires, SaveSettles(0, true)]
  }

  /** Spin 1, its timer, spin 2 accepted while save 1 is pending, then save 1 fails. */
  lemma WindowFirstSaveFails() returns (effects: seq<Signal>)
    ensures Run(Model(0, false, 330, None, [], map[], true), WindowPhaseOne())
            == Step(Model(1, true, 330, Some(0), [], map[], true), effects)
    ensures multiset(effects)[SetButton(Spinning)] == 2 && multiset(effects)[ShowPrize] == 0
  {
    var s0 := Model(0, false, 330, None, [], map[], true);
    var e1 := Apply(s0, Click(true));
    assert e1.next == Model(1, true, 210, Some(2), [], map[], true);
    var e2 := Apply(e1.next, TimerFires);
    assert e2 == Step(Model(1, false, 210, None, [Flight(2, 1)], map[], true), []);
    var e3 := Apply(e2.next, Click(true));
    assert e3.next == Model(2, true, 330, Some(0), [Flight(2, 1)], map[], true);
    var e4 := Apply(e3.next, SaveSettles(0, false));
    assert e4 == Step(Model(1, true, 330, Some(0), [], map[], true), [ShowError, SetButton(Spin)]);
    var r3 := RunCons(e3.next, SaveSettles(0, false), []);
    var r2 := RunCons(e2.next, Click(true), [SaveSettles(0, false)]);
    var r1 := RunCons(e1.next, TimerFires, [Click(true), SaveSettles(0, false)]);
    var r0 := RunCons(s0, Click(true), [TimerFires, Click(true), SaveSettles(0, false)]);
    effects := e1.effects + (e3.effects + e4.effects);
    assert r0 == Step(e4.next, effects);
  }

  /** Spin 2's timer, spin 3 accepted, and spin 2's save succeeds while spin 3 runs. */
  lemma WindowThirdSpin(s4: Model) returns (s7: Model, effects: seq<Signal>)
    requires s4 == Model(1, true, 330, Some(0), [], map[], true)
    ensures Inv(s4) && Inv(s7)
    ensures Run(s4, WindowPhaseTwo()) == Step(s7, effects)
    ensures s7.spinsUsed == 2 && s7.isSpinning && s7.timer == Some(0) && s7.inFlight == [] && s7.backend
    ensures multiset(effects)[SetButton(Spinning)] == 1 && multiset(effects)[ShowPrize] == 1
  {
    var e5 := Apply(s4, TimerFires);
    assert e5 == Step(Model(1, false, 330, None, [Flight(0, 1)], map[], true), []);
    var e6 := Apply(e5.next, Click(true));
    assert e6.next == Model(2, true, 330, Some(0), [Flight(0, 1)], map[], true);
    var e7 := Apply(e6.next, SaveSettles(0, true));
    assert e7.effects == [SetButton(NoSpins), ShowPrize];
    var r6 := RunCons(e6.next, SaveSettles(0, true), []);
    var r5 := RunCons(e5.next, Click(true), [SaveSettles(0, true)]);
    var r4 := RunCons(s4, TimerFires, [Click(true), SaveSettles(0, true)]);
    s7 := e7.next;
    effects := e6.effects + e7.effects;
    assert r4 == Step(s7, effects);
  }

  /** Spin 3's timer, then its save succeeds: the prize is shown again. */
  lemma WindowLastSave(m: Model) returns (effects: seq<Signal>)
    requires Inv(m) && m.spinsUsed == 2 && m.timer == Some(0) && m.inFlight == [] && m.backend
    ensures Run(m, WindowPhaseThree()).next.spinsUsed == 2
    ensures Run(m, WindowPhaseThree()).next.inFlight == [] && !Run(m, WindowPhaseThree()).next.isSpinning
    ensures Run(m, WindowPhaseThree()).effects == effects
    ensures effects == [SetButton(NoSpins), ShowPrize]
  {
    var e8 := Apply(m, TimerFires);
    assert e8.next.inFlight == [Flight(0, 2)] && e8.effects == [];
    var e9 := Apply(e8.next, SaveSettles(0, true));
    var r8 := RunCons(e8.next, SaveSettles(0, true), []);
    var r7 := RunCons(m, TimerFires, [SaveSettles(0, true)]);
    effects := e9.effects;
  }

  /** Running two sequences of events one after the other. */
  lemma {:induction false} RunAppend(m: Model, a: seq<Event>, b: seq<Event>)
    requires Inv(m)
    ensures Run(m, a + b) == (var x := Run(m, a);
                              var y := Run(x.next, b);
                              Step(y.next, x.effects + y.effects))
    decreases |a|
  {
    if a == [] {
      assert a + b == b;
    } else {
      assert (a + b)[0] == a[0] && (a + b)[1..] == a[1..] + b;
      var first := Apply(m, a[0]);
      RunAppend(first.next, a[1..], b);
      var x := Run(first.next, a[1..]);
      var y := Run(x.next, b);
      assert first.effects + (x.effects + y.effects) == (first.effects + x.effects) + y.effects;
    }
  }

  /** Running `e` then `rest` is applying `e` and running `rest` from there. */
  lemma RunCons(m: Model, e: Event, rest: seq<Event>) returns (s: Step)
    requires Inv(m)
    ensures s == Run(m, [e] + rest)
    ensures s == (var first := Apply(m, e);
                  var after := Run(first.next, rest);
                  Step(after.next, first.effects + after.effects))
  {
    assert ([e] + rest)[1..] == rest;
    s := Run(m, [e] + rest);
  }

  /** The module's state, updated in place as base-main.js does. */
  class Session {
    var spinsUsed: nat
    var isSpinning: bool
    var currentRotation: int
    var timer: Option<int>        // the scheduled completion callback and its captured target
    var inFlight: seq<Flight>     // callbacks suspended on their save
    var store: Store              // window.storage
    const backend: bool           // whether window.storage exists

    function Snapshot(): Model
      reads this
    {
      Model(spinsUsed, isSpinning, currentRotation, timer, inFlight, store, backend)
    }

    ghost predicate Valid()
      reads this
    {
      Inv(Snapshot())
    }

    constructor (store: Store, backend: bool)
      ensures Snapshot() == Initial(store, backend) && Valid()
    {
      spinsUsed, isSpinning, currentRotation := 0, false, 0;
      timer, inFlight := None, [];
      this.store, this.backend := store, backend;
    }

    method LoadGameState(readOk: bool)
      modifies this`spinsUsed
      ensures spinsUsed == Load(store, backend, readOk)
    {
      if backend && readOk {
        var r := Lookup(store, SPINS_KEY);
        spinsUsed := ReadCount(r);
      } else {
        spinsUsed := 0;
      }
    }

    method SaveGameState(value: nat, writeOk: bool) returns (ok: bool)
      modifies this`store
      ensures Written(store, ok) == Save(old(store), backend, value, writeOk)
    {
      if backend {
        if !writeOk {
          return false;
        }
        store := store[SPINS_KEY := NatToString(value)];
      }
      ok := true;
    }

    method UpdateButtonState() returns (l: Label)
      ensures Enabled(l) <==> spinsUsed < MAX_SPINS
      ensures l != Spinning
    {
      if spinsUsed >= MAX_SPINS {
        l := NoSpins;
      } else {
        l := Spin;
      }
    }

    method OnContentLoaded(readOk: bool) returns (effects: seq<Signal>)
      requires !isSpinning && timer == None && inFlight == []
      modifies this
      ensures Valid()
      ensures Step(Snapshot(), effects) == Startup(old(Snapshot()), readOk)
    {
      LoadGameState(readOk);
      currentRotation := RotationForIndex(0);
      effects := [Rotate(currentRotation)];
      var l := UpdateButtonState();
      effects := effects + [SetButton(l)];
    }

    method SpinWheel(online: bool) returns (effects: seq<Signal>)
      requires Valid()
      modifies this
      ensures Valid()
      ensures Step(Snapshot(), effects) == RequestSpin(old(Snapshot()), online)
    {
      if isSpinning || spinsUsed >= MAX_SPINS {
        return [];
      }
      var check := CheckInternetConnection(online);
      if !check.ok {
        return check.effects;
      }
      isSpinning := true;
      effects := [SetButton(Spinning)];
      spinsUsed := spinsUsed + 1;
      var targetIndex := TargetFor(spinsUsed);
      var spins := TurnsFor(spinsUsed);
      var finalRotation := spins * 360 + RotationForIndex(targetIndex);
      effects := effects + [Rotate(finalRotation)];
      currentRotation := JsRem(finalRotation, 360);
      timer := Some(targetIndex);
    }

    method OnSpinTimeout() returns (effects: seq<Signal>)
      requires Valid() && timer.Some?
      modifies this
      ensures Valid()
      ensures Step(Snapshot(), effects) == FireTimer(old(Snapshot()))
    {
      var targetIndex := timer.value;
      timer := None;
      isSpinning := false;
      inFlight := inFlight + [Flight(targetIndex, spinsUsed)];
      effects := [];
    }

    method OnSaveSettled(i: nat, writeOk: bool) returns (effects: seq<Signal>)
      requires Valid() && i < |inFlight|
      modifies this
      ensures Valid()
      ensures Step(Snapshot(), effects) == SettleSave(old(Snapshot()), i, writeOk)
    {
      ghost var before := Snapshot();
      var pending := inFlight[i];
      inFlight := inFlight[..i] + inFlight[i + 1..];
      var ok := SaveGameState(pending.value, writeOk);
      if !ok {
        effects := [ShowError];
        spinsUsed := spinsUsed - 1;
        var l := UpdateButtonState();
        effects := effects + [SetButton(l)];
        return;
      }
      var l := UpdateButtonState();
      effects := [SetButton(l)];
      if pending.target == 0 {
        effects := effects + [ShowPrize];
      }
    }
  }
}
