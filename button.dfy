/**
 * lib/components/button.js: a push button on an input pin. Every edge emits
 * 'change' and then 'press' or 'release'; while the button is held a timer
 * fires every hold interval and emits 'hold' with the time since the press.
 * The clock is a parameter, pin reads are inputs, timer calls form a log.
 */
module ComponentButton {
  import opened Wrappers
  import opened Gpio

  /** The hold interval used when `holdTimeMs` is not given (or is 0). */
  const DefaultHoldInterval := 1000

  /** `pressStartTime`: never set (`undefined`), cleared on release (`null`), or a time. */
  datatype PressStart = Unset | Cleared | At(ms: int)

  /**
   * An emitted event. The hold duration is `Date.now() - pressStartTime`,
   * which is NaN (None) while the start was never set; a cleared start counts as 0.
   */
  datatype Event = Change | Press | Release | Hold(holdDurationMs: Option<int>)

  /** A timer call: `setTimeout(handleHold, ms)`, `clearTimeout`, or the 'already scheduled' warning. */
  datatype TimerCall = Schedule(ms: int) | Cancel | AlreadyScheduled

  datatype ButtonState = ButtonState(
    pressedLevel: Bit,
    holdInterval: int,
    pressStart: PressStart,
    holdTimerPending: bool,
    timerCalls: seq<TimerCall>)

  /** `pressed`: 1 unless `pressedIsHigh` is given, then 1 or 0 as it says. */
  function PressedLevel(pressedIsHigh: Option<bool>): (level: Bit)
    ensures level == 0 <==> pressedIsHigh == Some(false)
  {
    match pressedIsHigh
    case None => 1
    case Some(high) => if high then 1 else 0
  }

  /** `opts.holdTimeMs || 1000` */
  function HoldInterval(holdTimeMs: Option<int>): (ms: int)
    ensures holdTimeMs.Some? && holdTimeMs.value != 0 ==> ms == holdTimeMs.value
    ensures holdTimeMs.None? || holdTimeMs == Some(0) ==> ms == DefaultHoldInterval
  {
    match holdTimeMs
    case Some(n) => if n != 0 then n else DefaultHoldInterval
    case None => DefaultHoldInterval
  }

  /** The state `create(pin, opts)` leaves. */
  function Initial(pressedIsHigh: Option<bool>, holdTimeMs: Option<int>): (s: ButtonState)
    ensures Invariant(s) && s.pressStart == Unset && !s.holdTimerPending && s.timerCalls == []
  {
    ButtonState(PressedLevel(pressedIsHigh), HoldInterval(holdTimeMs), Unset, false, [])
  }

  /** `isPressed()` for a pin reading: both read as truthy, or both as falsy. */
  function IsPressed(s: ButtonState, reading: Bit): (pressed: bool)
    ensures pressed <==> reading == s.pressedLevel
  {
    (reading != 0) == (s.pressedLevel != 0)
  }

  /** `isReleased()` for a pin reading. */
  function IsReleased(s: ButtonState, reading: Bit): (released: bool)
    ensures released <==> !IsPressed(s, reading)
    ensures released <==> reading != s.pressedLevel
  {
    (reading != 0) != (s.pressedLevel != 0)
  }

  /** `scheduleHoldTimeout()`: a second timer is never scheduled beside a pending one. */
  function ScheduleHold(s: ButtonState): (r: ButtonState)
    ensures r.holdTimerPending
    ensures s.holdTimerPending ==> r == s.(timerCalls := s.timerCalls + [AlreadyScheduled])
    ensures !s.holdTimerPending ==>
      r == s.(holdTimerPending := true, timerCalls := s.timerCalls + [Schedule(s.holdInterval)])
  {
    if s.holdTimerPending then s.(timerCalls := s.timerCalls + [AlreadyScheduled])
    else s.(holdTimerPending := true, timerCalls := s.timerCalls + [Schedule(s.holdInterval)])
  }

  /** `expireHoldTimeout()`: a pending timer is cleared; otherwise nothing happens. */
  function ExpireHold(s: ButtonState): (r: ButtonState)
    ensures !r.holdTimerPending
    ensures s.holdTimerPending ==> r == s.(holdTimerPending := false, timerCalls := s.timerCalls + [Cancel])
    ensures !s.holdTimerPending ==> r == s
  {
    if s.holdTimerPending then s.(holdTimerPending := false, timerCalls := s.timerCalls + [Cancel]) else s
  }

  /** `handleEvent()` at time `now`, with the pin reading `reading`. */
  function EventStep(s: ButtonState, reading: Bit, now: int): (r: (ButtonState, seq<Event>))
    ensures r.0.pressedLevel == s.pressedLevel && r.0.holdInterval == s.holdInterval
    ensures IsPressed(s, reading) ==>
      r.1 == [Change, Press] && r.0.pressStart == At(now) && r.0.holdTimerPending
    ensures !IsPressed(s, reading) ==>
      r.1 == [Change, Release] && r.0.pressStart == Cleared && !r.0.holdTimerPending
  {
    if IsPressed(s, reading) then
      (ScheduleHold(s.(pressStart := At(now))), [Change, Press])
    else
      (ExpireHold(s.(pressStart := Cleared)), [Change, Release])
  }

  /** `handleHold()` at time `now`: the hold duration, then the timer is cleared and rescheduled. */
  function HoldStep(s: ButtonState, now: int): (r: (ButtonState, Event))
    ensures r.0 == ScheduleHold(ExpireHold(s))
    ensures r.0.holdTimerPending && r.0.pressStart == s.pressStart
    // Exactly one timer is pending afterwards: the old one is cleared, then a new one scheduled.
    ensures r.0.timerCalls ==
      s.timerCalls + (if s.holdTimerPending then [Cancel] else []) + [Schedule(s.holdInterval)]
    ensures r.1 == Hold(match s.pressStart
                        case Unset => None
                        case Cleared => Some(now)
                        case At(t) => Some(now - t))
  {
    var duration := match s.pressStart
      case Unset => None
      case Cleared => Some(now)
      case At(t) => Some(now - t);
    (ScheduleHold(ExpireHold(s)), Hold(duration))
  }

  // ---------------------------------------------------------------- properties

  /** A hold timer is pending exactly while the button is pressed. */
  predicate Invariant(s: ButtonState)
  {
    s.holdTimerPending <==> s.pressStart.At?
  }

  /** Edges and the timer firing keep the invariant (the timer fires only while pending). */
  lemma InvariantPreserved(s: ButtonState, reading: Bit, now: int)
    requires Invariant(s)
    ensures Invariant(EventStep(s, reading, now).0)
    ensures s.holdTimerPending ==> Invariant(HoldStep(s, now).0)
  {
  }

  /** While held, every hold reports the time since the press, and the timer stays single. */
  lemma HoldsReportTimeSincePress(s: ButtonState, reading: Bit, pressedAt: int, t1: int, t2: int)
    requires IsPressed(s, reading)
    ensures var (p, _) := EventStep(s, reading, pressedAt);
      var (h1, e1) := HoldStep(p, t1);
      var (h2, e2) := HoldStep(h1, t2);
      && e1 == Hold(Some(t1 - pressedAt)) && e2 == Hold(Some(t2 - pressedAt))
      && h2.timerCalls[|p.timerCalls|..] == [Cancel, Schedule(s.holdInterval), Cancel, Schedule(s.holdInterval)]
  {
    var (p, _) := EventStep(s, reading, pressedAt);
    var (h1, _) := HoldStep(p, t1);
    var (h2, _) := HoldStep(h1, t2);
    assert h2.timerCalls == p.timerCalls + [Cancel, Schedule(s.holdInterval), Cancel, Schedule(s.holdInterval)];
  }

  /** A release clears the timer, so no hold can follow until the next press. */
  lemma ReleaseStopsHolds(s: ButtonState, reading: Bit, now: int)
    requires !IsPressed(s, reading)
    ensures var r := EventStep(s, reading, now).0;
      !r.holdTimerPending && r.timerCalls == s.timerCalls + (if s.holdTimerPending then [Cancel] else [])
  {
  }

  /** A second press without a release keeps the one pending timer and only warns. */
  lemma RepeatedPressKeepsOneTimer(s: ButtonState, reading: Bit, t1: int, t2: int)
    requires IsPressed(s, reading)
    ensures var p := EventStep(s, reading, t1).0;
      var q := EventStep(p, reading, t2).0;
      q.timerCalls == p.timerCalls + [AlreadyScheduled] && q.pressStart == At(t2)
  {
  }

  // ---------------------------------------------------------------- the button object

  /** The instance `create(pin, opts)` returns, with its closure variables as fields. */
  class Button {
    const pin: int
    const pressedLevel: Bit
    const holdInterval: int
    var pressStartTime: PressStart
    var holdTimerPending: bool
    /** The timer calls made, oldest first. */
    var timerCalls: seq<TimerCall>

    function State(): ButtonState
      reads this
    {
      ButtonState(pressedLevel, holdInterval, pressStartTime, holdTimerPending, timerCalls)
    }

    /** A hold timer is pending exactly while the button is pressed. */
    ghost predicate Valid()
      reads this
    {
      Invariant(State())
    }

    /** `create(pin, { pressedIsHigh, holdTimeMs })`; setup, pull, pin mode and ISR are not modelled. */
    constructor (pin: int, pressedIsHigh: Option<bool>, holdTimeMs: Option<int>)
      ensures this.pin == pin && State() == Initial(pressedIsHigh, holdTimeMs)
      ensures Valid()
    {
      this.pin := pin;
      var pressed := 1;
      if pressedIsHigh.Some? {
        pressed := if pressedIsHigh.value then 1 else 0;
      }
      pressedLevel := pressed;
      holdInterval := if holdTimeMs.Some? && holdTimeMs.value != 0 then holdTimeMs.value else DefaultHoldInterval;
      pressStartTime := Unset;
      holdTimerPending := false;
      timerCalls := [];
    }

    /** `isPressed()`, given what `state()` reads from the pin. */
    function IsPressedNow(reading: Bit): (pressed: bool)
      reads this
      ensures pressed == IsPressed(State(), reading)
    {
      (reading != 0) == (pressedLevel != 0)
    }

    /** `scheduleHoldTimeout()`, a helper private to the closure. */
    method ScheduleHoldTimeout()
      modifies this
      ensures State() == ScheduleHold(old(State()))
    {
      if holdTimerPending {
        timerCalls := timerCalls + [AlreadyScheduled];
        return;
      }
      holdTimerPending := true;
      timerCalls := timerCalls + [Schedule(holdInterval)];
    }

    /** `expireHoldTimeout()`, a helper private to the closure. */
    method ExpireHoldTimeout()
      modifies this
      ensures State() == ExpireHold(old(State()))
    {
      if holdTimerPending {
        timerCalls := timerCalls + [Cancel];
        holdTimerPending := false;
      }
    }

    /** `handleEvent()`: the events, in the order they are emitted. */
    method HandleEvent(reading: Bit, now: int) returns (events: seq<Event>)
      modifies this
      ensures (State(), events) == EventStep(old(State()), reading, now)
      ensures Valid()
    {
      events := [Change];
      if IsPressedNow(reading) {
        pressStartTime := At(now);
        ScheduleHoldTimeout();
        events := events + [Press];
        assert events == [Change, Press];
      } else {
        pressStartTime := Cleared;
        ExpireHoldTimeout();
        events := events + [Release];
        assert events == [Change, Release];
      }
    }

    /** `handleHold()`: the emitted 'hold' event. */
    method HandleHold(now: int) returns (event: Event)
      modifies this
      ensures (State(), event) == HoldStep(old(State()), now)
      // The timer fires only while pending, that is while pressed; from there the invariant holds again.
      ensures old(Valid() && holdTimerPending) ==> Valid()
    {
      var duration := match pressStartTime
        case Unset => None
        case Cleared => Some(now)
        case At(t) => Some(now - t);
      ExpireHoldTimeout();
      ScheduleHoldTimeout();
      event := Hold(duration);
    }
  }
}
