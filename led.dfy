/**
 * lib/components/led.js: one LED conductor. It is driven by digital writes until
 * a value needs software PWM, which is then set up once and used from there on.
 * A brightness change is written at once, or animated by a tween when the LED's
 * default transitions carry a duration. Each call hands out a deferred promise:
 * a tween resolves its promise on completion and rejects it when it is stopped.
 */
module ComponentLed {
  import opened Wrappers
  import opened Gpio
  import opened ComponentUtils

  /** The range the software-PWM pin is created with; brightness is a percentage of it. */
  const PwmRange := 100

  /** A wiring-pi call on the LED's pin. */
  datatype PinWrite =
    | DigitalWrite(level: Bit)
    | PwmCreate(initial: int, range: int)
    | PwmWrite(duty: int)

  datatype TweenStatus = Running | Completed | Stopped

  /** A tween of the brightness from `from` to `to`; `deferred` names the promise it settles. */
  datatype Tween = Tween(from: int, to: int, deferred: nat, status: TweenStatus)

  /** What happened to a deferred promise, once. */
  datatype Settlement = Resolved(id: nat) | Rejected(id: nat)

  /** What `brightness(value)` returns: `promise.resolve()`, or the promise of deferred `id`. */
  datatype Completion = AlreadyResolved | Pending(id: nat)

  /**
   * The closure state of one LED: the polarity, the PWM flag, the brightness,
   * the active tween and the default transitions, plus the calls made on the pin
   * and the promise settlements, in order, and the number of deferreds handed out.
   */
  datatype Channel = Channel(
    reverse: bool,
    isPwm: bool,
    brightness: int,
    activeTween: Option<Tween>,
    transitions: Options,
    writes: seq<PinWrite>,
    settlements: seq<Settlement>,
    nextDeferred: nat)

  /** `values.on`: the digital level that lights the LED. */
  function OnLevel(reverse: bool): Bit
  {
    if reverse then 0 else 1
  }

  /** `values.off`: the digital level that darkens the LED. */
  function OffLevel(reverse: bool): Bit
  {
    if reverse then 1 else 0
  }

  /** `pwmValue(value)`: the duty cycle that shows a brightness, inverted on a reversed LED. */
  function PwmValue(reverse: bool, value: int): (duty: int)
    ensures 0 <= value <= PwmRange ==> 0 <= duty <= PwmRange
    // The inversion undoes itself.
    ensures (if reverse then PwmRange - duty else duty) == value
  {
    if reverse then PwmRange - value else value
  }

  /** The brightness the pin shows after a write. */
  function Shown(reverse: bool, w: PinWrite): int
  {
    match w
    case DigitalWrite(level) => if level == OnLevel(reverse) then PwmRange else 0
    case PwmCreate(initial, _) => PwmValue(reverse, initial)
    case PwmWrite(duty) => PwmValue(reverse, duty)
  }

  /** The call that sets the pin up for software PWM, starting at `values.off * pwmRange`. */
  function PwmSetup(reverse: bool): PinWrite
  {
    PwmCreate(OffLevel(reverse) * PwmRange, PwmRange)
  }

  /** Whether the default transitions ask for a tween: `globalTransitions.duration` is truthy. */
  predicate Timed(c: Channel)
  {
    OptionSet(c.transitions, "duration")
  }

  /** Whether a tween is animating the LED. */
  predicate Animating(c: Channel)
  {
    c.activeTween.Some? && c.activeTween.value.status == Running
  }

  /** Whether deferred `id` has been resolved or rejected. */
  predicate Settled(c: Channel, id: nat)
  {
    exists i :: 0 <= i < |c.settlements| && c.settlements[i].id == id
  }

  // ---------------------------------------------------------------- invariant

  /**
   * The pin's call log: digital writes, then at most one PWM setup with the
   * off-level start, then only PWM writes; the PWM flag says whether the setup
   * has happened.
   */
  predicate WriteLogShape(w: seq<PinWrite>)
  {
    && (forall i, j :: 0 <= i < j < |w| && !w[i].DigitalWrite? ==> w[j].PwmWrite?)
    && (forall j :: 0 <= j < |w| && w[j].PwmWrite? ==> 0 < j && !w[j - 1].DigitalWrite?)
  }

  /** Whether the last call of the log is a PWM one. */
  predicate EndsInPwm(w: seq<PinWrite>)
  {
    |w| > 0 && !w[|w| - 1].DigitalWrite?
  }

  predicate WellFormed(c: Channel)
  {
    && WriteLogShape(c.writes)
    && (forall i :: 0 <= i < |c.writes| && c.writes[i].PwmCreate? ==> c.writes[i] == PwmSetup(c.reverse))
    && (c.isPwm <==> EndsInPwm(c.writes))
    // Deferreds are numbered in order, and each is settled at most once.
    && (forall i :: 0 <= i < |c.settlements| ==> c.settlements[i].id < c.nextDeferred)
    && (forall i, j :: 0 <= i < j < |c.settlements| ==> c.settlements[i].id != c.settlements[j].id)
    // Only a PWM LED has a tween, and a running tween's promise is still open.
    && (c.activeTween.Some? ==> c.isPwm && c.activeTween.value.deferred < c.nextDeferred)
    && (Animating(c) ==> !Settled(c, c.activeTween.value.deferred))
  }

  /** The state `create(pin, opts)` leaves: off, digital, no tween, no transitions. */
  function Initial(reverse: bool): (c: Channel)
    ensures WellFormed(c)
    ensures c.brightness == 0 && !c.isPwm && !Animating(c) && c.writes == []
  {
    Channel(reverse, false, 0, None, map[], [], [], 0)
  }

  // ---------------------------------------------------------------- steps

  /**
   * Appending one call in the current mode (a digital write or the PWM setup on a
   * digital LED, a PWM write on a PWM LED) keeps the log well shaped.
   */
  lemma AppendWrite(c: Channel, x: PinWrite, brightness: int)
    requires WellFormed(c)
    requires x.DigitalWrite? ==> !c.isPwm
    requires x.PwmCreate? ==> !c.isPwm && x == PwmSetup(c.reverse)
    requires x.PwmWrite? ==> c.isPwm
    ensures WellFormed(c.(isPwm := !x.DigitalWrite?, brightness := brightness, writes := c.writes + [x]))
  {
    var w := c.writes + [x];
    assert forall i :: 0 <= i < |c.writes| ==> w[i] == c.writes[i];
    forall i | 0 <= i < |c.writes| && !c.writes[i].DigitalWrite?
      ensures EndsInPwm(c.writes)
    {
      if i < |c.writes| - 1 {
        assert c.writes[|c.writes| - 1].PwmWrite?;
      }
    }
  }

  /** Settling a deferred that was handed out, is still open and is not the running tween's keeps the invariant. */
  lemma AppendSettlement(c: Channel, st: Settlement)
    requires WellFormed(c) && st.id < c.nextDeferred && !Settled(c, st.id)
    requires !(Animating(c) && c.activeTween.value.deferred == st.id)
    ensures WellFormed(c.(settlements := c.settlements + [st]))
  {
    var r := c.(settlements := c.settlements + [st]);
    assert forall i :: 0 <= i < |c.settlements| ==> r.settlements[i] == c.settlements[i];
  }

  /** `promise.defer()`: the next deferred is handed out, still open. */
  function HandOut(c: Channel): (r: Channel)
    requires WellFormed(c)
    ensures WellFormed(r) && !Settled(r, c.nextDeferred)
    ensures r == c.(nextDeferred := c.nextDeferred + 1)
  {
    c.(nextDeferred := c.nextDeferred + 1)
  }

  /** `new tween.Tween(...).start()` on a PWM LED with no running tween, holding a new deferred. */
  function StartTween(c: Channel, value: int): (r: Channel)
    requires WellFormed(c) && c.isPwm && !Animating(c)
    ensures WellFormed(r) && Animating(r)
    ensures r == c.(activeTween := Some(Tween(c.brightness, value, c.nextDeferred, Running)), nextDeferred := c.nextDeferred + 1)
  {
    HandOut(c).(activeTween := Some(Tween(c.brightness, value, c.nextDeferred, Running)))
  }

  /** `write(value)`: one pin write in the current mode; the value becomes the brightness. */
  function WriteStep(c: Channel, value: int): (r: Channel)
    requires WellFormed(c)
    ensures WellFormed(r)
    ensures r == c.(brightness := value, writes := r.writes)
    ensures |r.writes| == |c.writes| + 1 && r.writes[..|c.writes|] == c.writes
    // PWM shows the value itself; a digital write shows 0 for 0 and full brightness otherwise.
    ensures Shown(c.reverse, r.writes[|c.writes|]) == if c.isPwm || value == 0 then value else PwmRange
  {
    var w := if c.isPwm then PwmWrite(PwmValue(c.reverse, value))
             else DigitalWrite(if value == 0 then OffLevel(c.reverse) else OnLevel(c.reverse));
    AppendWrite(c, w, value);
    var r := c.(brightness := value, writes := c.writes + [w]);
    assert r.writes[..|c.writes|] == c.writes;
    r
  }

  /** The lazy `softPwmCreate` of a digital LED. */
  function EnablePwm(c: Channel): (r: Channel)
    requires WellFormed(c) && !c.isPwm
    ensures WellFormed(r) && r.isPwm
    ensures r == c.(isPwm := true, writes := c.writes + [PwmSetup(c.reverse)])
    // The pin starts dark whatever the polarity.
    ensures Shown(c.reverse, PwmSetup(c.reverse)) == 0
  {
    AppendWrite(c, PwmSetup(c.reverse), c.brightness);
    c.(isPwm := true, writes := c.writes + [PwmSetup(c.reverse)])
  }

  /** `activeTween.stop()`: a running tween stops and rejects its promise; otherwise nothing. */
  function StopStep(c: Channel): (r: Channel)
    requires WellFormed(c)
    ensures WellFormed(r) && !Animating(r)
    ensures Animating(c) ==>
      r == c.(activeTween := Some(c.activeTween.value.(status := Stopped)),
               settlements := c.settlements + [Rejected(c.activeTween.value.deferred)])
    ensures !Animating(c) ==> r == c
  {
    if Animating(c) then
      var t := c.activeTween.value;
      var c1 := c.(activeTween := Some(t.(status := Stopped)));
      AppendSettlement(c1, Rejected(t.deferred));
      c1.(settlements := c1.settlements + [Rejected(t.deferred)])
    else c
  }

  /**
   * The first half of `brightness(value)`: a digital LED writes 0 or 100 at once
   * when no duration is set, and is otherwise set up for PWM.
   */
  function ModeStep(c: Channel, value: int): (r: Channel)
    requires WellFormed(c)
    ensures WellFormed(r)
    // PWM is on from the first value that is not an untimed 0 or 100.
    ensures r.isPwm == (c.isPwm || !(value == 0 || value == PwmRange) || Timed(c))
    ensures r.reverse == c.reverse && r.transitions == c.transitions && r.activeTween == c.activeTween
    ensures r.settlements == c.settlements && r.nextDeferred == c.nextDeferred
    ensures r.isPwm ==>
      r.brightness == c.brightness && r.writes == c.writes + (if c.isPwm then [] else [PwmSetup(c.reverse)])
    ensures !r.isPwm ==>
      && r.brightness == value
      && |r.writes| == |c.writes| + 1 && r.writes[..|c.writes|] == c.writes
      && Shown(c.reverse, r.writes[|c.writes|]) == value
  {
    if !c.isPwm && (value == 0 || value == PwmRange) && !Timed(c) then WriteStep(c, value)
    else if !c.isPwm then EnablePwm(c)
    else c
  }

  /**
   * The second half of `brightness(value)`, with deferred `c.nextDeferred` handed
   * out: with a duration and outside a tween's own update, the running tween is
   * stopped and a new one starts from the current brightness; otherwise a PWM
   * LED writes the value.
   */
  function TweenOrWriteStep(c: Channel, value: int, isTransitioning: bool): (r: Channel)
    requires WellFormed(c) && (Timed(c) && !isTransitioning ==> c.isPwm)
    ensures WellFormed(r)
    ensures r.nextDeferred == c.nextDeferred + 1
    ensures r.reverse == c.reverse && r.transitions == c.transitions && r.isPwm == c.isPwm
    ensures Timed(c) && !isTransitioning ==>
      && r.activeTween == Some(Tween(c.brightness, value, c.nextDeferred, Running))
      && r.brightness == c.brightness
      && r.settlements == StopStep(c).settlements
      && r.writes == c.writes
    ensures !(Timed(c) && !isTransitioning) ==>
      && r.activeTween == c.activeTween
      && r.settlements == c.settlements
      && (c.isPwm ==> r.brightness == value && |r.writes| == |c.writes| + 1 && r.writes[..|c.writes|] == c.writes
                      && Shown(c.reverse, r.writes[|c.writes|]) == value)
      && (!c.isPwm ==> r.brightness == c.brightness && r.writes == c.writes)
  {
    if Timed(c) && !isTransitioning then StartTween(StopStep(c), value)
    else if c.isPwm then WriteStep(HandOut(c), value)
    else HandOut(c)
  }

  /**
   * `brightness(value, isTransitioning)`. A PWM LED already at the value answers
   * with a resolved promise and does nothing else; any other call hands out a
   * new deferred and takes both halves above.
   */
  function BrightnessStep(c: Channel, value: int, isTransitioning: bool): (r: (Channel, Completion))
    requires WellFormed(c)
    ensures WellFormed(r.0)
    ensures r.0.reverse == c.reverse && r.0.transitions == c.transitions
    ensures c.isPwm && c.brightness == value ==> r == (c, AlreadyResolved)
    ensures !(c.isPwm && c.brightness == value) ==>
      r.1 == Pending(c.nextDeferred) && r.0.nextDeferred == c.nextDeferred + 1
    ensures r.0.isPwm == (c.isPwm || !(value == 0 || value == PwmRange) || Timed(c))
    ensures |c.writes| <= |r.0.writes| <= |c.writes| + 2 && r.0.writes[..|c.writes|] == c.writes
    // A new tween: the running one is rejected, and nothing is shown until the tween updates.
    ensures Timed(c) && !isTransitioning && !(c.isPwm && c.brightness == value) ==>
      && r.0.activeTween == Some(Tween(c.brightness, value, c.nextDeferred, Running))
      && r.0.brightness == c.brightness
      && r.0.settlements == StopStep(c).settlements
      && r.0.writes == c.writes + (if c.isPwm then [] else [PwmSetup(c.reverse)])
    // Otherwise the value is shown at once, and the tween and the promises are left alone.
    ensures !(Timed(c) && !isTransitioning) ==>
      && r.0.brightness == value
      && r.0.activeTween == c.activeTween
      && r.0.settlements == c.settlements
      && (r.1.Pending? ==> |r.0.writes| > |c.writes| && Shown(c.reverse, r.0.writes[|r.0.writes| - 1]) == value)
  {
    if c.isPwm && c.brightness == value then (c, AlreadyResolved)
    else
      var c1 := ModeStep(c, value);
      var c2 := TweenOrWriteStep(c1, value, isTransitioning);
      PrefixOfPrefix(c.writes, c1.writes, c2.writes);
      assert Timed(c1) == Timed(c);
      (c2, Pending(c.nextDeferred))
  }

  lemma PrefixOfPrefix(a: seq<PinWrite>, b: seq<PinWrite>, c: seq<PinWrite>)
    requires |a| <= |b| <= |c| && b[..|a|] == a && c[..|b|] == b
    ensures c[..|a|] == a
  {
    assert c[..|a|] == c[..|b|][..|a|];
  }

  /** A tween's `onUpdate`: `brightness(Math.round(value), true)`, whose promise is dropped. */
  function TickStep(c: Channel, value: int): (r: Channel)
    requires WellFormed(c) && Animating(c)
    ensures WellFormed(r) && Animating(r)
    ensures r.brightness == value && r.activeTween == c.activeTween && r.settlements == c.settlements
    ensures c.brightness != value ==> Shown(c.reverse, r.writes[|r.writes| - 1]) == value
  {
    BrightnessStep(c, value, true).0
  }

  /** A tween's end: the last `onUpdate` with its target, then `onComplete` resolves its promise. */
  function CompleteStep(c: Channel): (r: Channel)
    requires WellFormed(c) && Animating(c)
    ensures WellFormed(r) && !Animating(r)
    ensures r.brightness == c.activeTween.value.to
    ensures r.settlements == c.settlements + [Resolved(c.activeTween.value.deferred)]
  {
    var t := c.activeTween.value;
    var c1 := TickStep(c, t.to);
    var c2 := c1.(activeTween := Some(t.(status := Completed)));
    AppendSettlement(c2, Resolved(t.deferred));
    c2.(settlements := c2.settlements + [Resolved(t.deferred)])
  }

  /** `transitions(params)`: the defaults are merged with the new parameters. */
  function TransitionsStep(c: Channel, params: Options): (r: Channel)
    requires WellFormed(c)
    ensures WellFormed(r)
    ensures r == c.(transitions := Merge(c.transitions, params))
  {
    c.(transitions := Merge(c.transitions, params))
  }

  // ---------------------------------------------------------------- properties

  /** The number of PWM setups in a call log. */
  function PwmSetups(w: seq<PinWrite>): nat
  {
    if w == [] then 0 else PwmSetups(w[..|w| - 1]) + (if w[|w| - 1].PwmCreate? then 1 else 0)
  }

  lemma {:induction false} SetupCount(w: seq<PinWrite>)
    requires WriteLogShape(w)
    ensures PwmSetups(w) == if EndsInPwm(w) then 1 else 0
    decreases |w|
  {
    if w != [] {
      var p := w[..|w| - 1];
      assert forall i :: 0 <= i < |p| ==> p[i] == w[i];
      SetupCount(p);
      if w[|w| - 1].PwmWrite? {
        assert EndsInPwm(p);
      } else if |p| > 0 {
        assert w[|p| - 1] == p[|p| - 1];
      }
    }
  }

  /** The pin is set up for PWM once, and only once a value has needed it. */
  lemma PwmSetUpOnlyOnce(c: Channel)
    requires WellFormed(c)
    ensures PwmSetups(c.writes) == if c.isPwm then 1 else 0
  {
    SetupCount(c.writes);
  }

  /**
   * Calling `brightness(value)` with a duration while a tween runs rejects that
   * tween's promise; the new tween holds a fresh, still open promise.
   */
  lemma NewTweenSupersedes(c: Channel, value: int)
    requires WellFormed(c) && Animating(c) && Timed(c) && c.brightness != value
    ensures var (r, done) := BrightnessStep(c, value, false);
      && r.settlements == c.settlements + [Rejected(c.activeTween.value.deferred)]
      && done == Pending(r.activeTween.value.deferred)
      && Animating(r) && !Settled(r, r.activeTween.value.deferred)
  {
  }

  /** `on()` with no duration lights the LED at once, by a digital write on a digital LED. */
  lemma OnWithoutDurationLights(c: Channel)
    requires WellFormed(c) && !Timed(c)
    ensures var r := BrightnessStep(c, PwmRange, false).0;
      && r.brightness == PwmRange
      && r.isPwm == c.isPwm
      && (!c.isPwm ==> r.writes == c.writes + [DigitalWrite(OnLevel(c.reverse))])
  {
  }

  // ---------------------------------------------------------------- promises left open

  /** Deferred `id` was handed out, is not settled and no tween will settle it. */
  predicate Orphan(c: Channel, id: nat)
  {
    id < c.nextDeferred && !Settled(c, id) && !(c.activeTween.Some? && c.activeTween.value.deferred == id)
  }

  /** As written: a call that starts no tween returns a deferred nobody settles. */
  lemma ImmediateChangeLeavesPromiseOpen(c: Channel, value: int, isTransitioning: bool)
    requires WellFormed(c) && !(Timed(c) && !isTransitioning)
    ensures var (r, done) := BrightnessStep(c, value, isTransitioning);
      done.Pending? ==> Orphan(r, done.id)
  {
    var (r, done) := BrightnessStep(c, value, isTransitioning);
    assert r.settlements == c.settlements;
  }

  /** As written: an orphan stays open through a later `brightness(value)`. */
  lemma OrphanSurvivesBrightness(c: Channel, id: nat, value: int, isTransitioning: bool)
    requires WellFormed(c) && Orphan(c, id)
    ensures Orphan(BrightnessStep(c, value, isTransitioning).0, id)
  {
    var extra := BrightnessSettlements(c, value, isTransitioning);
    OrphanKept(c, BrightnessStep(c, value, isTransitioning).0, id, extra);
  }

  /** As written: an orphan stays open through `transitions(params)` and through a tween's updates and end. */
  lemma OrphanSurvivesTween(c: Channel, id: nat, value: int, params: Options)
    requires WellFormed(c) && Orphan(c, id)
    ensures Orphan(TransitionsStep(c, params), id)
    ensures Animating(c) ==> Orphan(TickStep(c, value), id) && Orphan(CompleteStep(c), id)
  {
    assert TransitionsStep(c, params).settlements == c.settlements + [];
    OrphanKept(c, TransitionsStep(c, params), id, []);
    if Animating(c) {
      assert TickStep(c, value).settlements == c.settlements + [];
      OrphanKept(c, TickStep(c, value), id, []);
      OrphanKept(c, CompleteStep(c), id, [Resolved(c.activeTween.value.deferred)]);
    }
  }

  /** `brightness(value)` settles at most the running tween's promise, and only hands out new deferreds. */
  lemma BrightnessSettlements(c: Channel, value: int, isTransitioning: bool) returns (extra: seq<Settlement>)
    requires WellFormed(c)
    ensures var r := BrightnessStep(c, value, isTransitioning).0;
      && r.settlements == c.settlements + extra && c.nextDeferred <= r.nextDeferred
      && (forall k :: 0 <= k < |extra| ==> Animating(c) && extra[k].id == c.activeTween.value.deferred)
      && (r.activeTween.Some? ==> r.activeTween == c.activeTween || r.activeTween.value.deferred == c.nextDeferred)
  {
    if Timed(c) && !isTransitioning && !(c.isPwm && c.brightness == value) && Animating(c) {
      extra := [Rejected(c.activeTween.value.deferred)];
    } else {
      extra := [];
      assert c.settlements + extra == c.settlements;
    }
  }

  /** A step that appends only other deferreds' settlements and gives no tween the orphan keeps it an orphan. */
  lemma OrphanKept(c: Channel, r: Channel, id: nat, extra: seq<Settlement>)
    requires Orphan(c, id) && c.nextDeferred <= r.nextDeferred
    requires r.settlements == c.settlements + extra && forall k :: 0 <= k < |extra| ==> extra[k].id != id
    requires !(r.activeTween.Some? && r.activeTween.value.deferred == id)
    ensures Orphan(r, id)
  {
    forall i | 0 <= i < |r.settlements| ensures r.settlements[i].id != id {
      if i < |c.settlements| {
        assert r.settlements[i] == c.settlements[i];
      } else {
        assert r.settlements[i] == extra[i - |c.settlements|];
      }
    }
  }

  /** `on()` on a new LED without transitions returns a promise that never settles. */
  lemma OnPromiseNeverSettles(reverse: bool)
    ensures var (r, done) := BrightnessStep(Initial(reverse), PwmRange, false);
      done == Pending(0) && Orphan(r, 0)
  {
    ImmediateChangeLeavesPromiseOpen(Initial(reverse), PwmRange, false);
  }

  // ---------------------------------------------------------------- corrected promises

  /** The promise of a call that starts no tween resolves at once. */
  function SettledBrightnessStep(c: Channel, value: int, isTransitioning: bool): (r: (Channel, Completion))
    requires WellFormed(c)
    ensures WellFormed(r.0)
  {
    var (c1, done) := BrightnessStep(c, value, isTransitioning);
    if done.Pending? && !(Timed(c) && !isTransitioning) then
      assert forall i :: 0 <= i < |c1.settlements| ==> c1.settlements[i].id < done.id;
      AppendSettlement(c1, Resolved(done.id));
      (c1.(settlements := c1.settlements + [Resolved(done.id)]), done)
    else (c1, done)
  }

  /** A tween's update with the corrected promises. */
  function SettledTickStep(c: Channel, value: int): (r: Channel)
    requires WellFormed(c) && Animating(c)
    ensures WellFormed(r) && Animating(r) && r.activeTween == c.activeTween
  {
    var r := SettledBrightnessStep(c, value, true).0;
    assert Animating(BrightnessStep(c, value, true).0);
    forall i | 0 <= i < |r.settlements| ensures r.settlements[i].id != c.activeTween.value.deferred {
      if i < |c.settlements| {
        assert r.settlements[i] == c.settlements[i];
      }
    }
    r
  }

  /** A tween's end with the corrected promises. */
  function SettledCompleteStep(c: Channel): (r: Channel)
    requires WellFormed(c) && Animating(c)
    ensures WellFormed(r) && !Animating(r)
    ensures r.brightness == c.activeTween.value.to
  {
    var t := c.activeTween.value;
    var c1 := SettledTickStep(c, t.to);
    var c2 := c1.(activeTween := Some(t.(status := Completed)));
    AppendSettlement(c2, Resolved(t.deferred));
    c2.(settlements := c2.settlements + [Resolved(t.deferred)])
  }

  /** Every deferred handed out is settled, or held by the running tween. */
  predicate NoOrphans(c: Channel)
  {
    forall id: nat :: id < c.nextDeferred ==> Settled(c, id) || (Animating(c) && c.activeTween.value.deferred == id)
  }

  /** With the correction a tween's updates and its end leave no orphan behind either. */
  lemma CorrectedTweenSettlesEveryPromise(c: Channel, value: int)
    requires WellFormed(c) && NoOrphans(c) && Animating(c)
    ensures NoOrphans(SettledTickStep(c, value)) && NoOrphans(SettledCompleteStep(c))
  {
    SettledStepKeepsSettled(c, value, true);
    var t := c.activeTween.value;
    SettledStepKeepsSettled(c, t.to, true);
    var d := SettledCompleteStep(c);
    forall id: nat | id < d.nextDeferred ensures Settled(d, id) {
      if id == t.deferred {
        assert d.settlements[|d.settlements| - 1].id == id;
      } else {
        var c1 := SettledTickStep(c, t.to);
        assert Settled(c1, id);
        var i :| 0 <= i < |c1.settlements| && c1.settlements[i].id == id;
        assert d.settlements[i] == c1.settlements[i];
      }
    }
  }

  /** Settlements are only ever appended, so a settled deferred stays settled. */
  lemma SettledKept(c: Channel, d: Channel, id: nat)
    requires |c.settlements| <= |d.settlements| && d.settlements[..|c.settlements|] == c.settlements
    requires Settled(c, id)
    ensures Settled(d, id)
  {
    var i :| 0 <= i < |c.settlements| && c.settlements[i].id == id;
    assert d.settlements[i] == d.settlements[..|c.settlements|][i];
  }

  /** With the correction every promise settles: a call keeps every settlement and settles what it hands out, but a new tween's. */
  lemma SettledStepKeepsSettled(c: Channel, value: int, isTransitioning: bool)
    requires WellFormed(c) && NoOrphans(c)
    ensures NoOrphans(SettledBrightnessStep(c, value, isTransitioning).0)
  {
    if c.isPwm && c.brightness == value {
    } else if Timed(c) && !isTransitioning {
      TimedStepKeepsSettled(c, value);
    } else {
      ImmediateStepKeepsSettled(c, value, isTransitioning);
    }
  }

  /** What a corrected call that starts a tween leaves: the old tween's rejection, the new tween running. */
  lemma TimedStepShape(c: Channel, value: int)
    requires WellFormed(c) && Timed(c) && !(c.isPwm && c.brightness == value)
    ensures var r := SettledBrightnessStep(c, value, false).0;
      && r.nextDeferred == c.nextDeferred + 1
      && Animating(r) && r.activeTween.value.deferred == c.nextDeferred
      && r.settlements == c.settlements + (if Animating(c) then [Rejected(c.activeTween.value.deferred)] else [])
  {
    assert SettledBrightnessStep(c, value, false).0 == BrightnessStep(c, value, false).0;
  }

  lemma TimedStepKeepsSettled(c: Channel, value: int)
    requires WellFormed(c) && NoOrphans(c) && Timed(c) && !(c.isPwm && c.brightness == value)
    ensures NoOrphans(SettledBrightnessStep(c, value, false).0)
  {
    var r := SettledBrightnessStep(c, value, false).0;
    TimedStepShape(c, value);
    assert r.settlements[..|c.settlements|] == c.settlements;
    forall id: nat | id < r.nextDeferred
      ensures Settled(r, id) || (Animating(r) && r.activeTween.value.deferred == id)
    {
      if id == c.nextDeferred {
      } else if Settled(c, id) {
        SettledKept(c, r, id);
      } else {
        assert r.settlements[|r.settlements| - 1].id == id;
      }
    }
  }

  lemma ImmediateStepKeepsSettled(c: Channel, value: int, isTransitioning: bool)
    requires WellFormed(c) && NoOrphans(c) && !(Timed(c) && !isTransitioning)
    requires !(c.isPwm && c.brightness == value)
    ensures NoOrphans(SettledBrightnessStep(c, value, isTransitioning).0)
  {
    var c1 := BrightnessStep(c, value, isTransitioning).0;
    var r := SettledBrightnessStep(c, value, isTransitioning).0;
    assert r.settlements == c.settlements + [Resolved(c.nextDeferred)];
    assert r.settlements[..|c.settlements|] == c.settlements;
    assert r.activeTween == c.activeTween;
    forall id: nat | id < r.nextDeferred
      ensures Settled(r, id) || (Animating(r) && r.activeTween.value.deferred == id)
    {
      if id == c.nextDeferred {
        assert r.settlements[|r.settlements| - 1].id == id;
      } else if Settled(c, id) {
        SettledKept(c, r, id);
      }
    }
  }

  // ---------------------------------------------------------------- the LED object

  /** The instance `create(pin, opts)` returns, with its closure variables as fields. */
  class Led {
    const pin: int
    const reverse: bool
    var isPwm: bool
    var brightness: int
    var activeTween: Option<Tween>
    var globalTransitions: Options
    /** The wiring-pi calls made on the pin, oldest first. */
    var writes: seq<PinWrite>
    /** The settlements of the deferreds handed out, in order. */
    var settlements: seq<Settlement>
    var nextDeferred: nat

    function State(): Channel
      reads this
    {
      Channel(reverse, isPwm, brightness, activeTween, globalTransitions, writes, settlements, nextDeferred)
    }

    ghost predicate Valid()
      reads this
    {
      WellFormed(State())
    }

    /** `create(pin, { reverse })`; the wiring-pi setup and pin mode are not modelled. */
    constructor (pin: int, reverse: bool)
      ensures Valid() && this.pin == pin && State() == Initial(reverse)
    {
      this.pin := pin;
      this.reverse := reverse;
      isPwm := false;
      brightness := 0;
      activeTween := None;
      globalTransitions := map[];
      writes := [];
      settlements := [];
      nextDeferred := 0;
    }

    /** `brightness()`: the current value. */
    function Brightness(): (value: int)
      reads this
      ensures value == State().brightness
    {
      brightness
    }

    /** `write(value)` */
    method Write(value: int)
      requires Valid()
      modifies this
      ensures Valid() && State() == WriteStep(old(State()), value)
    {
      ghost var target := WriteStep(State(), value);
      if isPwm {
        writes := writes + [PwmWrite(PwmValue(reverse, value))];
      } else {
        writes := writes + [DigitalWrite(if value == 0 then OffLevel(reverse) else OnLevel(reverse))];
      }
      brightness := value;
      assert State() == target;
    }

    /** `brightness(value, isTransitioning)` */
    method SetBrightness(value: int, isTransitioning: bool) returns (done: Completion)
      requires Valid()
      modifies this
      ensures Valid() && (State(), done) == BrightnessStep(old(State()), value, isTransitioning)
    {
      if isPwm && brightness == value {
        return AlreadyResolved;
      }
      var id := nextDeferred;
      SwitchMode(value);
      TweenOrWrite(value, isTransitioning);
      done := Pending(id);
    }

    /** The first half of `brightness(value)`: the digital write or the lazy PWM setup. */
    method SwitchMode(value: int)
      requires Valid()
      modifies this
      ensures Valid() && State() == ModeStep(old(State()), value)
    {
      if !isPwm && (value == 0 || value == PwmRange) && !OptionSet(globalTransitions, "duration") {
        Write(value);
      } else if !isPwm {
        ghost var target := EnablePwm(State());
        writes := writes + [PwmSetup(reverse)];
        isPwm := true;
        assert State() == target;
      }
    }

    /** The second half of `brightness(value)`: a new deferred, then a new tween or a PWM write. */
    method TweenOrWrite(value: int, isTransitioning: bool)
      requires Valid() && (Timed(State()) && !isTransitioning ==> isPwm)
      modifies this
      ensures Valid() && State() == TweenOrWriteStep(old(State()), value, isTransitioning)
    {
      if OptionSet(globalTransitions, "duration") && !isTransitioning {
        StopTween();
        ghost var target := StartTween(State(), value);
        activeTween := Some(Tween(brightness, value, nextDeferred, Running));
        nextDeferred := nextDeferred + 1;
        assert State() == target;
      } else {
        nextDeferred := nextDeferred + 1;
        assert State() == HandOut(old(State()));
        if isPwm {
          Write(value);
        }
      }
    }

    /** `activeTween.stop()`, whose `onStop` rejects the tween's promise. */
    method StopTween()
      requires Valid()
      modifies this
      ensures Valid() && State() == StopStep(old(State()))
    {
      if activeTween.Some? && activeTween.value.status == Running {
        settlements := settlements + [Rejected(activeTween.value.deferred)];
        activeTween := Some(activeTween.value.(status := Stopped));
      }
    }

    /** `on()` */
    method On() returns (done: Completion)
      requires Valid()
      modifies this
      ensures Valid() && (State(), done) == BrightnessStep(old(State()), PwmRange, false)
    {
      done := SetBrightness(PwmRange, false);
    }

    /** `off()` */
    method Off() returns (done: Completion)
      requires Valid()
      modifies this
      ensures Valid() && (State(), done) == BrightnessStep(old(State()), 0, false)
    {
      done := SetBrightness(0, false);
    }

    /** `destroy()`: the same as `off()`. */
    method Destroy() returns (done: Completion)
      requires Valid()
      modifies this
      ensures Valid() && (State(), done) == BrightnessStep(old(State()), 0, false)
    {
      done := Off();
    }

    /** `transitions()`: a copy of the defaults. */
    function Transitions(): (defaults: Options)
      reads this
      ensures defaults == State().transitions
    {
      globalTransitions
    }

    /** `transitions(params)` */
    method SetTransitions(params: Options)
      requires Valid()
      modifies this
      ensures Valid() && State() == TransitionsStep(old(State()), params)
    {
      globalTransitions := Merge(globalTransitions, params);
    }

    /** The running tween's `onUpdate` with the rounded interpolated value. */
    method TweenUpdate(value: int)
      requires Valid() && Animating(State())
      modifies this
      ensures Valid() && State() == TickStep(old(State()), value)
    {
      var _ := SetBrightness(value, true);
    }

    /** The running tween reaches its target: a last `onUpdate`, then `onComplete`. */
    method TweenComplete()
      requires Valid() && Animating(State())
      modifies this
      ensures Valid() && State() == CompleteStep(old(State()))
    {
      var t := activeTween.value;
      var _ := SetBrightness(t.to, true);
      activeTween := Some(t.(status := Completed));
      settlements := settlements + [Resolved(t.deferred)];
    }
  }
}
