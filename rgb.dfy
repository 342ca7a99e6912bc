/**
 * lib/components/rgb.js: an RGB LED made of one component LED per colour pin.
 * A colour is given as 0-255 channel values, each scaled to a brightness
 * percentage; every operation fans out to the LEDs and gathers their promises.
 */
module ComponentRgb {
  import opened Wrappers
  import opened ComponentUtils
  import ComponentLed

  // ---------------------------------------------------------------- scaling

  /** `scale(val, domain, range)` in exact arithmetic. */
  function Scale(val: real, domain: real, range: real): (r: real)
    requires domain != 0.0
    ensures r * domain == val * range
  {
    val / domain * range
  }

  /** `Math.round(x)`: the nearest integer, a half rounded up. */
  function JsRound(x: real): (n: int)
    ensures n as real - 0.5 <= x < n as real + 0.5
  {
    (x + 0.5).Floor
  }

  /** `rgbToPercentage(value)`: a 0-255 channel value as the nearest whole percentage. */
  function RgbToPercentage(value: int): (p: int)
    // p is the nearest percentage: |p/100 - value/255| is at most half a percent, ties upward.
    ensures 510 * p - 255 <= 200 * value < 510 * p + 255
  {
    var x := Scale(value as real, 255.0, 100.0);
    var p := JsRound(x);
    assert x * 255.0 == value as real * 100.0;
    assert 510.0 * p as real - 255.0 <= 200.0 * value as real < 510.0 * p as real + 255.0;
    p
  }

  /** The nearest-percentage bound pins the result down to one closed form. */
  lemma PercentageClosedForm(value: int)
    ensures RgbToPercentage(value) == (200 * value + 255) / 510
  {
    var p := RgbToPercentage(value);
    var q := (200 * value + 255) / 510;
    assert 510 * q <= 200 * value + 255 < 510 * q + 510;
  }

  /** Brighter channel values never give a lower percentage. */
  lemma PercentageMonotone(a: int, b: int)
    requires a <= b
    ensures RgbToPercentage(a) <= RgbToPercentage(b)
  {
    PercentageClosedForm(a);
    PercentageClosedForm(b);
  }

  /** The channel range 0..255 lands in 0..100, with both ends and the midpoint exact. */
  lemma PercentageRange(value: int)
    requires 0 <= value <= 255
    ensures 0 <= RgbToPercentage(value) <= 100
    ensures RgbToPercentage(0) == 0 && RgbToPercentage(255) == 100 && RgbToPercentage(128) == 50
  {
    PercentageMonotone(0, value);
    PercentageMonotone(value, 255);
    PercentageClosedForm(0);
    PercentageClosedForm(128);
    PercentageClosedForm(255);
  }

  // ---------------------------------------------------------------- the RGB object

  /**
   * What `promise.all(x)` returns: over a list of the LEDs' promises it settles
   * once they all have (rejecting on the first rejection); one built over
   * `undefined` is not built over the LEDs' promises and does not wait for them.
   */
  datatype Composite = All(parts: seq<ComponentLed.Completion>) | NotIterable

  /** `rgb.map(pin => led.create(pin, opts))`: a new LED per pin, in order. */
  method NewLeds(pins: seq<int>, reverse: bool) returns (made: seq<ComponentLed.Led>)
    ensures |made| == |pins|
    ensures forall j, k :: 0 <= j < k < |made| ==> made[j] != made[k]
    ensures forall j :: 0 <= j < |made| ==> fresh(made[j])
    ensures forall j :: 0 <= j < |made| ==> made[j].pin == pins[j] && made[j].State() == ComponentLed.Initial(reverse)
  {
    made := [];
    var i := 0;
    while i < |pins|
      invariant 0 <= i <= |pins| && |made| == i
      invariant forall j, k :: 0 <= j < k < i ==> made[j] != made[k]
      invariant forall j :: 0 <= j < i ==> fresh(made[j])
      invariant forall j :: 0 <= j < i ==> made[j].pin == pins[j] && made[j].State() == ComponentLed.Initial(reverse)
    {
      var led := new ComponentLed.Led(pins[i], reverse);
      made := made + [led];
      i := i + 1;
    }
  }

  /** The instance `create(rgb, opts)` returns. */
  class Rgb {
    /** One LED per colour pin, in the order of the pins. */
    const leds: seq<ComponentLed.Led>

    ghost predicate Valid()
      reads this, leds
    {
      && (forall i, j :: 0 <= i < j < |leds| ==> leds[i] != leds[j])
      && (forall i :: 0 <= i < |leds| ==> leds[i].Valid())
    }

    /** `create(rgb, { reverse })`: an LED per pin, then `off()`. */
    constructor (pins: seq<int>, reverse: bool)
      ensures Valid() && |leds| == |pins|
      ensures forall i :: 0 <= i < |pins| ==> fresh(leds[i]) && leds[i].pin == pins[i]
      // Each LED was created dark and then turned off: one digital write of the off level.
      ensures forall i :: 0 <= i < |pins| ==>
        leds[i].State() == ComponentLed.BrightnessStep(ComponentLed.Initial(reverse), 0, false).0
    {
      var made := NewLeds(pins, reverse);
      leds := made;
      new;
      var _ := Off();
    }

    /** Calls `brightness(values[i])` on LED i, in order, and gathers the promises. */
    method BrightnessEach(values: seq<int>) returns (parts: seq<ComponentLed.Completion>)
      requires Valid() && |values| == |leds|
      modifies leds
      ensures Valid() && |parts| == |leds|
      ensures forall i :: 0 <= i < |leds| ==>
        (leds[i].State(), parts[i]) == ComponentLed.BrightnessStep(old(leds[i].State()), values[i], false)
    {
      parts := [];
      var i := 0;
      while i < |leds|
        invariant 0 <= i <= |leds| && |parts| == i && Valid()
        invariant forall j :: 0 <= j < i ==>
          (leds[j].State(), parts[j]) == ComponentLed.BrightnessStep(old(leds[j].State()), values[j], false)
        invariant forall j :: i <= j < |leds| ==> leds[j].State() == old(leds[j].State())
      {
        var done := BrightnessAt(i, values[i]);
        parts := parts + [done];
        i := i + 1;
      }
    }

    /** `brightness(value)` on LED i alone; the other LEDs are left as they are. */
    method BrightnessAt(i: nat, value: int) returns (done: ComponentLed.Completion)
      requires Valid() && i < |leds|
      modifies leds[i]
      ensures Valid()
      ensures (leds[i].State(), done) == ComponentLed.BrightnessStep(old(leds[i].State()), value, false)
      ensures forall j :: 0 <= j < |leds| && j != i ==> leds[j].State() == old(leds[j].State())
    {
      done := leds[i].SetBrightness(value, false);
      assert forall j :: 0 <= j < |leds| && j != i ==> leds[j] != leds[i];
    }

    /** `on()`: every LED on, and a promise over all of theirs. */
    method On() returns (done: Composite)
      requires Valid()
      modifies leds
      ensures Valid() && done.All? && |done.parts| == |leds|
      ensures forall i :: 0 <= i < |leds| ==>
        (leds[i].State(), done.parts[i]) == ComponentLed.BrightnessStep(old(leds[i].State()), ComponentLed.PwmRange, false)
    {
      var parts := BrightnessEach(seq(|leds|, _ => ComponentLed.PwmRange));
      done := All(parts);
    }

    /**
     * `off()` as written: every LED off, but `forEach` hands `promise.all`
     * `undefined`, so the returned promise is not built over the LEDs' promises.
     */
    method Off() returns (done: Composite)
      requires Valid()
      modifies leds
      ensures Valid() && done == NotIterable
      ensures forall i :: 0 <= i < |leds| ==>
        leds[i].State() == ComponentLed.BrightnessStep(old(leds[i].State()), 0, false).0
    {
      var _ := BrightnessEach(seq(|leds|, _ => 0));
      done := NotIterable;
    }

    /** `off()` as evidently intended: a promise over the LEDs' own, as `on()` gives. */
    method OffAwaitingLeds() returns (done: Composite)
      requires Valid()
      modifies leds
      ensures Valid() && done.All? && |done.parts| == |leds|
      ensures forall i :: 0 <= i < |leds| ==>
        (leds[i].State(), done.parts[i]) == ComponentLed.BrightnessStep(old(leds[i].State()), 0, false)
    {
      var parts := BrightnessEach(seq(|leds|, _ => 0));
      done := All(parts);
    }

    /** `colour(rgb)`: LED i goes to the percentage of channel value i. */
    method Colour(rgb: seq<int>) returns (done: Composite)
      requires Valid() && |rgb| >= |leds|
      modifies leds
      ensures Valid() && done.All? && |done.parts| == |leds|
      ensures forall i :: 0 <= i < |leds| ==>
        (leds[i].State(), done.parts[i]) == ComponentLed.BrightnessStep(old(leds[i].State()), RgbToPercentage(rgb[i]), false)
    {
      var parts := BrightnessEach(seq(|leds|, i requires 0 <= i < |leds| => RgbToPercentage(rgb[i])));
      done := All(parts);
    }

    /** `transitions(params)`: the same parameters are merged into every LED's defaults. */
    method SetTransitions(params: Options)
      requires Valid()
      modifies leds
      ensures Valid()
      ensures forall i :: 0 <= i < |leds| ==>
        leds[i].State() == ComponentLed.TransitionsStep(old(leds[i].State()), params)
    {
      var i := 0;
      while i < |leds|
        invariant 0 <= i <= |leds| && Valid()
        invariant forall j :: 0 <= j < i ==>
          leds[j].State() == ComponentLed.TransitionsStep(old(leds[j].State()), params)
        invariant forall j :: i <= j < |leds| ==> leds[j].State() == old(leds[j].State())
      {
        TransitionsAt(i, params);
        i := i + 1;
      }
    }

    /** `transitions(params)` on LED i alone; the other LEDs are left as they are. */
    method TransitionsAt(i: nat, params: Options)
      requires Valid() && i < |leds|
      modifies leds[i]
      ensures Valid()
      ensures leds[i].State() == ComponentLed.TransitionsStep(old(leds[i].State()), params)
      ensures forall j :: 0 <= j < |leds| && j != i ==> leds[j].State() == old(leds[j].State())
    {
      leds[i].SetTransitions(params);
      assert forall j :: 0 <= j < |leds| && j != i ==> leds[j] != leds[i];
    }

    /** `destroy()`: every LED destroyed, that is turned off, and a promise over all of theirs. */
    method Destroy() returns (done: Composite)
      requires Valid()
      modifies leds
      ensures Valid() && done.All? && |done.parts| == |leds|
      ensures forall i :: 0 <= i < |leds| ==>
        (leds[i].State(), done.parts[i]) == ComponentLed.BrightnessStep(old(leds[i].State()), 0, false)
    {
      var parts := BrightnessEach(seq(|leds|, _ => 0));
      done := All(parts);
    }
  }
}
