/**
 * lib/led.js: the older LED. Its brightness is only stored (starting at 100);
 * the first `brightness(value)` sets the pin up for software PWM, and `on()`
 * writes the stored brightness from then on. Polarity, the PWM range and the
 * pin calls are those of the component LED.
 */
module LegacyLed {
  import ComponentLed

  /** The closure state: polarity, PWM flag, stored brightness and the pin's call log. */
  datatype LegacyChannel = LegacyChannel(reverse: bool, isPwm: bool, brightness: int, writes: seq<ComponentLed.PinWrite>)

  /** Digital writes, then at most one PWM setup, then PWM writes only; the flag says which part we are in. */
  predicate WellFormed(c: LegacyChannel)
  {
    && ComponentLed.WriteLogShape(c.writes)
    && (forall i :: 0 <= i < |c.writes| && c.writes[i].PwmCreate? ==> c.writes[i] == ComponentLed.PwmSetup(c.reverse))
    && (c.isPwm <==> ComponentLed.EndsInPwm(c.writes))
  }

  /** `on()`: the stored brightness in PWM mode, the digital on level otherwise. */
  function OnStep(c: LegacyChannel): (r: LegacyChannel)
    requires WellFormed(c)
    ensures WellFormed(r)
    ensures r == c.(writes := r.writes) && |r.writes| == |c.writes| + 1 && r.writes[..|c.writes|] == c.writes
    ensures ComponentLed.Shown(c.reverse, r.writes[|c.writes|]) == if c.isPwm then c.brightness else ComponentLed.PwmRange
  {
    var w := if c.isPwm then ComponentLed.PwmWrite(ComponentLed.PwmValue(c.reverse, c.brightness)) else ComponentLed.DigitalWrite(ComponentLed.OnLevel(c.reverse));
    var r := c.(writes := c.writes + [w]);
    assert r.writes[..|c.writes|] == c.writes;
    assert forall i :: 0 <= i < |c.writes| ==> r.writes[i] == c.writes[i];
    r
  }

  /** `off()`: duty `pwmValue(0)` in PWM mode, the digital off level otherwise. */
  function OffStep(c: LegacyChannel): (r: LegacyChannel)
    requires WellFormed(c)
    ensures WellFormed(r)
    ensures r == c.(writes := r.writes) && |r.writes| == |c.writes| + 1 && r.writes[..|c.writes|] == c.writes
    ensures ComponentLed.Shown(c.reverse, r.writes[|c.writes|]) == 0
  {
    var w := if c.isPwm then ComponentLed.PwmWrite(ComponentLed.PwmValue(c.reverse, 0)) else ComponentLed.DigitalWrite(ComponentLed.OffLevel(c.reverse));
    var r := c.(writes := c.writes + [w]);
    assert r.writes[..|c.writes|] == c.writes;
    assert forall i :: 0 <= i < |c.writes| ==> r.writes[i] == c.writes[i];
    r
  }

  /** `brightness(value)`: PWM set up the first time, the value stored, nothing else written. */
  function BrightnessStep(c: LegacyChannel, value: int): (r: LegacyChannel)
    requires WellFormed(c)
    ensures WellFormed(r) && r.isPwm && r.brightness == value && r.reverse == c.reverse
    ensures r.writes == c.writes + (if c.isPwm then [] else [ComponentLed.PwmSetup(c.reverse)])
  {
    var r := c.(isPwm := true, brightness := value, writes := c.writes + (if c.isPwm then [] else [ComponentLed.PwmSetup(c.reverse)]));
    assert forall i :: 0 <= i < |c.writes| ==> r.writes[i] == c.writes[i];
    r
  }

  /** The state `create(pin, opts)` leaves: brightness 100, digital, and one `off()` write. */
  function Initial(reverse: bool): (c: LegacyChannel)
    ensures WellFormed(c) && c.brightness == 100 && !c.isPwm
    ensures c.writes == [ComponentLed.DigitalWrite(ComponentLed.OffLevel(reverse))]
  {
    OffStep(LegacyChannel(reverse, false, 100, []))
  }

  // ---------------------------------------------------------------- properties

  /** The pin is set up for PWM at most once, and exactly once after a `brightness(value)`. */
  lemma PwmSetUpAtMostOnce(c: LegacyChannel)
    requires WellFormed(c)
    ensures ComponentLed.PwmSetups(c.writes) == if c.isPwm then 1 else 0
  {
    ComponentLed.SetupCount(c.writes);
  }

  /** A stored brightness shows on the next `on()`, whatever the polarity. */
  lemma OnShowsStoredBrightness(c: LegacyChannel, value: int)
    requires WellFormed(c)
    ensures var r := OnStep(BrightnessStep(c, value));
      ComponentLed.Shown(c.reverse, r.writes[|r.writes| - 1]) == value
  {
  }

  /** The first `brightness(value)` darkens the pin: the PWM setup starts at the off level. */
  lemma FirstBrightnessDarkens(c: LegacyChannel, value: int)
    requires WellFormed(c) && !c.isPwm
    ensures var r := BrightnessStep(c, value);
      ComponentLed.Shown(c.reverse, r.writes[|r.writes| - 1]) == 0
  {
  }

  /** On a reversed LED the off duty is 100, and a PWM `on()` writes 100 minus the brightness. */
  lemma ReversedDuties(c: LegacyChannel)
    requires WellFormed(c) && c.reverse && c.isPwm
    ensures OffStep(c).writes[|c.writes|] == ComponentLed.PwmWrite(100)
    ensures OnStep(c).writes[|c.writes|] == ComponentLed.PwmWrite(100 - c.brightness)
  {
  }

  // ---------------------------------------------------------------- the LED object

  /** The instance `create(pin, opts)` returns. */
  class Led {
    const pin: int
    const reverse: bool
    var isPwm: bool
    var brightness: int
    /** The wiring-pi calls made on the pin, oldest first. */
    var writes: seq<ComponentLed.PinWrite>

    function State(): LegacyChannel
      reads this
    {
      LegacyChannel(reverse, isPwm, brightness, writes)
    }

    ghost predicate Valid()
      reads this
    {
      WellFormed(State())
    }

    /** `create(pin, { reverse })`: ends with `off()`; wiring-pi setup and pin mode are not modelled. */
    constructor (pin: int, reverse: bool)
      ensures Valid() && this.pin == pin && State() == Initial(reverse)
    {
      this.pin := pin;
      this.reverse := reverse;
      isPwm := false;
      brightness := 100;
      writes := [];
      new;
      Off();
    }

    /** `brightness()` */
    function Brightness(): (value: int)
      reads this
      ensures value == State().brightness
    {
      brightness
    }

    /** `on()` */
    method On()
      requires Valid()
      modifies this
      ensures Valid() && State() == OnStep(old(State()))
    {
      if isPwm {
        writes := writes + [ComponentLed.PwmWrite(ComponentLed.PwmValue(reverse, brightness))];
      } else {
        writes := writes + [ComponentLed.DigitalWrite(ComponentLed.OnLevel(reverse))];
      }
    }

    /** `off()` */
    method Off()
      requires Valid()
      modifies this
      ensures Valid() && State() == OffStep(old(State()))
    {
      if isPwm {
        writes := writes + [ComponentLed.PwmWrite(ComponentLed.PwmValue(reverse, 0))];
      } else {
        writes := writes + [ComponentLed.DigitalWrite(ComponentLed.OffLevel(reverse))];
      }
    }

    /** `brightness(value)` */
    method SetBrightness(value: int)
      requires Valid()
      modifies this
      ensures Valid() && State() == BrightnessStep(old(State()), value)
    {
      if !isPwm {
        writes := writes + [ComponentLed.PwmSetup(reverse)];
        isPwm := true;
      }
      brightness := value;
    }

    /** `destroy()`: the same as `off()`. */
    method Destroy()
      requires Valid()
      modifies this
      ensures Valid() && State() == OffStep(old(State()))
    {
      Off();
    }
  }
}
