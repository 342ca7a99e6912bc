/**
 * lib/rgb.js: the older RGB LED, one older LED per colour pin. Colours are
 * all-or-nothing: a channel value of exactly 0 switches its LED off, anything
 * else (including a missing value) switches it on.
 */
module LegacyRgb {
  import ComponentLed
  import LegacyLed

  /** `rgb[index] === 0`: channel i is given and is exactly 0. */
  predicate SwitchesOff(rgb: seq<int>, i: int)
  {
    0 <= i < |rgb| && rgb[i] == 0
  }

  /** What `colour(rgb)` does to LED i: `off()` for a 0 channel, `on()` otherwise. */
  function ColourStep(c: LegacyLed.LegacyChannel, rgb: seq<int>, i: nat): (r: LegacyLed.LegacyChannel)
    requires LegacyLed.WellFormed(c)
    ensures LegacyLed.WellFormed(r) && |r.writes| == |c.writes| + 1
    // The LED is dark afterwards exactly when its channel is 0, or when it shows a stored brightness of 0.
    ensures ComponentLed.Shown(c.reverse, r.writes[|c.writes|]) == 0 <==>
      SwitchesOff(rgb, i) || (c.isPwm && c.brightness == 0)
  {
    if SwitchesOff(rgb, i) then LegacyLed.OffStep(c) else LegacyLed.OnStep(c)
  }

  /** A channel left out of the colour array reads `undefined`, which is not 0: that LED goes on. */
  lemma MissingChannelSwitchesOn(c: LegacyLed.LegacyChannel, rgb: seq<int>, i: nat)
    requires LegacyLed.WellFormed(c) && |rgb| <= i
    ensures ColourStep(c, rgb, i) == LegacyLed.OnStep(c)
  {
  }

  /** `rgb.map(pin => led.create(pin, opts))`: a new LED per pin, in order. */
  method NewLeds(pins: seq<int>, reverse: bool) returns (made: seq<LegacyLed.Led>)
    ensures |made| == |pins|
    ensures forall j, k :: 0 <= j < k < |made| ==> made[j] != made[k]
    ensures forall j :: 0 <= j < |made| ==> fresh(made[j])
    ensures forall j :: 0 <= j < |made| ==> made[j].pin == pins[j] && made[j].State() == LegacyLed.Initial(reverse)
  {
    made := [];
    var i := 0;
    while i < |pins|
      invariant 0 <= i <= |pins| && |made| == i
      invariant forall j, k :: 0 <= j < k < i ==> made[j] != made[k]
      invariant forall j :: 0 <= j < i ==> fresh(made[j])
      invariant forall j :: 0 <= j < i ==> made[j].pin == pins[j] && made[j].State() == LegacyLed.Initial(reverse)
    {
      var led := new LegacyLed.Led(pins[i], reverse);
      made := made + [led];
      i := i + 1;
    }
  }

  /** The instance `create(rgb, opts)` returns. */
  class Rgb {
    /** One LED per colour pin, in the order of the pins. */
    const leds: seq<LegacyLed.Led>

    ghost predicate Valid()
      reads this, leds
    {
      && (forall i, j :: 0 <= i < j < |leds| ==> leds[i] != leds[j])
      && (forall i :: 0 <= i < |leds| ==> leds[i].Valid())
    }

    /** `create(rgb, { reverse })`: an LED per pin (each turned off on creation), then `off()`. */
    constructor (pins: seq<int>, reverse: bool)
      ensures Valid() && |leds| == |pins|
      ensures forall i :: 0 <= i < |pins| ==> fresh(leds[i]) && leds[i].pin == pins[i]
      ensures forall i :: 0 <= i < |pins| ==> leds[i].State() == LegacyLed.OffStep(LegacyLed.Initial(reverse))
    {
      var made := NewLeds(pins, reverse);
      leds := made;
      new;
      Off();
    }

    /** Calls `off()` on LED i where `off[i]` holds and `on()` on the others, in pin order. */
    method SwitchEach(off: seq<bool>)
      requires Valid() && |off| == |leds|
      modifies leds
      ensures Valid()
      ensures forall i :: 0 <= i < |leds| ==>
        leds[i].State() == if off[i] then LegacyLed.OffStep(old(leds[i].State())) else LegacyLed.OnStep(old(leds[i].State()))
    {
      var i := 0;
      while i < |leds|
        invariant 0 <= i <= |leds| && Valid()
        invariant forall j :: 0 <= j < i ==>
          leds[j].State() == if off[j] then LegacyLed.OffStep(old(leds[j].State())) else LegacyLed.OnStep(old(leds[j].State()))
        invariant forall j :: i <= j < |leds| ==> leds[j].State() == old(leds[j].State())
      {
        SwitchAt(i, off[i]);
        i := i + 1;
      }
    }

    /** `off()` or `on()` on LED i alone; the other LEDs are left as they are. */
    method SwitchAt(i: nat, off: bool)
      requires Valid() && i < |leds|
      modifies leds[i]
      ensures Valid()
      ensures leds[i].State() == if off then LegacyLed.OffStep(old(leds[i].State())) else LegacyLed.OnStep(old(leds[i].State()))
      ensures forall j :: 0 <= j < |leds| && j != i ==> leds[j].State() == old(leds[j].State())
    {
      if off {
        leds[i].Off();
      } else {
        leds[i].On();
      }
      assert forall j :: 0 <= j < |leds| && j != i ==> leds[j] != leds[i];
    }

    /** `on()`: every LED on, in pin order. */
    method On()
      requires Valid()
      modifies leds
      ensures Valid()
      ensures forall i :: 0 <= i < |leds| ==> leds[i].State() == LegacyLed.OnStep(old(leds[i].State()))
    {
      SwitchEach(seq(|leds|, _ => false));
    }

    /** `off()`: every LED off, in pin order. */
    method Off()
      requires Valid()
      modifies leds
      ensures Valid()
      ensures forall i :: 0 <= i < |leds| ==> leds[i].State() == LegacyLed.OffStep(old(leds[i].State()))
    {
      SwitchEach(seq(|leds|, _ => true));
    }

    /** `colour(rgb)`: LED i off when channel i is exactly 0, on otherwise. */
    method Colour(rgb: seq<int>)
      requires Valid()
      modifies leds
      ensures Valid()
      ensures forall i :: 0 <= i < |leds| ==> leds[i].State() == ColourStep(old(leds[i].State()), rgb, i)
    {
      SwitchEach(seq(|leds|, i => SwitchesOff(rgb, i)));
    }

    /** `destroy()`: every LED destroyed, that is turned off. */
    method Destroy()
      requires Valid()
      modifies leds
      ensures Valid()
      ensures forall i :: 0 <= i < |leds| ==> leds[i].State() == LegacyLed.OffStep(old(leds[i].State()))
    {
      SwitchEach(seq(|leds|, _ => true));
    }
  }
}
