# physical-ui drivers, modelled in Dafny

This project models the peripheral drivers of radiodan/physical-ui. These
drivers turn GPIO pin activity into events and brightness commands into pin
writes. The model covers:

- **Rotary encoder decoding.** There are three readState algorithms:
  - the newer delta algorithm, which keeps a step history and resolves double steps;
  - the older delta algorithm, which uses JavaScript's truncating `%`;
  - the default 16-entry transition table.

  An aggregator keeps the decoded steps since the last 0 reading; a 0 empties
  it. After a reading, when the count of steps it holds is a positive multiple
  of four and their sum is non-zero, it emits a `turn` event in the direction
  of the sum's sign. The older delta algorithm's clockwise cycle (1, 1, 1, -3)
  therefore never emits, and the transition table's string results fail the
  aggregator's integer check.
- **The component LED.** It starts in digital mode and switches to software PWM when a value needs it. It can animate a change with a tween, and it hands out a promise for every brightness change.
- **The component RGB LED.** It has one component LED per colour pin, and it scales 0-255 channel values to percentages.
- **The component button.** It emits `change` and `press`/`release` events, and periodic `hold` events while it is pressed.
- **The component utilities.** These are the easing-name resolver, `clone` and `merge`.
- **The older LED and RGB LED.** The older LED stores a brightness; `on()` writes it through PWM once PWM is on, and full brightness otherwise. The older RGB LED's `colour` switches each channel's LED all-or-nothing: off for a 0 channel, on otherwise.

Each driver with closure state is a Dafny `class` whose fields are the closure variables:

- the wiring-pi calls made on a pin are kept in a `writes` log;
- promise settlements and timer calls are kept as logs too;
- pin reads, the clock (`Date.now()`) and the values a tween produces are parameters.

Each method is proved against a pure step function over a state datatype
(`ensures State() == Step(old(State()))`). The properties the source promises
are proved about those step functions as lemmas and as invariants that the
methods keep.

Modules, one per source file:

| module | source |
|---|---|
| `QuadratureDelta` | lib/components/rotary-encoder/delta.js |
| `LegacyDelta` | lib/rotary-encoder/delta.js |
| `TransitionTable` | lib/rotary-encoder/default.js |
| `RotaryEncoder` | lib/rotary-encoder.js |
| `EncoderPipeline` | a decoding algorithm composed with the aggregator |
| `ComponentUtils`, `EasingExamples` | lib/components/utils.js |
| `ComponentLed` | lib/components/led.js |
| `ComponentRgb` | lib/components/rgb.js |
| `ComponentButton` | lib/components/button.js |
| `LegacyLed` | lib/led.js |
| `LegacyRgb` | lib/rgb.js |

`Wrappers` (Option, Result), `Gpio` (a pin level `Bit`, 0 or 1) and
`Rotation` (the two directions) are shared.

## Model

| member | source | states |
|---|---|---|
| QuadratureDelta.RotationSequence | lib/components/rotary-encoder/delta.js:23-31 | `(A ^ B) \| (B << 1)` lies in 0..3. It numbers the clockwise states (B A) = 00, 01, 11, 10 as 0, 1, 2, 3 (the shift is by 1, not the 2 the comment says). |
| QuadratureDelta.RotationSequenceInjective | lib/components/rotary-encoder/delta.js:23-31 | Two pin states have the same ordinal exactly when they are equal, so the ordinal is a bijection on two bits. |
| QuadratureDelta.PinsOf | lib/components/rotary-encoder/delta.js:23-31 | Every ordinal 0..3 is the ordinal of a pin state (the inverse of RotationSequence). |
| QuadratureDelta.Initial | lib/components/rotary-encoder/delta.js:3-6 | The closure starts with `lastRotationSeq` seeded from one pin read, an empty history and `lastDelta` 0. |
| QuadratureDelta.Mod4 | lib/components/rotary-encoder/delta.js:43-45 | The floored `mod(x, 4)` lies in 0..3 and is congruent to x. |
| QuadratureDelta.ReadStep | lib/components/rotary-encoder/delta.js:36-76 | For an unchanged ordinal it returns 0 and changes nothing. For a changed one it records the new ordinal and sets `lastDelta` to the result, which is never 0. A result is always in -1..2. +1 mod 4 returns 1 and 3 mod 4 returns -1, and both are appended to the history raw (1 or 3). A raw 2 is never appended; it returns the sign of the last two history entries when they agree, and 2 otherwise. |
| QuadratureDelta.ClockwiseWalk | lib/components/rotary-encoder/delta.js:45-67 | n detents clockwise from any ordinal, across the wrap, return +1 at every read and append n entries of 1 to the history. The walk 2, 3, 0, 1 is one instance. |
| QuadratureDelta.AnticlockwiseWalk | lib/components/rotary-encoder/delta.js:45-67 | n detents anticlockwise return -1 at every read and append n entries of 3 to the history. |
| QuadratureDelta.DeltaDecoder.constructor | lib/components/rotary-encoder/delta.js:3-6 | Creation reads the pins once to seed `lastRotationSeq`, with an empty history and `lastDelta` 0. |
| QuadratureDelta.DeltaDecoder.ReadState | lib/components/rotary-encoder/delta.js:36-76 | The closure update and the returned delta are exactly ReadStep, and the state invariant is kept. |
| LegacyDelta.Initial | lib/rotary-encoder/delta.js:1-3 | The closure starts with `lastRotationSeq` seeded from one pin read and `lastDelta` 0. |
| LegacyDelta.TruncMod | lib/rotary-encoder/delta.js:22 | JavaScript's `%`: the remainder has the sign of the dividend, is smaller than the divisor in magnitude, and equals x minus the quotient truncated toward zero times the divisor. |
| LegacyDelta.TruncModSmall | lib/rotary-encoder/delta.js:22 | For a difference of two ordinals (-3..3), `% 4` is the identity. |
| LegacyDelta.ReadStep | lib/rotary-encoder/delta.js:15-38 | For an unchanged ordinal it returns 0 and updates nothing. For a changed one it returns `rSeq - lastRotationSeq`, except that exactly 3 becomes -1. That result is never 0 and lies in -3..2. It then records the new ordinal and `lastDelta` is the result. |
| LegacyDelta.WrapAndDoubleStep | lib/rotary-encoder/delta.js:22-29 | The wrap from 3 to 0 returns -3. The double steps 0→2 and 2→0 return +2 and -2, unresolved. |
| LegacyDelta.AgreesWithNewerOnSingleSteps | lib/rotary-encoder/delta.js:22-24 | Away from the 3→0 wrap and double steps, the older and the newer algorithm return the same delta. |
| LegacyDelta.ClockwiseWalkAsWritten | lib/rotary-encoder/delta.js:21-24 | As written, n detents clockwise from any ordinal read +1 at every detent except the wrap from 3 to 0, which reads -3. |
| LegacyDelta.ClockwiseCycleAsWritten | lib/rotary-encoder/delta.js:22 | A clockwise cycle from any ordinal reads three +1s and one -3, at the wrap from 3 to 0; from ordinal 0 it reads 1, 1, 1, -3 (see Findings). |
| LegacyDelta.CorrectedReadStep | lib/rotary-encoder/delta.js:22-24 | With the floored modulus, one position forward (mod 4) is +1 and one back is -1, across the wrap too. |
| LegacyDelta.CorrectedClockwiseWalk | lib/rotary-encoder/delta.js:22-24 | With the floored modulus, every clockwise walk from any ordinal reads +1 at every detent. |
| LegacyDelta.LegacyDeltaDecoder.constructor | lib/rotary-encoder/delta.js:1-3 | Creation reads the pins once to seed `lastRotationSeq`, with `lastDelta` 0. |
| LegacyDelta.LegacyDeltaDecoder.ReadState | lib/rotary-encoder/delta.js:15-38 | The closure update and the returned delta are exactly ReadStep. |
| TransitionTable.Encode | lib/rotary-encoder/default.js:6-8 | `(msb << 1) \| lsb` lies in 0..3, with pin A as the high bit and pin B as the low bit. |
| TransitionTable.TableIndex | lib/rotary-encoder/default.js:12 | `(lastVal << 2) \| encoded` lies in 0..15, with the previous state in the high two bits and the current state in the low two. |
| TransitionTable.Initial | lib/rotary-encoder/default.js:2-3 | The closure starts with `position` 0 and `lastVal` 0, the encoding of both pins low. |
| TransitionTable.ReadStep | lib/rotary-encoder/default.js:5-27 | `lastVal` becomes the current encoding. Sums 13, 4, 2, 11 return clockwise and add 1 to `position`. Sums 14, 7, 1, 8 return anticlockwise and subtract 1. Any other sum returns null with `position` unchanged. `position` moves by at most 1. |
| TransitionTable.ClockwiseAnticlockwiseDisjoint | lib/rotary-encoder/default.js:14-22 | No sum is in both sets. |
| TransitionTable.NoChangeAndDoubleStepReportNothing | lib/rotary-encoder/default.js:12-26 | Repeating a state (0, 5, 10, 15) or skipping one (3, 6, 9, 12) returns null and leaves `position` alone. |
| TransitionTable.Reversible | lib/rotary-encoder/default.js:14-22 | old→new is clockwise exactly when new→old is anticlockwise. |
| TransitionTable.AgreesWithRotationSequence | lib/rotary-encoder/default.js:14-22 | The table reports clockwise exactly when the delta algorithm's ordinal moves one position forward (mod 4), and anticlockwise exactly when it moves one back. |
| TransitionTable.TableDecoder.constructor | lib/rotary-encoder/default.js:2-3 | `lastVal` and `position` start at 0. |
| TransitionTable.TableDecoder.ReadState | lib/rotary-encoder/default.js:5-27 | The closure update and the returned direction are exactly ReadStep. |
| TransitionTable.ClockwiseStep | lib/rotary-encoder/default.js:14-17 | One detent clockwise from any ordinal returns 'clockwise' and adds 1 to `position`. |
| TransitionTable.ClockwiseWalk | lib/rotary-encoder/default.js:5-27 | n detents clockwise from any ordinal return 'clockwise' at every read and add n to `position`. |
| RotaryEncoder.Sign | lib/rotary-encoder.js:73-79 | The result is 1, 0 or -1, positive exactly for positive input and negative exactly for negative input. |
| RotaryEncoder.DirectionFromHistory | lib/rotary-encoder.js:68-80 | The backwards accumulation loop returns the sign of the sum of the whole history. |
| RotaryEncoder.DirectionText | lib/rotary-encoder.js:93-99 | The result is 'clockwise' exactly for a positive number, 'anticlockwise' exactly for a negative one, and nothing for 0. |
| RotaryEncoder.ReadingOf | lib/rotary-encoder.js:51-54 | `typeof direction !== 'number'`: a JavaScript value passes exactly when it is a number, and then with its value. |
| RotaryEncoder.Broadcast | lib/rotary-encoder.js:50-66 | A non-number fails with "readState must return an integer" before the history is touched. A 0 empties the history and never emits. Any other number is appended. A turn is emitted only at a positive multiple of four entries, in the direction of the sign of the whole history's sum. |
| RotaryEncoder.HistoryIsSinceLastZero | lib/rotary-encoder.js:56-60 | Starting empty, the history always holds exactly the readings since the last zero; it is never trimmed. |
| RotaryEncoder.LatestEmission | lib/rotary-encoder.js:56-65 | The latest reading emits exactly when the count of readings since the last zero is a multiple of four and their sum is non-zero, in the direction of its sign. |
| RotaryEncoder.OnesEmitEveryFourth | lib/rotary-encoder.js:56-65 | Readings of 1 emit 'clockwise' on every fourth reading (4, 8, 12, …) and nothing otherwise. |
| RotaryEncoder.FourOnesEmitOnce | lib/rotary-encoder.js:56-65 | Four readings of 1 emit exactly one 'clockwise', on the fourth. |
| RotaryEncoder.CancellingFourEmitNothing | lib/rotary-encoder.js:56-79 | Four non-zero readings that sum to 0, such as 1, 1, 1, -3, emit nothing from an empty history. |
| RotaryEncoder.ResolveUpdateMethod | lib/rotary-encoder.js:34-115 | A missing update method means polling. 'polling' and 'interrupt' are accepted. Anything else fails with "Invalid updateMethod defined". |
| RotaryEncoder.ConfigurePullForPin | lib/rotary-encoder.js:124-131 | 'up' selects PUD_UP, 'down' selects PUD_DOWN, and any other value configures nothing. |
| RotaryEncoder.Encoder.constructor | lib/rotary-encoder.js:19 | The history starts empty. |
| RotaryEncoder.Encoder.ReadAndBroadcastState | lib/rotary-encoder.js:50-66 | The new history and the emitted direction are those of Broadcast. On failure the history is unchanged. |
| EncoderPipeline.LegacyClockwiseCycleEmitsNothing | lib/rotary-encoder.js:134-137 | With the older delta algorithm as written, a full clockwise cycle from any ordinal emits no turn. |
| EncoderPipeline.ThreeOnesAndMinusThreeEmitNothing | lib/rotary-encoder.js:56-79 | Three readings of 1 and one of -3, in any order, emit nothing from an empty history. |
| EncoderPipeline.CorrectedClockwiseCycleEmitsOneTurn | lib/rotary-encoder/delta.js:22 | With the corrected step, a full clockwise cycle from any ordinal emits exactly one 'clockwise' turn, on the fourth read. |
| EncoderPipeline.ClockwiseCycleEmitsOneTurn | lib/components/rotary-encoder/delta.js:45-67 | With the newer delta algorithm, a full clockwise cycle from any state emits exactly one 'clockwise' turn. |
| EncoderPipeline.ReturnedValue | lib/rotary-encoder/default.js:9-26 | The table's readState returns null exactly for no direction, and the strings 'clockwise' and 'anticlockwise' exactly for those directions. |
| EncoderPipeline.DefaultAlgorithmThrows | lib/rotary-encoder.js:50-54 | With the default algorithm (which `create` falls back to at lines 30-31), every value readState returns, whatever the pins read, is a string or null rather than a number, so the poll fails with "readState must return an integer" (see Findings). |
| EncoderPipeline.TableDelta | lib/rotary-encoder/default.js:14-22 | The corrected numeric result is 1 exactly for clockwise, -1 exactly for anticlockwise and 0 exactly for null. |
| EncoderPipeline.TableDeltas | lib/rotary-encoder/default.js:14-22 | Each returned direction becomes its TableDelta, in order. |
| EncoderPipeline.NumericTableCycleEmitsOneTurn | lib/rotary-encoder/default.js:14-22 | With numeric results, one clockwise cycle from any ordinal emits exactly one 'clockwise' turn, on the fourth read. |
| ComponentUtils.CopyKeys | lib/components/utils.js:68-72 | The `reduce` gives the target's keys plus the listed keys. Each listed key gets the source's value, and any other key keeps the target's value. |
| ComponentUtils.Clone | lib/components/utils.js:64-74 | `clone` without `sanitise` has exactly the given keys, each with the source's value. |
| ComponentUtils.CloneIsCopy | lib/components/utils.js:64-74 | `clone` without `sanitise`, over all of the source's keys, returns exactly the same keys and values. |
| ComponentUtils.Merge | lib/components/utils.js:75 | The result has the keys of both objects. Every parameter overrides, and every other default is kept. |
| ComponentUtils.UpToLineTerminator | lib/components/utils.js:8 | `.*` captures the longest prefix without a line terminator. |
| ComponentUtils.ExecFrom | lib/components/utils.js:8 | The regular expression's match is the leftmost one. It is unanchored: it may start anywhere. 'InOut' is tried before 'In' and 'Out', and the type is 'Sin' or the rest of the line. |
| ComponentUtils.Request | lib/components/utils.js:8-19 | 'linear' asks for (None, Linear). Any other name asks for the leftmost match's direction and type exactly when there is a match whose type group is non-empty. The direction is always InOut, In, Out or None. |
| ComponentUtils.FindFamily | lib/components/utils.js:20-23 | The result is the first family whose key contains the type, or none when no key does. |
| ComponentUtils.EaseFunctionNameResolver | lib/components/utils.js:7-31 | A function is found exactly when the name asks for a direction and a type, and the first family whose key contains the type has that direction. A later family is never consulted. The result is that family's entry. |
| EasingExamples.RequestInOut | lib/components/utils.js:8-10 | 'easeInOut' followed by a type on one line that does not start with 'S' asks for that type with direction InOut. |
| EasingExamples.ResolvesLinear | lib/components/utils.js:14-17 | 'linear' resolves to `Linear.None`. |
| EasingExamples.ResolvesInOutQuad | lib/components/utils.js:8-27 | 'easeInOutQuad' resolves to `Quadratic.InOut`. |
| EasingExamples.ResolvesInOutSine | lib/components/utils.js:8 | A 'Sine' suffix is captured as 'Sin', so 'easeInOutSine' resolves to `Sinusoidal.InOut`. |
| EasingExamples.NoFamilyResolvesNull | lib/components/utils.js:19-30 | A type that no family's key contains resolves to null. |
| ComponentLed.PwmValue | lib/components/led.js:54-59 | The duty is `100 - v` on a reversed LED and `v` otherwise. The inversion undoes itself and maps 0..100 onto 0..100. |
| ComponentLed.Initial | lib/components/led.js:29-39 | A new LED has brightness 0, is digital, runs no tween and has made no pin writes. |
| ComponentLed.WriteStep | lib/components/led.js:61-68 | Exactly one pin write is appended. PWM shows the value; a digital write shows off for 0 and on otherwise. Afterwards the stored brightness is the value written. |
| ComponentLed.EnablePwm | lib/components/led.js:92-95 | `softPwmCreate` starts at `values.off * 100`, which shows dark whatever the polarity, and PWM is on for good. |
| ComponentLed.StopStep | lib/components/led.js:98-111 | Stopping a running tween rejects its promise and nothing else; otherwise nothing happens. |
| ComponentLed.ModeStep | lib/components/led.js:90-95 | Without PWM and without a default duration, 0 or 100 is a single digital write of the off or on level. Any other case sets PWM up once. PWM is on afterwards exactly when it was already on, or the value is not 0/100, or a duration is set. |
| ComponentLed.TweenOrWriteStep | lib/components/led.js:97-117 | With a duration and outside a tween's own update, the running tween is stopped and rejected, and a new tween runs from the current brightness to the value, with no write. Otherwise a PWM LED writes the value and a digital one does nothing more. |
| ComponentLed.BrightnessStep | lib/components/led.js:78-120 | A PWM LED already at the value returns a resolved promise and changes nothing. Any other call hands out a new promise. PWM is set up at most once and never turned off. A timed change starts a tween that supersedes the old one. An untimed change shows the value at once and leaves the tween and the promises alone. |
| ComponentLed.TickStep | lib/components/led.js:103-105 | A tween update writes the rounded value while the tween keeps running. |
| ComponentLed.CompleteStep | lib/components/led.js:103-108 | At its end a tween shows its target and resolves its promise. |
| ComponentLed.TransitionsStep | lib/components/led.js:127 | `transitions(params)` merges the parameters over the defaults and changes nothing else. |
| ComponentLed.SetupCount | lib/components/led.js:90-95 | In any well-shaped call log there is one PWM setup if the log ends in PWM mode and none otherwise. |
| ComponentLed.PwmSetUpOnlyOnce | lib/components/led.js:92-95 | The pin is set up for PWM exactly once once PWM is on, and never before. |
| ComponentLed.NewTweenSupersedes | lib/components/led.js:97-111 | A timed change during a tween rejects that tween's promise and hands out a fresh, still open one. |
| ComponentLed.OnWithoutDurationLights | lib/components/led.js:70-72 | `on()` without a duration stores 100 and leaves the mode alone. On a digital LED it is a single digital write of the on level. |
| ComponentLed.ImmediateChangeLeavesPromiseOpen | lib/components/led.js:115-119 | As written, a change that starts no tween returns a promise that nothing will settle (see Findings). |
| ComponentLed.OrphanSurvivesBrightness | lib/components/led.js:78-120 | Such a promise stays unsettled through every later `brightness(value)`, timed or not. |
| ComponentLed.OrphanSurvivesTween | lib/components/led.js:102-128 | It also stays unsettled through `transitions(params)` and through a running tween's updates and its completion. |
| ComponentLed.OnPromiseNeverSettles | lib/components/led.js:70-72 | `on()` on a new LED without transitions returns promise 0, which never settles. |
| ComponentLed.SettledBrightnessStep | lib/components/led.js:115-119 | The corrected step resolves the promise of a change that starts no tween, and keeps the LED's invariant. |
| ComponentLed.SettledTickStep | lib/components/led.js:103-105 | A tween update with corrected promises keeps the tween running, and its promise open. |
| ComponentLed.SettledCompleteStep | lib/components/led.js:103-108 | A tween's end with corrected promises shows its target and ends the animation. |
| ComponentLed.SettledStepKeepsSettled | lib/components/led.js:78-120 | With the correction, every promise handed out is settled or held by the running tween, and every `brightness(value)` keeps this. |
| ComponentLed.CorrectedTweenSettlesEveryPromise | lib/components/led.js:102-118 | With the correction, a tween's updates and its completion keep it too. |
| ComponentLed.Led.constructor | lib/components/led.js:28-45 | A new LED is in the Initial state for its polarity. |
| ComponentLed.Led.Brightness | lib/components/led.js:82-84 | `brightness()` returns the stored value and writes nothing. |
| ComponentLed.Led.Write | lib/components/led.js:61-68 | The pin write and the stored value are WriteStep's. |
| ComponentLed.Led.SetBrightness | lib/components/led.js:78-120 | The new state and the returned promise are BrightnessStep's, and the invariant is kept. |
| ComponentLed.Led.SwitchMode | lib/components/led.js:90-95 | The new state is ModeStep's. |
| ComponentLed.Led.TweenOrWrite | lib/components/led.js:97-117 | The new state is TweenOrWriteStep's. |
| ComponentLed.Led.StopTween | lib/components/led.js:98-111 | Stopping a running tween rejects its promise, once; stopping anything else changes nothing (StopStep). |
| ComponentLed.Led.On | lib/components/led.js:70-72 | `on()` is `brightness(100)`. |
| ComponentLed.Led.Off | lib/components/led.js:74-76 | `off()` is `brightness(0)`. |
| ComponentLed.Led.Destroy | lib/components/led.js:130-132 | `destroy()` is `off()`. |
| ComponentLed.Led.Transitions | lib/components/led.js:123-125 | `transitions()` returns the defaults (a copy with the same keys and values). |
| ComponentLed.Led.SetTransitions | lib/components/led.js:127 | The new state is TransitionsStep's. |
| ComponentLed.Led.TweenUpdate | lib/components/led.js:103-105 | The new state is TickStep's. |
| ComponentLed.Led.TweenComplete | lib/components/led.js:103-108 | The new state is CompleteStep's. |
| ComponentRgb.Scale | lib/components/rgb.js:86-88 | `scale(val, domain, range)` is in the same ratio to `range` as `val` is to `domain`. |
| ComponentRgb.JsRound | lib/components/rgb.js:91 | `Math.round` is the nearest integer, with a half rounded up. |
| ComponentRgb.RgbToPercentage | lib/components/rgb.js:90-92 | The result is the nearest whole percentage of value/255, with ties rounded up. |
| ComponentRgb.PercentageClosedForm | lib/components/rgb.js:90-92 | That percentage is `(200 v + 255) div 510`. |
| ComponentRgb.PercentageMonotone | lib/components/rgb.js:90-92 | A brighter channel never gives a lower percentage. |
| ComponentRgb.PercentageRange | lib/components/rgb.js:90-92 | 0..255 maps into 0..100, with 0→0, 128→50 and 255→100. |
| ComponentRgb.Rgb.constructor | lib/components/rgb.js:15-79 | There is one new LED per pin, in pin order, and each has been turned off once by `off()`. |
| ComponentRgb.NewLeds | lib/components/rgb.js:28 | One new, distinct LED per pin, in pin order, each in its initial state. |
| ComponentRgb.Rgb.BrightnessEach | lib/components/rgb.js:50-57 | LED i alone gets `brightness(values[i])`, once, and its promise is part i. |
| ComponentRgb.Rgb.BrightnessAt | lib/components/rgb.js:50-57 | `brightness(value)` reaches LED i alone; every other LED keeps its state. |
| ComponentRgb.Rgb.On | lib/components/rgb.js:30-36 | Every LED gets `on()`, and the result gathers their promises. |
| ComponentRgb.Rgb.Off | lib/components/rgb.js:38-44 | As written, every LED gets `off()`, but the result is `promise.all(undefined)` (see Findings). |
| ComponentRgb.Rgb.OffAwaitingLeds | lib/components/rgb.js:38-44 | Corrected, every LED gets `off()` and the result gathers their promises. |
| ComponentRgb.Rgb.Colour | lib/components/rgb.js:50-57 | LED i gets `brightness(rgbToPercentage(rgb[i]))` and nothing else, with no deduplication. The result gathers the promises. |
| ComponentRgb.Rgb.SetTransitions | lib/components/rgb.js:65-67 | The same parameters are merged into every LED's defaults. |
| ComponentRgb.Rgb.Destroy | lib/components/rgb.js:70-74 | Every LED is destroyed, which turns it off, once, and the result gathers the promises. |
| ComponentButton.PressedLevel | lib/components/button.js:18-26 | The pressed level is 0 exactly when `pressedIsHigh` is given as false, and 1 otherwise. |
| ComponentButton.HoldInterval | lib/components/button.js:20 | The interval is `holdTimeMs`, or 1000 when it is missing or 0. |
| ComponentButton.Initial | lib/components/button.js:15-26 | A new button has no press time, no pending timer and no timer calls, so it satisfies the invariant. |
| ComponentButton.IsPressed | lib/components/button.js:87-89 | A reading means pressed exactly when it equals the pressed level. |
| ComponentButton.IsReleased | lib/components/button.js:91-93 | For the same reading, released is exactly not pressed. |
| ComponentButton.ScheduleHold | lib/components/button.js:66-74 | A pending timer is never doubled: it only warns. Otherwise one timer is scheduled for the hold interval. |
| ComponentButton.ExpireHold | lib/components/button.js:76-81 | A pending timer is cleared; otherwise nothing happens. |
| ComponentButton.EventStep | lib/components/button.js:46-57 | Every edge emits 'change' and then 'press' or 'release'. A press records the time and leaves a timer pending. A release clears the press time and leaves no timer. |
| ComponentButton.HoldStep | lib/components/button.js:59-64 | A hold reports `now - pressStartTime`: NaN while unset, and `now` after a release. It then leaves exactly one timer pending, by clearing it and scheduling it again. |
| ComponentButton.InvariantPreserved | lib/components/button.js:46-64 | A timer is pending exactly while the button is pressed, and edges and hold firings keep this. |
| ComponentButton.HoldsReportTimeSincePress | lib/components/button.js:59-64 | While the button is held, successive holds report the time since the press, and the timer stays single. |
| ComponentButton.ReleaseStopsHolds | lib/components/button.js:52-56 | A release clears any pending timer, so no hold follows. |
| ComponentButton.RepeatedPressKeepsOneTimer | lib/components/button.js:66-70 | A second press without a release keeps the one timer and only warns. |
| ComponentButton.Button.constructor | lib/components/button.js:15-26 | The new button's state is Initial for its options, so the invariant holds. |
| ComponentButton.Button.IsPressedNow | lib/components/button.js:87-89 | `isPressed()` for the current pin reading. |
| ComponentButton.Button.ScheduleHoldTimeout | lib/components/button.js:66-74 | The new state is ScheduleHold's. |
| ComponentButton.Button.ExpireHoldTimeout | lib/components/button.js:76-81 | The new state is ExpireHold's. |
| ComponentButton.Button.HandleEvent | lib/components/button.js:46-57 | The new state and the events, in order, are EventStep's, and the invariant holds afterwards from any state. |
| ComponentButton.Button.HandleHold | lib/components/button.js:59-64 | The new state and the hold event are HoldStep's. Fired while the timer is pending, it keeps the invariant. |
| LegacyLed.OnStep | lib/led.js:37-44 | `on()` appends one write. It shows the stored brightness in PWM mode and full brightness otherwise. |
| LegacyLed.OffStep | lib/led.js:46-53 | `off()` appends one write, which shows dark in either mode. |
| LegacyLed.BrightnessStep | lib/led.js:55-70 | `brightness(v)` stores v and turns PWM on. It sets PWM up only the first time and writes nothing else. |
| LegacyLed.Initial | lib/led.js:7-21 | A new LED stores brightness 100, is digital, and has one write of the off level, from creation's `off()`. |
| LegacyLed.PwmSetUpAtMostOnce | lib/led.js:62-65 | There is one PWM setup once PWM is on and none before. |
| LegacyLed.OnShowsStoredBrightness | lib/led.js:37-44 | After `brightness(v)`, `on()` shows v, whatever the polarity. |
| LegacyLed.FirstBrightnessDarkens | lib/led.js:56-65 | The first `brightness(v)` sets PWM up at the off level, so the pin goes dark until `on()`. |
| LegacyLed.ReversedDuties | lib/led.js:30-35 | On a reversed LED the PWM off duty is 100 and the on duty is 100 minus the brightness. |
| LegacyLed.Led.constructor | lib/led.js:7-21 | A new LED is in the Initial state. |
| LegacyLed.Led.Brightness | lib/led.js:58-60 | `brightness()` returns the stored value. |
| LegacyLed.Led.On | lib/led.js:37-44 | The new state is OnStep's. |
| LegacyLed.Led.Off | lib/led.js:46-53 | The new state is OffStep's. |
| LegacyLed.Led.SetBrightness | lib/led.js:55-70 | The new state is BrightnessStep's. |
| LegacyLed.Led.Destroy | lib/led.js:72-75 | `destroy()` is `off()`. |
| LegacyRgb.ColourStep | lib/rgb.js:43-47 | Channel i switches its LED off exactly when `rgb[i] === 0`. Afterwards the LED is dark exactly when its channel is 0, or when it is on at a stored brightness of 0. |
| LegacyRgb.MissingChannelSwitchesOn | lib/rgb.js:45 | A channel missing from the colour array is `undefined`, not 0, so its LED goes on. |
| LegacyRgb.Rgb.constructor | lib/rgb.js:14-27 | There is one new LED per pin, in pin order, and each is off twice: once by its own creation and once by the final `off()`. |
| LegacyRgb.NewLeds | lib/rgb.js:27 | One new, distinct LED per pin, in pin order, each in its initial state (already turned off once). |
| LegacyRgb.Rgb.SwitchEach | lib/rgb.js:29-51 | Each LED gets `off()` or `on()` as asked, once, in pin order. |
| LegacyRgb.Rgb.On | lib/rgb.js:29-32 | Every LED gets `on()`. |
| LegacyRgb.Rgb.Off | lib/rgb.js:34-37 | Every LED gets `off()`. |
| LegacyRgb.Rgb.Colour | lib/rgb.js:43-47 | LED i takes ColourStep with channel i. |
| LegacyRgb.Rgb.Destroy | lib/rgb.js:49-51 | Every LED is destroyed, which turns it off. |

## Left out

- The tween library's interpolation, easing maths, repeat and yoyo are floating point in a foreign library. So is the shared animation clock that drives `TWEEN.update()` (lib/components/led.js:8-21). A tween is modelled only as its start, its stop, updates with whatever rounded value the library reports, and its completion.
- The model assumes that the tween library's `stop()` does nothing on a tween that is no longer running.
- `debounce`, `throttle` and `last` from lib/components/utils.js are timer and lodash plumbing.
- `clone` with `sanitise` is a JSON round trip.
- ComponentUtils.Merge: lodash's `merge` is modelled as a flat right-biased override. It does not recurse into nested objects; option values here are scalars.
- ComponentUtils.EaseFunctionNameResolver, ComponentUtils.FindFamily: `key.match(type)` (lib/components/utils.js:20-23) is modelled as substring containment. It would differ for a type that holds regular-expression metacharacters.
- The easing table is a sequence of families in declaration order. `_.find` visits an object's keys in that order.
- Wiring-pi setup, `pinMode`, pull resistors on the button, and ISR and debounce registration are I/O set-up.
- Polling and interrupt scheduling of the encoder (lib/rotary-encoder.js:82-91,120-122) are timer and interrupt plumbing. Calls of `readAndBroadcastState` are method calls here.
- The empty `destroy` functions of the encoder and the button do nothing to model.
- The choice between the injected and the required modules (`opts.wpi`, `opts.timer`, `opts.tween`, `opts.LED`, `opts.algorithm`) is dependency plumbing.
- RGB creation hands the options, minus `LED`, to each LED. Of those options only `reverse` is modelled.
- The default transition-table algorithm is composed with the aggregator only to show that it fails the integer check (see Findings); its `position` counter is never read by anything.
- The `console.log` calls of the delta algorithms (lib/rotary-encoder/delta.js:28,35 and lib/components/rotary-encoder/delta.js:73) are diagnostic output and change no state.
- Pin reads, `Date.now()` and the values a tween produces are method parameters. The `emit` calls become returned events, and timer and pin calls become logs.
- Brightness and channel values are unbounded integers. JavaScript numbers (non-integers, NaN, `undefined` passed as a value) are not modelled, beyond `Math.round` of the ratio in `rgbToPercentage`, which is modelled in exact arithmetic.
- ComponentRgb.Rgb.Colour requires at least one channel value per LED. With a shorter array the source passes `brightness(NaN)`, which the model does not cover.
- The `transitions()` getter of lib/components/rgb.js:61-63 calls a misspelled `transitons` and would throw, so it has no model.
- `promise.all` is modelled as the list of the LEDs' promises. The rejection and resolution of the combined promise are not modelled.
- The chaining results of the older drivers (`return instance` / `return this`) are not modelled.
- The component LED and RGB LED take no per-call transition parameters, do not chain or repeat transitions, and do not skip a repeated RGB colour; the second argument of `brightness` is the `isTransitioning` flag. The model has none of these either.

## Findings

| source | as written | input that shows it | evidently intended | confidence | as-written member | corrected member |
|---|---|---|---|---|---|---|
| lib/rotary-encoder/delta.js:22 | The step is `(rSeq - lastRotationSeq) % 4` with JavaScript's truncating remainder, so the clockwise wrap from ordinal 3 to 0 reads -3 | A clockwise cycle from ordinal 0 reads pins (1,0), (1,1), (0,1), (0,0), which decode to 1, 1, 1, -3; they sum to 0, so the aggregator (`algorithms.delta`) emits no turn | The floored modulus, as the newer algorithm uses (lib/components/rotary-encoder/delta.js:43-45), so that the wrap is one step forward | high; not executed | LegacyDelta.ClockwiseCycleAsWritten, EncoderPipeline.LegacyClockwiseCycleEmitsNothing | LegacyDelta.CorrectedReadStep, LegacyDelta.CorrectedClockwiseWalk, EncoderPipeline.CorrectedClockwiseCycleEmitsOneTurn |
| lib/components/led.js:115-119 | A brightness change that starts no tween returns `dfd.promise`, but only a tween's callbacks ever resolve or reject `dfd` | `on()` on a new LED without a default duration writes the on level and returns a promise that never settles; so does `promise.all` of an RGB `on()` | The deferred is resolved once the value is written | medium; not executed | ComponentLed.ImmediateChangeLeavesPromiseOpen, ComponentLed.OnPromiseNeverSettles | ComponentLed.SettledBrightnessStep, ComponentLed.SettledStepKeepsSettled |
| lib/components/rgb.js:38-44 | `off()` passes the result of `pins.forEach(...)`, which is `undefined`, to `promise.all` | Any `off()`, including the one `create` makes: the LEDs go off, but the returned promise is built over `undefined`, not over the LEDs' promises, so it does not wait for them | `pins.map(...)`, as `on()` and `destroy()` use | medium; not executed | ComponentRgb.Rgb.Off | ComponentRgb.Rgb.OffAwaitingLeds |
| lib/rotary-encoder.js:52-54 | `create` falls back to `algorithms.default` when no algorithm is given (lines 30-31) and starts polling at once (lines 109-110), but the default table's readState returns 'clockwise', 'anticlockwise' or null, none of which passes `typeof direction !== 'number'` | `create(pinA, pinB, {})`: the first poll throws "readState must return an integer", whatever the pins read | The table returns the numbers 1, -1 and 0, so that the aggregator emits one turn per clockwise cycle | high; not executed | EncoderPipeline.DefaultAlgorithmThrows | EncoderPipeline.TableDelta, EncoderPipeline.NumericTableCycleEmitsOneTurn |
