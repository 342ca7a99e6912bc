/**
 * The delta decoding algorithm of lib/components/rotary-encoder/delta.js.
 *
 * Two pin reads are turned into a rotation-sequence ordinal 0..3; consecutive
 * ordinals give a step computed modulo 4 in the floored (Python) sense.  Single
 * steps are remembered in a history that is never trimmed, and a double step is
 * given the direction of the last two single steps when they agree.
 */
module QuadratureDelta {
  import opened Gpio
  import opened Rotation

  /** The ordinal of a quadrature state: `(A ^ B) | (B << 1)`. */
  function RotationSequence(a: Bit, b: Bit): (r: int)
    ensures 0 <= r <= 3
    // Clockwise the switches go (B A) = 00, 01, 11, 10, which are numbered 0, 1, 2, 3.
    ensures a == 0 && b == 0 ==> r == 0
    ensures a == 1 && b == 0 ==> r == 1
    ensures a == 1 && b == 1 ==> r == 2
    ensures a == 0 && b == 1 ==> r == 3
  {
    (((a as bv2) ^ (b as bv2)) | ((b as bv2) << 1)) as int
  }

  /** Distinct pin states have distinct ordinals, so the ordinal loses nothing. */
  lemma RotationSequenceInjective(a: Bit, b: Bit, a': Bit, b': Bit)
    ensures RotationSequence(a, b) == RotationSequence(a', b') <==> a == a' && b == b'
  {
  }

  /** The pin state that has a given ordinal: the inverse of RotationSequence. */
  function PinsOf(ordinal: int): (pins: (Bit, Bit))
    requires 0 <= ordinal <= 3
    ensures RotationSequence(pins.0, pins.1) == ordinal
  {
    if ordinal == 0 then (0, 0)
    else if ordinal == 1 then (1, 0)
    else if ordinal == 2 then (1, 1)
    else (0, 1)
  }

  /**
   * `mod(x, 4)` of the mod-loop package: the floored remainder, which for a
   * positive divisor is never negative.
   */
  function Mod4(x: int): (r: int)
    ensures 0 <= r < 4
    ensures (x - r) % 4 == 0
  {
    // Dafny's % is Euclidean, which agrees with the floored remainder for a positive divisor.
    x % 4
  }

  /** The closure state of one readState function. */
  datatype DeltaState = DeltaState(lastRotationSeq: int, lastDelta: int, history: seq<int>)

  /** What every reachable closure state satisfies. */
  predicate ValidState(s: DeltaState)
  {
    && 0 <= s.lastRotationSeq <= 3
    && forall i :: 0 <= i < |s.history| ==> s.history[i] == 1 || s.history[i] == 3
  }

  /** The state right after createDeltaAlgorithm, which reads the pins once. */
  function Initial(a: Bit, b: Bit): (s: DeltaState)
    ensures ValidState(s) && s.history == [] && s.lastDelta == 0
    ensures s.lastRotationSeq == RotationSequence(a, b)
  {
    DeltaState(RotationSequence(a, b), 0, [])
  }

  /** The signed step a raw (mod 4) single step stands for. */
  function StepSign(raw: int): int
  {
    if raw == 3 then -1 else raw
  }

  /** True when the last two remembered single steps agree. */
  predicate LastTwoAgree(history: seq<int>)
  {
    |history| >= 2 && history[|history| - 1] == history[|history| - 2]
  }

  /**
   * One call of readState with the pins reading (a, b): the new closure state
   * and the returned delta.
   */
  function ReadStep(s: DeltaState, a: Bit, b: Bit): (r: (DeltaState, int))
    requires ValidState(s)
    ensures ValidState(r.0)
    ensures -1 <= r.1 <= 2
    // An unchanged ordinal is no movement and touches nothing.
    ensures RotationSequence(a, b) == s.lastRotationSeq ==> r == (s, 0)
    // A change always records the new ordinal and the delta returned, and is never 0.
    ensures RotationSequence(a, b) != s.lastRotationSeq ==>
      && r.0.lastRotationSeq == RotationSequence(a, b)
      && r.0.lastDelta == r.1
      && r.1 != 0
    // One position forward is +1, one position back is -1, both remembered raw.
    ensures Mod4(RotationSequence(a, b) - s.lastRotationSeq) == 1 ==>
      r.1 == 1 && r.0.history == s.history + [1]
    ensures Mod4(RotationSequence(a, b) - s.lastRotationSeq) == 3 ==>
      r.1 == -1 && r.0.history == s.history + [3]
    // A double step is never remembered; it takes the sign of two agreeing single steps.
    ensures Mod4(RotationSequence(a, b) - s.lastRotationSeq) == 2 ==>
      && r.0.history == s.history
      && r.1 == (if LastTwoAgree(s.history) then StepSign(s.history[|s.history| - 1]) else 2)
  {
    var rSeq := RotationSequence(a, b);
    if rSeq == s.lastRotationSeq then (s, 0)
    else
      var raw := Mod4(rSeq - s.lastRotationSeq);
      var history := if raw == 1 || raw == 3 then s.history + [raw] else s.history;
      var resolved := if raw == 2 && LastTwoAgree(history) then history[|history| - 1] else raw;
      var delta := StepSign(resolved);
      (DeltaState(rSeq, delta, history), delta)
  }

  /** Successive calls of readState on a sequence of pin reads: final state and deltas. */
  function Run(s: DeltaState, samples: seq<(Bit, Bit)>): (r: (DeltaState, seq<int>))
    requires ValidState(s)
    ensures ValidState(r.0) && |r.1| == |samples|
    decreases |samples|
  {
    if samples == [] then (s, [])
    else
      var (s', d) := ReadStep(s, samples[0].0, samples[0].1);
      var (s'', ds) := Run(s', samples[1..]);
      (s'', [d] + ds)
  }

  /** The pin reads of n detents turned clockwise from ordinal `from`. */
  function ClockwiseReads(from: int, n: nat): (samples: seq<(Bit, Bit)>)
    requires 0 <= from <= 3
    ensures |samples| == n
    decreases n
  {
    if n == 0 then [] else [PinsOf((from + 1) % 4)] + ClockwiseReads((from + 1) % 4, n - 1)
  }

  /** The pin reads of n detents turned anticlockwise from ordinal `from`. */
  function AnticlockwiseReads(from: int, n: nat): (samples: seq<(Bit, Bit)>)
    requires 0 <= from <= 3
    ensures |samples| == n
    decreases n
  {
    if n == 0 then [] else [PinsOf((from + 3) % 4)] + AnticlockwiseReads((from + 3) % 4, n - 1)
  }

  /** One detent clockwise: +1, remembered as a 1. */
  lemma ClockwiseStep(s: DeltaState)
    requires ValidState(s)
    ensures var p := PinsOf((s.lastRotationSeq + 1) % 4);
      ReadStep(s, p.0, p.1) == (DeltaState((s.lastRotationSeq + 1) % 4, 1, s.history + [1]), 1)
  {
    var next := (s.lastRotationSeq + 1) % 4;
    assert Mod4(next - s.lastRotationSeq) == 1;
  }

  /** One detent anticlockwise: -1, remembered as a 3. */
  lemma AnticlockwiseStep(s: DeltaState)
    requires ValidState(s)
    ensures var p := PinsOf((s.lastRotationSeq + 3) % 4);
      ReadStep(s, p.0, p.1) == (DeltaState((s.lastRotationSeq + 3) % 4, -1, s.history + [3]), -1)
  {
    var next := (s.lastRotationSeq + 3) % 4;
    assert Mod4(next - s.lastRotationSeq) == 3;
  }

  /** A clockwise walk yields +1 at every read and remembers a 1 for each. */
  lemma {:induction false} ClockwiseWalk(s: DeltaState, n: nat)
    requires ValidState(s)
    decreases n
    ensures Run(s, ClockwiseReads(s.lastRotationSeq, n)).1 == seq(n, _ => 1)
    ensures Run(s, ClockwiseReads(s.lastRotationSeq, n)).0.history == s.history + seq(n, _ => 1)
  {
    if n > 0 {
      var next := (s.lastRotationSeq + 1) % 4;
      var samples := ClockwiseReads(s.lastRotationSeq, n);
      assert samples[0] == PinsOf(next) && samples[1..] == ClockwiseReads(next, n - 1);
      ClockwiseStep(s);
      var s' := DeltaState(next, 1, s.history + [1]);
      ClockwiseWalk(s', n - 1);
      assert [1] + seq(n - 1, _ => 1) == seq(n, _ => 1);
      assert s.history + [1] + seq(n - 1, _ => 1) == s.history + seq(n, _ => 1);
    }
  }

  /** An anticlockwise walk yields -1 at every read and remembers a 3 for each. */
  lemma {:induction false} AnticlockwiseWalk(s: DeltaState, n: nat)
    requires ValidState(s)
    decreases n
    ensures Run(s, AnticlockwiseReads(s.lastRotationSeq, n)).1 == seq(n, _ => -1)
    ensures Run(s, AnticlockwiseReads(s.lastRotationSeq, n)).0.history == s.history + seq(n, _ => 3)
  {
    if n > 0 {
      var next := (s.lastRotationSeq + 3) % 4;
      var samples := AnticlockwiseReads(s.lastRotationSeq, n);
      assert samples[0] == PinsOf(next) && samples[1..] == AnticlockwiseReads(next, n - 1);
      AnticlockwiseStep(s);
      var s' := DeltaState(next, -1, s.history + [3]);
      AnticlockwiseWalk(s', n - 1);
      assert [-1] + seq(n - 1, _ => -1) == seq(n, _ => -1);
      assert s.history + [3] + seq(n - 1, _ => 3) == s.history + seq(n, _ => 3);
    }
  }

  /** The closure created by createDeltaAlgorithm, as an object. */
  class DeltaDecoder {
    var lastRotationSeq: int
    var lastDelta: int
    var history: seq<int>

    function State(): DeltaState
      reads this
    {
      DeltaState(lastRotationSeq, lastDelta, history)
    }

    ghost predicate Valid()
      reads this
    {
      ValidState(State())
    }

    /** createDeltaAlgorithm: reads both pins once to seed `lastRotationSeq`. */
    constructor (a: Bit, b: Bit)
      ensures Valid() && State() == Initial(a, b)
    {
      lastDelta := 0;
      history := [];
      lastRotationSeq := RotationSequence(a, b);
    }

    /** readState: the pins now read (a, b). */
    method ReadState(a: Bit, b: Bit) returns (delta: int)
      requires Valid()
      modifies this
      ensures Valid()
      ensures (State(), delta) == ReadStep(old(State()), a, b)
    {
      delta := 0;
      var rSeq := RotationSequence(a, b);
      if rSeq != lastRotationSeq {
        delta := Mod4(rSeq - lastRotationSeq);
        if delta == 1 || delta == 3 {
          history := history + [delta];
        }
        if delta == 2 {
          if |history| >= 2 {
            var last, last2 := history[|history| - 1], history[|history| - 2];
            if last == last2 {
              delta := last;
            }
          }
        }
        if delta == 3 {
          delta := -1;
        }
        lastDelta := delta;
        lastRotationSeq := rSeq;
      }
    }
  }
}
