/**
 * The older delta decoding algorithm of lib/rotary-encoder/delta.js.
 *
 * It computes the step between consecutive ordinals with JavaScript's `%`,
 * which truncates toward zero, maps a raw 3 to -1 and leaves every other
 * difference as it is; there is no history.
 */
module LegacyDelta {
  import opened Gpio
  import opened Rotation
  import QuadratureDelta

  /** The quotient of `x / n` truncated toward zero, for n > 0. */
  function TruncDiv(x: int, n: int): int
    requires n > 0
  {
    if x >= 0 then x / n else -((-x) / n)
  }

  /**
   * JavaScript's `x % n` for n > 0: the remainder takes the sign of the
   * dividend, is smaller than the divisor in magnitude, and is what is left of
   * x after the truncated quotient's multiple of n.
   */
  function TruncMod(x: int, n: int): (r: int)
    requires n > 0
    ensures -n < r < n
    ensures x >= 0 ==> r >= 0
    ensures x <= 0 ==> r <= 0
    ensures x == TruncDiv(x, n) * n + r
  {
    if x >= 0 then
      x % n
    else
      assert -x == ((-x) / n) * n + (-x) % n;
      -((-x) % n)
  }

  /** For the differences of two ordinals, `% 4` changes nothing. */
  lemma TruncModSmall(x: int)
    requires -3 <= x <= 3
    ensures TruncMod(x, 4) == x
  {
  }

  /** The closure state of one readState function. */
  datatype LegacyState = LegacyState(lastRotationSeq: int, lastDelta: int)

  predicate ValidState(s: LegacyState)
  {
    0 <= s.lastRotationSeq <= 3
  }

  /** The state right after createDeltaAlgorithm, which reads the pins once. */
  function Initial(a: Bit, b: Bit): (s: LegacyState)
    ensures ValidState(s) && s.lastDelta == 0
    ensures s.lastRotationSeq == QuadratureDelta.RotationSequence(a, b)
  {
    LegacyState(QuadratureDelta.RotationSequence(a, b), 0)
  }

  /** One call of readState with the pins reading (a, b): new state and returned delta. */
  function ReadStep(s: LegacyState, a: Bit, b: Bit): (r: (LegacyState, int))
    requires ValidState(s)
    ensures ValidState(r.0)
    // An unchanged ordinal returns 0 and updates nothing.
    ensures QuadratureDelta.RotationSequence(a, b) == s.lastRotationSeq ==> r == (s, 0)
    // A change returns the plain difference, except that exactly 3 becomes -1 ...
    ensures QuadratureDelta.RotationSequence(a, b) != s.lastRotationSeq ==>
      && r.1 == (if QuadratureDelta.RotationSequence(a, b) - s.lastRotationSeq == 3 then -1
                 else QuadratureDelta.RotationSequence(a, b) - s.lastRotationSeq)
      && r.0 == LegacyState(QuadratureDelta.RotationSequence(a, b), r.1)
    // ... so it is never 0 and lies in {-3, -2, -1, 1, 2}.
    ensures QuadratureDelta.RotationSequence(a, b) != s.lastRotationSeq ==>
      -3 <= r.1 <= 2 && r.1 != 0
  {
    var rSeq := QuadratureDelta.RotationSequence(a, b);
    if rSeq == s.lastRotationSeq then (s, 0)
    else
      var diff := TruncMod(rSeq - s.lastRotationSeq, 4);
      TruncModSmall(rSeq - s.lastRotationSeq);
      var delta := if diff == 3 then -1 else diff;
      (LegacyState(rSeq, delta), delta)
  }

  /**
   * The clockwise wrap from ordinal 3 back to 0 is reported as -3, and a double
   * step is reported as +2 or -2 unresolved, where the newer algorithm
   * (floored modulus) reports +1 and a resolved step.
   */
  lemma WrapAndDoubleStep(s: LegacyState)
    requires ValidState(s)
    ensures s.lastRotationSeq == 3 ==> ReadStep(s, 0, 0).1 == -3
    ensures s.lastRotationSeq == 0 ==> ReadStep(s, 1, 1).1 == 2
    ensures s.lastRotationSeq == 2 ==> ReadStep(s, 0, 0).1 == -2
  {
  }

  /** Away from the wrap, the legacy and the newer algorithm agree on single steps. */
  lemma AgreesWithNewerOnSingleSteps(s: LegacyState, t: QuadratureDelta.DeltaState, a: Bit, b: Bit)
    requires ValidState(s) && QuadratureDelta.ValidState(t)
    requires s.lastRotationSeq == t.lastRotationSeq
    requires QuadratureDelta.Mod4(QuadratureDelta.RotationSequence(a, b) - s.lastRotationSeq) != 2
    requires !(s.lastRotationSeq == 3 && QuadratureDelta.RotationSequence(a, b) == 0)
    ensures ReadStep(s, a, b).1 == QuadratureDelta.ReadStep(t, a, b).1
  {
  }

  /** Successive calls of readState on a sequence of pin reads: final state and deltas. */
  function Run(s: LegacyState, samples: seq<(Bit, Bit)>): (r: (LegacyState, seq<int>))
    requires ValidState(s)
    ensures ValidState(r.0) && |r.1| == |samples|
    decreases |samples|
  {
    if samples == [] then (s, [])
    else
      var (s', d) := ReadStep(s, samples[0].0, samples[0].1);
      var (s'', ds) := Run(s', samples[1..]);
      (s'', [d] + ds)
  }

  /** As written, one detent clockwise reads +1, except the wrap from ordinal 3 to 0, which reads -3. */
  lemma ClockwiseStepAsWritten(s: LegacyState)
    requires ValidState(s)
    ensures var next := (s.lastRotationSeq + 1) % 4;
      var d := StepDelta(s.lastRotationSeq);
      ReadStep(s, QuadratureDelta.PinsOf(next).0, QuadratureDelta.PinsOf(next).1) == (LegacyState(next, d), d)
  {
  }

  /** The delta the as-written step reports when leaving ordinal `o`. */
  function StepDelta(o: int): int
  {
    if o == 3 then -3 else 1
  }

  /** The deltas n detents clockwise from ordinal `from` should read as written: +1, or -3 leaving ordinal 3. */
  function AsWrittenClockwiseDeltas(from: int, n: nat): (deltas: seq<int>)
    requires 0 <= from <= 3
    ensures |deltas| == n
    decreases n
  {
    if n == 0 then [] else [StepDelta(from)] + AsWrittenClockwiseDeltas((from + 1) % 4, n - 1)
  }

  /** As written, a clockwise walk reads -3 wherever it crosses from 3 to 0, and +1 elsewhere. */
  lemma {:induction false} ClockwiseWalkAsWritten(s: LegacyState, n: nat)
    requires ValidState(s)
    ensures Run(s, QuadratureDelta.ClockwiseReads(s.lastRotationSeq, n)).1 ==
      AsWrittenClockwiseDeltas(s.lastRotationSeq, n)
    decreases n
  {
    if n > 0 {
      var samples := QuadratureDelta.ClockwiseReads(s.lastRotationSeq, n);
      ClockwiseStepAsWritten(s);
      var s' := ReadStep(s, samples[0].0, samples[0].1).0;
      assert samples[1..] == QuadratureDelta.ClockwiseReads(s'.lastRotationSeq, n - 1);
      ClockwiseWalkAsWritten(s', n - 1);
    }
  }

  /**
   * As written, four detents clockwise from any ordinal read three +1s and one
   * -3 (at the wrap from 3 to 0), which cancel out; from ordinal 0 they read
   * 1, 1, 1, -3.
   */
  lemma ClockwiseCycleAsWritten(s: LegacyState)
    requires ValidState(s)
    ensures var deltas := Run(s, QuadratureDelta.ClockwiseReads(s.lastRotationSeq, 4)).1;
      && deltas[3 - s.lastRotationSeq] == -3
      && (forall i :: 0 <= i < 4 && i != 3 - s.lastRotationSeq ==> deltas[i] == 1)
      && (s.lastRotationSeq == 0 ==> deltas == [1, 1, 1, -3])
  {
    ClockwiseWalkAsWritten(s, 4);
    CycleDeltasAsWritten(s.lastRotationSeq);
  }

  /** Four as-written deltas from ordinal `o`, unrolled. */
  lemma AsWrittenFour(o: int)
    requires 0 <= o <= 3
    ensures AsWrittenClockwiseDeltas(o, 4) ==
      [StepDelta(o), StepDelta((o + 1) % 4), StepDelta((o + 2) % 4), StepDelta((o + 3) % 4)]
  {
    var o1, o2, o3 := (o + 1) % 4, (o + 2) % 4, (o + 3) % 4;
    assert AsWrittenClockwiseDeltas(o3, 1) == [StepDelta(o3)];
    assert AsWrittenClockwiseDeltas(o2, 2) == [StepDelta(o2)] + AsWrittenClockwiseDeltas(o3, 1);
    assert AsWrittenClockwiseDeltas(o1, 3) == [StepDelta(o1)] + AsWrittenClockwiseDeltas(o2, 2);
  }

  /** The four as-written deltas of one clockwise cycle, from each starting ordinal. */
  lemma CycleDeltasAsWritten(o: int)
    requires 0 <= o <= 3
    ensures var deltas := AsWrittenClockwiseDeltas(o, 4);
      && deltas[3 - o] == -3
      && (forall i :: 0 <= i < 4 && i != 3 - o ==> deltas[i] == 1)
      && (o == 0 ==> deltas == [1, 1, 1, -3])
  {
    AsWrittenFour(o);
    if o == 0 {
      assert AsWrittenClockwiseDeltas(o, 4) == [1, 1, 1, -3];
    } else if o == 1 {
      assert AsWrittenClockwiseDeltas(o, 4) == [1, 1, -3, 1];
    } else if o == 2 {
      assert AsWrittenClockwiseDeltas(o, 4) == [1, -3, 1, 1];
    } else {
      assert AsWrittenClockwiseDeltas(o, 4) == [-3, 1, 1, 1];
    }
  }


  /**
   * The step as evidently intended: the difference of ordinals taken with the
   * floored modulus (as the newer algorithm does), so that the wrap from 3 to 0
   * is one step forward.
   */
  function CorrectedReadStep(s: LegacyState, a: Bit, b: Bit): (r: (LegacyState, int))
    requires ValidState(s)
    ensures ValidState(r.0)
    ensures QuadratureDelta.RotationSequence(a, b) == s.lastRotationSeq ==> r == (s, 0)
    // One position forward (mod 4) is +1 and one back is -1, across the wrap too.
    ensures QuadratureDelta.RotationSequence(a, b) == (s.lastRotationSeq + 1) % 4 ==> r.1 == 1
    ensures QuadratureDelta.RotationSequence(a, b) == (s.lastRotationSeq + 3) % 4 ==> r.1 == -1
    ensures QuadratureDelta.RotationSequence(a, b) != s.lastRotationSeq ==>
      r.0 == LegacyState(QuadratureDelta.RotationSequence(a, b), r.1) && r.1 in {-1, 1, 2}
  {
    var rSeq := QuadratureDelta.RotationSequence(a, b);
    if rSeq == s.lastRotationSeq then (s, 0)
    else
      var diff := QuadratureDelta.Mod4(rSeq - s.lastRotationSeq);
      var delta := if diff == 3 then -1 else diff;
      (LegacyState(rSeq, delta), delta)
  }

  /** Successive corrected steps. */
  function CorrectedRun(s: LegacyState, samples: seq<(Bit, Bit)>): (r: (LegacyState, seq<int>))
    requires ValidState(s)
    ensures ValidState(r.0) && |r.1| == |samples|
    decreases |samples|
  {
    if samples == [] then (s, [])
    else
      var (s', d) := CorrectedReadStep(s, samples[0].0, samples[0].1);
      var (s'', ds) := CorrectedRun(s', samples[1..]);
      (s'', [d] + ds)
  }

  /** Corrected, every clockwise walk from any ordinal reads +1 at every detent. */
  lemma {:induction false} CorrectedClockwiseWalk(s: LegacyState, n: nat)
    requires ValidState(s)
    decreases n
    ensures CorrectedRun(s, QuadratureDelta.ClockwiseReads(s.lastRotationSeq, n)).1 == seq(n, _ => 1)
  {
    if n > 0 {
      var samples := QuadratureDelta.ClockwiseReads(s.lastRotationSeq, n);
      var s' := CorrectedReadStep(s, samples[0].0, samples[0].1).0;
      assert samples[1..] == QuadratureDelta.ClockwiseReads(s'.lastRotationSeq, n - 1);
      CorrectedClockwiseWalk(s', n - 1);
      assert [1] + seq(n - 1, _ => 1) == seq(n, _ => 1);
    }
  }

  /** The closure created by createDeltaAlgorithm, as an object. */
  class LegacyDeltaDecoder {
    var lastRotationSeq: int
    var lastDelta: int

    function State(): LegacyState
      reads this
    {
      LegacyState(lastRotationSeq, lastDelta)
    }

    ghost predicate Valid()
      reads this
    {
      ValidState(State())
    }

    /** createDeltaAlgorithm: reads both pins once to seed `lastRotationSeq`. */
    constructor (a: Bit, b: Bit)
      ensures Valid() && State() == Initial(a, b)
    {
      lastDelta := 0;
      lastRotationSeq := QuadratureDelta.RotationSequence(a, b);
    }

    /** readState: the pins now read (a, b). */
    method ReadState(a: Bit, b: Bit) returns (delta: int)
      requires Valid()
      modifies this
      ensures Valid()
      ensures (State(), delta) == ReadStep(old(State()), a, b)
    {
      delta := 0;
      var rSeq := QuadratureDelta.RotationSequence(a, b);
      if rSeq != lastRotationSeq {
        delta := TruncMod(rSeq - lastRotationSeq, 4);
        TruncModSmall(rSeq - lastRotationSeq);
        if delta == 3 {
          delta := -1;
        } else if delta == 2 {
          // the source only logs that this case is unimplemented
        }
        lastDelta := delta;
        lastRotationSeq := rSeq;
      }
    }
  }
}
