/**
 * A decoding algorithm feeding the aggregator of lib/rotary-encoder.js, whose
 * `algorithms.default` is the transition table and whose `algorithms.delta` is
 * the older delta algorithm.
 */
module EncoderPipeline {
  import opened Wrappers
  import opened Gpio
  import opened Rotation
  import QuadratureDelta
  import LegacyDelta
  import RotaryEncoder
  import TransitionTable

  /**
   * With the older delta algorithm as written, a full clockwise cycle from any
   * ordinal reads three 1s and one -3, whose sum is 0: the aggregator emits
   * nothing.
   */
  lemma LegacyClockwiseCycleEmitsNothing(s: LegacyDelta.LegacyState)
    requires LegacyDelta.ValidState(s)
    ensures var deltas := LegacyDelta.Run(s, QuadratureDelta.ClockwiseReads(s.lastRotationSeq, 4)).1;
      RotaryEncoder.Run([], deltas).1 == [None, None, None, None]
  {
    LegacyDelta.ClockwiseCycleAsWritten(s);
    var deltas := LegacyDelta.Run(s, QuadratureDelta.ClockwiseReads(s.lastRotationSeq, 4)).1;
    ThreeOnesAndMinusThreeEmitNothing(deltas, 3 - s.lastRotationSeq);
  }

  /** Three readings of 1 and one of -3, in any order, emit nothing. */
  lemma ThreeOnesAndMinusThreeEmitNothing(deltas: seq<int>, k: int)
    requires |deltas| == 4 && 0 <= k < 4 && deltas[k] == -3
    requires forall i :: 0 <= i < 4 && i != k ==> deltas[i] == 1
    ensures RotaryEncoder.Run([], deltas).1 == [None, None, None, None]
  {
    assert deltas == [deltas[0], deltas[1], deltas[2], deltas[3]];
    RotaryEncoder.CancellingFourEmitNothing(deltas[0], deltas[1], deltas[2], deltas[3]);
  }

  /**
   * With the corrected step, a full clockwise cycle from any ordinal emits
   * exactly one 'clockwise' event, on the fourth read.
   */
  lemma CorrectedClockwiseCycleEmitsOneTurn(s: LegacyDelta.LegacyState)
    requires LegacyDelta.ValidState(s)
    ensures var deltas := LegacyDelta.CorrectedRun(s, QuadratureDelta.ClockwiseReads(s.lastRotationSeq, 4)).1;
      RotaryEncoder.Run([], deltas).1 == [None, None, None, Some(Clockwise)]
  {
    LegacyDelta.CorrectedClockwiseWalk(s, 4);
    assert seq(4, _ => 1) == [1, 1, 1, 1];
    RotaryEncoder.FourOnesEmitOnce();
  }

  /**
   * The newer delta algorithm has the same property: one full clockwise cycle,
   * aggregated from an empty history, emits exactly one 'clockwise' event.
   */
  lemma ClockwiseCycleEmitsOneTurn(s: QuadratureDelta.DeltaState)
    requires QuadratureDelta.ValidState(s)
    ensures var deltas := QuadratureDelta.Run(s, QuadratureDelta.ClockwiseReads(s.lastRotationSeq, 4)).1;
      RotaryEncoder.Run([], deltas).1 == [None, None, None, Some(Clockwise)]
  {
    QuadratureDelta.ClockwiseWalk(s, 4);
    assert seq(4, _ => 1) == [1, 1, 1, 1];
    RotaryEncoder.FourOnesEmitOnce();
  }

  /** The value the table's readState returns for a direction: 'clockwise', 'anticlockwise' or null. */
  function ReturnedValue(direction: Option<Direction>): (v: RotaryEncoder.JsValue)
    ensures v == RotaryEncoder.Null <==> direction == None
    ensures v == RotaryEncoder.Str("clockwise") <==> direction == Some(Clockwise)
    ensures v == RotaryEncoder.Str("anticlockwise") <==> direction == Some(Anticlockwise)
  {
    match direction
    case None => RotaryEncoder.Null
    case Some(Clockwise) => RotaryEncoder.Str("clockwise")
    case Some(Anticlockwise) => RotaryEncoder.Str("anticlockwise")
  }

  /**
   * As written, `create` falls back to `algorithms.default` when no algorithm
   * is given, and every value that algorithm returns fails the aggregator's
   * integer check: the first poll throws, whatever the pins read.
   */
  lemma DefaultAlgorithmThrows(s: TransitionTable.TableState, a: Bit, b: Bit, history: seq<int>)
    requires TransitionTable.ValidState(s)
    ensures var returned := ReturnedValue(TransitionTable.ReadStep(s, a, b).1);
      !returned.Num? &&
      RotaryEncoder.Broadcast(history, RotaryEncoder.ReadingOf(returned)) == Failure(RotaryEncoder.ReadStateNotInteger)
  {
  }

  /** The table's direction as the number the aggregator expects: 1, -1, or 0 for null. */
  function TableDelta(direction: Option<Direction>): (n: int)
    ensures n == 1 <==> direction == Some(Clockwise)
    ensures n == -1 <==> direction == Some(Anticlockwise)
    ensures n == 0 <==> direction == None
  {
    match direction
    case None => 0
    case Some(Clockwise) => 1
    case Some(Anticlockwise) => -1
  }

  /** TableDelta of each returned direction, in order. */
  function TableDeltas(directions: seq<Option<Direction>>): (deltas: seq<int>)
    ensures |deltas| == |directions|
    ensures forall i :: 0 <= i < |directions| ==> deltas[i] == TableDelta(directions[i])
  {
    if directions == [] then [] else [TableDelta(directions[0])] + TableDeltas(directions[1..])
  }

  /**
   * With the table's directions passed on as numbers, one full clockwise cycle,
   * aggregated from an empty history, emits exactly one 'clockwise' event.
   */
  lemma NumericTableCycleEmitsOneTurn(s: TransitionTable.TableState, from: int)
    requires TransitionTable.ValidState(s) && 0 <= from <= 3
    requires s.lastVal == TransitionTable.Encode(QuadratureDelta.PinsOf(from).0, QuadratureDelta.PinsOf(from).1)
    ensures var directions := TransitionTable.Run(s, QuadratureDelta.ClockwiseReads(from, 4)).1;
      RotaryEncoder.Run([], TableDeltas(directions)).1 == [None, None, None, Some(Clockwise)]
  {
    TransitionTable.ClockwiseWalk(s, from, 4);
    var directions := TransitionTable.Run(s, QuadratureDelta.ClockwiseReads(from, 4)).1;
    assert TableDeltas(directions) == [1, 1, 1, 1];
    RotaryEncoder.FourOnesEmitOnce();
  }
}
