/**
 * The default decoding algorithm of lib/rotary-encoder/default.js: a table of
 * the sixteen (previous, current) two-bit states, with a position counter.
 */
module TransitionTable {
  import opened Wrappers
  import opened Gpio
  import opened Rotation
  import QuadratureDelta

  /** `(msb << 1) | lsb`, where pin A is the most significant bit. */
  function Encode(a: Bit, b: Bit): (e: int)
    ensures 0 <= e <= 3
    ensures e / 2 == a && e % 2 == b
  {
    (((a as bv2) << 1) | (b as bv2)) as int
  }

  /** `(lastVal << 2) | encoded`: the previous state in the high bits, the current one low. */
  function TableIndex(lastVal: int, encoded: int): (sum: int)
    requires 0 <= lastVal <= 3 && 0 <= encoded <= 3
    ensures 0 <= sum <= 15
    ensures sum / 4 == lastVal && sum % 4 == encoded
  {
    (((lastVal as bv4) << 2) | (encoded as bv4)) as int
  }

  /** The table entries 1101, 0100, 0010 and 1011. */
  predicate IsClockwise(sum: int)
  {
    sum == 13 || sum == 4 || sum == 2 || sum == 11
  }

  /** The table entries 1110, 0111, 0001 and 1000. */
  predicate IsAnticlockwise(sum: int)
  {
    sum == 14 || sum == 7 || sum == 1 || sum == 8
  }

  /** The closure state of one readState function. */
  datatype TableState = TableState(lastVal: int, position: int)

  predicate ValidState(s: TableState)
  {
    0 <= s.lastVal <= 3
  }

  /** The state right after createDefaultReadState. */
  function Initial(): (s: TableState)
    ensures ValidState(s) && s.position == 0
    // Before any read, the previous state counts as both pins low.
    ensures s.lastVal == Encode(0, 0)
  {
    TableState(0, 0)
  }

  /** One call of readState with the pins reading (a, b): new state and returned direction. */
  function ReadStep(s: TableState, a: Bit, b: Bit): (r: (TableState, Option<Direction>))
    requires ValidState(s)
    ensures ValidState(r.0)
    ensures r.0.lastVal == Encode(a, b)
    ensures IsClockwise(TableIndex(s.lastVal, Encode(a, b))) ==>
      r.1 == Some(Clockwise) && r.0.position == s.position + 1
    ensures IsAnticlockwise(TableIndex(s.lastVal, Encode(a, b))) ==>
      r.1 == Some(Anticlockwise) && r.0.position == s.position - 1
    ensures !IsClockwise(TableIndex(s.lastVal, Encode(a, b))) &&
            !IsAnticlockwise(TableIndex(s.lastVal, Encode(a, b))) ==>
      r.1 == None && r.0.position == s.position
    ensures s.position - 1 <= r.0.position <= s.position + 1
  {
    var encoded := Encode(a, b);
    var sum := TableIndex(s.lastVal, encoded);
    var (position, direction) :=
      if IsClockwise(sum) then (s.position + 1, Some(Clockwise)) else (s.position, None);
    var (position, direction) :=
      if IsAnticlockwise(sum) then (position - 1, Some(Anticlockwise)) else (position, direction);
    (TableState(encoded, position), direction)
  }

  /** No table entry is both clockwise and anticlockwise. */
  lemma ClockwiseAnticlockwiseDisjoint(sum: int)
    ensures !(IsClockwise(sum) && IsAnticlockwise(sum))
  {
  }

  /** Staying put (0000, 0101, 1010, 1111) and skipping a state (0011, 0110, 1001, 1100) report nothing. */
  lemma NoChangeAndDoubleStepReportNothing(s: TableState, a: Bit, b: Bit)
    requires ValidState(s)
    requires Encode(a, b) == s.lastVal || Encode(a, b) == 3 - s.lastVal
    ensures ReadStep(s, a, b).1 == None
    ensures ReadStep(s, a, b).0.position == s.position
  {
  }

  /** A transition old -> new is clockwise exactly when new -> old is anticlockwise. */
  lemma Reversible(old_: int, new_: int)
    requires 0 <= old_ <= 3 && 0 <= new_ <= 3
    ensures IsClockwise(TableIndex(old_, new_)) <==> IsAnticlockwise(TableIndex(new_, old_))
  {
  }

  /**
   * The table agrees with the delta algorithm's ordinal: a reading is reported
   * clockwise exactly when the ordinal moved one position forward (mod 4), and
   * anticlockwise exactly when it moved one position back.
   */
  lemma AgreesWithRotationSequence(a0: Bit, b0: Bit, a: Bit, b: Bit)
    ensures IsClockwise(TableIndex(Encode(a0, b0), Encode(a, b))) <==>
      QuadratureDelta.RotationSequence(a, b) == (QuadratureDelta.RotationSequence(a0, b0) + 1) % 4
    ensures IsAnticlockwise(TableIndex(Encode(a0, b0), Encode(a, b))) <==>
      QuadratureDelta.RotationSequence(a, b) == (QuadratureDelta.RotationSequence(a0, b0) + 3) % 4
  {
  }

  /** Successive calls of readState on the given pin reads: the final state and every returned direction. */
  function Run(s: TableState, samples: seq<(Bit, Bit)>): (r: (TableState, seq<Option<Direction>>))
    requires ValidState(s)
    ensures ValidState(r.0) && |r.1| == |samples|
    decreases |samples|
  {
    if samples == [] then (s, [])
    else
      var (s', d) := ReadStep(s, samples[0].0, samples[0].1);
      var (s'', ds) := Run(s', samples[1..]);
      (s'', [d] + ds)
  }

  /** One detent clockwise from ordinal `from` returns 'clockwise' and adds 1 to `position`. */
  lemma ClockwiseStep(s: TableState, from: int)
    requires ValidState(s) && 0 <= from <= 3
    requires s.lastVal == Encode(QuadratureDelta.PinsOf(from).0, QuadratureDelta.PinsOf(from).1)
    ensures var p := QuadratureDelta.PinsOf((from + 1) % 4);
      ReadStep(s, p.0, p.1) == (TableState(Encode(p.0, p.1), s.position + 1), Some(Clockwise))
  {
    var p0, p := QuadratureDelta.PinsOf(from), QuadratureDelta.PinsOf((from + 1) % 4);
    AgreesWithRotationSequence(p0.0, p0.1, p.0, p.1);
  }

  /**
   * Turning n detents clockwise, starting where `lastVal` holds the encoding of
   * ordinal `from`, returns 'clockwise' at every read and adds n to `position`.
   */
  lemma {:induction false} ClockwiseWalk(s: TableState, from: int, n: nat)
    requires ValidState(s) && 0 <= from <= 3
    requires s.lastVal == Encode(QuadratureDelta.PinsOf(from).0, QuadratureDelta.PinsOf(from).1)
    ensures Run(s, QuadratureDelta.ClockwiseReads(from, n)).1 == seq(n, _ => Some(Clockwise))
    ensures Run(s, QuadratureDelta.ClockwiseReads(from, n)).0.position == s.position + n
    decreases n
  {
    if n > 0 {
      var next := (from + 1) % 4;
      var p := QuadratureDelta.PinsOf(next);
      var samples := QuadratureDelta.ClockwiseReads(from, n);
      assert samples[0] == p && samples[1..] == QuadratureDelta.ClockwiseReads(next, n - 1);
      ClockwiseStep(s, from);
      ClockwiseWalk(TableState(Encode(p.0, p.1), s.position + 1), next, n - 1);
      assert [Some(Clockwise)] + seq(n - 1, _ => Some(Clockwise)) == seq(n, _ => Some(Clockwise));
    }
  }

  /** The closure created by createDefaultReadState, as an object. */
  class TableDecoder {
    var lastVal: int
    var position: int

    function State(): TableState
      reads this
    {
      TableState(lastVal, position)
    }

    ghost predicate Valid()
      reads this
    {
      ValidState(State())
    }

    constructor ()
      ensures Valid() && State() == Initial()
    {
      lastVal, position := 0, 0;
    }

    /** readState: the pins now read (a, b); returns 'clockwise', 'anticlockwise' or null. */
    method ReadState(a: Bit, b: Bit) returns (direction: Option<Direction>)
      requires Valid()
      modifies this
      ensures Valid()
      ensures (State(), direction) == ReadStep(old(State()), a, b)
    {
      var encoded := Encode(a, b);
      direction := None;
      var sum := TableIndex(lastVal, encoded);
      if IsClockwise(sum) {
        position := position + 1;
        direction := Some(Clockwise);
      }
      if IsAnticlockwise(sum) {
        position := position - 1;
        direction := Some(Anticlockwise);
      }
      lastVal := encoded;
    }
  }
}
