/**
 * The encoder event aggregator of lib/rotary-encoder.js: each decoded step is
 * collected in a history, and whenever the history length is a multiple of
 * four the sign of its sum decides whether a `turn` event is emitted.
 */
module RotaryEncoder {
  import opened Wrappers
  import opened Rotation

  /** `historyCount` */
  const HistoryCount := 4

  /** What readState returned: a number, or any other JavaScript value. */
  datatype Reading = Number(n: int) | NotANumber

  /** A JavaScript value a readState function may return (integers, strings and null). */
  datatype JsValue = Num(n: int) | Str(s: string) | Null

  /** `typeof direction !== 'number'`: only a number passes the check, with its value. */
  function ReadingOf(v: JsValue): (r: Reading)
    ensures r.Number? <==> v.Num?
    ensures v.Num? ==> r == Number(v.n)
  {
    match v
    case Num(n) => Number(n)
    case Str(_) => NotANumber
    case Null => NotANumber
  }

  datatype EncoderError =
    | ReadStateNotInteger   // "readState must return an integer"
    | InvalidUpdateMethod   // "Invalid updateMethod defined, use opts.updateMethod"

  datatype UpdateMethod = Polling | Interrupt

  datatype Pull = PudUp | PudDown

  /** The sum of a history. */
  function Sum(h: seq<int>): int
  {
    if h == [] then 0 else h[0] + Sum(h[1..])
  }

  /** -1, 0 or 1 as x is negative, zero or positive. */
  function Sign(x: int): (r: int)
    ensures -1 <= r <= 1
    ensures r > 0 <==> x > 0
    ensures r < 0 <==> x < 0
  {
    if x > 0 then 1 else if x < 0 then -1 else 0
  }

  /**
   * directionFromHistory: adds up the whole history, last entry first, and
   * returns the sign of the total.
   */
  method DirectionFromHistory(history: seq<int>) returns (dir: int)
    ensures dir == Sign(Sum(history))
  {
    var total := 0;
    var i := |history| - 1;
    while i >= 0
      invariant -1 <= i < |history|
      invariant total == Sum(history[i + 1..])
    {
      assert history[i..][1..] == history[i + 1..];
      total := total + history[i];
      i := i - 1;
    }
    assert history[0..] == history;
    if total > 0 {
      dir := 1;
    } else if total < 0 {
      dir := -1;
    } else {
      dir := 0;
    }
  }

  /** directionText: 'clockwise' for a positive number, 'anticlockwise' for a negative one. */
  function DirectionText(num: int): (text: Option<Direction>)
    ensures text == Some(Clockwise) <==> num > 0
    ensures text == Some(Anticlockwise) <==> num < 0
    ensures text == None <==> num == 0
  {
    if num > 0 then Some(Clockwise) else if num < 0 then Some(Anticlockwise) else None
  }

  /**
   * readAndBroadcastState, given what readState returned: the new history and
   * the `turn` event emitted, if any.
   */
  function Broadcast(history: seq<int>, reading: Reading): (r: Result<(seq<int>, Option<Direction>), EncoderError>)
    // A non-number fails before the history is touched.
    ensures reading.NotANumber? <==> r == Failure(ReadStateNotInteger)
    // A zero reading empties the history and never emits.
    ensures reading == Number(0) ==> r == Success(([], None))
    // A non-zero reading is appended.
    ensures reading.Number? && reading.n != 0 ==> r.Success? && r.value.0 == history + [reading.n]
    // A turn is emitted exactly when the length is a positive multiple of four and the
    // sum is not zero; its direction is the sign of the sum of the whole history.
    ensures r.Success? ==>
      r.value.1 == (if |r.value.0| % HistoryCount == 0 then DirectionText(Sum(r.value.0)) else None)
    ensures r.Success? && r.value.1.Some? ==> |r.value.0| > 0 && |r.value.0| % HistoryCount == 0
  {
    match reading
    case NotANumber => Failure(ReadStateNotInteger)
    case Number(direction) =>
      var history' := if direction == 0 then [] else history + [direction];
      var emitted := if |history'| % HistoryCount == 0 then DirectionText(Sign(Sum(history'))) else None;
      Success((history', emitted))
  }

  /** Successive numeric readings, from the first: the final history and what each emitted. */
  function Run(history: seq<int>, readings: seq<int>): (r: (seq<int>, seq<Option<Direction>>))
    ensures |r.1| == |readings|
  {
    if readings == [] then (history, [])
    else
      var (h, emitted) := Run(history, readings[..|readings| - 1]);
      var step := Broadcast(h, Number(readings[|readings| - 1]));
      (step.value.0, emitted + [step.value.1])
  }

  /** Run takes the readings one at a time: one more reading is one more Broadcast. */
  lemma RunAppend(history: seq<int>, readings: seq<int>, x: int)
    ensures var before := Run(history, readings);
      var step := Broadcast(before.0, Number(x));
      Run(history, readings + [x]) == (step.value.0, before.1 + [step.value.1])
  {
    assert (readings + [x])[..|readings|] == readings;
  }

  /** The readings after the last zero: what the history holds. */
  function SinceLastZero(readings: seq<int>): (r: seq<int>)
    ensures forall i :: 0 <= i < |r| ==> r[i] != 0
  {
    if readings == [] then []
    else if readings[|readings| - 1] == 0 then []
    else SinceLastZero(readings[..|readings| - 1]) + [readings[|readings| - 1]]
  }

  /** Starting empty, the history is always exactly the readings since the last zero. */
  lemma {:induction false} HistoryIsSinceLastZero(readings: seq<int>)
    ensures Run([], readings).0 == SinceLastZero(readings)
  {
    if readings != [] {
      HistoryIsSinceLastZero(readings[..|readings| - 1]);
    }
  }

  /**
   * So the event emitted by the latest reading is decided by the readings since
   * the last zero: their count must be a multiple of four, and their sum's sign
   * is the direction.
   */
  lemma LatestEmission(readings: seq<int>)
    requires readings != []
    ensures var h := SinceLastZero(readings);
      Run([], readings).1[|readings| - 1] ==
        (if |h| % HistoryCount == 0 then DirectionText(Sum(h)) else None)
  {
    HistoryIsSinceLastZero(readings);
    HistoryIsSinceLastZero(readings[..|readings| - 1]);
  }

  /** n readings of 1. */
  function Ones(n: nat): (s: seq<int>)
    ensures |s| == n && forall i :: 0 <= i < n ==> s[i] == 1
  {
    seq(n, _ => 1)
  }

  lemma {:induction false} SumOnes(n: nat)
    ensures Sum(Ones(n)) == n
  {
    if n > 0 {
      assert Ones(n)[1..] == Ones(n - 1);
      SumOnes(n - 1);
    }
  }

  /**
   * Readings of 1 from an empty history emit 'clockwise' on every fourth reading
   * and nothing otherwise: four readings give exactly one event, on the fourth.
   */
  lemma {:induction false} OnesEmitEveryFourth(n: nat)
    ensures Run([], Ones(n)).0 == Ones(n)
    ensures forall i :: 0 <= i < n ==>
      Run([], Ones(n)).1[i] == (if (i + 1) % HistoryCount == 0 then Some(Clockwise) else None)
  {
    if n > 0 {
      assert Ones(n)[..n - 1] == Ones(n - 1);
      OnesEmitEveryFourth(n - 1);
      assert Ones(n - 1) + [1] == Ones(n);
      SumOnes(n);
    }
  }

  /** The test's scenario: four readings of 1 emit one 'clockwise', on the fourth. */
  lemma FourOnesEmitOnce()
    ensures Run([], [1, 1, 1, 1]).1 == [None, None, None, Some(Clockwise)]
  {
    OnesEmitEveryFourth(4);
    assert Ones(4) == [1, 1, 1, 1];
  }

  /** The sum of four readings, written out. */
  lemma SumOfFour(d: seq<int>)
    requires |d| == 4
    ensures Sum(d) == d[0] + d[1] + d[2] + d[3]
  {
    assert d[1..][1..][1..][1..] == [];
    assert Sum(d[1..][1..][1..]) == d[3];
    assert Sum(d[1..][1..]) == d[2] + d[3];
  }

  /** A non-zero reading is appended to the history and emits as Broadcast decides. */
  lemma AppendNonZero(history: seq<int>, readings: seq<int>, x: int)
    requires x != 0
    ensures var before := Run(history, readings);
      var h := before.0 + [x];
      Run(history, readings + [x]) ==
        (h, before.1 + [if |h| % HistoryCount == 0 then DirectionText(Sum(h)) else None])
  {
    RunAppend(history, readings, x);
  }

  /** While the history holds every reading, one more non-zero reading short of a multiple of four emits nothing. */
  lemma QuietAppend(readings: seq<int>, emitted: seq<Option<Direction>>, x: int)
    requires x != 0 && (|readings| + 1) % HistoryCount != 0
    requires Run([], readings) == (readings, emitted)
    ensures Run([], readings + [x]) == (readings + [x], emitted + [None])
  {
    AppendNonZero([], readings, x);
  }

  /**
   * Four non-zero readings that cancel out, from an empty history, emit
   * nothing: the first three leave the length short of four, and the fourth
   * makes the sum zero.
   */
  lemma CancellingFourEmitNothing(a: int, b: int, c: int, d: int)
    requires a != 0 && b != 0 && c != 0 && d != 0
    requires a + b + c + d == 0
    ensures Run([], [a, b, c, d]).1 == [None, None, None, None]
  {
    var none: seq<Option<Direction>> := [];
    var h1, h2, h3, h4 := [a], [a, b], [a, b, c], [a, b, c, d];
    assert [] + [a] == h1 && h1 + [b] == h2 && h2 + [c] == h3 && h3 + [d] == h4;
    QuietAppend([], none, a);
    QuietAppend(h1, none + [None], b);
    QuietAppend(h2, none + [None] + [None], c);
    AppendNonZero([], h3, d);
    SumOfFour(h4);
    assert none + [None] + [None] + [None] + [None] == [None, None, None, None];
  }



  /** opts.updateMethod, 'polling' when not given; any other value is an error. */
  function ResolveUpdateMethod(updateMethod: Option<string>): (r: Result<UpdateMethod, EncoderError>)
    ensures r == Success(Polling) <==> updateMethod in {None, Some(""), Some("polling")}
    ensures r == Success(Interrupt) <==> updateMethod == Some("interrupt")
    ensures r.Failure? ==> r.error == InvalidUpdateMethod
  {
    var method_ := if updateMethod == None || updateMethod == Some("") then "polling" else updateMethod.value;
    if method_ == "polling" then Success(Polling)
    else if method_ == "interrupt" then Success(Interrupt)
    else Failure(InvalidUpdateMethod)
  }

  /** configurePullForPin: the pull resistor configured for 'up' or 'down'; nothing otherwise. */
  function ConfigurePullForPin(direction: Option<string>): (pull: Option<Pull>)
    ensures pull == Some(PudUp) <==> direction == Some("up")
    ensures pull == Some(PudDown) <==> direction == Some("down")
  {
    match direction
    case Some("up") => Some(PudUp)
    case Some("down") => Some(PudDown)
    case _ => None
  }

  /** The aggregator's state: the `history` array of one encoder. */
  class Encoder {
    var history: seq<int>

    constructor ()
      ensures history == []
    {
      history := [];
    }

    /** readAndBroadcastState, given what readState returned. */
    method ReadAndBroadcastState(reading: Reading) returns (r: Result<Option<Direction>, EncoderError>)
      modifies this
      ensures var expected := Broadcast(old(history), reading);
        if expected.Success? then r == Success(expected.value.1) && history == expected.value.0
        else r == Failure(expected.error) && history == old(history)
    {
      if reading.NotANumber? {
        return Failure(ReadStateNotInteger);
      }
      var direction := reading.n;
      if direction == 0 {
        history := [];
      } else {
        history := history + [direction];
      }
      r := Success(None);
      if |history| % HistoryCount == 0 {
        var dir := DirectionFromHistory(history);
        var text := DirectionText(dir);
        if text.Some? {
          r := Success(text);
        }
      }
    }
  }
}

