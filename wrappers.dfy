/** Optional values and results shared by the whole model. */
module Wrappers {

  /** A value that may be absent: JavaScript's `null` / `undefined`. */
  datatype Option<+T> = None | Some(value: T)

  /** The outcome of an operation that may throw. */
  datatype Result<+R, +E> = Success(value: R) | Failure(error: E)
}

/** The digital pin vocabulary of the GPIO layer. */
module Gpio {

  /** A digital pin level, as read or written: only 0 or 1. */
  type Bit = b: int | 0 <= b <= 1
}

/** Vocabulary shared by the rotary-encoder algorithms and the aggregator. */
module Rotation {

  /** The direction of a `turn` event ('clockwise' / 'anticlockwise'). */
  datatype Direction = Clockwise | Anticlockwise
}
