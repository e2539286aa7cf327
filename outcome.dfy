/** The outcome of a Python function that either returns a value or stops with an IndexError. */
module Outcome {

  datatype Result<T> = Value(value: T) | IndexError

}
