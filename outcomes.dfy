/** Python-level outcomes of the evaluator's operations: the exceptions that
    escape from it, optional values, and the float64 values it reports. */
module Outcomes {

  /** The exception classes that can escape from the evaluator, named as Python
      and scikit-learn name them. */
  datatype Error =
    | AttributeError   // a missing attribute: `X_` before any fit, `fit`/`transform` on a list
    | IndexError       // an index past the end of a list or an array
    | ValueError       // an input the classifier refuses, or labels missing where a score needs them
    | NotFittedError   // a classifier queried before it was fitted

  datatype Option<+T> = None | Some(value: T)

  datatype Result<+R> = Ok(value: R) | Err(error: Error)

  /** A float64 as far as the evaluator produces one: a rational value, or the
      NaN that the mean of an empty array yields. */
  datatype Float = NaN | Num(v: real)
}
