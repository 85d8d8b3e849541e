/** Shared wrappers: an optional value, the errors the entry points raise,
    and a failure-compatible result type. */
module Common {

  datatype Option<+T> = None | Some(value: T)

  /** The ways the entry points of clustering.py refuse their inputs. */
  datatype Error =
    | PeriodShape         // a period vector whose length is not the dimension
    | SeparationTooLarge  // a bin edge above half the smallest period
    | DimensionMismatch   // sample1 and sample2 differ in dimension
    | RandomsRequired     // no periodic box and no random catalogue
    | UnknownEstimator    // an estimator name outside the supported five
    | MixedPeriod         // periodic boundaries with an infinite period entry
    | NsubShape           // Nsub without one entry per dimension
    | MissingCounts       // an estimator reads a count array that was never computed
    | MalformedResult     // wp handed a result of the wrong arity
    | EmptyArray          // the largest bin edge or smallest period of an empty array
    | UnsupportedDimension // an axis the code indexes (z, or the third subdivision) is missing
    | BadSubdivision      // jackknife cells that cannot be laid out over the box
    | ZeroDivision        // a sample-size factor divided by zero in Python arithmetic
    | IndexOutOfRange     // covariance_matrix indexing past its matrix

  datatype Result<+T> = Ok(value: T) | Err(error: Error) {
    predicate IsFailure() { Err? }

    function PropagateFailure<U>(): Result<U>
      requires Err?
    {
      Err(error)
    }

    function Extract(): T
      requires Ok?
    {
      value
    }
  }
}
