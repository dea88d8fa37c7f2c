/** Optional values and the failure outcomes of the chart derivations.

    A JavaScript exception thrown inside one chart's initialisation aborts the
    rest of the load callback, so every derivation that can throw returns a
    `Result`.  `Unsupported` marks inputs on which the real code neither throws
    nor filters, but computes with NaN produced by coercions this model does not
    follow (string-to-number conversion, NaN arithmetic). */
module Results {

  datatype Option<+T> = None | Some(value: T)

  datatype Failure =
    | SyntaxError   // JSON.parse rejected its argument
    | TypeError     // a property read on null/undefined, or a missing method (map, slice, toFixed)
    | Unsupported   // a value whose JavaScript coercion is not modelled

  datatype Result<+T> = Ok(value: T) | Err(failure: Failure) {
    predicate IsFailure() { Err? }

    function PropagateFailure<U>(): Result<U>
      requires Err?
    {
      Err(failure)
    }

    function Extract(): T
      requires Ok?
    {
      value
    }
  }
}
