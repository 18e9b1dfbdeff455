/** Optional values, the errors the plotting code can raise, and a
    failure-compatible result type for the operations that raise them. */
module Results {

  /** Python's `None` or a value. */
  datatype Option<+T> = None | Some(value: T)

  /** The exceptions of the modelled code paths. */
  datatype Error =
    | MissingColumn(name: string)   // `list.index` raising ValueError for a header name
    | IndexOutOfRange               // `row[i]` or `labels[i]` raising IndexError
    | NotAFloat(text: string)       // `float(text)` raising ValueError
    | MathDomainError               // `math.log10(p)` raising ValueError for p <= 0
    | NoAttribute(name: string)     // an attribute lookup raising AttributeError

  datatype Result<+T> = Ok(value: T) | Err(error: Error) {
    predicate IsFailure() {
      Err?
    }

    function PropagateFailure<U>(): Result<U>
      requires Err?
    {
      Err(error)
    }

    function Extract(): T
      requires Ok?
    {
      value
    }
  }
}
