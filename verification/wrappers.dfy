/** Failure-compatible wrappers used throughout the model. */
module Wrappers {

  /** A value that may be absent; models Python's `None`. */
  datatype Option<+T> = None | Some(value: T)

  /** The outcome of an operation that may raise. */
  datatype Result<+R, +E> = Success(value: R) | Failure(error: E) {

    predicate IsFailure() {
      Failure?
    }

    function PropagateFailure<U>(): Result<U, E>
      requires Failure?
    {
      Failure(error)
    }

    function Extract(): R
      requires Success?
    {
      value
    }
  }
}

/** The exceptions the modelled code can raise, as data. */
module Errors {

  datatype Error =
    /** Django's `Model.DoesNotExist`, raised by `objects.get` when nothing matches. */
    | DoesNotExist(model: string)
    /** Django's `Model.MultipleObjectsReturned`, raised by `objects.get` when several rows match. */
    | MultipleObjectsReturned(model: string)
    /** Python's `KeyError` from a dictionary lookup of a missing key. */
    | KeyError(key: string)
    /** Python's `TypeError` from an operation applied to operands of the wrong type. */
    | TypeError(detail: string)
    /** Python's `ValueError`, e.g. from unpacking a split into the wrong number of parts. */
    | ValueError(detail: string)
    /** Python's `IndexError`, e.g. from taking the first element of an empty list. */
    | IndexError(detail: string)
    /** Python's `AttributeError`, e.g. from `getattr` of a name a module does not define. */
    | AttributeError(name: string)
}
