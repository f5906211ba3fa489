/** Failure-carrying datatypes shared by every module of the model.

    The benchmark is written in Python, where every failure is an exception.
    Here an exception becomes the `Err` arm of a `Result`, and `Error` names
    the exception classes the modelled code raises or lets through.
 */
module Wrappers {

  datatype Option<+T> = None | Some(value: T) {

    /** The value, or `default` when there is none (Python's `dict.get(k, default)`). */
    function GetOr(default: T): T {
      match this
      case Some(v) => v
      case None => default
    }
  }

  /** An error object of the search store: a JSON dictionary whose keys the
      model restricts to "type" and "reason". It is truthy in Python iff it
      holds at least one key. */
  datatype ErrorInfo = ErrorInfo(kind: Option<string>, reason: Option<string>) {
    predicate NonEmpty() {
      kind.Some? || reason.Some?
    }
  }

  datatype Error =
    /** botocore's ClientError: the error code and, for a stale sequence
        token, the `expectedSequenceToken` of the error response. */
    | ClientError(code: string, expectedToken: Option<string>)
    /** botocore's client-side ParamValidationError: a parameter of the
        wrong type, rejected before any request is sent. */
    | ParamValidationError(param: string)
    | KeyError(key: string)
    | ValueError(message: string)
    /** A method called on Python's None. */
    | AttributeError(message: string)
    /** An operation applied to a value of the wrong type, such as iterating over None. */
    | TypeError(message: string)
    | ZeroDivisionError
    /** `Exception(error_data)` raised by the search store's response check:
        either the single error dictionary or the list of item errors. */
    | SearchError(single: Option<ErrorInfo>, items: seq<ErrorInfo>)
    /** The time-series store's RejectedRecordsException: the index and
        reason of each record it refused. */
    | RejectedRecords(rejected: seq<Rejection>)
    /** Any failure of a backend call whose internals are not modelled. */
    | BackendFailure(reason: string)
    /** The model's recursion bound ran out; the Python code has no such bound. */
    | FuelExhausted

  /** One refused record: its index in the request and the store's reason. */
  datatype Rejection = Rejection(index: int, reason: string)

  datatype Result<+T> = Ok(value: T) | Err(error: Error) {

    predicate IsFailure() {
      Err?
    }

    function PropagateFailure<U>(): Result<U>
      requires Err?
    {
      Err(error)
    }

    function Extract(): T
      requires Ok?
    {
      value
    }
  }
}
