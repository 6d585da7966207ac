/** Shared vocabulary of the model: optional request fields, JavaScript truthiness
    of the values the controllers test with `!x`, and the outcome of a request. */
module Common {

  /** `None` stands for a field the request body leaves `undefined`. */
  datatype Option<+T> = None | Some(value: T)

  /** The classes of answers the controllers give, without the HTTP transport:
      400, 401, 403, 404 and 500. */
  datatype Status = Invalid | Unauthorized | Forbidden | NotFound | Internal

  datatype Failure = Failure(status: Status, message: string)

  datatype Result<+T> = Ok(value: T) | Fail(failure: Failure)

  /** `!!s` for a string-valued field: absent and "" are falsy. */
  predicate TruthyText(s: Option<string>) {
    s.Some? && s.value != ""
  }

  /** `!!x` for a numeric field: absent and 0 are falsy (NaN is not modelled). */
  predicate TruthyNumber(x: Option<real>) {
    x.Some? && x.value != 0.0
  }

  /** `!!id` for an integer id or a timestamp: absent and 0 are falsy. */
  predicate TruthyInt(x: Option<int>) {
    x.Some? && x.value != 0
  }

  /** `x !== undefined ? x : stored`: a supplied field replaces the stored value. */
  function Given<T>(x: Option<T>, stored: T): (r: T)
    ensures x.None? ==> r == stored
    ensures x.Some? ==> r == x.value
  {
    if x.Some? then x.value else stored
  }
}
