/** Value shapes shared by the queue, the connection registry and the request
    context: optional and fallible results, the scalars a caller can bind as
    query parameters, and JavaScript truthiness of optional strings. */
module Values {

  /** An optional value; `None` stands for a field that is absent, `null` or `undefined`. */
  datatype Option<+T> = None | Some(value: T)

  /** The settled state of a promise: fulfilled with a value or rejected with an error. */
  datatype Result<+T, +E> = Ok(value: T) | Err(error: E)

  /** A scalar JavaScript value as handed to the driver's `input` call.
      Numbers are modelled as integers (floating point is not modelled). */
  datatype Scalar = Undefined | Bool(b: bool) | Number(n: int) | Str(s: string)

  /** An error object, propagated by identity (never wrapped). */
  datatype Error = Error(message: string)

  /** JavaScript truthiness of an optional string: present and non-empty. */
  predicate Truthy(o: Option<string>) {
    o.Some? && o.value != ""
  }
}
