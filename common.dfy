/** Values shared by every part of the backend model: optional form fields,
    the error outcomes of the HTTP handlers, and JavaScript truthiness of a field. */
module Common {

  datatype Option<+T> = None | Some(value: T)

  /** The handler-level failures that reach a client as `{success: false, message}`. */
  datatype ApiError =
    | MissingFields   // 400 'Missing required fields'
    | NotFound        // 404 'Submission not found'
    | InvalidFormat   // 400 'Invalid format requested'

  datatype Result<+T> = Ok(value: T) | Err(error: ApiError)

  /** Submission ids come from shortid and are opaque strings. */
  type Id = string

  /** Timestamps are supplied by the caller (the server reads the clock). */
  type Timestamp = string

  /** `if (field)` on a request-body or stored string field: present and non-empty. */
  predicate Truthy(field: Option<string>)
  {
    field.Some? && field.value != []
  }

  function Min(a: int, b: int): int
  {
    if a <= b then a else b
  }
}
