/**
 * Shared vocabulary of the job-board front end: optional values, what a
 * backend call produced, form values and router targets.
 */
module Common {

  datatype Option<+T> = None | Some(value: T)

  /** What a backend call produced: its payload, or the message of the error it threw. */
  datatype Result<+T> = Ok(value: T) | Err(message: string)

  /** A backend call that returns no payload (delete, update, create). */
  datatype Outcome = Done | Failed(message: string)

  /**
   * A `router.push` target: a path and the query parameters written after
   * "?", in insertion order. A plain path has no parameters.
   */
  datatype Target = Target(path: string, query: seq<(string, string)>)

  function PathOnly(p: string): Target
  {
    Target(p, [])
  }

  /** One page of a paged listing as the pages read it: the items and the page count. */
  datatype Paged<+T> = Paged(data: seq<T>, totalPages: int)

  /**
   * A value held in a form object. Instant(t) is a point in time; where the
   * source sends `toISOString()` of it, the model keeps the instant.
   */
  datatype Value = Str(s: string) | Num(n: int) | Bool(b: bool) | Mask(bits: bv32) | Instant(t: int)

  /** JavaScript truthiness of a nullable string: null and "" are falsy. */
  predicate Present(s: Option<string>)
  {
    s.Some? && s.value != ""
  }
}
