/**
  Values shared by every handler of the rental application: an optional value,
  and the response of an HTTP route, which either carries data or an error with
  the HTTP status code the route returns.
 */
module Common {

  datatype Option<+T> = None | Some(value: T)
  {
    /** The carried value, or `default` when there is none. */
    function GetOr(default: T): T
    {
      match this
      case Some(v) => v
      case None => default
    }
  }

  /** What a route returns: `Ok` with its `data`, or `Fail` with a status code and message. */
  datatype Response<+T> = Ok(data: T) | Fail(code: int, message: string)

  const BadRequest: int := 400
  const NotFound: int := 404
  const Conflict: int := 409
  const ServerError: int := 500

  /** JavaScript's `a || b` on two optional strings: an empty string counts as missing. */
  function OrElse(a: string, b: string): (r: string)
    ensures a != "" ==> r == a
    ensures a == "" ==> r == b
  {
    if a != "" then a else b
  }

  /** A select filter: `'ALL'`, or one exact value. */
  datatype Choice<+T> = All | Only(value: T)

  /** The filter lets `x` through: it is `'ALL'` or names exactly `x`. */
  predicate Admits<T(==)>(c: Choice<T>, x: T)
  {
    c.All? || c.value == x
  }

  function Min(a: int, b: int): (r: int)
    ensures r <= a && r <= b
    ensures r == a || r == b
  {
    if a <= b then a else b
  }

  function Max(a: int, b: int): (r: int)
    ensures r >= a && r >= b
    ensures r == a || r == b
  {
    if a >= b then a else b
  }

  /** Milliseconds in a day, `1000 * 60 * 60 * 24`. */
  const MillisPerDay := 86400000

  /** Dividing both sides of a strict inequality by a positive factor. */
  lemma CancelPositive(n: int, a: int, b: int)
    requires n > 0 && n * a < n * b
    ensures a < b
  {
    assert n * b - n * a == n * (b - a);
  }
}
