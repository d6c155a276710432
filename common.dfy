/** Values shared by the backend and the frontend model: optional values,
    endpoint results with their HTTP status codes, and calendar dates. */
module Common {

  /** An optional value: a nullable column, an omitted JSON field, JavaScript's
      `undefined` / `null`. */
  datatype Option<+T> = None | Some(value: T) {
    function GetOr(default: T): T {
      match this
      case Some(v) => v
      case None => default
    }
  }

  /** What an endpoint answers: the record it returns with a 2xx status, or the
      status code of the error it raises. */
  datatype Result<+T> = Ok(value: T) | Err(code: int)

  /** `HTTPException(status_code=400)`, raised for database errors. */
  const BadRequest: int := 400
  /** `HTTPException(status_code=404)`, raised when a referenced row is missing. */
  const NotFound: int := 404
  /** `HTTPException(status_code=409)`, raised for a room that is not available. */
  const Conflict: int := 409
  /** FastAPI's answer to a request body or query that fails validation. */
  const Unprocessable: int := 422
  /** FastAPI's answer to an exception the endpoint does not catch. */
  const ServerError: int := 500

  /** A calendar date, as Python's `date` and MySQL's DATE hold it. */
  datatype Date = Date(year: int, month: int, day: int)

  predicate IsLeapYear(y: int) {
    y % 4 == 0 && (y % 100 != 0 || y % 400 == 0)
  }

  function DaysInMonth(y: int, m: int): (n: int)
    ensures 28 <= n <= 31
  {
    if m == 2 then (if IsLeapYear(y) then 29 else 28)
    else if m == 4 || m == 6 || m == 9 || m == 11 then 30
    else 31
  }

  /** The dates Python's `date` can represent (years 1 to 9999 of the
      proleptic Gregorian calendar). */
  predicate ValidDate(d: Date) {
    1 <= d.year <= 9999 && 1 <= d.month <= 12 && 1 <= d.day <= DaysInMonth(d.year, d.month)
  }

  /** A value of Python's `date`: always a real calendar day. */
  type CalendarDate = d: Date | ValidDate(d) witness Date(1, 1, 1)

  /** Chronological order: `a` is on or before `b`. */
  predicate DateLe(a: Date, b: Date) {
    a.year < b.year
    || (a.year == b.year && (a.month < b.month || (a.month == b.month && a.day <= b.day)))
  }

  lemma DateLeTotal(a: Date, b: Date)
    ensures DateLe(a, b) || DateLe(b, a)
  {
  }

  lemma DateLeTransitive(a: Date, b: Date, c: Date)
    requires DateLe(a, b) && DateLe(b, c)
    ensures DateLe(a, c)
  {
  }

  lemma DateLeAntisymmetric(a: Date, b: Date)
    requires DateLe(a, b) && DateLe(b, a)
    ensures a == b
  {
  }
}
