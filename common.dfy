/** Shared vocabulary of the handlers: optional values, the error taxonomy
    the controllers answer with, instants, and the query-limit clamp. */
module Common {

  datatype Option<+T> = None | Some(value: T)

  /** The error answers of the controllers. `Internal` is the 500 that a
      failed schema validation on create/save turns into; `OutsideRadius` is
      the 403 of the attendance geofence, which carries the measured distance
      and the allowed radius in its payload. */
  datatype Failure =
    | BadRequest | Unauthenticated | Forbidden | NotFound | Conflict | Internal
    | OutsideRadius(distance: real, radius: real)

  datatype Result<+T> = Ok(value: T) | Err(failure: Failure)

  /** Milliseconds of local wall-clock time, counted from 1970-01-01 00:00. */
  type Instant = int

  type Id = string

  function StatusCode(f: Failure): (code: nat)
    ensures 400 <= code <= 500
    ensures code == 500 <==> f == Internal
    ensures code == 403 <==> f == Forbidden || f.OutsideRadius?
  {
    match f
    case BadRequest => 400
    case Unauthenticated => 401
    case Forbidden => 403
    case OutsideRadius(_, _) => 403
    case NotFound => 404
    case Conflict => 409
    case Internal => 500
  }

  /** A request carries a verified identity only when the token check
      produced a non-empty uid (`!req.user?.uid` rejects both cases). */
  predicate SignedIn(caller: Option<string>) {
    caller.Some? && caller.value != ""
  }

  /** JavaScript truthiness of an optional string body field. */
  predicate Truthy(field: Option<string>) {
    field.Some? && field.value != ""
  }

  /** A body field that should be an array: absent, present but not an
      array, or an array. */
  datatype ListField<+T> = Missing | NotAList | List(items: seq<T>)

  /** `Array.isArray(x) ? x : []` on a field that is present. */
  function ItemsOrEmpty<T>(field: ListField<T>): (r: seq<T>)
    ensures field.List? ==> r == field.items
    ensures !field.List? ==> r == []
  {
    if field.List? then field.items else []
  }

  function Min(a: int, b: int): int { if a <= b then a else b }
  function Max(a: int, b: int): int { if a >= b then a else b }

  /** `Math.max(1, Math.min(hi, n || fallback))` where `raw` is the number
      read from the query (None when it is absent or not a number). A zero
      is falsy and so also falls back. */
  function ClampLimit(raw: Option<int>, fallback: nat, hi: nat): (lim: nat)
    requires 1 <= fallback <= hi
    ensures 1 <= lim <= hi
    ensures raw.Some? && 1 <= raw.value <= hi ==> lim == raw.value
    ensures raw.None? || raw == Some(0) ==> lim == fallback
    ensures raw.Some? && raw.value > hi ==> lim == hi
    ensures raw.Some? && raw.value < 0 ==> lim == 1
  {
    var n := if raw.None? || raw.value == 0 then fallback else raw.value;
    Max(1, Min(hi, n))
  }
}
