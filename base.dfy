/** Value types shared by every part of the storefront model: optional values,
    results of steps that can throw, calendar dates, decimal rendering and the
    JSON responses of the HTTP routes. */
module Base {

  datatype Option<T> = None | Some(value: T)

  /** The outcome of an async function that returns a value or throws. */
  datatype Result<T> = Ok(value: T) | Err(error: string)

  /** The outcome of an async function that returns nothing or throws. */
  datatype Outcome = Done | Failed(error: string)

  /** JavaScript truthiness of an optional string: present and non-empty. */
  predicate Truthy(s: Option<string>)
  {
    s.Some? && s.value != ""
  }

  /** The JavaScript expression `s || fallback` on an optional string. */
  function OrElse(s: Option<string>, fallback: string): string
  {
    if Truthy(s) then s.value else fallback
  }

  /** `s || undefined`: a falsy string is dropped. */
  function Defined(s: Option<string>): Option<string>
  {
    if Truthy(s) then s else None
  }

  /** `error.message || fallback`: an error's message, or the fallback text
      when the message is empty. */
  function MessageOr(message: string, fallback: string): (t: string)
    ensures message != "" ==> t == message
    ensures message == "" ==> t == fallback
  {
    if message != "" then message else fallback
  }

  /** A route's 500 answer for a caught error: its message, else the route's
      fixed text. */
  function ServerError(message: string, fallback: string): Response
  {
    Response(500, ErrorBody(MessageOr(message, fallback)))
  }

  /** A local calendar date; `month` is 0-based as JavaScript's `getMonth()`. */
  datatype Date = Date(year: int, month: int, day: int)

  /** Strict lexicographic order on (year, month, day). */
  predicate DateBefore(a: Date, b: Date)
  {
    a.year < b.year || (a.year == b.year && (a.month < b.month || (a.month == b.month && a.day < b.day)))
  }

  function DigitChar(d: nat): char
    requires d < 10
  {
    "0123456789"[d]
  }

  /** The number a text of decimal digits denotes, most significant first. */
  function DigitsValue(s: string): nat
    requires forall i :: 0 <= i < |s| ==> '0' <= s[i] <= '9'
  {
    if s == [] then 0 else 10 * DigitsValue(s[..|s|-1]) + (s[|s|-1] - '0') as nat
  }

  /** `n.toString()` for a non-negative integer: the digits denoting `n`,
      with no leading zero. */
  function Decimal(n: nat): (s: string)
    ensures |s| >= 1
    ensures forall i :: 0 <= i < |s| ==> '0' <= s[i] <= '9'
    ensures DigitsValue(s) == n
    ensures |s| > 1 ==> s[0] != '0'
  {
    if n < 10 then [DigitChar(n)] else Decimal(n / 10) + [DigitChar(n % 10)]
  }

  /** The index of the first element satisfying `p`, if any: what a gateway
      list call with `limit: 1` over a filtered listing returns. */
  function FirstWhere<T>(s: seq<T>, p: T -> bool): (r: Option<nat>)
    ensures r.None? <==> forall i :: 0 <= i < |s| ==> !p(s[i])
    ensures r.Some? ==> r.value < |s| && p(s[r.value]) && forall j :: 0 <= j < r.value ==> !p(s[j])
  {
    if s == [] then None
    else if p(s[0]) then Some(0)
    else match FirstWhere(s[1..], p)
      case None => None
      case Some(k) => Some(k + 1)
  }

  /** The JSON bodies the HTTP routes answer with. */
  datatype Body =
    | Received
    | ErrorBody(message: string)
    | SessionCreated(sessionId: string)
    | ActivationSucceeded

  datatype Response = Response(status: int, body: Body)
}
