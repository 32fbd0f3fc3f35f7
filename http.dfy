/**
 * What a backend request can come back with, and how the client turns it
 * into a value or a thrown error. `fetchApi` (api.ts) and `fetchPrices`
 * (prices.ts) share this logic; the first throws it as an `ApiError`, the
 * second as a `PriceServiceError`, both carrying the HTTP status.
 */
module Http {
  import opened Wrappers
  import Decimal

  /**
   * The body read by `response.json()`: either it does not parse, or it is a
   * JSON object, read as the expected payload on success and for its
   * `message` property on failure.
   */
  datatype Json<T> = Malformed | Parsed(value: T, message: Option<string>)

  /** One request: the network rejected it, or the server answered. */
  datatype Exchange<T> = Unreachable(reason: string) | Answered(status: nat, body: Json<T>)

  /** What a request throws. */
  datatype Failure =
    | StatusError(status: nat, message: string)  // ApiError / PriceServiceError
    | NetworkError(reason: string)               // fetch() rejected
    | InvalidJson                                // response.json() rejected on an ok reply

  /** `response.ok`: a 2xx status. */
  predicate IsOk(status: nat) { 200 <= status <= 299 }

  /** The reply resolves to a payload: a 2xx answer whose body parses. */
  predicate Delivers<T>(x: Exchange<T>)
  {
    x.Answered? && IsOk(x.status) && x.body.Parsed?
  }

  /**
   * The message of the error thrown for a non-ok reply: the body's
   * `message` when it is a non-empty string, else `HTTP <status>`, and
   * `Unknown error` when the body does not parse.
   */
  function ErrorText<T>(status: nat, body: Json<T>): (m: string)
    ensures m != ""
    ensures body.Malformed? ==> m == "Unknown error"
    ensures body.Parsed? && body.message.Some? && body.message.value != "" ==> m == body.message.value
    ensures body.Parsed? && (body.message.None? || body.message.value == "") ==> m == "HTTP " + Decimal.Show(status)
  {
    match body
    case Malformed => "Unknown error"
    case Parsed(_, message) =>
      if message.Some? && message.value != "" then message.value
      else "HTTP " + Decimal.Show(status)
  }

  /** The value a request resolves to, or the error it throws. */
  function Receive<T>(x: Exchange<T>): (r: Result<T, Failure>)
    ensures r.Success? <==> Delivers(x)
    ensures r.Success? ==> r.value == x.body.value
    ensures r.Failure? && r.error.StatusError? <==> x.Answered? && !IsOk(x.status)
    ensures r.Failure? && r.error.StatusError? ==> r.error.status == x.status && r.error.message != ""
    ensures r.Failure? && r.error.NetworkError? <==> x.Unreachable?
  {
    match x
    case Unreachable(reason) => Failure(NetworkError(reason))
    case Answered(status, body) =>
      if !IsOk(status) then Failure(StatusError(status, ErrorText(status, body)))
      else match body
        case Malformed => Failure(InvalidJson)
        case Parsed(v, _) => Success(v)
  }

  /** The fallback message `HTTP <status>` names the status it was built from. */
  lemma DefaultMessageNamesStatus<T>(status: nat, value: T)
    ensures var m := ErrorText(status, Parsed(value, None));
      |m| > 5 && m[..5] == "HTTP " && Decimal.ParseBigInt(m[5..]) == Some(status)
  {
    var m := ErrorText(status, Parsed(value, None));
    assert m[5..] == Decimal.Show(status);
    Decimal.ParseShow(status);
  }
}
