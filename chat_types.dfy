/**
 * Values shared by the DuckDuckGo chat adapter: optional values and results,
 * chat messages, the abstract HTTP exchanges that stand in for the network,
 * the JSON parser oracle, and the exceptions the adapter raises.
 */
module ChatTypes {

  datatype Option<+T> = None | Some(value: T)

  /** A call that either returns a value or raises an exception. */
  datatype Result<+T, +E> = Ok(value: T) | Err(error: E)

  /** Python truthiness of a value that is either None or a string: both None and "" are false. */
  predicate Truthy(s: Option<string>)
  {
    s.Some? && s.value != ""
  }

  datatype Role = User | Assistant

  /** One `{"role": ..., "content": ...}` record of the upstream message list. */
  datatype Message = Message(role: Role, content: string)

  /**
   * What the server answers: status code, response headers, body text and the
   * body split into lines (already decoded from UTF-8).
   */
  datatype HttpResponse = HttpResponse(
    status: int,
    headers: map<string, string>,
    text: string,
    lines: seq<string>)

  /** The JSON body `{"model": ..., "messages": [...]}` of a chat request. */
  datatype Payload = Payload(model: string, messages: seq<Message>)

  /** A request the adapter issues. Header values of None are not sent at all. */
  datatype HttpRequest =
    | Get(url: string, headers: map<string, string>)
    | Post(url: string, headers: map<string, string>, json: Payload)

  /**
   * What the JSON parser makes of a payload: a parse failure, or an object whose
   * `message` member is absent (None) or a string.
   */
  datatype Parsed = ParseFailure | JsonObject(message: Option<string>)

  /**
   * The exception types the adapter raises; `message` is what `str(e)` gives.
   * GenericError is a plain `Exception`.
   */
  datatype Error =
    | RateLimitError(message: string)
    | GenericError(message: string)
    | RuntimeError(message: string)
    | IndexError(message: string)

  /** The value of header `name`, None when the response does not carry it. */
  function HeaderGet(headers: map<string, string>, name: string): (v: Option<string>)
    ensures v.Some? <==> name in headers
    ensures v.Some? ==> v.value == headers[name]
  {
    if name in headers then Some(headers[name]) else None
  }

  /** The value of header `name`, or `default` when it is absent. */
  function HeaderGetOr(headers: map<string, string>, name: string, default: string): (v: string)
    ensures name in headers ==> v == headers[name]
    ensures name !in headers ==> v == default
  {
    if name in headers then headers[name] else default
  }

  function DigitChar(d: nat): (c: char)
    requires d < 10
    ensures '0' <= c <= '9'
  {
    ('0' as int + d) as char
  }

  /** Decimal notation of a natural number, as Python's `str` writes it. */
  function NatToString(n: nat): (s: string)
    ensures |s| >= 1
    ensures forall i :: 0 <= i < |s| ==> '0' <= s[i] <= '9'
    ensures n >= 10 ==> s[0] != '0'
    decreases n
  {
    if n < 10 then [DigitChar(n)] else NatToString(n / 10) + [DigitChar(n % 10)]
  }

  /** The number a string of decimal digits denotes. */
  function DigitsValue(s: string): (v: int)
  {
    if s == [] then 0 else DigitsValue(s[..|s| - 1]) * 10 + (s[|s| - 1] as int - '0' as int)
  }

  lemma {:induction false} NatToStringRoundTrip(n: nat)
    ensures DigitsValue(NatToString(n)) == n
    decreases n
  {
    if n >= 10 {
      NatToStringRoundTrip(n / 10);
      var s := NatToString(n);
      assert s[..|s| - 1] == NatToString(n / 10);
    }
  }

  /** Decimal notation of an integer, as Python's f-string formatting writes it. */
  function IntToString(n: int): (s: string)
    ensures |s| >= 1
  {
    if n < 0 then "-" + NatToString(-n) else NatToString(n)
  }
}
