/** Shared vocabulary of the admin client: the JSON envelope every endpoint answers
    with, how a `fetch` + `req.json()` round-trip can end, the requests the hooks send,
    and the JavaScript truthiness rules the hooks rely on. */
module Api {

  /** A JSON value that may be `null` or missing (both are `None`). */
  datatype Option<T> = None | Some(value: T) {
    /** `x || fallback` for a value whose every present form is truthy
        (arrays and objects are always truthy in JavaScript). */
    function GetOr(fallback: T): T {
      match this
      case Some(v) => v
      case None => fallback
    }
  }

  /** The decoded envelope `{success, data, error}`. `success` is a JSON boolean
      (the server's response struct declares it as one). */
  datatype Envelope<T> = Envelope(success: bool, data: Option<T>, error: Option<string>)

  /** How one `await fetch(...)` followed by `await req.json()` ends: with a decoded
      envelope, or with a thrown network or parse error. */
  datatype Reply<T> = Delivered(envelope: Envelope<T>) | Thrown

  /** How the promise returned by an async hook function settles. */
  datatype Completion<T> = Resolved(value: T) | Rejected

  /** What a hook function does once its envelope has arrived: the state it writes
      and the value its promise resolves to. */
  datatype Settled<S, V> = Settled(state: S, returned: V)

  /** The promise of a hook function that ends with `return resp`. */
  function Returned<T>(reply: Reply<T>): (c: Completion<Envelope<T>>)
    ensures c.Rejected? <==> reply.Thrown?
    ensures c.Resolved? ==> c.value == reply.envelope
  {
    match reply
    case Delivered(env) => Resolved(env)
    case Thrown => Rejected
  }

  /** `if (resp.success)` after a delivered reply. */
  predicate Succeeded<T>(reply: Reply<T>) {
    reply.Delivered? && reply.envelope.success
  }

  datatype HttpMethod = Get | Post | Delete

  datatype FormField = FormField(name: string, value: string)

  /** One call to `fetch`: the method, the URL and the multipart form fields of the body. */
  datatype Request = Request(verb: HttpMethod, url: string, form: seq<FormField>)

  /** What a list mutation adds to the request log: its own request, then the list
      re-fetch `refetch` exactly when its envelope says success. */
  function MutationRequests<T>(own: Request, reply: Reply<T>, refetch: Request): (rs: seq<Request>)
    ensures |rs| == if Succeeded(reply) then 2 else 1
    ensures rs[0] == own
    ensures |rs| == 2 ==> rs[1] == refetch
  {
    if Succeeded(reply) then [own, refetch] else [own]
  }

  /** A JavaScript string-or-null is truthy exactly when it is a non-empty string. */
  predicate Truthy(s: Option<string>) {
    s.Some? && s.value != ""
  }

  /** `s || fallback` on a string-or-null. */
  function OrElse(s: Option<string>, fallback: string): (r: string)
    ensures Truthy(s) ==> r == s.value
    ensures !Truthy(s) ==> r == fallback
    ensures fallback != "" ==> r != ""
  {
    if Truthy(s) then s.value else fallback
  }

  /** The message a store ends up holding after `error: s || fallback`. */
  function MessageOr(s: Option<string>, fallback: string): (r: Option<string>)
    requires fallback != ""
    ensures Truthy(r)
    ensures Truthy(s) ==> r == s
    ensures !Truthy(s) ==> r == Some(fallback)
  {
    Some(OrElse(s, fallback))
  }

  function Digit(d: nat): char
    requires d < 10
  {
    "0123456789"[d]
  }

  function Digits(n: nat): (r: string)
    decreases n
  {
    if n < 10 then [Digit(n)] else Digits(n / 10) + [Digit(n % 10)]
  }

  /** How a template literal renders a safe integer (magnitude below 2^53): decimal,
      with a leading `-`. Larger magnitudes, which JavaScript prints inexactly or in
      exponent form, are rendered here in plain decimal all the same. */
  function NumberToString(n: int): (s: string) {
    if n < 0 then "-" + Digits(-n) else Digits(n)
  }

  /** Reading a string of decimal digits back, most significant first. */
  function DigitsValue(s: string): (n: int)
    decreases |s|
  {
    if s == [] then 0 else DigitsValue(s[..|s| - 1]) * 10 + (s[|s| - 1] as int - '0' as int)
  }

  function NumberValue(s: string): (n: int) {
    if |s| > 0 && s[0] == '-' then -DigitsValue(s[1..]) else DigitsValue(s)
  }

  lemma {:induction false} DigitsRoundTrip(n: nat)
    ensures |Digits(n)| > 0 && Digits(n)[0] != '-'
    ensures DigitsValue(Digits(n)) == n
    decreases n
  {
    if n >= 10 {
      DigitsRoundTrip(n / 10);
      var s := Digits(n / 10) + [Digit(n % 10)];
      assert s[..|s| - 1] == Digits(n / 10);
    }
  }

  /** The decimal rendering reads back as the number, so ids in request URLs are
      never confused with one another. */
  lemma NumberRoundTrip(n: int)
    ensures NumberValue(NumberToString(n)) == n
  {
    if n < 0 {
      DigitsRoundTrip(-n);
      assert ("-" + Digits(-n))[1..] == Digits(-n);
    } else {
      DigitsRoundTrip(n);
    }
  }

  lemma NumberToStringInjective(m: int, n: int)
    ensures NumberToString(m) == NumberToString(n) ==> m == n
  {
    NumberRoundTrip(m);
    NumberRoundTrip(n);
  }

  /** ProductT as the hooks and the rows see it. Prices are modelled as integers
      (for instance in cents). `fulfilled` is the per-order-line flag. */
  datatype Product = Product(id: int, name: string, price: int, fulfilled: bool)
}
