/**
 * The boundary between the tqs client and the code it calls but that is not
 * part of this model: the HTTP transport, the body reader and the JSON codec.
 * Each of them appears only through the outcome it hands back to the client.
 * The module also holds the decimal rendering of a number that the client
 * uses for the `wait_time` query parameter (Go's strconv.Itoa on a
 * non-negative int).
 */
module Wire {

  datatype Option<+T> = None | Some(value: T)

  /** An error value produced outside the model (URL parsing, the network,
      the body reader, the JSON decoder). The client only passes it on. */
  datatype Cause = Cause(description: string)

  /** What became of a response body that the client reads and decodes. */
  datatype Body<+T> =
    | ReadFailed               // reading the body failed
    | Malformed(cause: Cause)  // the body was read but did not decode
    | Parsed(value: T)         // the body decoded to `value`

  /** One round trip whose response body the client reads. */
  datatype Exchange<+T> =
    | NoResponse(cause: Cause)                 // the request could not be built or sent
    | Response(status: int, body: Body<T>)

  /** One round trip whose response body the client never reads. */
  datatype Reply =
    | NoReply(cause: Cause)
    | Replied(status: int)

  /** What a caller-supplied decoder makes of a text. */
  datatype Decoding<+T> = Decoded(value: T) | Undecodable(cause: Cause)

  datatype Method = GET | POST | DELETE

  /** Request headers and query parameters, one value per name. */
  type Header = map<string, string>
  type Query = map<string, string>

  predicate IsDigit(c: char) {
    '0' <= c <= '9'
  }

  predicate IsDigits(s: string) {
    forall i :: 0 <= i < |s| ==> IsDigit(s[i])
  }

  function Digit(d: nat): (c: char)
    requires d < 10
    ensures IsDigit(c)
  {
    ('0' as int + d) as char
  }

  function DigitValue(c: char): (d: nat)
    ensures d < 10
    ensures IsDigit(c) ==> Digit(d) == c
  {
    if IsDigit(c) then c as int - '0' as int else 0
  }

  /** The shortest decimal numeral of `n`, most significant digit first. */
  function Decimal(n: nat): (s: string)
    ensures 1 <= |s|
    ensures IsDigits(s)
    ensures (|s| == 1) == (n < 10)
    ensures (s[0] == '0') == (n == 0)
    decreases n
  {
    if n < 10 then [Digit(n)] else Decimal(n / 10) + [Digit(n % 10)]
  }

  /** The number a string of decimal digits denotes. */
  function DecimalValue(s: string): nat
    decreases |s|
  {
    if s == [] then 0 else DecimalValue(s[..|s| - 1]) * 10 + DigitValue(s[|s| - 1])
  }

  /** Reading back a rendered numeral gives the number. */
  lemma {:induction false} DecimalRoundTrip(n: nat)
    ensures DecimalValue(Decimal(n)) == n
    decreases n
  {
    if n >= 10 {
      var s := Decimal(n);
      assert s[..|s| - 1] == Decimal(n / 10);
      DigitRoundTrip(n % 10);
      DecimalRoundTrip(n / 10);
    } else {
      DigitRoundTrip(n);
    }
  }

  lemma DigitRoundTrip(d: nat)
    requires d < 10
    ensures DigitValue(Digit(d)) == d
  {
  }

  /** Distinct numbers render as distinct numerals. */
  lemma DecimalInjective(m: nat, n: nat)
    ensures Decimal(m) == Decimal(n) ==> m == n
  {
    DecimalRoundTrip(m);
    DecimalRoundTrip(n);
  }
}
