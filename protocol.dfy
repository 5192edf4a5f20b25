/** The values that travel between the client cache and the server store:
    name records, signed requests, responses, and the signature itself. */
module Protocol {
  import opened Wrappers

  /** The value stored under a name: `{ address: string }`. */
  datatype NameRecord = NameRecord(address: string)

  /** `Record`: a plain object from name to NameRecord. */
  type Record = map<string, NameRecord>

  /** A lower-case hexadecimal SHA-1 digest: 40 characters. */
  type Hex40 = s: string | |s| == 40 && forall i | 0 <= i < |s| :: s[i] in "0123456789abcdef"
    witness "0000000000000000000000000000000000000000"

  /** The two library functions both sides rely on, taken as parameters because
      their internals are not modelled: `createHash('sha1')...digest('hex')` and
      `JSON.stringify` on a record. Client and server are built with the same value. */
  datatype Crypto = Crypto(sha1Hex: string -> Hex40, stringify: Record -> string)

  /** The digest both sides compute: hash of salt, serialised body and timestamp text. */
  function SignatureOf(crypto: Crypto, salt: string, body: Record, timestamp: string): (sig: Hex40)
  {
    crypto.sha1Hex(salt + crypto.stringify(body) + timestamp)
  }

  function DigitChar(d: nat): (c: char)
    requires d < 10
    ensures '0' <= c <= '9'
  {
    "0123456789"[d]
  }

  function DigitValue(c: char): (d: nat)
  {
    if '0' <= c <= '9' then (c as int - '0' as int) else 0
  }

  /** `${timestamp}` for the integer millisecond clock: its decimal text. */
  function DecimalText(n: nat): (s: string)
    ensures |s| >= 1
    ensures forall i | 0 <= i < |s| :: '0' <= s[i] <= '9'
  {
    if n < 10 then [DigitChar(n)] else DecimalText(n / 10) + [DigitChar(n % 10)]
  }

  /** Reads a run of decimal digits back as a number. */
  function DecimalValue(s: string): (n: nat)
  {
    if s == [] then 0 else 10 * DecimalValue(s[..|s| - 1]) + DigitValue(s[|s| - 1])
  }

  /** The timestamp text in the query string denotes the clock reading it was made from. */
  lemma {:induction false} DecimalRoundTrip(n: nat)
    ensures DecimalValue(DecimalText(n)) == n
  {
    var s := DecimalText(n);
    if n < 10 {
      assert s[..|s| - 1] == [];
    } else {
      assert s[..|s| - 1] == DecimalText(n / 10);
      DecimalRoundTrip(n / 10);
    }
  }

  /** What the server sees of one POST: the two query parameters (absent when
      not given) and the parsed JSON body (absent when the request has none). */
  datatype Request = Request(signature: Option<string>, timestamp: Option<string>, body: Option<Record>)

  datatype Payload = Text(text: string) | Records(records: Record)

  datatype Response = Response(status: nat, payload: Payload)

  /** `ctx.request?.body ?? {}`. */
  function BodyOrEmpty(body: Option<Record>): (r: Record)
  {
    if body.Some? then body.value else map[]
  }
}
