/**
 Signed simulation tickets: base64url(payload) + "." + base64url(signature). The
 payload's encoding and the signature are functions nothing else is known of, but
 that a payload decodes to what was encoded.
 */
module Tickets {
  import opened Wrappers
  import opened Models
  import opened Base64

  datatype Signals = Signals(country: Option<string>, asn: Option<string>)
  datatype Payload = Payload(signals: Signals, expires: int)

  /** `hmac` of a secret and a text; the JSON of a payload, and its reader, which may fail. */
  datatype Codec = Codec(hmac: (string, string) -> Bytes, write: Payload -> Bytes, read: Bytes -> Option<Payload>)

  ghost predicate ReadsBack(c: Codec) {
    forall p: Payload :: c.read(c.write(p)) == Some(p)
  }

  function Sign(c: Codec, secret: string, payload: string): string { PythonEncode(c.hmac(secret, payload)) }

  /** Python's `int(x)`: toward zero. */
  function Truncate(x: real): int { if x >= 0.0 then x.Floor else -(-x).Floor }

  datatype Ticket = Ticket(text: string, expires: int)

  function Issue(c: Codec, secret: string, signals: Signals, ttl: int, now: real): Ticket {
    var expires := Truncate(now + ttl as real);
    var payload := PythonEncode(c.write(Payload(signals, expires)));
    Ticket(payload + "." + Sign(c, secret, payload), expires)
  }

  /** Where the first '.' is, or the length when there is none. */
  function FirstDot(s: string): nat
    ensures FirstDot(s) <= |s| && '.' !in s[..FirstDot(s)]
    ensures if '.' in s then FirstDot(s) < |s| && s[FirstDot(s)] == '.' else FirstDot(s) == |s|
  {
    if s == "" || s[0] == '.' then 0
    else
      assert s[..FirstDot(s[1..]) + 1] == [s[0]] + s[1..][..FirstDot(s[1..])];
      FirstDot(s[1..]) + 1
  }

  /**
   The signals of a good ticket; `Ok(None)` for one that is absent, forged, malformed
   or expired. Comparing a signature that is not ASCII raises, which nothing catches.
   */
  function Verify(c: Codec, secret: string, ticket: Option<string>, now: real): Result<Option<Signals>> {
    if secret == "" || ticket.None? || ticket.value == "" || '.' !in ticket.value then Ok(None)
    else
      var dot := FirstDot(ticket.value);
      var payload, signature := ticket.value[..dot], ticket.value[dot + 1..];
      if !Ascii(signature) then Err(500, "comparing strings with non-ASCII characters is not supported")
      else if signature != Sign(c, secret, payload) then Ok(None)
      else
        var data := PythonUrlDecode(payload);
        var read := if data.None? then None else c.read(data.value);
        if read.None? || read.value.expires as real <= now then Ok(None) else Ok(Some(read.value.signals))
  }

  lemma FirstDotOf(a: string, b: string)
    requires '.' !in a
    ensures FirstDot(a + "." + b) == |a|
  {
    if a == "" {
      assert (a + "." + b)[0] == '.';
    } else {
      assert (a + "." + b)[1..] == a[1..] + "." + b;
      FirstDotOf(a[1..], b);
    }
  }

  lemma UrlTextHasNoDot(b: Bytes)
    ensures '.' !in PythonEncode(b) && Ascii(PythonEncode(b))
  {
    hide Sextets, Unpad;
    EncodersAgree(b);
    UrlTextIsSafe(b);
  }

  /**
   A ticket issued with a secret verifies with it to exactly its signals before its
   expiry, the issue time plus the lifetime rounded toward zero, and to nothing from then on.
   */
  lemma IssuedVerifiesUntilExpiry(c: Codec, secret: string, signals: Signals, ttl: int, issued: real, now: real)
    requires ReadsBack(c) && secret != ""
    ensures var t := Issue(c, secret, signals, ttl, issued);
      Verify(c, secret, Some(t.text), now) == Ok(if now < Truncate(issued + ttl as real) as real then Some(signals) else None)
  {
    hide PythonEncode, PythonUrlDecode, Truncate, FirstDot;
    var t := Issue(c, secret, signals, ttl, issued);
    var bytes := c.write(Payload(signals, t.expires));
    var payload := PythonEncode(bytes);
    var signature := Sign(c, secret, payload);
    UrlTextHasNoDot(bytes);
    UrlTextHasNoDot(c.hmac(secret, payload));
    FirstDotOf(payload, signature);
    assert t.text[|payload|] == '.' && t.text[..|payload|] == payload && t.text[|payload| + 1..] == signature;
    PythonReadsBoth(bytes);
  }

  /** With a whole-second lifetime a ticket lives less than a second short of it, and never longer. */
  lemma LifetimeIsRoundedDown(issued: real, ttl: int)
    requires issued >= 0.0 && ttl >= 0
    ensures issued + ttl as real - 1.0 < Truncate(issued + ttl as real) as real <= issued + ttl as real
  {
  }

  ghost predicate Signed(c: Codec, secret: string, ticket: string, payload: string, signals: Signals) {
    && '.' !in payload && ticket == payload + "." + Sign(c, secret, payload) && PythonUrlDecode(payload).Some?
    && c.read(PythonUrlDecode(payload).value).Some? && c.read(PythonUrlDecode(payload).value).value.signals == signals
  }

  /** Nothing but a payload with its own signature under the secret is ever accepted. */
  lemma AcceptedIsSigned(c: Codec, secret: string, ticket: string, now: real)
    requires Verify(c, secret, Some(ticket), now).Ok? && Verify(c, secret, Some(ticket), now).value.Some?
    ensures exists payload :: Signed(c, secret, ticket, payload, Verify(c, secret, Some(ticket), now).value.value)
  {
    hide PythonEncode, PythonUrlDecode;
    var dot := FirstDot(ticket);
    assert ticket == ticket[..dot] + "." + ticket[dot + 1..];
    assert Signed(c, secret, ticket, ticket[..dot], Verify(c, secret, Some(ticket), now).value.value);
  }
}
