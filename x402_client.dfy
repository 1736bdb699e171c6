/**
 * The HTTP 402 probe of src/lib/x402/client.ts (section 15.5.3 of RFC 9110,
 * "402 Payment Required"): given what `fetch(url)` produced, decide which
 * payment descriptor, if any, the endpoint asks for. The network and
 * `JSON.parse` of the X-Payment header are parameters.
 */
module X402Client {
  import opened Wrappers
  import opened Strings
  import opened JsonText

  const PAYMENT_REQUIRED := 402

  datatype X402PaymentDetails = X402PaymentDetails(amount: string, token: string, chain: string, recipient: string)

  /**
   * What `fetch(url)` gave back. `bodyPayment` is the truthy `payment` field
   * of the JSON body, `None` when the body is not JSON, is null or has none;
   * `paymentHeader` is the X-Payment header.
   */
  datatype FetchOutcome =
    | NetworkError
    | Response(status: int, bodyPayment: Option<X402PaymentDetails>, paymentHeader: Option<string>)

  /**
   * `probeX402(url)`: the payment a 402 response asks for, the body's
   * `payment` ahead of the header; `None` (null) for any other status, for a
   * 402 carrying neither, and for anything thrown — a network error or a
   * header that does not parse (`parseHeader` gives `None`).
   */
  function Probe(fetched: FetchOutcome, parseHeader: string -> Option<X402PaymentDetails>): (r: Option<X402PaymentDetails>)
    ensures fetched.NetworkError? ==> r == None
    ensures fetched.Response? && fetched.status != PAYMENT_REQUIRED ==> r == None
    ensures fetched.Response? && fetched.status == PAYMENT_REQUIRED && fetched.bodyPayment.Some? ==> r == fetched.bodyPayment
    ensures fetched.Response? && fetched.status == PAYMENT_REQUIRED && fetched.bodyPayment.None? ==>
              r == (if Truthy(fetched.paymentHeader) then parseHeader(fetched.paymentHeader.value) else None)
    ensures r.Some? ==> fetched.Response? && fetched.status == PAYMENT_REQUIRED
  {
    match fetched
    case NetworkError => None
    case Response(status, bodyPayment, paymentHeader) =>
      if status == PAYMENT_REQUIRED then
        if bodyPayment.Some? then bodyPayment
        else if Truthy(paymentHeader) then parseHeader(paymentHeader.value)
        else None
      else None
  }

  /** The body's payment wins over any header, whatever the header says. */
  lemma BodyOverHeader(status: int, payment: X402PaymentDetails, h1: Option<string>, h2: Option<string>,
                       parseHeader: string -> Option<X402PaymentDetails>)
    requires status == PAYMENT_REQUIRED
    ensures Probe(Response(status, Some(payment), h1), parseHeader) == Some(payment)
    ensures Probe(Response(status, Some(payment), h1), parseHeader) == Probe(Response(status, Some(payment), h2), parseHeader)
  {
  }

  // ---- the descriptor on the wire ----

  /** `JSON.stringify(details)` with the fields in declaration order. */
  function Stringify(d: X402PaymentDetails): (r: string)
    ensures |r| >= 2 && r[0] == '{' && r[|r| - 1] == '}'
  {
    "{" + (Entry("amount", d.amount) + "," + (Entry("token", d.token) + "," +
           (Entry("chain", d.chain) + "," + (Entry("recipient", d.recipient) + "}"))))
  }

  /** `"<key>":<quoted value>`. */
  function Entry(key: string, value: string): string {
    "\"" + key + "\":" + Quote(value)
  }

  /** Reads `"<key>":"<value>"` followed by `sep` at the start of `s`: the value and what follows. */
  function Field(s: string, key: string, sep: string): (r: Option<(string, string)>)
    ensures r.Some? ==> StartsWith(s, "\"" + key + "\":\"")
    ensures r.Some? ==> EndsWith(s, "\"" + sep + r.value.1) && EndsWith(s, r.value.1)
  {
    var lead := "\"" + key + "\":\"";
    if !StartsWith(s, lead) then None
    else match ReadString(s[|lead|..])
      case None => None
      case Some((value, rest)) =>
        if StartsWith(rest, sep) then
          ReadStringSuffix(s[|lead|..]);
          QuotedSuffix(s, |lead|, rest, sep);
          Some((value, rest[|sep|..]))
        else None
  }

  /** What a string reader leaves after the closing quote and `sep` ends the text it read from. */
  lemma QuotedSuffix(s: string, k: nat, rest: string, sep: string)
    requires k <= |s| && |rest| < |s[k..]|
    requires s[k..][|s[k..]| - |rest| - 1..] == "\"" + rest
    requires StartsWith(rest, sep)
    ensures EndsWith(s, "\"" + sep + rest[|sep|..]) && EndsWith(s, rest[|sep|..])
  {
    assert s[k..][|s[k..]| - |rest| - 1..] == s[|s| - |rest| - 1..];
    assert "\"" + sep + rest[|sep|..] == "\"" + rest;
  }

  /**
   * `JSON.parse` of a descriptor in the layout `Stringify` writes (no
   * whitespace, fields in order, nothing else); `None` for any other text.
   */
  function ParseDetails(s: string): (r: Option<X402PaymentDetails>)
    ensures r.Some? ==> StartsWith(s, "{\"amount\":\"") && EndsWith(s, "\"}")
  {
    if !StartsWith(s, "{") then None
    else match Field(s[1..], "amount", ",")
      case None => None
      case Some((amount, s1)) =>
        match Field(s1, "token", ",")
        case None => None
        case Some((token, s2)) =>
          match Field(s2, "chain", ",")
          case None => None
          case Some((chain, s3)) =>
            match Field(s3, "recipient", "}")
            case None => None
            case Some((recipient, s4)) =>
              if s4 == "" then
                DetailsShape(s, s1, s2, s3, s4);
                Some(X402PaymentDetails(amount, token, chain, recipient))
              else None
  }

  /** Text whose fields were read one after another opens with the first key and ends with the closing quote and brace. */
  lemma DetailsShape(s: string, s1: string, s2: string, s3: string, s4: string)
    requires StartsWith(s, "{") && StartsWith(s[1..], "\"" + "amount" + "\":\"")
    requires EndsWith(s[1..], s1) && EndsWith(s1, s2) && EndsWith(s2, s3) && EndsWith(s3, "\"" + "}" + s4)
    requires s4 == ""
    ensures StartsWith(s, "{\"amount\":\"") && EndsWith(s, "\"}")
  {
    assert "\"" + "}" + s4 == "\"}";
    assert "\"" + "amount" + "\":\"" == "\"amount\":\"";
    assert EndsWith(s, s[1..]);
    EndsWithTrans(s, s[1..], s1);
    EndsWithTrans(s, s1, s2);
    EndsWithTrans(s, s2, s3);
    EndsWithTrans(s, s3, "\"}");
    assert s[..|"{\"amount\":\""|] == "{" + s[1..][..|"\"amount\":\""|];
  }

  lemma FieldReads(key: string, value: string, sep: string, rest: string)
    ensures Field(Entry(key, value) + sep + rest, key, sep) == Some((value, rest))
  {
    var lead := "\"" + key + "\":\"";
    var s := Entry(key, value) + sep + rest;
    assert s == lead + (Escape(value) + "\"" + (sep + rest));
    assert s[|lead|..] == Escape(value) + "\"" + (sep + rest);
    assert StartsWith(s, lead);
    ReadQuoted(value, sep + rest);
    assert StartsWith(sep + rest, sep) && (sep + rest)[|sep|..] == rest;
  }

  lemma ParseDetailsFrom(s: string, d: X402PaymentDetails, s0: string, s1: string, s2: string)
    requires StartsWith(s, "{")
    requires Field(s[1..], "amount", ",") == Some((d.amount, s0))
    requires Field(s0, "token", ",") == Some((d.token, s1))
    requires Field(s1, "chain", ",") == Some((d.chain, s2))
    requires Field(s2, "recipient", "}") == Some((d.recipient, ""))
    ensures ParseDetails(s) == Some(d)
  {
  }

  lemma StringifyShape(d: X402PaymentDetails)
    ensures StartsWith(Stringify(d), "{")
    ensures Stringify(d)[1..] == Entry("amount", d.amount) + "," + (Entry("token", d.token) + "," +
              (Entry("chain", d.chain) + "," + (Entry("recipient", d.recipient) + "}")))
  {
    var tail := Entry("amount", d.amount) + "," + (Entry("token", d.token) + "," +
                (Entry("chain", d.chain) + "," + (Entry("recipient", d.recipient) + "}")));
    assert ("{" + tail)[1..] == tail;
  }

  /** A descriptor survives the trip through the X-Payment header. */
  lemma ParseStringify(d: X402PaymentDetails)
    ensures ParseDetails(Stringify(d)) == Some(d)
  {
    var s2 := Entry("recipient", d.recipient) + "}";
    assert s2 + "" == s2;
    var s1 := Entry("chain", d.chain) + "," + s2;
    var s0 := Entry("token", d.token) + "," + s1;
    StringifyShape(d);
    FieldReads("amount", d.amount, ",", s0);
    FieldReads("token", d.token, ",", s1);
    FieldReads("chain", d.chain, ",", s2);
    FieldReads("recipient", d.recipient, "}", "");
    ParseDetailsFrom(Stringify(d), d, s0, s1, s2);
  }

  /** A 402 whose body was lost still yields the descriptor its header carries. */
  lemma ProbeReadsHeader(d: X402PaymentDetails)
    ensures Probe(Response(PAYMENT_REQUIRED, None, Some(Stringify(d))), ParseDetails) == Some(d)
  {
    ParseStringify(d);
  }
}
