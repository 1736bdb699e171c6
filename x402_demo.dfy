/**
 * The demo paywall endpoint (src/app/api/x402-demo/route.ts): `GET` answers
 * 402 with a fixed payment descriptor, in the body and in the X-Payment
 * header, until the request carries an X-Payment-Proof header; then it
 * serves the premium content. The clock is a parameter.
 */
module X402Demo {
  import opened Wrappers
  import opened Strings
  import opened X402Client

  const DEMO_PAYMENT := X402PaymentDetails("0.50", "USDC", "base", "0x742d35Cc6634C0532925a3b844Bc9e7595f2bD1e")
  const PREMIUM_TITLE := "Premium DeFi Analytics"
  const PREMIUM_CONTENT :=
    "Top yielding stablecoin pools: Aave USDC (4.2% APY), Morpho USDT (5.1% APY), Compound DAI (3.8% APY)"

  datatype PremiumData = PremiumData(title: string, content: string, timestamp: string)

  /** The response: status, message, the body's `payment` and `data`, and the X-Payment header. */
  datatype DemoResponse = DemoResponse(
    status: int, message: string, payment: Option<X402PaymentDetails>,
    data: Option<PremiumData>, paymentHeader: Option<string>)

  /** `GET(req)` with the X-Payment-Proof header `proof` at time `nowIso`. */
  function Get(proof: Option<string>, nowIso: string): (r: DemoResponse)
    ensures !Truthy(proof) ==> r.status == PAYMENT_REQUIRED && r.message == "Payment Required" && r.data.None?
    ensures !Truthy(proof) ==> r.payment == Some(DEMO_PAYMENT) && r.paymentHeader == Some(Stringify(DEMO_PAYMENT))
    ensures Truthy(proof) ==>
              && r.status == 200 && r.message == "Access granted!"
              && r.payment.None? && r.paymentHeader.None?
              && r.data == Some(PremiumData(PREMIUM_TITLE, PREMIUM_CONTENT, nowIso))
  {
    if !Truthy(proof) then
      DemoResponse(PAYMENT_REQUIRED, "Payment Required", Some(DEMO_PAYMENT), None, Some(Stringify(DEMO_PAYMENT)))
    else
      DemoResponse(200, "Access granted!", None, Some(PremiumData(PREMIUM_TITLE, PREMIUM_CONTENT, nowIso)), None)
  }

  /** The proof is never inspected: any two non-empty proofs get the same answer. */
  lemma AnyProofGrants(p1: string, p2: string, nowIso: string)
    requires p1 != "" && p2 != ""
    ensures Get(Some(p1), nowIso) == Get(Some(p2), nowIso)
  {
  }

  /** What the probe sees of a demo response; `bodyReadable` is false when the JSON body is lost. */
  function AsFetched(r: DemoResponse, bodyReadable: bool): FetchOutcome {
    Response(r.status, if bodyReadable then r.payment else None, r.paymentHeader)
  }

  /**
   * Probing the demo without a proof finds its descriptor, from the body or,
   * when the body cannot be read, from the header; with a proof it finds
   * nothing.
   */
  lemma ProbeFindsDemoPayment(proof: Option<string>, nowIso: string, bodyReadable: bool)
    ensures Probe(AsFetched(Get(proof, nowIso), bodyReadable), ParseDetails) ==
              if Truthy(proof) then None else Some(DEMO_PAYMENT)
  {
    if !Truthy(proof) && !bodyReadable {
      ProbeReadsHeader(DEMO_PAYMENT);
    }
  }
}
