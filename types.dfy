/**
 * The value types shared across the payment agent: a candidate route and the
 * structured intent the natural-language parser produces (src/lib/types.ts).
 */
module Types {
  import opened Wrappers

  /** How a route executes; set by the yield and multi-vault routers, absent on the others. */
  datatype RouteType = StandardRoute | ContractCallRoute

  /** One candidate execution path offered to the user. */
  datatype RouteOption = RouteOption(
    id: string,
    path: string,           // e.g. "Base USDC -> Arbitrum USDC"
    fee: string,            // e.g. "$0.12"
    estimatedTime: string,
    provider: string,       // e.g. "LI.FI", "Uniswap v4"
    routeType: Option<RouteType>)

  datatype Action = Transfer | Swap | PayX402

  /**
   * The structured payment request. A field that the JSON did not carry is
   * `None` for the optional fields and `""` for the required ones (both are
   * falsy in the source).
   */
  datatype ParsedIntent = ParsedIntent(
    action: Action,
    amount: string,
    fromToken: string,
    toToken: string,
    toAddress: Option<string>,
    toChain: Option<string>,
    fromChain: Option<string>,
    url: Option<string>)
}
