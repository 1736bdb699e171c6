/**
 * The single-vault "YieldRoute" provider: bridge the payer's token to USDC on
 * Base with LI.FI and deposit it into the recipient's ERC-4626 vault through
 * the YieldRouter contract (src/lib/routing/yield-router.ts).
 */
module YieldRouter {
  import opened Wrappers
  import opened Strings
  import opened Numbers
  import opened Types
  import opened Lifi
  import RouteCache

  datatype YieldRouteParams = YieldRouteParams(
    fromAddress: string,
    fromChain: string,
    fromToken: string,
    amount: string,
    recipient: string,   // the ENS-resolved address
    vault: string,       // the ERC-4626 vault address from the recipient's ENS records
    slippage: Option<real>)

  datatype YieldRouteQuote = YieldRouteQuote(route: RouteOption, quote: Quote)

  /**
   * How `getYieldRouteQuote` settles: a quote, an `{ error }` result, or a
   * rejected promise (the amount conversion throws before the `try`).
   */
  datatype Outcome = Quoted(value: YieldRouteQuote) | Failed(error: string) | Rejected(reason: string)

  /** The message of the RangeError `BigInt(NaN)` throws. */
  const NAN_TO_BIGINT := "The number NaN cannot be converted to a BigInt because it is not an integer"

  /** The chain ids and token addresses a valid request resolves to. */
  datatype Resolved = Resolved(fromChainId: nat, toChainId: nat, fromTokenAddr: string, toTokenAddr: string)

  function FromChainId(reg: Registry, params: YieldRouteParams): nat {
    ChainIdOrEthereum(reg, params.fromChain)
  }

  function FromTokenAddress(reg: Registry, params: YieldRouteParams): Option<string> {
    reg.tokenAddress(params.fromToken, FromChainId(reg, params))
  }

  function UsdcOnBase(reg: Registry): Option<string> {
    reg.tokenAddress("USDC", reg.chainIds("base"))
  }

  /**
   * The checks made before any quoting or cache access, in the source's order:
   * the source token, then USDC on Base, then the vault.
   */
  function Validate(reg: Registry, params: YieldRouteParams): (r: Result<Resolved>)
    ensures !Truthy(FromTokenAddress(reg, params)) ==>
              r == Err("Source token not supported: " + params.fromToken)
    ensures Truthy(FromTokenAddress(reg, params)) && !Truthy(UsdcOnBase(reg)) ==>
              r == Err("USDC not supported on Base")
    ensures Truthy(FromTokenAddress(reg, params)) && Truthy(UsdcOnBase(reg)) ==>
              (r.Err? <==> params.vault == "" || params.vault == ZERO_ADDRESS)
    ensures r.Err? && Truthy(FromTokenAddress(reg, params)) && Truthy(UsdcOnBase(reg)) ==>
              r.message == "No vault configured for recipient"
    ensures r.Ok? ==>
              && r.value.fromChainId == FromChainId(reg, params)
              && r.value.toChainId == reg.chainIds("base")
              && Some(r.value.fromTokenAddr) == FromTokenAddress(reg, params)
              && Some(r.value.toTokenAddr) == UsdcOnBase(reg)
  {
    var fromTokenAddr := FromTokenAddress(reg, params);
    var toTokenAddr := UsdcOnBase(reg);
    if !Truthy(fromTokenAddr) then Err("Source token not supported: " + params.fromToken)
    else if !Truthy(toTokenAddr) then Err("USDC not supported on Base")
    else if params.vault == "" || params.vault == ZERO_ADDRESS then Err("No vault configured for recipient")
    else Ok(Resolved(FromChainId(reg, params), reg.chainIds("base"), fromTokenAddr.value, toTokenAddr.value))
  }

  /** `yield:<chainId>:<recipient>:<vault>:<amountWei>`. */
  function CacheKey(fromChainId: nat, params: YieldRouteParams, amountWei: int): string {
    "yield:" + NatToString(fromChainId) + ":" + params.recipient + ":" + params.vault + ":" + IntToString(amountWei)
  }

  /** Two requests that differ only in their amount never share a cache entry. */
  lemma CacheKeySeparatesAmounts(fromChainId: nat, params: YieldRouteParams, a: int, b: int)
    requires a != b
    ensures CacheKey(fromChainId, params, a) != CacheKey(fromChainId, params, b)
  {
    var prefix := "yield:" + NatToString(fromChainId) + ":" + params.recipient + ":" + params.vault + ":";
    if CacheKey(fromChainId, params, a) == CacheKey(fromChainId, params, b) {
      assert CacheKey(fromChainId, params, a) == prefix + IntToString(a);
      assert CacheKey(fromChainId, params, b) == prefix + IntToString(b);
      assert (prefix + IntToString(a))[|prefix|..] == IntToString(a);
      assert (prefix + IntToString(b))[|prefix|..] == IntToString(b);
      IntToStringInjective(a, b);
    }
  }

  /** The LI.FI request: bridge to USDC on Base, then call `depositToYield` on the YieldRouter. */
  function Request(params: YieldRouteParams, res: Resolved, amountWei: int): QuoteRequest {
    QuoteRequest(
      params.fromAddress, res.fromChainId, res.fromTokenAddr, res.toChainId, res.toTokenAddr, amountWei,
      [ContractCall(amountWei, res.toTokenAddr, YIELD_ROUTER_ADDRESS,
                    DepositToYield(params.recipient, params.vault, res.toTokenAddr, amountWei), "300000")],
      SlippageOrDefault(params.slippage))
  }

  /** A step's label: its tool's name when it has one, else its type. */
  function StepLabel(s: Step): string {
    Or(s.toolName, s.stepType)
  }

  function StepLabels(steps: seq<Step>): (r: seq<string>)
    ensures |r| == |steps|
    ensures forall i :: 0 <= i < |steps| ==> r[i] == StepLabel(steps[i])
  {
    if |steps| == 0 then [] else [StepLabel(steps[0])] + StepLabels(steps[1..])
  }

  /** The quote's steps joined by " -> ", or "<fromToken> -> USDC" when it has none. */
  function BridgePath(fromToken: string, steps: seq<Step>): string {
    if |steps| > 0 then Join(StepLabels(steps), " -> ") else fromToken + " -> USDC"
  }

  /** The route offered for a fresh quote. */
  function YieldRoute(params: YieldRouteParams, quote: Quote): (route: RouteOption)
    ensures route.id == "yield-route-0"
    ensures route.provider == "LI.FI + YieldRouter"
    ensures route.routeType == Some(ContractCallRoute)
    ensures route.path == "YieldRoute: " + BridgePath(params.fromToken, quote.includedSteps) + " -> Vault"
    ensures route.fee == QuoteFee(quote)
    ensures route.estimatedTime == FormatDuration(quote.executionDuration)
  {
    RouteOption("yield-route-0",
                "YieldRoute: " + BridgePath(params.fromToken, quote.includedSteps) + " -> Vault",
                QuoteFee(quote), FormatDuration(quote.executionDuration),
                "LI.FI + YieldRouter", Some(ContractCallRoute))
  }

  /**
   * `getYieldRouteQuote`: validates, converts the amount to base units, serves
   * a cached quote when one is live, and otherwise asks LI.FI (`getQuote`),
   * caching the result. `readAt` and `storedAt` are the clock readings of the
   * cache read and of the cache write that follows the quote.
   */
  method GetYieldRouteQuote(
    cache: RouteCache.Cache<YieldRouteQuote>, reg: Registry, params: YieldRouteParams,
    getQuote: QuoteRequest -> Result<Quote>, readAt: int, storedAt: int)
    returns (r: Outcome)
    modifies cache
    ensures Validate(reg, params).Err? ==>
              r == Failed(Validate(reg, params).message) && cache.entries == old(cache.entries)
    ensures Validate(reg, params).Ok? && ToBaseUnits(params.amount, reg.decimals(params.fromToken)).None? ==>
              r == Rejected(NAN_TO_BIGINT) && cache.entries == old(cache.entries)
    ensures Validate(reg, params).Ok? && ToBaseUnits(params.amount, reg.decimals(params.fromToken)).Some? ==>
      var res := Validate(reg, params).value;
      var wei := ToBaseUnits(params.amount, reg.decimals(params.fromToken)).value;
      var key := CacheKey(res.fromChainId, params, wei);
      var cached := RouteCache.Lookup(old(cache.entries), key, readAt);
      var afterRead := RouteCache.AfterLookup(old(cache.entries), key, readAt);
      var answer := getQuote(Request(params, res, wei));
      if cached.Some? then
        r == Quoted(cached.value) && cache.entries == afterRead
      else if answer.Err? then
        r == Failed(answer.message) && cache.entries == afterRead
      else
        var q := YieldRouteQuote(YieldRoute(params, answer.value), answer.value);
        r == Quoted(q) && cache.entries == RouteCache.Store(afterRead, key, q, storedAt)
  {
    var validated := Validate(reg, params);
    if validated.Err? {
      return Failed(validated.message);
    }
    var res := validated.value;
    var wei := ToBaseUnits(params.amount, reg.decimals(params.fromToken));
    if wei.None? {
      return Rejected(NAN_TO_BIGINT);
    }
    var amountWei := wei.value;
    var key := CacheKey(res.fromChainId, params, amountWei);
    var cached := cache.Get(key, readAt);
    if cached.Some? {
      return Quoted(cached.value);
    }
    var answer := getQuote(Request(params, res, amountWei));
    if answer.Err? {
      return Failed(answer.message);
    }
    var result := YieldRouteQuote(YieldRoute(params, answer.value), answer.value);
    cache.Set(key, result, storedAt);
    r := Quoted(result);
  }

  /** `isYieldRouteEnabled(vault)`: a non-zero, 0x-prefixed, 42-character address. */
  predicate IsYieldRouteEnabled(vault: Option<string>) {
    && Truthy(vault)
    && vault.value != ZERO_ADDRESS
    && StartsWith(vault.value, "0x")
    && |vault.value| == 42
  }

  /**
   * A vault for which yield routing reports itself enabled always passes the
   * router's own vault check: validation then fails only on the tokens.
   */
  lemma EnabledVaultPassesVaultCheck(reg: Registry, params: YieldRouteParams)
    requires IsYieldRouteEnabled(Some(params.vault))
    ensures Validate(reg, params).Err? ==>
              Validate(reg, params).message != "No vault configured for recipient"
  {
    var sourceError := "Source token not supported: " + params.fromToken;
    assert sourceError[0] == 'S';
  }

  /** Neither check accepts the empty string or the zero address as a vault. */
  lemma ZeroVaultNeverEnabled(reg: Registry, params: YieldRouteParams)
    requires params.vault == ZERO_ADDRESS || params.vault == ""
    ensures !IsYieldRouteEnabled(Some(params.vault))
    ensures Validate(reg, params).Err?
  {
  }
}
