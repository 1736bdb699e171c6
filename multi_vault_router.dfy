/**
 * The multi-vault split provider: one LI.FI contract-calls quote that bridges
 * to Base and then deposits each strategy's share into its own destination
 * (src/lib/routing/multi-vault-router.ts). `calculateStrategyAmounts` and the
 * STRATEGIES table (src/lib/strategies) are not part of this model; they are
 * parameters.
 */
module MultiVaultRouter {
  import opened Wrappers
  import opened Strings
  import opened Numbers
  import opened Types
  import opened Lifi

  const RESTAKING_ROUTER_ADDRESS := "0x31549dB00B180d528f77083b130C0A045D0CF117"
  /** Aave USDC on Base, used when the recipient configured no yield vault. */
  const DEFAULT_YIELD_VAULT := "0x4e65fE4DbA92790696d040ac24Aa414708F5c0AB"

  /** The message V8 gives the TypeError of reading `.name` of an unknown strategy. */
  const UNKNOWN_STRATEGY := "Cannot read properties of undefined (reading 'name')"
  /** The error returned when a restaking strategy finds no WETH on Base. */
  const NO_WETH := "WETH not supported on Base for restaking"
  /** The message of the RangeError `BigInt(NaN)` throws. */
  const NAN_TO_BIGINT := "The number NaN cannot be converted to a BigInt because it is not an integer"

  datatype StrategyAllocation = StrategyAllocation(strategy: string, percentage: int)
  datatype StrategyAmount = StrategyAmount(strategy: string, amount: string)
  datatype AllocationReport = AllocationReport(strategy: string, amount: string, percentage: int)

  datatype MultiVaultRouteParams = MultiVaultRouteParams(
    fromAddress: string,
    fromChain: string,
    fromToken: string,
    amount: string,
    recipient: string,
    allocations: seq<StrategyAllocation>,
    vaults: map<string, string>,   // strategy -> vault address; empty when not given
    slippage: Option<real>)

  datatype MultiVaultRouteQuote = MultiVaultRouteQuote(
    route: RouteOption, quotes: seq<Quote>, allocations: seq<AllocationReport>)

  /** The collaborators the router consults. */
  datatype Env = Env(
    reg: Registry,
    calculateStrategyAmounts: (string, seq<StrategyAllocation>) -> seq<StrategyAmount>,
    strategyNames: map<string, string>,
    getQuote: QuoteRequest -> Result<Quote>)

  // ---- isMultiVaultRoute ----

  /** The number of allocations with a positive percentage. */
  function ActiveCount(allocations: seq<StrategyAllocation>): nat {
    if |allocations| == 0 then 0
    else ActiveCount(allocations[..|allocations| - 1]) + (if allocations[|allocations| - 1].percentage > 0 then 1 else 0)
  }

  /** `isMultiVaultRoute(allocations)`: more than one strategy gets a non-zero share. */
  predicate IsMultiVaultRoute(allocations: seq<StrategyAllocation>) {
    ActiveCount(allocations) > 1
  }

  /** Multi-vault routing is needed exactly when two different allocations are both active. */
  lemma {:induction false} MultiVaultIffTwoActive(allocations: seq<StrategyAllocation>)
    ensures IsMultiVaultRoute(allocations) <==>
      exists i, j :: 0 <= i < j < |allocations| && allocations[i].percentage > 0 && allocations[j].percentage > 0
  {
    if |allocations| > 0 {
      var init := allocations[..|allocations| - 1];
      var last := |allocations| - 1;
      MultiVaultIffTwoActive(init);
      ActiveCountPositive(init);
      if IsMultiVaultRoute(allocations) {
        if !IsMultiVaultRoute(init) {
          var i :| 0 <= i < |init| && init[i].percentage > 0;
          assert allocations[i].percentage > 0 && allocations[last].percentage > 0;
        } else {
          var i, j :| 0 <= i < j < |init| && init[i].percentage > 0 && init[j].percentage > 0;
          assert allocations[i] == init[i] && allocations[j] == init[j];
        }
      } else {
        forall i, j | 0 <= i < j < |allocations| && allocations[i].percentage > 0
          ensures allocations[j].percentage <= 0
        {
          assert init[i] == allocations[i];
          if j < last {
            assert init[j] == allocations[j];
          }
        }
      }
    }
  }

  lemma {:induction false} ActiveCountPositive(allocations: seq<StrategyAllocation>)
    ensures ActiveCount(allocations) > 0 <==>
      exists i :: 0 <= i < |allocations| && allocations[i].percentage > 0
  {
    if |allocations| > 0 {
      var init := allocations[..|allocations| - 1];
      ActiveCountPositive(init);
      if ActiveCount(init) > 0 {
        var i :| 0 <= i < |init| && init[i].percentage > 0;
        assert allocations[i] == init[i];
      }
      if exists i :: 0 <= i < |allocations| && allocations[i].percentage > 0 {
        var i :| 0 <= i < |allocations| && allocations[i].percentage > 0;
        if i < |init| { assert init[i] == allocations[i]; }
      }
    }
  }

  // ---- strategies, percentages and the allocation report ----

  /** Strategies that need a destination call: not 'liquid', and a positive (non-NaN) amount. */
  predicate Routeable(sa: StrategyAmount) {
    sa.strategy != "liquid" && ParseFloat(sa.amount).Some? && ParseFloat(sa.amount).value > 0.0
  }

  /** `strategyAmounts.filter(routeable)`. */
  function RouteableStrategies(amounts: seq<StrategyAmount>): (r: seq<StrategyAmount>)
    ensures |r| <= |amounts|
    ensures forall sa :: sa in r <==> sa in amounts && Routeable(sa)
  {
    if |amounts| == 0 then []
    else (if Routeable(amounts[0]) then [amounts[0]] else []) + RouteableStrategies(amounts[1..])
  }

  /** `allocations.find(a => a.strategy === s)?.percentage || 0`. */
  function PercentageOf(allocations: seq<StrategyAllocation>, strategy: string): (pct: int)
    ensures (forall a :: a in allocations ==> a.strategy != strategy) ==> pct == 0
    ensures forall i :: 0 <= i < |allocations| && allocations[i].strategy == strategy
                        && (forall k :: 0 <= k < i ==> allocations[k].strategy != strategy)
                        ==> pct == allocations[i].percentage
  {
    if |allocations| == 0 then 0
    else if allocations[0].strategy == strategy then allocations[0].percentage
    else PercentageOf(allocations[1..], strategy)
  }

  /** One report line per strategy amount, in order, carrying its allocation's percentage. */
  function Report(amounts: seq<StrategyAmount>, allocations: seq<StrategyAllocation>): (r: seq<AllocationReport>)
    ensures |r| == |amounts|
    ensures forall i :: 0 <= i < |amounts| ==>
              r[i] == AllocationReport(amounts[i].strategy, amounts[i].amount, PercentageOf(allocations, amounts[i].strategy))
  {
    if |amounts| == 0 then []
    else [AllocationReport(amounts[0].strategy, amounts[0].amount, PercentageOf(allocations, amounts[0].strategy))]
         + Report(amounts[1..], allocations)
  }

  /** The route returned when no strategy needs routing. */
  function LiquidRoute(fromToken: string): (route: RouteOption)
    ensures route.id == "multi-vault-liquid" && route.fee == "$0.00" && route.provider == "Direct Transfer"
    ensures route.routeType == Some(StandardRoute)
  {
    RouteOption("multi-vault-liquid", fromToken + " -> USDC (liquid)", "$0.00", "~1 min",
                "Direct Transfer", Some(StandardRoute))
  }

  // ---- the contract-call list ----

  /** What every destination call of one quote shares. */
  datatype CallContext = CallContext(recipient: string, yieldVault: string, usdc: string, weth: Option<string>, usdcDecimals: nat)

  /** The deposit a 'yield' strategy makes: `depositToYield` on the YieldRouter, 300000 gas. */
  function YieldCall(ctx: CallContext, amountWei: int): ContractCall {
    ContractCall(amountWei, ctx.usdc, YIELD_ROUTER_ADDRESS,
                 DepositToYield(ctx.recipient, ctx.yieldVault, ctx.usdc, amountWei), "300000")
  }

  /** The deposit a 'restaking' strategy makes: `depositToRenzo` with a 5% minimum-out margin, 350000 gas. */
  function RestakingCall(ctx: CallContext, weth: string, amountWei: int): ContractCall {
    ContractCall(amountWei, weth, RESTAKING_ROUTER_ADDRESS,
                 DepositToRenzo(ctx.recipient, amountWei * 95 / 100), "350000")
  }

  /**
   * One turn of the loop: the destination call `sa` adds, or the error it
   * returns. The amount of a routeable strategy always parses; otherwise
   * `BigInt(NaN)` would throw inside the `try`.
   */
  function Push(ctx: CallContext, acc: Result<seq<ContractCall>>, sa: StrategyAmount): Result<seq<ContractCall>> {
    match acc
    case Err(e) => Err(e)
    case Ok(calls) =>
      match ToBaseUnits(sa.amount, ctx.usdcDecimals)
      case None => Err(NAN_TO_BIGINT)
      case Some(amountWei) =>
        if sa.strategy == "yield" then Ok(calls + [YieldCall(ctx, amountWei)])
        else if sa.strategy == "restaking" then
          if !Truthy(ctx.weth) then Err(NO_WETH)
          else Ok(calls + [RestakingCall(ctx, ctx.weth.value, amountWei)])
        else Ok(calls)
  }

  /** The calls the loop has pushed after visiting `sas`, or the error it returned. */
  function CallsFor(ctx: CallContext, sas: seq<StrategyAmount>): Result<seq<ContractCall>> {
    if |sas| == 0 then Ok([]) else Push(ctx, CallsFor(ctx, sas[..|sas| - 1]), sas[|sas| - 1])
  }

  /** Once the loop has returned an error, later strategies do not change the outcome. */
  lemma {:induction false} ErrorIsFinal(ctx: CallContext, sas: seq<StrategyAmount>, k: nat)
    requires k <= |sas|
    requires CallsFor(ctx, sas[..k]).Err?
    ensures CallsFor(ctx, sas) == CallsFor(ctx, sas[..k])
  {
    if k == |sas| {
      assert sas[..k] == sas;
    } else {
      var init := sas[..|sas| - 1];
      assert init[..k] == sas[..k];
      ErrorIsFinal(ctx, init, k);
    }
  }

  /** The loop of `getMultiVaultRouteQuote` that pushes one destination call per strategy. */
  method BuildContractCalls(ctx: CallContext, routeable: seq<StrategyAmount>) returns (r: Result<seq<ContractCall>>)
    ensures r == CallsFor(ctx, routeable)
  {
    var calls: seq<ContractCall> := [];
    var i := 0;
    while i < |routeable|
      invariant 0 <= i <= |routeable|
      invariant CallsFor(ctx, routeable[..i]) == Ok(calls)
    {
      var sa := routeable[i];
      assert routeable[..i + 1][..i] == routeable[..i];
      assert CallsFor(ctx, routeable[..i + 1]) == Push(ctx, Ok(calls), sa);
      var wei := ToBaseUnits(sa.amount, ctx.usdcDecimals);
      if wei.None? {
        ErrorIsFinal(ctx, routeable, i + 1);
        return Err(NAN_TO_BIGINT);
      }
      var amountWei := wei.value;
      if sa.strategy == "yield" {
        calls := calls + [YieldCall(ctx, amountWei)];
      } else if sa.strategy == "restaking" {
        if !Truthy(ctx.weth) {
          ErrorIsFinal(ctx, routeable, i + 1);
          return Err(NO_WETH);
        }
        calls := calls + [RestakingCall(ctx, ctx.weth.value, amountWei)];
      }
      i := i + 1;
    }
    assert routeable[..i] == routeable;
    r := Ok(calls);
  }

  /** The strategies of `sas` that get a destination call, in order. */
  function CallingStrategies(sas: seq<StrategyAmount>): seq<StrategyAmount> {
    if |sas| == 0 then []
    else CallingStrategies(sas[..|sas| - 1]) + (if sas[|sas| - 1].strategy in {"yield", "restaking"} then [sas[|sas| - 1]] else [])
  }

  /**
   * `c` is the destination call strategy `sa` demands: its amount in USDC
   * base units; for 'yield', `depositToYield` of that amount of USDC into the
   * context's vault; for 'restaking', `depositToRenzo` paid in WETH with the
   * 5% margin.
   */
  predicate CallFor(ctx: CallContext, sa: StrategyAmount, c: ContractCall) {
    && ToBaseUnits(sa.amount, ctx.usdcDecimals).Some?
    && c.fromAmount == ToBaseUnits(sa.amount, ctx.usdcDecimals).value
    && (sa.strategy == "yield" ==>
          && c.fromTokenAddress == ctx.usdc && c.toContractAddress == YIELD_ROUTER_ADDRESS && c.gasLimit == "300000"
          && c.callData == DepositToYield(ctx.recipient, ctx.yieldVault, ctx.usdc, c.fromAmount))
    && (sa.strategy == "restaking" ==>
          && ctx.weth.Some? && c.fromTokenAddress == ctx.weth.value
          && c.toContractAddress == RESTAKING_ROUTER_ADDRESS && c.gasLimit == "350000"
          && c.callData == DepositToRenzo(ctx.recipient, c.fromAmount * 95 / 100))
  }

  /** A destination call is one of the two kinds, each with its own target and gas limit. */
  predicate WellFormedCall(c: ContractCall) {
    || (c.toContractAddress == YIELD_ROUTER_ADDRESS && c.gasLimit == "300000" && c.callData.DepositToYield?)
    || (c.toContractAddress == RESTAKING_ROUTER_ADDRESS && c.gasLimit == "350000" && c.callData.DepositToRenzo?)
  }

  /** Some strategy of `sas` restakes. */
  predicate Restakes(sas: seq<StrategyAmount>) {
    exists i :: 0 <= i < |sas| && sas[i].strategy == "restaking"
  }

  /** One turn of the loop on a routeable strategy: it fails only for restaking without WETH. */
  lemma PushShape(ctx: CallContext, calls: seq<ContractCall>, sa: StrategyAmount)
    requires Routeable(sa)
    ensures Push(ctx, Ok(calls), sa).Err? <==> sa.strategy == "restaking" && !Truthy(ctx.weth)
    ensures Push(ctx, Ok(calls), sa).Err? ==> Push(ctx, Ok(calls), sa).message == NO_WETH
    ensures Push(ctx, Ok(calls), sa).Ok? ==>
              var next := Push(ctx, Ok(calls), sa).value;
              && |next| == |calls| + (if sa.strategy in {"yield", "restaking"} then 1 else 0)
              && next[..|calls|] == calls
              && forall j :: |calls| <= j < |next| ==> WellFormedCall(next[j])
    ensures Push(ctx, Ok(calls), sa).Ok? && sa.strategy !in {"yield", "restaking"} ==>
              Push(ctx, Ok(calls), sa).value == calls
    ensures Push(ctx, Ok(calls), sa).Ok? && sa.strategy in {"yield", "restaking"} ==>
              var next := Push(ctx, Ok(calls), sa).value;
              |next| == |calls| + 1 && CallFor(ctx, sa, next[|calls|])
  {
    var wei := ToBaseUnits(sa.amount, ctx.usdcDecimals);
    assert wei.Some?;
    if sa.strategy == "yield" {
      var c := YieldCall(ctx, wei.value);
      YieldCallFor(ctx, sa, wei.value);
      var next := calls + [c];
      assert Push(ctx, Ok(calls), sa) == Ok(next);
      assert next[..|calls|] == calls && next[|calls|] == c;
    } else if sa.strategy == "restaking" {
      if Truthy(ctx.weth) {
        var c := RestakingCall(ctx, ctx.weth.value, wei.value);
        RestakingCallFor(ctx, sa, wei.value);
        var next := calls + [c];
        assert Push(ctx, Ok(calls), sa) == Ok(next);
        assert next[..|calls|] == calls && next[|calls|] == c;
      }
    } else {
      assert Push(ctx, Ok(calls), sa) == Ok(calls);
      assert calls[..|calls|] == calls;
    }
  }


  lemma YieldCallFor(ctx: CallContext, sa: StrategyAmount, wei: int)
    requires sa.strategy == "yield" && ToBaseUnits(sa.amount, ctx.usdcDecimals) == Some(wei)
    ensures CallFor(ctx, sa, YieldCall(ctx, wei)) && WellFormedCall(YieldCall(ctx, wei))
  {
  }

  lemma RestakingCallFor(ctx: CallContext, sa: StrategyAmount, wei: int)
    requires sa.strategy == "restaking" && Truthy(ctx.weth) && ToBaseUnits(sa.amount, ctx.usdcDecimals) == Some(wei)
    ensures CallFor(ctx, sa, RestakingCall(ctx, ctx.weth.value, wei)) && WellFormedCall(RestakingCall(ctx, ctx.weth.value, wei))
  {
  }

  lemma RestakesSnoc(sas: seq<StrategyAmount>)
    requires |sas| > 0
    ensures Restakes(sas) <==> Restakes(sas[..|sas| - 1]) || sas[|sas| - 1].strategy == "restaking"
  {
    var init := sas[..|sas| - 1];
    if Restakes(init) {
      var i :| 0 <= i < |init| && init[i].strategy == "restaking";
      assert sas[i] == init[i];
    }
  }

  /** Over routeable strategies the call list fails exactly when one restakes while WETH is unavailable on Base. */
  lemma {:induction false} CallsForFails(ctx: CallContext, sas: seq<StrategyAmount>)
    requires forall sa :: sa in sas ==> Routeable(sa)
    ensures CallsFor(ctx, sas).Err? <==> !Truthy(ctx.weth) && Restakes(sas)
    ensures CallsFor(ctx, sas).Err? ==> CallsFor(ctx, sas).message == NO_WETH
  {
    if |sas| > 0 {
      var init := sas[..|sas| - 1];
      var last := |sas| - 1;
      assert forall sa :: sa in init ==> sa in sas;
      CallsForFails(ctx, init);
      assert sas[last] in sas;
      RestakesSnoc(sas);
      var prev := CallsFor(ctx, init);
      PushKeepsError(ctx, prev, sas[last]);
      if prev.Ok? {
        PushShape(ctx, prev.value, sas[last]);
      }
    }
  }

  /** A failed turn stays failed. */
  lemma PushKeepsError(ctx: CallContext, acc: Result<seq<ContractCall>>, sa: StrategyAmount)
    ensures acc.Err? ==> Push(ctx, acc, sa) == acc
  {
  }

  /** A successful call list holds one well-formed call per 'yield' or 'restaking' strategy and none for the others. */
  lemma {:induction false} CallsForCalls(ctx: CallContext, sas: seq<StrategyAmount>)
    requires forall sa :: sa in sas ==> Routeable(sa)
    requires CallsFor(ctx, sas).Ok?
    ensures |CallsFor(ctx, sas).value| == |CallingStrategies(sas)|
    ensures forall j :: 0 <= j < |CallsFor(ctx, sas).value| ==> WellFormedCall(CallsFor(ctx, sas).value[j])
    ensures forall j :: 0 <= j < |CallsFor(ctx, sas).value| ==>
              CallFor(ctx, CallingStrategies(sas)[j], CallsFor(ctx, sas).value[j])
  {
    if |sas| > 0 {
      var init := sas[..|sas| - 1];
      var last := |sas| - 1;
      assert forall sa :: sa in init ==> sa in sas;
      assert sas[last] in sas;
      var prev := CallsFor(ctx, init);
      PushKeepsError(ctx, prev, sas[last]);
      CallsForCalls(ctx, init);
      PushShape(ctx, prev.value, sas[last]);
      var next := CallsFor(ctx, sas).value;
      var callers := CallingStrategies(sas);
      forall j | 0 <= j < |next| ensures WellFormedCall(next[j]) && CallFor(ctx, callers[j], next[j]) {
        if j < |prev.value| {
          assert next[j] == next[..|prev.value|][j];
          assert callers[j] == CallingStrategies(init)[j];
        } else {
          assert callers[j] == sas[last];
        }
      }
    }
  }

  // ---- the quote ----

  /** `strategyAmounts.reduce((s, sa) => s + parseFloat(sa.amount), 0)`; `None` stands for NaN. */
  function TotalAmount(amounts: seq<StrategyAmount>): Option<real> {
    if |amounts| == 0 then Some(0.0)
    else match (ParseFloat(amounts[0].amount), TotalAmount(amounts[1..]))
      case (Some(x), Some(rest)) => Some(x + rest)
      case _ => None
  }

  /** `${pct}% ${STRATEGIES[s].name}` for every strategy amount; `None` when a strategy is unknown. */
  function PathParts(amounts: seq<StrategyAmount>, allocations: seq<StrategyAllocation>, names: map<string, string>)
    : (r: Option<seq<string>>)
    ensures r.Some? <==> forall sa :: sa in amounts ==> sa.strategy in names
    ensures r.Some? ==>
      && |r.value| == |amounts|
      && forall i :: 0 <= i < |amounts| ==>
           r.value[i] == IntToString(PercentageOf(allocations, amounts[i].strategy)) + "% " + names[amounts[i].strategy]
  {
    if |amounts| == 0 then Some([])
    else if amounts[0].strategy !in names then None
    else match PathParts(amounts[1..], allocations, names)
      case None => None
      case Some(rest) =>
        Some([IntToString(PercentageOf(allocations, amounts[0].strategy)) + "% " + names[amounts[0].strategy]] + rest)
  }

  /** The route offered for a multi-vault quote. */
  function MultiVaultRoute(parts: seq<string>, quote: Quote): (route: RouteOption)
    ensures route.id == "multi-vault-route" && route.provider == "LI.FI + MultiVault"
    ensures route.routeType == Some(ContractCallRoute)
    ensures route.path == "MultiVault: " + Join(parts, " + ")
  {
    RouteOption("multi-vault-route", "MultiVault: " + Join(parts, " + "), QuoteFee(quote),
                FormatDuration(quote.executionDuration), "LI.FI + MultiVault", Some(ContractCallRoute))
  }

  function FromChainId(env: Env, params: MultiVaultRouteParams): nat {
    ChainIdOrEthereum(env.reg, params.fromChain)
  }

  function FromTokenAddress(env: Env, params: MultiVaultRouteParams): Option<string> {
    env.reg.tokenAddress(params.fromToken, FromChainId(env, params))
  }

  function UsdcOnBase(env: Env): Option<string> {
    env.reg.tokenAddress("USDC", env.reg.chainIds("base"))
  }

  function Context(env: Env, params: MultiVaultRouteParams): CallContext
    requires Truthy(UsdcOnBase(env))
  {
    CallContext(params.recipient,
                if "yield" in params.vaults && params.vaults["yield"] != "" then params.vaults["yield"] else DEFAULT_YIELD_VAULT,
                UsdcOnBase(env).value,
                env.reg.tokenAddress("WETH", env.reg.chainIds("base")),
                env.reg.decimals("USDC"))
  }

  /** The contract-calls quote request for the call list and the summed strategy amounts. */
  function Request(env: Env, params: MultiVaultRouteParams, calls: seq<ContractCall>, total: real): (q: QuoteRequest)
    requires Truthy(FromTokenAddress(env, params)) && Truthy(UsdcOnBase(env))
    ensures q.toChain == env.reg.chainIds("base") && q.toToken == UsdcOnBase(env).value && q.toToken != ""
    ensures q.fromChain == FromChainId(env, params) && q.fromToken == FromTokenAddress(env, params).value
    ensures q.contractCalls == calls && q.toAmount == ToBaseUnitsOf(total, env.reg.decimals(params.fromToken))
  {
    QuoteRequest(params.fromAddress, FromChainId(env, params), FromTokenAddress(env, params).value,
                 env.reg.chainIds("base"), UsdcOnBase(env).value,
                 ToBaseUnitsOf(total, env.reg.decimals(params.fromToken)), calls,
                 SlippageOrDefault(params.slippage))
  }

  /**
   * What `getMultiVaultRouteQuote(params)` returns: `Ok` for a quote, `Err`
   * for an `{ error }` result (an exception inside the `try` included).
   */
  function Outcome(env: Env, params: MultiVaultRouteParams): (r: Result<MultiVaultRouteQuote>)
    ensures !Truthy(FromTokenAddress(env, params)) ==> r == Err("Source token not supported: " + params.fromToken)
    ensures Truthy(FromTokenAddress(env, params)) && !Truthy(UsdcOnBase(env)) ==> r == Err("USDC not supported on Base")
    ensures r.Ok? ==> r.value.allocations == Report(env.calculateStrategyAmounts(params.amount, params.allocations), params.allocations)
    ensures r.Ok? ==> |r.value.quotes| <= 1
  {
    if !Truthy(FromTokenAddress(env, params)) then Err("Source token not supported: " + params.fromToken)
    else if !Truthy(UsdcOnBase(env)) then Err("USDC not supported on Base")
    else
      var amounts := env.calculateStrategyAmounts(params.amount, params.allocations);
      var routeable := RouteableStrategies(amounts);
      var report := Report(amounts, params.allocations);
      if |routeable| == 0 then Ok(MultiVaultRouteQuote(LiquidRoute(params.fromToken), [], report))
      else match CallsFor(Context(env, params), routeable)
        case Err(e) => Err(e)
        case Ok(calls) =>
          match TotalAmount(amounts)
          case None => Err(NAN_TO_BIGINT)
          case Some(total) =>
            match env.getQuote(Request(env, params, calls, total))
            case Err(e) => Err(e)
            case Ok(quote) =>
              match PathParts(amounts, params.allocations, env.strategyNames)
              case None => Err(UNKNOWN_STRATEGY)
              case Some(parts) => Ok(MultiVaultRouteQuote(MultiVaultRoute(parts, quote), [quote], report))
  }

  /** `getMultiVaultRouteQuote(params)`, with the call list built by its loop. */
  method GetMultiVaultRouteQuote(env: Env, params: MultiVaultRouteParams) returns (r: Result<MultiVaultRouteQuote>)
    ensures r == Outcome(env, params)
  {
    var fromTokenAddr := FromTokenAddress(env, params);
    var toTokenAddr := UsdcOnBase(env);
    if !Truthy(fromTokenAddr) {
      return Err("Source token not supported: " + params.fromToken);
    }
    if !Truthy(toTokenAddr) {
      return Err("USDC not supported on Base");
    }
    var amounts := env.calculateStrategyAmounts(params.amount, params.allocations);
    var routeable := RouteableStrategies(amounts);
    if |routeable| == 0 {
      return Ok(MultiVaultRouteQuote(LiquidRoute(params.fromToken), [], Report(amounts, params.allocations)));
    }
    var calls := BuildContractCalls(Context(env, params), routeable);
    if calls.Err? {
      return Err(calls.message);
    }
    var total := TotalAmount(amounts);
    if total.None? {
      return Err(NAN_TO_BIGINT);
    }
    var answer := env.getQuote(Request(env, params, calls.value, total.value));
    if answer.Err? {
      return Err(answer.message);
    }
    var quotes := [answer.value];
    var parts := PathParts(amounts, params.allocations, env.strategyNames);
    if parts.None? {
      return Err(UNKNOWN_STRATEGY);
    }
    r := Ok(MultiVaultRouteQuote(MultiVaultRoute(parts.value, answer.value), quotes, Report(amounts, params.allocations)));
  }

  /** With nothing to route, the result is the direct-transfer route and no LI.FI quote is asked for. */
  lemma AllLiquidIsDirect(env: Env, params: MultiVaultRouteParams)
    requires Truthy(FromTokenAddress(env, params)) && Truthy(UsdcOnBase(env))
    requires forall sa :: sa in env.calculateStrategyAmounts(params.amount, params.allocations) ==> !Routeable(sa)
    ensures Outcome(env, params).Ok?
    ensures Outcome(env, params).value.route == LiquidRoute(params.fromToken)
    ensures Outcome(env, params).value.quotes == []
  {
    NothingRouteable(env.calculateStrategyAmounts(params.amount, params.allocations));
  }

  lemma {:induction false} NothingRouteable(amounts: seq<StrategyAmount>)
    requires forall sa :: sa in amounts ==> !Routeable(sa)
    ensures RouteableStrategies(amounts) == []
  {
    if |amounts| > 0 {
      assert amounts[0] in amounts;
      assert forall sa :: sa in amounts[1..] ==> sa in amounts;
      NothingRouteable(amounts[1..]);
    }
  }

  /**
   * When some strategy needs routing, the one LI.FI request carries a
   * well-formed destination call for each routeable 'yield' or 'restaking'
   * strategy and goes to USDC on Base; the only way the call list itself
   * fails is a restaking strategy while WETH is unavailable on Base.
   */
  lemma RoutedRequest(env: Env, params: MultiVaultRouteParams)
    requires Truthy(FromTokenAddress(env, params)) && Truthy(UsdcOnBase(env))
    ensures
      var routeable := RouteableStrategies(env.calculateStrategyAmounts(params.amount, params.allocations));
      var calls := CallsFor(Context(env, params), routeable);
      && (calls.Err? <==> !Truthy(Context(env, params).weth) && Restakes(routeable))
      && (calls.Err? && |routeable| > 0 ==> Outcome(env, params) == Err(NO_WETH))
      && (calls.Ok? ==>
            && |calls.value| == |CallingStrategies(routeable)|
            && (forall j :: 0 <= j < |calls.value| ==> WellFormedCall(calls.value[j]))
            && forall j :: 0 <= j < |calls.value| ==>
                 CallFor(Context(env, params), CallingStrategies(routeable)[j], calls.value[j]))
  {
    var routeable := RouteableStrategies(env.calculateStrategyAmounts(params.amount, params.allocations));
    var ctx := Context(env, params);
    CallsForFails(ctx, routeable);
    if CallsFor(ctx, routeable).Ok? {
      CallsForCalls(ctx, routeable);
    }
  }

  /**
   * `params.vaults?.yield || DEFAULT_VAULTS.yield`: every 'yield' deposit goes
   * to the recipient's configured vault, or to the default vault when none is set.
   */
  lemma YieldVaultFallback(env: Env, params: MultiVaultRouteParams)
    requires Truthy(UsdcOnBase(env))
    ensures
      var routeable := RouteableStrategies(env.calculateStrategyAmounts(params.amount, params.allocations));
      var calls := CallsFor(Context(env, params), routeable);
      var vault := if "yield" in params.vaults && params.vaults["yield"] != "" then params.vaults["yield"]
                   else DEFAULT_YIELD_VAULT;
      calls.Ok? ==>
        forall j :: 0 <= j < |calls.value| && j < |CallingStrategies(routeable)|
                    && CallingStrategies(routeable)[j].strategy == "yield" ==>
          calls.value[j].callData == DepositToYield(params.recipient, vault, UsdcOnBase(env).value, calls.value[j].fromAmount)
  {
    var routeable := RouteableStrategies(env.calculateStrategyAmounts(params.amount, params.allocations));
    if CallsFor(Context(env, params), routeable).Ok? {
      CallsForCalls(Context(env, params), routeable);
    }
  }

  /**
   * A routed quote: the route is the multi-vault route built from the path
   * parts and the one LI.FI quote, and that quote, the only one returned,
   * answers the request for the built calls and the summed amounts.
   */
  lemma RoutedSuccess(env: Env, params: MultiVaultRouteParams)
    requires Truthy(FromTokenAddress(env, params)) && Truthy(UsdcOnBase(env))
    ensures
      var amounts := env.calculateStrategyAmounts(params.amount, params.allocations);
      var calls := CallsFor(Context(env, params), RouteableStrategies(amounts));
      var r := Outcome(env, params);
      r.Ok? && |RouteableStrategies(amounts)| > 0 ==>
        && calls.Ok? && TotalAmount(amounts).Some?
        && env.getQuote(Request(env, params, calls.value, TotalAmount(amounts).value)).Ok?
        && PathParts(amounts, params.allocations, env.strategyNames).Some?
        && r.value.quotes == [env.getQuote(Request(env, params, calls.value, TotalAmount(amounts).value)).value]
        && r.value.route == MultiVaultRoute(PathParts(amounts, params.allocations, env.strategyNames).value,
                                            env.getQuote(Request(env, params, calls.value, TotalAmount(amounts).value)).value)
  {
  }

  /** The routeable filter works strategy by strategy: filtering a concatenation concatenates the filtered parts, in order. */
  lemma {:induction false} RouteableStrategiesAppend(a: seq<StrategyAmount>, b: seq<StrategyAmount>)
    ensures RouteableStrategies(a + b) == RouteableStrategies(a) + RouteableStrategies(b)
  {
    if |a| == 0 {
      assert a + b == b;
    } else {
      assert (a + b)[0] == a[0] && (a + b)[1..] == a[1..] + b;
      RouteableStrategiesAppend(a[1..], b);
    }
  }

  /** `Math.floor(x * 10 ** decimals)`. */
  function ToBaseUnitsOf(x: real, decimals: nat): int {
    Scaled(x, decimals).Floor
  }
}
