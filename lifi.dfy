/**
 * What the two vault routers exchange with the LI.FI contract-calls quote
 * service, and the token registry they consult (src/lib/routing/tokens.ts is
 * not part of this model; its lookups are parameters).
 *
 * ABI encoding is modelled symbolically: a `CallData` value is the decoded
 * function call that `encodeFunctionData` would encode.
 */
module Lifi {
  import opened Wrappers
  import opened Strings
  import opened Numbers

  const ZERO_ADDRESS := "0x0000000000000000000000000000000000000000"

  /** The deployed YieldRouter on Base (still the zero address in the source). */
  const YIELD_ROUTER_ADDRESS := ZERO_ADDRESS

  /** The encoded call a contract-call step performs on arrival. */
  datatype CallData =
    | DepositToYield(recipient: string, vault: string, token: string, amount: int)
    | DepositToRenzo(recipient: string, minEzEthOut: int)
    | LifiCallback(vault: string, recipient: string, minShares: int)

  datatype ContractCall = ContractCall(
    fromAmount: int,
    fromTokenAddress: string,
    toContractAddress: string,
    callData: CallData,
    gasLimit: string)

  datatype QuoteRequest = QuoteRequest(
    fromAddress: string,
    fromChain: nat,
    fromToken: string,
    toChain: nat,
    toToken: string,
    toAmount: int,
    contractCalls: seq<ContractCall>,
    slippage: real)

  /** One step of a returned quote: the tool's display name, if any, and the step type. */
  datatype Step = Step(toolName: Option<string>, stepType: string)

  /**
   * A returned quote: its steps (`includedSteps || []`), its gas costs in
   * US cents, and its execution duration in seconds (absent or 0 when unknown).
   */
  datatype Quote = Quote(includedSteps: seq<Step>, gasCostsCents: seq<nat>, executionDuration: Option<nat>)

  /**
   * The token registry: chain ids by name (0 when unknown), token addresses by
   * symbol and chain id, and token decimals by symbol.
   */
  datatype Registry = Registry(
    chainIds: string -> nat,
    tokenAddress: (string, nat) -> Option<string>,
    decimals: string -> nat)

  /** `CHAIN_MAP[name] || CHAIN_MAP.ethereum`. */
  function ChainIdOrEthereum(reg: Registry, name: string): (id: nat)
    ensures reg.chainIds(name) != 0 ==> id == reg.chainIds(name)
    ensures reg.chainIds(name) == 0 ==> id == reg.chainIds("ethereum")
  {
    if reg.chainIds(name) != 0 then reg.chainIds(name) else reg.chainIds("ethereum")
  }

  /** `params.slippage || 0.005`. */
  function SlippageOrDefault(slippage: Option<real>): (r: real)
    ensures slippage.Some? && slippage.value != 0.0 ==> r == slippage.value
    ensures slippage.None? || slippage.value == 0.0 ==> r == 0.005
  {
    if slippage.Some? && slippage.value != 0.0 then slippage.value else 0.005
  }

  /** `Math.floor(parseFloat(amount) * 10 ** decimals)`; `None` when the amount is NaN. */
  function ToBaseUnits(amount: string, decimals: nat): (r: Option<int>)
    ensures r.Some? <==> ParseFloat(amount).Some?
    ensures r.Some? ==>
      r.value as real <= Scaled(ParseFloat(amount).value, decimals) < r.value as real + 1.0
  {
    match ParseFloat(amount)
    case None => None
    case Some(x) =>
      FloorBounds(Scaled(x, decimals));
      Some(Scaled(x, decimals).Floor)
  }

  function Scaled(x: real, decimals: nat): real {
    x * Pow10(decimals) as real
  }

  lemma FloorBounds(y: real)
    ensures y.Floor as real <= y < y.Floor as real + 1.0
  {
  }

  function Sum(xs: seq<nat>): nat {
    if |xs| == 0 then 0 else xs[0] + Sum(xs[1..])
  }

  /** Two decimal digits, zero-padded. */
  function Pad2(n: nat): (r: string)
    requires n < 100
    ensures |r| == 2 && AllDigits(r) && DigitsValue(r) == n
  {
    var hi, lo := DigitChar(n / 10), DigitChar(n % 10);
    var r := [hi, lo];
    assert r[..1] == [hi] && [hi][..0] == [];
    assert DigitsValue([hi]) == n / 10;
    r
  }

  /** `$${estimatedGas.toFixed(2)}` for a gas total counted in cents. */
  function FormatFee(cents: nat): (r: string)
    ensures |r| >= 5 && r[0] == '$' && r[|r| - 3] == '.'
    ensures AllDigits(r[1..|r| - 3]) && DigitsValue(r[1..|r| - 3]) == cents / 100
    ensures AllDigits(r[|r| - 2..]) && DigitsValue(r[|r| - 2..]) == cents % 100
    ensures |r| > 5 ==> r[1] != '0'
  {
    var whole, frac := NatToString(cents / 100), Pad2(cents % 100);
    var r := "$" + whole + "." + frac;
    NatToStringValue(cents / 100);
    assert r[1..|r| - 3] == whole;
    assert r[|r| - 2..] == frac;
    r
  }

  /** `executionDuration ? `${Math.ceil(d / 60)} min` : '~3 min'`. */
  function FormatDuration(duration: Option<nat>): (r: string)
    ensures duration.Some? && duration.value != 0 ==>
              r == NatToString(CeilDiv(duration.value, 60)) + " min"
    ensures duration.None? || duration.value == 0 ==> r == "~3 min"
  {
    if duration.Some? && duration.value != 0 then NatToString(CeilDiv(duration.value, 60)) + " min"
    else "~3 min"
  }

  /** The quote's gas total, formatted as the route fee. */
  function QuoteFee(q: Quote): string {
    FormatFee(Sum(q.gasCostsCents))
  }

  /**
   * The fee a router prints reads back, through the fee filter of the chat
   * handler (strip all but digits and dots, then `parseFloat`), as exactly the
   * number of dollars it stands for.
   */
  lemma {:induction false} FormatFeeReadsBack(cents: nat)
    ensures ParseFloat(DigitsAndDots(FormatFee(cents))) == Some(cents as real / 100.0)
  {
    var dollars, rest := cents / 100, cents % 100;
    assert cents == 100 * dollars + rest;
    var whole, frac := NatToString(dollars), Pad2(rest);
    NatToStringValue(dollars);
    FeeTextStripped(whole, frac);
    FeeDigitsValue(whole, frac, dollars, rest, cents);
  }

  /** "<whole>.<frac>" parses as `cents / 100` when its digits spell `dollars` and two digits of `rest`. */
  lemma FeeDigitsValue(whole: string, frac: string, dollars: nat, rest: nat, cents: nat)
    requires cents == 100 * dollars + rest
    requires |whole| > 0 && AllDigits(whole) && DigitsValue(whole) == dollars
    requires |frac| == 2 && AllDigits(frac) && DigitsValue(frac) == rest
    ensures ParseFloat(whole + "." + frac) == Some(cents as real / 100.0)
  {
    FeeValue(dollars, rest, cents, whole, frac);
    ParseDecimalText(whole, frac, cents as real / 100.0);
  }

  /** "<whole>.<frac>" parses as the decimal value `v` its digits denote. */
  lemma ParseDecimalText(whole: string, frac: string, v: real)
    requires |whole| > 0 && AllDigits(whole) && AllDigits(frac) && DecimalValue(whole, frac) == v
    ensures ParseFloat(whole + "." + frac) == Some(v)
  {
    assert whole + "." + frac == whole + ['.'] + frac;
    ParseDecimalDigits(whole, frac);
  }

  /** Stripping "$<whole>.<frac>" leaves "<whole>.<frac>". */
  lemma FeeTextStripped(whole: string, frac: string)
    requires AllDigits(whole) && AllDigits(frac)
    ensures DigitsAndDots("$" + whole + "." + frac) == whole + "." + frac
  {
    var s := whole + "." + frac;
    assert "$" + whole + "." + frac == ['$'] + s;
    DigitsAndDotsDrops('$', s);
    DecimalTextChars(whole, frac);
    DigitsAndDotsKeeps(s);
  }

  /** "<whole>.<frac>" is made of digits and dots only. */
  lemma DecimalTextChars(whole: string, frac: string)
    requires AllDigits(whole) && AllDigits(frac)
    ensures forall i :: 0 <= i < |whole + "." + frac| ==> IsDigitOrDot((whole + "." + frac)[i])
  {
    var s := whole + "." + frac;
    forall i | 0 <= i < |s| ensures IsDigitOrDot(s[i]) {
      if i < |whole| { assert s[i] == whole[i]; }
      else if i > |whole| { assert s[i] == frac[i - |whole| - 1]; }
    }
  }

  /** Two fraction digits worth `rest` after the digits of `dollars` make `cents / 100`. */
  lemma FeeValue(dollars: nat, rest: nat, cents: nat, whole: string, frac: string)
    requires cents == 100 * dollars + rest
    requires AllDigits(whole) && DigitsValue(whole) == dollars
    requires |frac| == 2 && AllDigits(frac) && DigitsValue(frac) == rest
    ensures DecimalValue(whole, frac) == cents as real / 100.0
  {
    assert Pow10(|frac|) == 100 by { assert Pow10(2) == 10 * Pow10(1); }
    assert cents as real == 100.0 * dollars as real + rest as real;
  }

  /** `parseFloat` of "<digits>.<digits>" is the decimal number they write. */
  lemma ParseDecimalDigits(whole: string, frac: string)
    requires |whole| > 0 && AllDigits(whole) && AllDigits(frac)
    ensures ParseFloat(whole + ['.'] + frac) == Some(DecimalValue(whole, frac))
  {
    var s := whole + ['.'] + frac;
    assert TrimStart(s) == s by { assert !IsSpace(s[0]); }
    assert Unsigned(s) == s by { assert s[0] == whole[0]; }
    DigitRunOfDigits(whole, ['.'] + frac);
    assert s == whole + (['.'] + frac);
    var n := |whole|;
    assert s[..n] == whole;
    assert s[n + 1..] == frac;
    DigitRunOfDigits(frac, []);
    assert frac + [] == frac;
    assert Fraction(s) == frac;
  }

  lemma {:induction false} DigitsAndDotsKeeps(s: string)
    requires forall i :: 0 <= i < |s| ==> IsDigitOrDot(s[i])
    ensures DigitsAndDots(s) == s
  {
    if |s| > 0 {
      DigitsAndDotsKeeps(s[1..]);
    }
  }

  lemma DigitsAndDotsDrops(c: char, s: string)
    requires !IsDigitOrDot(c)
    ensures DigitsAndDots([c] + s) == DigitsAndDots(s)
  {
    assert ([c] + s)[1..] == s;
  }
}
