/**
 * The deterministic parts of MEV-protected vault deposits
 * (src/lib/mev/protected-deposit.ts): the slippage floor on shares, the
 * LI.FI contract call that deposits through the protected router, and the
 * hex formatting of a commit-reveal salt. The ABI encoding is symbolic
 * (`Lifi.CallData`) and the random fill of the salt is a parameter.
 */
module ProtectedDeposit {
  import opened Strings
  import opened Numbers
  import opened Lifi

  const MEV_PROTECTED_ROUTER := "0x0B880127FFb09727468159f3883c76Fd1B1c59A2"
  const BPS_DENOMINATOR := 10000

  /**
   * `calculateMinShares(expectedShares, slippageBps = 50)`: the expected
   * shares less `slippageBps` basis points of them, the cut rounded toward
   * zero as bigint division does.
   */
  function CalculateMinShares(expectedShares: int, slippageBps: int := 50): (minShares: int)
    ensures 0 <= expectedShares && 0 <= slippageBps <= BPS_DENOMINATOR ==> 0 <= minShares <= expectedShares
    ensures slippageBps == 0 ==> minShares == expectedShares
    ensures 0 <= expectedShares && 0 <= slippageBps ==>
              (expectedShares - minShares) * BPS_DENOMINATOR <= expectedShares * slippageBps
              < (expectedShares - minShares + 1) * BPS_DENOMINATOR
  {
    expectedShares - TruncDiv(expectedShares * slippageBps, BPS_DENOMINATOR)
  }

  /** With the whole amount as slippage nothing is guaranteed; with none, everything is. */
  lemma FullSlippageFloorsAtZero(expectedShares: int)
    ensures CalculateMinShares(expectedShares, BPS_DENOMINATOR) == 0
  {
    assert expectedShares * BPS_DENOMINATOR / BPS_DENOMINATOR == expectedShares;
    if expectedShares < 0 {
      assert -(expectedShares * BPS_DENOMINATOR) / BPS_DENOMINATOR == -expectedShares;
    }
  }

  /** Truncating division makes the floor of a negative amount the mirror image of the positive one. */
  lemma MinSharesMirror(expectedShares: int, slippageBps: int)
    requires 0 <= slippageBps
    ensures CalculateMinShares(-expectedShares, slippageBps) == -CalculateMinShares(expectedShares, slippageBps)
  {
    assert (-expectedShares) * slippageBps == -(expectedShares * slippageBps);
  }

  /** The call LI.FI makes on arrival. */
  datatype LiFiContractCall = LiFiContractCall(callTo: string, callData: CallData, requiresDeposit: bool)

  /**
   * `buildMEVProtectedContractCall(...)`: deposit through `routerAddress`
   * with `lifiCallback(vault, recipient, minShares)`, taking one share per
   * asset as the expectation. LI.FI must hand the tokens over first.
   */
  function BuildMEVProtectedContractCall(routerAddress: string, vault: string, recipient: string,
                                         expectedAssets: int, slippageBps: int := 50): (call: LiFiContractCall)
    ensures call.callTo == routerAddress && call.requiresDeposit
    ensures call.callData.LifiCallback? && call.callData.vault == vault && call.callData.recipient == recipient
    ensures call.callData.minShares == CalculateMinShares(expectedAssets, slippageBps)
    ensures 0 <= expectedAssets && 0 <= slippageBps <= BPS_DENOMINATOR ==>
              0 <= call.callData.minShares <= expectedAssets
  {
    var expectedShares := expectedAssets;
    LiFiContractCall(routerAddress, LifiCallback(vault, recipient, CalculateMinShares(expectedShares, slippageBps)), true)
  }

  // ---- salt formatting ----

  newtype byte = x: int | 0 <= x < 256

  /** `b.toString(16).padStart(2, '0')`. */
  function HexByte(b: byte): (r: string)
    ensures |r| == 2 && IsHexDigit(r[0]) && IsHexDigit(r[1])
    ensures HexValue(r[0]) * 16 + HexValue(r[1]) == b as int
  {
    [HexDigit(b as int / 16), HexDigit(b as int % 16)]
  }

  /** The bytes as lower-case hex, two characters each. */
  function HexBytes(bytes: seq<byte>): (r: string)
    ensures |r| == 2 * |bytes|
    ensures forall i :: 0 <= i < |r| ==> IsHexDigit(r[i])
  {
    if |bytes| == 0 then [] else HexByte(bytes[0]) + HexBytes(bytes[1..])
  }

  /** `generateSalt()` over the 32 bytes `crypto.getRandomValues` fills in. */
  function GenerateSalt(fill: seq<byte>): (salt: string)
    requires |fill| == 32
    ensures |salt| == 66 && salt[..2] == "0x"
    ensures forall i :: 2 <= i < |salt| ==> IsHexDigit(salt[i])
  {
    "0x" + HexBytes(fill)
  }

  /** Reads lower-case hex back into bytes, two characters at a time. */
  function ParseHexBytes(s: string): seq<byte>
    requires |s| % 2 == 0
    requires forall i :: 0 <= i < |s| ==> IsHexDigit(s[i])
  {
    if |s| == 0 then []
    else [(HexValue(s[0]) * 16 + HexValue(s[1])) as byte] + ParseHexBytes(s[2..])
  }

  /** The salt's hex text determines its bytes: reading it back gives the random fill. */
  lemma {:induction false} HexBytesRoundTrip(bytes: seq<byte>)
    ensures ParseHexBytes(HexBytes(bytes)) == bytes
  {
    if |bytes| > 0 {
      var s := HexBytes(bytes);
      assert s == HexByte(bytes[0]) + HexBytes(bytes[1..]);
      assert s[2..] == HexBytes(bytes[1..]);
      HexBytesRoundTrip(bytes[1..]);
    }
  }

  /** Different random fills give different salts. */
  lemma SaltInjective(a: seq<byte>, b: seq<byte>)
    requires |a| == 32 && |b| == 32
    requires GenerateSalt(a) == GenerateSalt(b)
    ensures a == b
  {
    assert HexBytes(a) == GenerateSalt(a)[2..];
    assert HexBytes(b) == GenerateSalt(b)[2..];
    HexBytesRoundTrip(a);
    HexBytesRoundTrip(b);
  }
}
