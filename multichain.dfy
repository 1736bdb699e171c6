/**
 * Multichain ENS helpers (src/lib/ens/multichain.ts): the `name@chain`
 * notation of ERC-7828, the chain short-name table, and the ENSIP-19
 * reverse-resolution fallback from an L2 to mainnet. The RPC lookups and
 * `normalize` are parameters; `Err` stands for a thrown error.
 */
module Multichain {
  import opened Wrappers
  import opened Strings

  const MAINNET := 1
  const BASE := 8453
  const OPTIMISM := 10
  const ARBITRUM := 42161

  /** `CHAIN_SHORT_NAMES[chainId]`. */
  function ShortName(chainId: int): (name: Option<string>)
    ensures name.Some? <==> chainId in {MAINNET, BASE, OPTIMISM, ARBITRUM}
    ensures name.Some? ==> name.value != "" && '@' !in name.value
  {
    if chainId == MAINNET then Some("eth")
    else if chainId == BASE then Some("base")
    else if chainId == OPTIMISM then Some("optimism")
    else if chainId == ARBITRUM then Some("arbitrum")
    else None
  }

  /** No two chains share a short name. */
  lemma ShortNamesDistinct(a: int, b: int)
    requires ShortName(a).Some? && ShortName(a) == ShortName(b)
    ensures a == b
  {
  }

  /** `CHAIN_OBJECTS[chainId]` is defined for the same chains as the short names. */
  predicate KnownChain(chainId: int) {
    chainId in {MAINNET, BASE, OPTIMISM, ARBITRUM}
  }

  /** `formatChainAddress(name, chain)`: ERC-7828 `name@chain`. */
  function FormatChainAddress(name: string, chain: string): (r: string)
    ensures |r| == |name| + 1 + |chain| && r[|name|] == '@'
    ensures r[..|name|] == name && r[|name| + 1..] == chain
  {
    name + "@" + chain
  }

  /** The position of the last '@' in `s`, if any. */
  function LastAt(s: string): (i: Option<nat>)
    ensures i.Some? ==> i.value < |s| && s[i.value] == '@' && '@' !in s[i.value + 1..]
    ensures i.None? ==> '@' !in s
  {
    if |s| == 0 then None
    else if s[|s| - 1] == '@' then Some(|s| - 1)
    else match LastAt(s[..|s| - 1])
      case None => None
      case Some(i) =>
        assert s[i + 1..] == s[..|s| - 1][i + 1..] + [s[|s| - 1]];
        Some(i)
  }

  /** Splits `name@chain` at its last '@'. */
  function ParseChainAddress(s: string): Option<(string, string)> {
    match LastAt(s)
    case None => None
    case Some(i) => Some((s[..i], s[i + 1..]))
  }

  /** A chain name without '@' is recovered from the notation, and so is the ENS name. */
  lemma ParseFormat(name: string, chain: string)
    requires '@' !in chain
    ensures ParseChainAddress(FormatChainAddress(name, chain)) == Some((name, chain))
  {
  }

  /** The L2 client is asked, and answers with a non-empty name. */
  predicate L2Answers(address: string, chainId: int, l2Name: (string, int) -> Result<Option<string>>) {
    chainId != MAINNET && KnownChain(chainId) && l2Name(address, chainId).Ok? && Truthy(l2Name(address, chainId).value)
  }

  /**
   * `getMultichainName(address, chainId)`. `l2Name(address, chainId)` is the
   * reverse lookup on that chain's client, `mainnetName(address)` the one on
   * mainnet.
   */
  function GetMultichainName(address: string, chainId: int,
                             l2Name: (string, int) -> Result<Option<string>>,
                             mainnetName: string -> Result<Option<string>>): (r: Option<string>)
    ensures L2Answers(address, chainId, l2Name) ==> r == l2Name(address, chainId).value
    ensures !L2Answers(address, chainId, l2Name) ==>
              r == (if mainnetName(address).Ok? then mainnetName(address).value else None)
  {
    var fromL2 := if chainId != MAINNET && KnownChain(chainId) then
                    match l2Name(address, chainId)
                    case Ok(name) => if Truthy(name) then name else None
                    case Err(_) => None
                  else None;
    if fromL2.Some? then fromL2
    else match mainnetName(address)
      case Ok(name) => name
      case Err(_) => None
  }

  /** On mainnet or an unknown chain, no L2 lookup is made: its answer cannot matter. */
  lemma NoL2LookupOffL2(address: string, chainId: int, l2a: (string, int) -> Result<Option<string>>,
                        l2b: (string, int) -> Result<Option<string>>, mainnetName: string -> Result<Option<string>>)
    requires chainId == MAINNET || !KnownChain(chainId)
    ensures GetMultichainName(address, chainId, l2a, mainnetName) == GetMultichainName(address, chainId, l2b, mainnetName)
  {
  }

  /** An L2 primary name is final: mainnet is not consulted. */
  lemma L2NameWins(address: string, chainId: int, l2Name: (string, int) -> Result<Option<string>>,
                   m1: string -> Result<Option<string>>, m2: string -> Result<Option<string>>)
    requires L2Answers(address, chainId, l2Name)
    ensures GetMultichainName(address, chainId, l2Name, m1) == GetMultichainName(address, chainId, l2Name, m2)
  {
  }

  /**
   * `resolveMultichainName(name, chainId)`: the mainnet address of the
   * normalized name, and the ERC-7828 form of the name as given. `Err` when
   * `normalize` or the lookup throws.
   */
  function ResolveMultichainName(name: string, chainId: int, normalize: string -> Result<string>,
                                 ensAddress: string -> Result<Option<string>>)
    : (r: Result<(Option<string>, Option<string>)>)
    ensures r.Ok? ==> (r.value.1.Some? <==> ShortName(chainId).Some?)
    ensures r.Ok? && r.value.1.Some? ==> r.value.1.value == FormatChainAddress(name, ShortName(chainId).value)
    ensures r.Ok? <==> normalize(name).Ok? && ensAddress(normalize(name).value).Ok?
    ensures r.Ok? ==> r.value.0 == ensAddress(normalize(name).value).value
  {
    match normalize(name)
    case Err(e) => Err(e)
    case Ok(normalized) =>
      match ensAddress(normalized)
      case Err(e) => Err(e)
      case Ok(address) =>
        var shortName := ShortName(chainId);
        Ok((address, if shortName.Some? then Some(FormatChainAddress(name, shortName.value)) else None))
  }
}
