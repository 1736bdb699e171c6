/**
 * Payment-receipt subnames and their ENS text records
 * (src/lib/ens/receipts.ts). The clock is a parameter.
 */
module Receipts {
  import opened Strings

  /** The parent name receipt subnames live under by default. */
  const DEFAULT_PARENT := "payments.payagent.eth"

  const TX_KEY := "com.payagent.tx"
  const AMOUNT_KEY := "com.payagent.amount"
  const TOKEN_KEY := "com.payagent.token"
  const CHAIN_KEY := "com.payagent.chain"
  const RECIPIENT_KEY := "com.payagent.recipient"
  const TIMESTAMP_KEY := "com.payagent.timestamp"

  /** `generateReceiptSubname(txHash, parentName = DEFAULT_PARENT)`. */
  function GenerateReceiptSubname(txHash: string, parentName: string := DEFAULT_PARENT): (name: string)
    ensures StartsWith(name, "tx-") && EndsWith(name, "." + parentName)
    ensures |name| == 4 + |txHash| + |parentName|
    ensures name[3..3 + |txHash|] == ToLower(txHash)
  {
    var normalizedHash := ToLower(txHash);
    "tx-" + normalizedHash + "." + parentName
  }

  /** Hashes that differ only in letter case name the same receipt. */
  lemma SubnameIgnoresCase(a: string, b: string, parentName: string)
    requires ToLower(a) == ToLower(b)
    ensures GenerateReceiptSubname(a, parentName) == GenerateReceiptSubname(b, parentName)
  {
  }

  /** Under one parent, two hashes share a subname only if they agree up to letter case. */
  lemma SubnameDeterminesHash(a: string, b: string, parentName: string)
    requires GenerateReceiptSubname(a, parentName) == GenerateReceiptSubname(b, parentName)
    ensures ToLower(a) == ToLower(b)
  {
    var na := GenerateReceiptSubname(a, parentName);
    assert |a| == |b|;
    assert ToLower(a) == na[3..3 + |a|];
  }

  /** The six text records of a receipt. */
  datatype ReceiptTextRecords = ReceiptTextRecords(
    tx: string, amount: string, token: string, chain: string, recipient: string, timestamp: string)

  /** The records as the key/value pairs set on the subname. */
  function AsTextRecords(r: ReceiptTextRecords): (m: map<string, string>)
    ensures m.Keys == {TX_KEY, AMOUNT_KEY, TOKEN_KEY, CHAIN_KEY, RECIPIENT_KEY, TIMESTAMP_KEY}
    ensures |m.Keys| == 6
  {
    map[TX_KEY := r.tx, AMOUNT_KEY := r.amount, TOKEN_KEY := r.token,
        CHAIN_KEY := r.chain, RECIPIENT_KEY := r.recipient, TIMESTAMP_KEY := r.timestamp]
  }

  /**
   * `buildReceiptTextRecords(...)` at time `nowIso`: the five inputs
   * verbatim, the hash in its original case, and the time.
   */
  function BuildReceiptTextRecords(txHash: string, amount: string, token: string, chain: string,
                                   recipient: string, nowIso: string): (r: ReceiptTextRecords)
    ensures var m := AsTextRecords(r);
      && m[TX_KEY] == txHash && m[AMOUNT_KEY] == amount && m[TOKEN_KEY] == token
      && m[CHAIN_KEY] == chain && m[RECIPIENT_KEY] == recipient && m[TIMESTAMP_KEY] == nowIso
  {
    ReceiptTextRecords(txHash, amount, token, chain, recipient, nowIso)
  }
}
