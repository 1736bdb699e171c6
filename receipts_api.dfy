/**
 * `POST /api/ens/receipts` (src/app/api/ens/receipts/route.ts): validate the
 * six receipt fields, store the receipt, and answer with its subname under
 * the default parent.
 */
module ReceiptsApi {
  import opened Wrappers
  import opened Strings
  import opened Receipts
  import opened ReceiptStore

  const MISSING_FIELDS := "Missing required fields: txHash, amount, token, chain, recipient, from"

  /** The request body's fields; `None` stands for a missing one. */
  datatype ReceiptBody = ReceiptBody(
    txHash: Option<string>, amount: Option<string>, token: Option<string>,
    chain: Option<string>, recipient: Option<string>, from: Option<string>)

  datatype ReceiptReply = Created(subname: string) | Failure(status: nat, error: string)

  /** Every field is present and non-empty. */
  predicate Complete(b: ReceiptBody) {
    Truthy(b.txHash) && Truthy(b.amount) && Truthy(b.token) && Truthy(b.chain) && Truthy(b.recipient) && Truthy(b.from)
  }

  /**
   * `POST(req)` at time `nowIso`. `body` is `Err(message)` when the JSON
   * cannot be read; `writeError` is the failure of writing the store file.
   */
  method Post(store: ReceiptStoreFile, body: Result<ReceiptBody>, nowIso: string, writeError: Option<string>)
    returns (reply: ReceiptReply)
    modifies store
    ensures body.Err? ==> reply == Failure(500, body.message) && store.file == old(store.file)
    ensures body.Ok? && !Complete(body.value) ==> reply == Failure(400, MISSING_FIELDS) && store.file == old(store.file)
    ensures body.Ok? && Complete(body.value) && writeError.Some? ==>
              reply == Failure(500, writeError.value) && store.file == old(store.file)
    ensures body.Ok? && Complete(body.value) && writeError.None? ==>
              var b := body.value;
              && reply == Created(GenerateReceiptSubname(b.txHash.value))
              && store.file == Readable(Put(ReadStore(old(store.file)), b.txHash.value, b.amount.value, b.token.value,
                                            b.chain.value, b.recipient.value, b.from.value, nowIso))
              && store.GetReceipt(b.txHash.value) ==
                   Some(BuildReceiptTextRecords(b.txHash.value, b.amount.value, b.token.value, b.chain.value,
                                                b.recipient.value, nowIso))
  {
    if body.Err? {
      return Failure(500, body.message);
    }
    var b := body.value;
    if !Truthy(b.txHash) || !Truthy(b.amount) || !Truthy(b.token) || !Truthy(b.chain) || !Truthy(b.recipient) || !Truthy(b.from) {
      return Failure(400, MISSING_FIELDS);
    }
    var failure := store.StoreReceipt(b.txHash.value, b.amount.value, b.token.value, b.chain.value,
                                      b.recipient.value, b.from.value, nowIso, writeError);
    if failure.Some? {
      return Failure(500, failure.value);
    }
    var subname := GenerateReceiptSubname(b.txHash.value);
    reply := Created(subname);
  }
}
