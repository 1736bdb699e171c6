/**
 * The JSON-file receipt store (src/lib/ens/receipt-store.ts). The file is a
 * field holding either the dictionary it parses to or `Unreadable` (missing,
 * unreadable or not JSON); a write failure is a parameter. Entries are keyed
 * by the lower-cased transaction hash.
 */
module ReceiptStore {
  import opened Wrappers
  import opened Strings
  import opened Receipts

  datatype StoredReceipt = StoredReceipt(
    amount: string, token: string, chain: string, recipient: string, from: string,
    textRecords: ReceiptTextRecords, createdAt: string)

  /** What `readFile` + `JSON.parse` find on disk. */
  datatype StoreFile = Readable(entries: map<string, StoredReceipt>) | Unreadable

  /** `readStore()`: an unreadable file reads as an empty store. */
  function ReadStore(file: StoreFile): (entries: map<string, StoredReceipt>)
    ensures file.Unreadable? ==> entries == map[]
    ensures file.Readable? ==> entries == file.entries
  {
    match file
    case Readable(entries) => entries
    case Unreadable => map[]
  }

  /** The entry `storeReceipt` writes: `from` lower-cased, the rest verbatim. */
  function Entry(txHash: string, amount: string, token: string, chain: string, recipient: string,
                 from: string, nowIso: string): (e: StoredReceipt)
    ensures e.amount == amount && e.token == token && e.chain == chain && e.recipient == recipient
    ensures e.from == ToLower(from) && e.createdAt == nowIso
    ensures e.textRecords == BuildReceiptTextRecords(txHash, amount, token, chain, recipient, nowIso)
  {
    StoredReceipt(amount, token, chain, recipient, ToLower(from),
                  BuildReceiptTextRecords(txHash, amount, token, chain, recipient, nowIso), nowIso)
  }

  /** The dictionary after `storeReceipt`, before it is written back. */
  function Put(entries: map<string, StoredReceipt>, txHash: string, amount: string, token: string, chain: string,
               recipient: string, from: string, nowIso: string): map<string, StoredReceipt>
  {
    entries[ToLower(txHash) := Entry(txHash, amount, token, chain, recipient, from, nowIso)]
  }

  /** `getReceipt(txHash)` over a dictionary: the text records under the lower-cased hash, or null. */
  function Find(entries: map<string, StoredReceipt>, txHash: string): (r: Option<ReceiptTextRecords>)
    ensures r.Some? <==> ToLower(txHash) in entries
  {
    var key := ToLower(txHash);
    if key in entries then Some(entries[key].textRecords) else None
  }

  /** After storing under `h`, every case variant of `h` finds the new records. */
  lemma FindAfterPut(entries: map<string, StoredReceipt>, h: string, h': string, amount: string, token: string,
                     chain: string, recipient: string, from: string, nowIso: string)
    requires ToLower(h') == ToLower(h)
    ensures Find(Put(entries, h, amount, token, chain, recipient, from, nowIso), h') ==
              Some(BuildReceiptTextRecords(h, amount, token, chain, recipient, nowIso))
  {
  }

  /** Storing under `h` leaves every hash that differs from it beyond letter case as it was. */
  lemma FindOtherAfterPut(entries: map<string, StoredReceipt>, h: string, h': string, amount: string, token: string,
                          chain: string, recipient: string, from: string, nowIso: string)
    requires ToLower(h') != ToLower(h)
    ensures Find(Put(entries, h, amount, token, chain, recipient, from, nowIso), h') == Find(entries, h')
  {
  }

  /** Nothing is found in a store that cannot be read. */
  lemma UnreadableIsEmpty(h: string)
    ensures Find(ReadStore(Unreadable), h) == None
  {
  }

  /** The store file and its two operations. */
  class ReceiptStoreFile {
    var file: StoreFile

    constructor(initial: StoreFile)
      ensures file == initial
    {
      file := initial;
    }

    /** `getReceipt(txHash)`. */
    function GetReceipt(txHash: string): (r: Option<ReceiptTextRecords>)
      reads this
      ensures r.Some? <==> ToLower(txHash) in ReadStore(file)
      ensures r.Some? ==> r.value == ReadStore(file)[ToLower(txHash)].textRecords
    {
      Find(ReadStore(file), txHash)
    }

    /**
     * `storeReceipt(...)` at time `nowIso`: read, put, write back. When the
     * write fails (`writeError`), the file keeps its old contents and the
     * error is returned.
     */
    method StoreReceipt(txHash: string, amount: string, token: string, chain: string, recipient: string,
                        from: string, nowIso: string, writeError: Option<string>) returns (failure: Option<string>)
      modifies this
      ensures failure == writeError
      ensures writeError.None? ==>
                file == Readable(Put(ReadStore(old(file)), txHash, amount, token, chain, recipient, from, nowIso))
      ensures writeError.Some? ==> file == old(file)
      ensures writeError.None? ==>
                forall h :: GetReceipt(h) ==
                  if ToLower(h) == ToLower(txHash) then Some(BuildReceiptTextRecords(txHash, amount, token, chain, recipient, nowIso))
                  else old(GetReceipt(h))
    {
      var store := ReadStore(file);
      var textRecords := BuildReceiptTextRecords(txHash, amount, token, chain, recipient, nowIso);
      store := store[ToLower(txHash) := StoredReceipt(amount, token, chain, recipient, ToLower(from), textRecords, nowIso)];
      if writeError.Some? {
        return writeError;
      }
      file := Readable(store);
      failure := None;
    }
  }
}
