/**
 * `/api/invoice/ens` (src/app/api/invoice/ens/route.ts): guards and the
 * `flowfi.invoice.<id>` record key around storing an invoice in an ENS text
 * record and reading it back. Building the transaction and reading the
 * record are parameters.
 */
module InvoiceEnsApi {
  import opened Wrappers
  import opened Strings

  const RECORD_PREFIX := "flowfi.invoice."

  /** The invoice as posted; `""` stands for a missing `id` or `amount`. */
  datatype InvoiceData = InvoiceData(id: string, amount: string, details: map<string, string>)

  datatype EnsInvoiceBody = EnsInvoiceBody(ensName: Option<string>, invoice: Option<InvoiceData>)

  datatype WriteReply<T> = Built(txData: T, message: string) | WriteFailure(status: nat, error: string)

  /** The response of `GET`; `verified` is the flag the body carries. */
  datatype ReadReply<R> =
    | Verified(record: R, ensName: string, invoiceId: string, recordKey: string)
    | NotFound(error: string)
    | ReadFailure(status: nat, error: string)
  {
    function Status(): nat {
      match this
      case Verified(_, _, _, _) => 200
      case NotFound(_) => 404
      case ReadFailure(status, _) => status
    }
    predicate IsVerified() {
      Verified?
    }
  }

  /** The text-record key an invoice is stored under. */
  function RecordKey(id: string): (key: string)
    ensures StartsWith(key, RECORD_PREFIX) && key[|RECORD_PREFIX|..] == id
  {
    RECORD_PREFIX + id
  }

  /** Different invoices use different records. */
  lemma RecordKeyInjective(a: string, b: string)
    requires RecordKey(a) == RecordKey(b)
    ensures a == b
  {
    assert a == RecordKey(a)[|RECORD_PREFIX|..];
  }

  /** `POST(req)`; `body` is `Err(message)` when the JSON cannot be read, `build` is `buildSetInvoiceTransaction`. */
  function Post<T>(body: Result<EnsInvoiceBody>, build: (string, InvoiceData) -> Result<T>): (r: WriteReply<T>)
    ensures body.Err? ==> r == WriteFailure(500, body.message)
    ensures body.Ok? && (!Truthy(body.value.ensName) || body.value.invoice.None?
                         || body.value.invoice.value.id == "" || body.value.invoice.value.amount == "") ==>
              r == WriteFailure(400, "Missing required fields: ensName, invoice.id, invoice.amount")
    ensures body.Ok? && Truthy(body.value.ensName) && body.value.invoice.Some?
            && body.value.invoice.value.id != "" && body.value.invoice.value.amount != "" ==>
              var built := build(body.value.ensName.value, body.value.invoice.value);
              && (built.Err? ==> r == WriteFailure(500, built.message))
              && (built.Ok? ==> r.Built? && r.txData == built.value)
    ensures r.Built? ==>
              && body.Ok? && body.value.invoice.Some?
              && build(body.value.ensName.value, body.value.invoice.value) == Ok(r.txData)
              && r.message == "Store invoice " + body.value.invoice.value.id + " in ENS record: "
                              + RecordKey(body.value.invoice.value.id)
  {
    match body
    case Err(message) => WriteFailure(500, message)
    case Ok(b) =>
      if !Truthy(b.ensName) || b.invoice.None? || b.invoice.value.id == "" || b.invoice.value.amount == "" then
        WriteFailure(400, "Missing required fields: ensName, invoice.id, invoice.amount")
      else match build(b.ensName.value, b.invoice.value)
        case Err(message) => WriteFailure(500, message)
        case Ok(txData) =>
          Built(txData, "Store invoice " + b.invoice.value.id + " in ENS record: " + RecordKey(b.invoice.value.id))
  }

  /**
   * `GET(req)` with query parameters `ensName` and `id`; `lookup` is
   * `getInvoiceFromENS`, `Ok(None)` when there is no record.
   */
  function Get<R>(ensName: Option<string>, id: Option<string>, lookup: (string, string) -> Result<Option<R>>): (r: ReadReply<R>)
    ensures !Truthy(ensName) || !Truthy(id) ==> r == ReadFailure(400, "Missing required params: ensName, id")
    ensures Truthy(ensName) && Truthy(id) ==>
              match lookup(ensName.value, id.value)
              case Err(message) => r == ReadFailure(500, message)
              case Ok(None) => r == NotFound("Invoice not found in ENS") && r.Status() == 404 && !r.IsVerified()
              case Ok(Some(record)) =>
                r == Verified(record, ensName.value, id.value, RecordKey(id.value)) && r.Status() == 200
  {
    if !Truthy(ensName) || !Truthy(id) then ReadFailure(400, "Missing required params: ensName, id")
    else match lookup(ensName.value, id.value)
      case Err(message) => ReadFailure(500, message)
      case Ok(None) => NotFound("Invoice not found in ENS")
      case Ok(Some(record)) => Verified(record, ensName.value, id.value, RecordKey(id.value))
  }

  /** A `GET` that finds an invoice reports the very record key its `POST` announced. */
  lemma WriteThenReadAgree<T, R>(ensName: string, invoice: InvoiceData, build: (string, InvoiceData) -> Result<T>,
                                 lookup: (string, string) -> Result<Option<R>>)
    requires Post(Ok(EnsInvoiceBody(Some(ensName), Some(invoice))), build).Built?
    requires Get(Some(ensName), Some(invoice.id), lookup).Verified?
    ensures EndsWith(Post(Ok(EnsInvoiceBody(Some(ensName), Some(invoice))), build).message,
                     Get(Some(ensName), Some(invoice.id), lookup).recordKey)
  {
    var key := RecordKey(invoice.id);
    var msg := Post(Ok(EnsInvoiceBody(Some(ensName), Some(invoice))), build).message;
    assert msg == ("Store invoice " + invoice.id + " in ENS record: ") + key;
    assert msg[|msg| - |key|..] == key;
  }
}
