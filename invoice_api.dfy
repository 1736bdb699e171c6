/**
 * The invoice endpoint (src/app/api/invoice/route.ts): an in-memory map of
 * invoices that `POST` creates, `GET` reads (expiring an overdue pending
 * invoice on the way) and `PATCH` marks paid. Times are milliseconds since
 * the epoch; the clock and `randomUUID().slice(0, 8)` are parameters.
 */
module InvoiceApi {
  import opened Wrappers
  import opened Strings

  const MS_PER_HOUR := 60 * 60 * 1000

  datatype Status = Pending | Paid | Expired

  datatype Invoice = Invoice(
    id: string,
    receiverAddress: string,
    receiverEns: Option<string>,
    amount: string,
    token: string,
    memo: Option<string>,
    status: Status,
    createdAt: int,
    paidAt: Option<int>,
    paidTxHash: Option<string>,
    expiresAt: Option<int>)

  /** The fields of a `POST` body; `None` stands for a missing field. */
  datatype CreateBody = CreateBody(
    receiverAddress: Option<string>, receiverEns: Option<string>, amount: Option<string>,
    token: Option<string>, memo: Option<string>, expiresInHours: Option<int>)

  /** The fields of a `PATCH` body. */
  datatype PatchBody = PatchBody(id: Option<string>, status: Option<string>, txHash: Option<string>)

  /** The JSON response: the invoice (status 200) or `{ error }` with its status. */
  datatype Reply = Found(invoice: Invoice) | Failure(status: nat, error: string)

  /** The status changes the endpoint can make. */
  predicate Allowed(from: Status, to: Status) {
    from == to || (from == Pending && to == Expired) || (from != Paid && to == Paid)
  }

  /** Everything but the status and the payment fields. */
  predicate SameTerms(a: Invoice, b: Invoice) {
    && a.id == b.id && a.receiverAddress == b.receiverAddress && a.receiverEns == b.receiverEns
    && a.amount == b.amount && a.token == b.token && a.memo == b.memo
    && a.createdAt == b.createdAt && a.expiresAt == b.expiresAt
  }

  /**
   * How a stored map may evolve: no invoice disappears, terms never change,
   * statuses move only along `Allowed`, and a paid invoice stays exactly as
   * it is.
   */
  predicate Evolves(before: map<string, Invoice>, after: map<string, Invoice>) {
    forall k :: k in before ==>
      && k in after
      && SameTerms(before[k], after[k])
      && Allowed(before[k].status, after[k].status)
      && (before[k].status == Paid ==> after[k] == before[k])
  }

  // ---- GET ----

  /** The expiry check of `GET`: strictly past `expiresAt`, and only while pending. */
  function Expire(inv: Invoice, now: int): (r: Invoice)
    ensures SameTerms(inv, r) && r.paidAt == inv.paidAt && r.paidTxHash == inv.paidTxHash
    ensures r.status == (if inv.status == Pending && inv.expiresAt.Some? && inv.expiresAt.value < now then Expired else inv.status)
  {
    if inv.expiresAt.Some? && inv.expiresAt.value < now && inv.status == Pending then inv.(status := Expired) else inv
  }

  /** `GET /api/invoice?id=…`: the reply and the map afterwards. */
  function GetStep(invoices: map<string, Invoice>, id: Option<string>, now: int): (r: (Reply, map<string, Invoice>))
    ensures !Truthy(id) ==> r == (Failure(400, "Missing invoice ID"), invoices)
    ensures Truthy(id) && id.value !in invoices ==> r == (Failure(404, "Invoice not found"), invoices)
    ensures Truthy(id) && id.value in invoices ==>
              r.1 == invoices[id.value := Expire(invoices[id.value], now)] && r.0 == Found(r.1[id.value])
  {
    if !Truthy(id) then (Failure(400, "Missing invoice ID"), invoices)
    else if id.value !in invoices then (Failure(404, "Invoice not found"), invoices)
    else
      var inv := Expire(invoices[id.value], now);
      (Found(inv), invoices[id.value := inv])
  }

  /** Reading an invoice only ever expires it, and never one that is paid or not yet overdue. */
  lemma GetEvolves(invoices: map<string, Invoice>, id: Option<string>, now: int)
    ensures Evolves(invoices, GetStep(invoices, id, now).1)
    ensures GetStep(invoices, id, now).1.Keys == invoices.Keys
    ensures forall k :: k in invoices && (invoices[k].expiresAt.None? || now <= invoices[k].expiresAt.value) ==>
              GetStep(invoices, id, now).1[k] == invoices[k]
  {
  }

  // ---- POST ----

  /** The invoice `POST` stores: pending, 'USDC' unless a token is given, and an expiry only for a non-zero hour count. */
  function NewInvoice(body: CreateBody, id: string, now: int): (inv: Invoice)
    requires Truthy(body.receiverAddress) && Truthy(body.amount)
    ensures inv.id == id && inv.status == Pending && inv.createdAt == now
    ensures inv.receiverAddress == body.receiverAddress.value && inv.amount == body.amount.value
    ensures inv.token == (if Truthy(body.token) then body.token.value else "USDC")
    ensures inv.expiresAt.Some? <==> body.expiresInHours.Some? && body.expiresInHours.value != 0
    ensures inv.expiresAt.Some? ==> inv.expiresAt.value == now + body.expiresInHours.value * MS_PER_HOUR
    ensures inv.paidAt.None? && inv.paidTxHash.None?
    ensures inv.receiverEns == body.receiverEns && inv.memo == body.memo
  {
    var expiresAt := if body.expiresInHours.Some? && body.expiresInHours.value != 0
                     then Some(now + body.expiresInHours.value * MS_PER_HOUR) else None;
    Invoice(id, body.receiverAddress.value, body.receiverEns, body.amount.value, Or(body.token, "USDC"),
            body.memo, Pending, now, None, None, expiresAt)
  }

  /** `POST /api/invoice`; `body` is `None` when the request is not a JSON object. */
  function PostStep(invoices: map<string, Invoice>, body: Option<CreateBody>, freshId: string, now: int)
    : (r: (Reply, map<string, Invoice>))
    ensures body.None? ==> r == (Failure(500, "Failed to create invoice"), invoices)
    ensures body.Some? && !(Truthy(body.value.receiverAddress) && Truthy(body.value.amount)) ==>
              r == (Failure(400, "Missing required fields: receiverAddress, amount"), invoices)
    ensures body.Some? && Truthy(body.value.receiverAddress) && Truthy(body.value.amount) ==>
              r.1 == invoices[freshId := NewInvoice(body.value, freshId, now)] && r.0 == Found(r.1[freshId])
  {
    match body
    case None => (Failure(500, "Failed to create invoice"), invoices)
    case Some(b) =>
      if !Truthy(b.receiverAddress) || !Truthy(b.amount) then
        (Failure(400, "Missing required fields: receiverAddress, amount"), invoices)
      else
        var inv := NewInvoice(b, freshId, now);
        (Found(inv), invoices[freshId := inv])
  }

  /** Creating an invoice changes nothing but its own id, and that entry is a fresh pending invoice. */
  lemma PostTouchesOnlyItsId(invoices: map<string, Invoice>, body: Option<CreateBody>, freshId: string, now: int)
    ensures var after := PostStep(invoices, body, freshId, now).1;
      && (forall k :: k in invoices && k != freshId ==> k in after && after[k] == invoices[k])
      && (after != invoices ==> freshId in after && after[freshId].status == Pending && after.Keys == invoices.Keys + {freshId})
  {
  }

  // ---- PATCH ----

  /** What `PATCH` writes: paid now, with the given transaction hash (absent if none was sent). */
  function MarkPaid(inv: Invoice, now: int, txHash: Option<string>): (r: Invoice)
    ensures SameTerms(inv, r) && r.status == Paid && r.paidAt == Some(now) && r.paidTxHash == txHash
  {
    inv.(status := Paid, paidAt := Some(now), paidTxHash := txHash)
  }

  /** `PATCH /api/invoice`; `body` is `None` when the request is not a JSON object. */
  function PatchStep(invoices: map<string, Invoice>, body: Option<PatchBody>, now: int): (r: (Reply, map<string, Invoice>))
    ensures body.None? ==> r == (Failure(500, "Failed to update invoice"), invoices)
    ensures body.Some? && !(Truthy(body.value.id) && body.value.status == Some("paid")) ==>
              r == (Failure(400, "Missing id or invalid status (only \"paid\" supported)"), invoices)
    ensures body.Some? && Truthy(body.value.id) && body.value.status == Some("paid") ==>
              var id := body.value.id.value;
              if id !in invoices then r == (Failure(404, "Invoice not found"), invoices)
              else if invoices[id].status == Paid then r == (Failure(400, "Invoice already paid"), invoices)
              else r.1 == invoices[id := MarkPaid(invoices[id], now, body.value.txHash)] && r.0 == Found(r.1[id])
  {
    match body
    case None => (Failure(500, "Failed to update invoice"), invoices)
    case Some(b) =>
      if !Truthy(b.id) || b.status != Some("paid") then
        (Failure(400, "Missing id or invalid status (only \"paid\" supported)"), invoices)
      else if b.id.value !in invoices then (Failure(404, "Invoice not found"), invoices)
      else if invoices[b.id.value].status == Paid then (Failure(400, "Invoice already paid"), invoices)
      else
        var inv := MarkPaid(invoices[b.id.value], now, b.txHash);
        (Found(inv), invoices[b.id.value := inv])
  }

  /** Marking paid keeps every invoice on its lifecycle; an expired invoice can still be paid. */
  lemma PatchEvolves(invoices: map<string, Invoice>, body: Option<PatchBody>, now: int)
    ensures Evolves(invoices, PatchStep(invoices, body, now).1)
    ensures PatchStep(invoices, body, now).1.Keys == invoices.Keys
  {
  }

  /** Once paid, neither a read nor a second payment changes an invoice. */
  lemma {:induction false} PaidIsFinal(invoices: map<string, Invoice>, k: string, requests: seq<StoreRequest>)
    requires k in invoices && invoices[k].status == Paid
    ensures var after := Serve(invoices, requests);
      k in after && after[k] == invoices[k]
  {
    ServeEvolves(invoices, requests);
  }

  /** A request that can change a stored invoice: a `GET` (with its expiry check) or a `PATCH`. */
  datatype StoreRequest = Read(id: Option<string>, now: int) | Pay(body: Option<PatchBody>, now: int)

  /** The map after a series of reads and payments, in any interleaving. */
  function Serve(invoices: map<string, Invoice>, requests: seq<StoreRequest>): map<string, Invoice> {
    if |requests| == 0 then invoices
    else
      var next := match requests[0]
        case Read(id, now) => GetStep(invoices, id, now).1
        case Pay(body, now) => PatchStep(invoices, body, now).1;
      Serve(next, requests[1..])
  }

  /** Any interleaving of reads and payments is an allowed evolution. */
  lemma {:induction false} ServeEvolves(invoices: map<string, Invoice>, requests: seq<StoreRequest>)
    ensures Evolves(invoices, Serve(invoices, requests))
  {
    if |requests| > 0 {
      var next;
      match requests[0] {
        case Read(id, now) =>
          next := GetStep(invoices, id, now).1;
          GetEvolves(invoices, id, now);
        case Pay(body, now) =>
          next := PatchStep(invoices, body, now).1;
          PatchEvolves(invoices, body, now);
      }
      ServeEvolves(next, requests[1..]);
      EvolvesTransitive(invoices, next, Serve(invoices, requests));
    }
  }

  /** The map after a series of reads. */
  function Lookups(invoices: map<string, Invoice>, lookups: seq<(Option<string>, int)>): map<string, Invoice> {
    if |lookups| == 0 then invoices else Lookups(GetStep(invoices, lookups[0].0, lookups[0].1).1, lookups[1..])
  }

  /** The map after a series of payments. */
  function Patches(invoices: map<string, Invoice>, patches: seq<(Option<PatchBody>, int)>): map<string, Invoice> {
    if |patches| == 0 then invoices else Patches(PatchStep(invoices, patches[0].0, patches[0].1).1, patches[1..])
  }

  lemma EvolvesTransitive(a: map<string, Invoice>, b: map<string, Invoice>, c: map<string, Invoice>)
    requires Evolves(a, b) && Evolves(b, c)
    ensures Evolves(a, c)
  {
    forall k | k in a
      ensures k in c && SameTerms(a[k], c[k]) && Allowed(a[k].status, c[k].status)
    {
      assert k in b;
    }
  }

  lemma {:induction false} LookupsEvolve(invoices: map<string, Invoice>, lookups: seq<(Option<string>, int)>)
    ensures Evolves(invoices, Lookups(invoices, lookups))
  {
    if |lookups| > 0 {
      var next := GetStep(invoices, lookups[0].0, lookups[0].1).1;
      GetEvolves(invoices, lookups[0].0, lookups[0].1);
      LookupsEvolve(next, lookups[1..]);
      EvolvesTransitive(invoices, next, Lookups(invoices, lookups));
    }
  }

  lemma {:induction false} PatchesEvolve(invoices: map<string, Invoice>, patches: seq<(Option<PatchBody>, int)>)
    ensures Evolves(invoices, Patches(invoices, patches))
  {
    if |patches| > 0 {
      var next := PatchStep(invoices, patches[0].0, patches[0].1).1;
      PatchEvolves(invoices, patches[0].0, patches[0].1);
      PatchesEvolve(next, patches[1..]);
      EvolvesTransitive(invoices, next, Patches(invoices, patches));
    }
  }

  // ---- the store ----

  /** The module-level `invoices` map and its three handlers. */
  class InvoiceStore {
    var invoices: map<string, Invoice>

    constructor()
      ensures invoices == map[]
    {
      invoices := map[];
    }

    method Get(id: Option<string>, now: int) returns (reply: Reply)
      modifies this
      ensures (reply, invoices) == GetStep(old(invoices), id, now)
      ensures Evolves(old(invoices), invoices)
    {
      if !Truthy(id) {
        return Failure(400, "Missing invoice ID");
      }
      if id.value !in invoices {
        return Failure(404, "Invoice not found");
      }
      var invoice := invoices[id.value];
      if invoice.expiresAt.Some? && invoice.expiresAt.value < now && invoice.status == Pending {
        invoice := invoice.(status := Expired);
        invoices := invoices[id.value := invoice];
      } else {
        assert invoices[id.value := invoice] == invoices;
      }
      GetEvolves(old(invoices), id, now);
      reply := Found(invoice);
    }

    method Post(body: Option<CreateBody>, freshId: string, now: int) returns (reply: Reply)
      modifies this
      ensures (reply, invoices) == PostStep(old(invoices), body, freshId, now)
    {
      if body.None? {
        return Failure(500, "Failed to create invoice");
      }
      var b := body.value;
      if !Truthy(b.receiverAddress) || !Truthy(b.amount) {
        return Failure(400, "Missing required fields: receiverAddress, amount");
      }
      var expiresAt := None;
      if b.expiresInHours.Some? && b.expiresInHours.value != 0 {
        expiresAt := Some(now + b.expiresInHours.value * MS_PER_HOUR);
      }
      var invoice := Invoice(freshId, b.receiverAddress.value, b.receiverEns, b.amount.value, Or(b.token, "USDC"),
                             b.memo, Pending, now, None, None, expiresAt);
      invoices := invoices[freshId := invoice];
      reply := Found(invoice);
    }

    method Patch(body: Option<PatchBody>, now: int) returns (reply: Reply)
      modifies this
      ensures (reply, invoices) == PatchStep(old(invoices), body, now)
      ensures Evolves(old(invoices), invoices)
    {
      if body.None? {
        return Failure(500, "Failed to update invoice");
      }
      var b := body.value;
      if !Truthy(b.id) || b.status != Some("paid") {
        return Failure(400, "Missing id or invalid status (only \"paid\" supported)");
      }
      var id := b.id.value;
      if id !in invoices {
        return Failure(404, "Invoice not found");
      }
      var invoice := invoices[id];
      if invoice.status == Paid {
        return Failure(400, "Invoice already paid");
      }
      invoice := invoice.(status := Paid, paidAt := Some(now), paidTxHash := b.txHash);
      invoices := invoices[id := invoice];
      PatchEvolves(old(invoices), body, now);
      reply := Found(invoice);
    }
  }
}
