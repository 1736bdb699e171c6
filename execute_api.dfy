/**
 * `POST /api/execute` (src/app/api/execute/route.ts): two input guards in
 * front of the transaction builder, which is a parameter.
 */
module ExecuteApi {
  import opened Wrappers
  import opened Strings
  import opened Types

  const MISSING_INPUT := "Missing fromAddress or intent"
  const INCOMPLETE_INTENT := "Incomplete intent: fromToken, toToken, and amount required"

  /** The request body's fields; `None` stands for a missing one. */
  datatype ExecuteBody = ExecuteBody(
    routeId: Option<string>, fromAddress: Option<string>, intent: Option<ParsedIntent>, slippage: Option<real>)

  /** The JSON response: the builder's transaction data, or `{ error }` with its status. */
  datatype ExecuteReply<T> = Prepared(txData: T) | Failure(status: nat, error: string)

  /** `getTransactionData(intent, fromAddress, slippage)`; `Err` carries the message of what it throws. */
  type Builder<T> = (ParsedIntent, string, Option<real>) -> Result<T>

  /**
   * `POST(req)`; `body` is `Err(message)` when the JSON cannot be read.
   * The guards run in order, and only a request passing both reaches the
   * builder.
   */
  function Post<T>(body: Result<ExecuteBody>, build: Builder<T>): (r: ExecuteReply<T>)
    ensures body.Err? ==> r == Failure(500, body.message)
    ensures body.Ok? && (!Truthy(body.value.fromAddress) || body.value.intent.None?) ==> r == Failure(400, MISSING_INPUT)
    ensures body.Ok? && Truthy(body.value.fromAddress) && body.value.intent.Some? ==>
              var intent := body.value.intent.value;
              if intent.fromToken == "" || intent.toToken == "" || intent.amount == "" then r == Failure(400, INCOMPLETE_INTENT)
              else
                var built := build(intent, body.value.fromAddress.value, body.value.slippage);
                r == if built.Ok? then Prepared(built.value) else Failure(500, built.message)
  {
    match body
    case Err(message) => Failure(500, message)
    case Ok(b) =>
      if !Truthy(b.fromAddress) || b.intent.None? then Failure(400, MISSING_INPUT)
      else if b.intent.value.fromToken == "" || b.intent.value.toToken == "" || b.intent.value.amount == "" then
        Failure(400, INCOMPLETE_INTENT)
      else match build(b.intent.value, b.fromAddress.value, b.slippage)
        case Ok(txData) => Prepared(txData)
        case Err(message) => Failure(500, message)
  }

  /** The route id is accepted but plays no part in the answer. */
  lemma RouteIdIgnored<T>(b: ExecuteBody, routeId: Option<string>, build: Builder<T>)
    ensures Post(Ok(b), build) == Post(Ok(b.(routeId := routeId)), build)
  {
  }

  /** A request that fails a guard is answered without consulting the builder. */
  lemma GuardsPrecedeBuilder<T>(b: ExecuteBody, build1: Builder<T>, build2: Builder<T>)
    requires Post(Ok(b), build1).Failure? && Post(Ok(b), build1).status == 400
    ensures Post(Ok(b), build1) == Post(Ok(b), build2)
  {
  }
}
