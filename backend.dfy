/** What the components send to the hosted backend and what they get back from it.
    The backend's tables and stored procedures are not modelled: every call is an
    outcome passed in by the caller, and every request is a value handed out. */
module Backend {
  import opened Wrappers

  /** The signed-in user as the auth client reports it. */
  datatype User = User(id: string)

  /** A column value of a loosely typed row. */
  datatype Value = Null | Flag(b: bool) | Num(n: real) | Text(s: string) | Texts(items: seq<string>)

  /** A row as the generic `db` helpers pass it around: column name to value. */
  type Row = map<string, Value>

  /** Calls of the backend's remote procedures, with the arguments the client passes. */
  datatype Rpc =
    | ConsumeTokens(userId: string, seconds: real)
    | PurchaseTokens(userId: string, amount: real, paymentId: string)
    | ActivateSubscription(userId: string, planType: string, stripeSubscriptionId: string, stripeCustomerId: string)
    | GrantRegistrationBonus(userId: string, deviceFingerprint: string)

  /** The JSON object a remote procedure returns (`{ success, error? }`). */
  datatype RpcData = RpcData(success: bool, error: Option<string>)

  /** An awaited `supabase.rpc(...)` whose error is rethrown: it returned data
      (possibly `null`), or it failed with a message (an error result or a rejection). */
  datatype RpcReply = Returned(data: Option<RpcData>) | Failed(message: string)

  /** An awaited helper of the generic `db` object: the selected rows, `null`, or a thrown error. */
  datatype DbReply = DbRows(rows: seq<Row>) | DbNull | DbFailed(message: string)

  /** An awaited update whose `{ error }` is checked. */
  datatype WriteReply = WriteOk | WriteFailed(message: string)

  /** A `user_tokens` row as selected: either column may be `null`. */
  datatype TokenRow = TokenRow(permanentTokens: Option<real>, resettableTokens: Option<real>)

  /** The error object the hooks return without calling the backend. */
  const NO_USER_ID := "No user ID"

  function Failure(message: string): RpcData {
    RpcData(false, Some(message))
  }
}
