/** The token-balance and subscription hooks: local caches of backend state that
    are refetched only after a successful mutation, and that answer with a fixed
    error, without calling the backend, when there is no user id. */
module TokenHooks {
  import opened Wrappers
  import opened Backend

  const NO_ACTIVE_SUBSCRIPTION: string := "No active subscription"
  const CANCELLED: string := "cancelled"

  datatype Tokens = Tokens(permanent: real, resettable: real, total: real)

  /** The cached balance a fetched row yields: `null` columns count as 0 and the
      total is their sum. */
  function TokensOf(row: TokenRow): (t: Tokens)
    ensures t.permanent == row.permanentTokens.GetOr(0.0)
    ensures t.resettable == row.resettableTokens.GetOr(0.0)
    ensures t.total == t.permanent + t.resettable
  {
    var permanent := row.permanentTokens.GetOr(0.0);
    var resettable := row.resettableTokens.GetOr(0.0);
    Tokens(permanent, resettable, permanent + resettable)
  }

  datatype Subscription = Subscription(id: string, userId: string, planType: string, status: string)

  /** The `subscriptions` update of a cancellation: the new status, and the user
      and subscription ids the row must match. */
  datatype StatusUpdate = StatusUpdate(userId: string, subscriptionId: string, status: string)

  /** `useTokens(userId)`. */
  class TokenCache {
    const userId: Option<string>
    var tokens: Tokens
    var loading: bool

    ghost predicate Valid()
      reads this
    {
      tokens.total == tokens.permanent + tokens.resettable
    }

    /** Mounting: an empty balance; loading ends at once when there is no user id,
        and otherwise waits for the first fetch. */
    constructor (userId: Option<string>)
      ensures Valid()
      ensures this.userId == userId && tokens == Tokens(0.0, 0.0, 0.0)
      ensures loading <==> Truthy(userId)
    {
      this.userId := userId;
      tokens := Tokens(0.0, 0.0, 0.0);
      loading := Truthy(userId);
    }

    /** `fetchTokens`: nothing without a user id; otherwise a returned row replaces
        the cache, no row leaves it, and loading ends. */
    method FetchTokens(reply: Response<TokenRow>) returns (fetched: bool)
      requires Valid()
      modifies this`tokens, this`loading
      ensures Valid()
      ensures fetched <==> Truthy(userId)
      ensures !fetched ==> unchanged(this)
      ensures fetched ==> !loading
      ensures tokens == (if fetched && reply.Resolved? && reply.data.Some?
                         then TokensOf(reply.data.value) else old(tokens))
    {
      if !Truthy(userId) {
        return false;
      }
      fetched := true;
      if reply.Resolved? && reply.data.Some? {
        tokens := TokensOf(reply.data.value);
      }
      loading := false;
    }

    /** The shared tail of `consumeTokens` and `purchaseTokens`: a failed call
        becomes `{ success: false, error: message }`; returned data is passed back
        as is, after a refetch when it reports success. */
    method AfterRpc(reply: RpcReply, refetch: Response<TokenRow>) returns (result: Option<RpcData>)
      requires Valid() && Truthy(userId)
      modifies this`tokens, this`loading
      ensures Valid()
      ensures reply.Failed? ==> result == Some(Failure(reply.message)) && unchanged(this)
      ensures reply.Returned? ==> result == reply.data
      ensures tokens == (if result.Some? && result.value.success && refetch.Resolved? && refetch.data.Some?
                         then TokensOf(refetch.data.value) else old(tokens))
      ensures !(reply.Returned? && result.Some? && result.value.success) ==> loading == old(loading)
    {
      match reply {
        case Failed(message) =>
          result := Some(Failure(message));
        case Returned(data) =>
          if data.Some? && data.value.success {
            var _ := FetchTokens(refetch);
          }
          result := data;
      }
    }

    /** `consumeTokens(seconds)`. */
    method ConsumeTokens(seconds: real, reply: RpcReply, refetch: Response<TokenRow>)
      returns (call: Option<Rpc>, result: Option<RpcData>)
      requires Valid()
      modifies this`tokens, this`loading
      ensures Valid()
      ensures !Truthy(userId) ==> call.None? && result == Some(Failure(NO_USER_ID)) && unchanged(this)
      ensures Truthy(userId) ==> call == Some(Backend.ConsumeTokens(userId.value, seconds))
      ensures Truthy(userId) && reply.Failed? ==> result == Some(Failure(reply.message))
      ensures Truthy(userId) && reply.Returned? ==> result == reply.data
      ensures tokens == (if call.Some? && result.Some? && result.value.success && refetch.Resolved? && refetch.data.Some?
                         then TokensOf(refetch.data.value) else old(tokens))
    {
      if !Truthy(userId) {
        return None, Some(Failure(NO_USER_ID));
      }
      call := Some(Backend.ConsumeTokens(userId.value, seconds));
      result := AfterRpc(reply, refetch);
    }

    /** `purchaseTokens(amount, paymentId)`. */
    method PurchaseTokens(amount: real, paymentId: string, reply: RpcReply, refetch: Response<TokenRow>)
      returns (call: Option<Rpc>, result: Option<RpcData>)
      requires Valid()
      modifies this`tokens, this`loading
      ensures Valid()
      ensures !Truthy(userId) ==> call.None? && result == Some(Failure(NO_USER_ID)) && unchanged(this)
      ensures Truthy(userId) ==> call == Some(Backend.PurchaseTokens(userId.value, amount, paymentId))
      ensures Truthy(userId) && reply.Failed? ==> result == Some(Failure(reply.message))
      ensures Truthy(userId) && reply.Returned? ==> result == reply.data
      ensures tokens == (if call.Some? && result.Some? && result.value.success && refetch.Resolved? && refetch.data.Some?
                         then TokensOf(refetch.data.value) else old(tokens))
    {
      if !Truthy(userId) {
        return None, Some(Failure(NO_USER_ID));
      }
      call := Some(Backend.PurchaseTokens(userId.value, amount, paymentId));
      result := AfterRpc(reply, refetch);
    }
  }

  /** `useSubscription(userId)`. */
  class SubscriptionCache {
    const userId: Option<string>
    var subscription: Option<Subscription>
    var loading: bool

    constructor (userId: Option<string>)
      ensures this.userId == userId && subscription.None?
      ensures loading <==> Truthy(userId)
    {
      this.userId := userId;
      subscription := None;
      loading := Truthy(userId);
    }

    /** `fetchSubscription`: the user's active subscription, or none when the
        select comes back empty; a rejection leaves the cache; loading ends. */
    method FetchSubscription(reply: Response<Subscription>) returns (fetched: bool)
      modifies this`subscription, this`loading
      ensures fetched <==> Truthy(userId)
      ensures !fetched ==> unchanged(this)
      ensures fetched ==> !loading
      ensures subscription == (if fetched && reply.Resolved? then reply.data else old(subscription))
    {
      if !Truthy(userId) {
        return false;
      }
      fetched := true;
      if reply.Resolved? {
        subscription := reply.data;
      }
      loading := false;
    }

    /** `activateSubscription(planType, stripeSubscriptionId, stripeCustomerId)`:
        refetches only when the procedure reports success. */
    method ActivateSubscription(planType: string, stripeSubscriptionId: string, stripeCustomerId: string,
                                reply: RpcReply, refetch: Response<Subscription>)
      returns (call: Option<Rpc>, result: Option<RpcData>)
      modifies this`subscription, this`loading
      ensures !Truthy(userId) ==> call.None? && result == Some(Failure(NO_USER_ID)) && unchanged(this)
      ensures Truthy(userId) ==>
                call == Some(Backend.ActivateSubscription(userId.value, planType, stripeSubscriptionId, stripeCustomerId))
      ensures Truthy(userId) && reply.Failed? ==> result == Some(Failure(reply.message))
      ensures Truthy(userId) && reply.Returned? ==> result == reply.data
      ensures subscription == (if call.Some? && result.Some? && result.value.success && refetch.Resolved?
                               then refetch.data else old(subscription))
    {
      if !Truthy(userId) {
        return None, Some(Failure(NO_USER_ID));
      }
      call := Some(Backend.ActivateSubscription(userId.value, planType, stripeSubscriptionId, stripeCustomerId));
      match reply {
        case Failed(message) =>
          result := Some(Failure(message));
        case Returned(data) =>
          if data.Some? && data.value.success {
            var _ := FetchSubscription(refetch);
          }
          result := data;
      }
    }

    /** `cancelSubscription`: without a user id or a loaded subscription it answers
        `No active subscription` and calls nothing; otherwise it marks that
        subscription of that user cancelled, and on success refetches and answers
        `{ success: true }`. */
    method CancelSubscription(updateReply: WriteReply, refetch: Response<Subscription>)
      returns (update: Option<StatusUpdate>, result: RpcData)
      modifies this`subscription, this`loading
      ensures !Truthy(userId) || old(subscription).None? ==>
                update.None? && result == Failure(NO_ACTIVE_SUBSCRIPTION) && unchanged(this)
      ensures Truthy(userId) && old(subscription).Some? ==>
                update == Some(StatusUpdate(userId.value, old(subscription).value.id, CANCELLED))
      ensures update.Some? && updateReply.WriteFailed? ==>
                result == Failure(updateReply.message) && unchanged(this)
      ensures update.Some? && updateReply.WriteOk? ==>
                result == RpcData(true, None) && !loading
                && subscription == (if refetch.Resolved? then refetch.data else old(subscription))
    {
      if !Truthy(userId) || subscription.None? {
        return None, Failure(NO_ACTIVE_SUBSCRIPTION);
      }
      update := Some(StatusUpdate(userId.value, subscription.value.id, CANCELLED));
      match updateReply {
        case WriteFailed(message) =>
          result := Failure(message);
        case WriteOk =>
          var _ := FetchSubscription(refetch);
          result := RpcData(true, None);
      }
    }
  }
}
