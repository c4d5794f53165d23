/**
 * The Stripe webhook: a verified event changes at most one user's billing columns.
 * Signature verification, the subscription lookup and the database are inputs.
 */
module StripeWebhook {
  import opened Wrappers
  import opened Seqs
  import opened Domain

  /** A user's billing columns: `plan`, `planExpiryDate` (milliseconds) and `stripeSubscriptionId`. */
  datatype BillingRecord = BillingRecord(userId: string, plan: Plan, expiry: Option<int>, subscriptionId: Option<string>)

  /** `event.data.object`: its own `id`, `metadata.userId` and the `subscription` reference. */
  datatype EventObject = EventObject(id: string, metadataUserId: Option<string>, subscription: Option<string>)

  datatype Event = Event(kind: string, dataObject: EventObject)

  /** A retrieved subscription; `currentPeriodEnd` is in seconds, as Stripe sends it. */
  datatype Subscription = Subscription(id: string, currentPeriodEnd: int)

  /** The HTTP status answered and the user table afterwards. */
  datatype WebhookResult = WebhookResult(status: int, users: seq<BillingRecord>)

  const CheckoutCompleted: string := "checkout.session.completed"
  const PaymentSucceeded: string := "invoice.payment_succeeded"
  const SubscriptionDeleted: string := "customer.subscription.deleted"

  /** The expiry a subscription period grants: its end, converted to milliseconds. */
  function PeriodEndMs(sub: Subscription): int {
    sub.currentPeriodEnd * MsPerSecond
  }

  /** The table is unchanged except possibly at position `i`. */
  predicate OnlyChanged(before: seq<BillingRecord>, after: seq<BillingRecord>, i: nat) {
    |after| == |before| && forall j | 0 <= j < |before| && j != i :: after[j] == before[j]
  }

  /** The first user with the given id. */
  function UserById(users: seq<BillingRecord>, id: string): Option<nat> {
    FirstIndex(users, (u: BillingRecord) => u.userId == id)
  }

  /** The first user holding the given subscription. */
  function UserBySubscription(users: seq<BillingRecord>, subscriptionId: string): Option<nat> {
    FirstIndex(users, (u: BillingRecord) => u.subscriptionId == Some(subscriptionId))
  }

  /**
   * `POST`. `verified` is `None` when `constructEvent` rejects the signature; `retrieved` is
   * `None` when `subscriptions.retrieve` throws. An update that matches no user throws, which
   * the route does not catch: the framework answers 500.
   */
  function HandleWebhook(verified: Option<Event>, retrieved: Option<Subscription>, users: seq<BillingRecord>): (r: WebhookResult)
    ensures r.status in {200, 400, 500}
    ensures r.status != 200 ==> r.users == users
    ensures verified.None? ==> r.status == 400
    ensures verified.Some? && verified.value.kind !in {CheckoutCompleted, PaymentSucceeded, SubscriptionDeleted} ==>
              r == WebhookResult(200, users)
    // checkout.session.completed: the subscription is retrieved before metadata.userId is checked
    ensures verified.Some? && verified.value.kind == CheckoutCompleted && retrieved.None? ==> r.status == 500
    ensures (verified.Some? && verified.value.kind == CheckoutCompleted && retrieved.Some?
             && !Truthy(verified.value.dataObject.metadataUserId)) ==> r.status == 400
    ensures (verified.Some? && verified.value.kind == CheckoutCompleted && retrieved.Some?
             && Truthy(verified.value.dataObject.metadataUserId)) ==>
              && r.status in {200, 500}
              && (r.status == 200 <==> UserById(users, verified.value.dataObject.metadataUserId.value).Some?)
    ensures verified.Some? && verified.value.kind == CheckoutCompleted && r.status == 200 ==>
              && retrieved.Some? && Truthy(verified.value.dataObject.metadataUserId)
              && UserById(users, verified.value.dataObject.metadataUserId.value).Some?
              && var i := UserById(users, verified.value.dataObject.metadataUserId.value).value;
                 && OnlyChanged(users, r.users, i)
                 && r.users[i].userId == verified.value.dataObject.metadataUserId.value
                 && r.users[i].plan == Pro
                 && r.users[i].subscriptionId == Some(retrieved.value.id)
                 && r.users[i].expiry == Some(retrieved.value.currentPeriodEnd * 1000)
    // invoice.payment_succeeded: only the subscriber's expiry moves
    ensures verified.Some? && verified.value.kind == PaymentSucceeded ==>
              && r.status in {200, 500}
              && (r.status == 200 <==> retrieved.Some? && UserBySubscription(users, retrieved.value.id).Some?)
    ensures verified.Some? && verified.value.kind == PaymentSucceeded && r.status == 200 ==>
              && retrieved.Some? && UserBySubscription(users, retrieved.value.id).Some?
              && var i := UserBySubscription(users, retrieved.value.id).value;
                 && OnlyChanged(users, r.users, i)
                 && r.users[i].subscriptionId == Some(retrieved.value.id)
                 && r.users[i] == users[i].(expiry := Some(retrieved.value.currentPeriodEnd * 1000))
    // customer.subscription.deleted: the subscriber goes back to starter with nothing left
    ensures verified.Some? && verified.value.kind == SubscriptionDeleted ==>
              && r.status in {200, 500}
              && (r.status == 200 <==> UserBySubscription(users, verified.value.dataObject.id).Some?)
    ensures verified.Some? && verified.value.kind == SubscriptionDeleted && r.status == 200 ==>
              && UserBySubscription(users, verified.value.dataObject.id).Some?
              && var i := UserBySubscription(users, verified.value.dataObject.id).value;
                 && OnlyChanged(users, r.users, i)
                 && users[i].subscriptionId == Some(verified.value.dataObject.id)
                 && r.users[i] == BillingRecord(users[i].userId, Starter, None, None)
  {
    match verified
    case None => WebhookResult(400, users)
    case Some(event) =>
      if event.kind == CheckoutCompleted then
        match retrieved
        case None => WebhookResult(500, users)
        case Some(sub) =>
          if !Truthy(event.dataObject.metadataUserId) then WebhookResult(400, users)
          else
            match UserById(users, event.dataObject.metadataUserId.value)
            case None => WebhookResult(500, users)
            case Some(i) =>
              var upgraded := users[i].(subscriptionId := Some(sub.id), plan := Pro, expiry := Some(PeriodEndMs(sub)));
              WebhookResult(200, users[i := upgraded])
      else if event.kind == PaymentSucceeded then
        match retrieved
        case None => WebhookResult(500, users)
        case Some(sub) =>
          match UserBySubscription(users, sub.id)
          case None => WebhookResult(500, users)
          case Some(i) => WebhookResult(200, users[i := users[i].(expiry := Some(PeriodEndMs(sub)))])
      else if event.kind == SubscriptionDeleted then
        match UserBySubscription(users, event.dataObject.id)
        case None => WebhookResult(500, users)
        case Some(i) =>
          WebhookResult(200, users[i := users[i].(plan := Starter, expiry := None, subscriptionId := None)])
      else WebhookResult(200, users)
  }

  /** After a cancellation no user holds the cancelled subscription any more, if ids were unique. */
  lemma {:induction false} CancelReleasesSubscription(event: Event, retrieved: Option<Subscription>, users: seq<BillingRecord>)
    requires event.kind == SubscriptionDeleted
    requires forall i, j | 0 <= i < j < |users| && users[i].subscriptionId.Some? :: users[i].subscriptionId != users[j].subscriptionId
    ensures var r := HandleWebhook(Some(event), retrieved, users);
            r.status == 200 ==> forall j | 0 <= j < |r.users| :: r.users[j].subscriptionId != Some(event.dataObject.id)
  {
    var r := HandleWebhook(Some(event), retrieved, users);
    if r.status == 200 {
      var i := UserBySubscription(users, event.dataObject.id).value;
      forall j | 0 <= j < |r.users|
        ensures r.users[j].subscriptionId != Some(event.dataObject.id)
      {
        if j < i {
          assert users[j].subscriptionId != Some(event.dataObject.id);
        } else if j > i {
          assert users[i].subscriptionId.Some?;
          assert users[i].subscriptionId != users[j].subscriptionId;
        }
      }
    }
  }
}
