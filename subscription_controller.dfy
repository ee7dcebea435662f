/** The decisions of backend/src/controllers/subscriptionController.ts. The provider's API calls
    (customer creation, checkout and portal sessions, retrieval, cancellation) and the webhook
    signature check are parameters: the result each call would return. */
module SubscriptionController {
  import opened Wrappers
  import opened Types
  import opened Seqs
  import opened Store
  import UserModel
  import SubscriptionModel
  import StripeService

  // The messages of its replies.
  const CheckoutCreated := "Checkout session created successfully"
  const CheckoutFailed := "Failed to create checkout session"
  const PortalCreated := "Billing portal session created successfully"
  const PortalFailed := "Failed to create billing portal session"
  const NoSubscriptionForUser := "No subscription found for this user"
  const NoSubscriptionFound := "No subscription found"
  const SubscriptionCancelled := "Subscription cancelled successfully"
  const CancelFailed := "Failed to cancel subscription"
  const StatusRetrieved := "Subscription status retrieved successfully"
  const StatusFailed := "Failed to get subscription status"
  const UserNotFound := "User not found"
  const WebhookProcessed := "Webhook processed successfully"
  const WebhookFailed := "Webhook processing failed"
  const SignatureFailed := "Webhook signature verification failed"

  // ---- handleWebhook ----

  /** `handleWebhook`, given the signature check's verdict: the event it verified, or None. */
  function Webhook(us: seq<User>, rs: seq<SubscriptionRecord>, verified: Option<StripeEvent>, fetch: StripeService.Fetch)
    : (Reply, seq<User>, seq<SubscriptionRecord>)
  {
    match verified
    case None => (Reply(400, SignatureFailed), us, rs)
    case Some(ev) =>
      var R := StripeService.Reconcile(us, rs, ev, fetch);
      if R.outcome.Completed? then (Reply(200, WebhookProcessed), R.users, R.records)
      else (Reply(500, WebhookFailed), R.users, R.records)
  }

  /** A request whose signature does not verify gets 400 and never reaches the reconciler. A
      verified event gets 200 exactly when its handler completes and 500 when it throws; either
      way the collections are what the handler left. */
  lemma WebhookReplies(us: seq<User>, rs: seq<SubscriptionRecord>, verified: Option<StripeEvent>, fetch: StripeService.Fetch)
    ensures verified.None? ==> Webhook(us, rs, verified, fetch) == (Reply(400, SignatureFailed), us, rs)
    ensures verified.Some? ==>
      var R := StripeService.Reconcile(us, rs, verified.value, fetch);
      && Webhook(us, rs, verified, fetch).1 == R.users && Webhook(us, rs, verified, fetch).2 == R.records
      && (Webhook(us, rs, verified, fetch).0.status == 200 <==> R.outcome.Completed?)
      && (Webhook(us, rs, verified, fetch).0.status == 500 <==> R.outcome.Threw?)
  {
  }

  /** A redelivered webhook leaves the collections as the first delivery did and gets the same reply. */
  lemma WebhookRedelivery(us: seq<User>, rs: seq<SubscriptionRecord>, ev: StripeEvent, fetch: StripeService.Fetch)
    ensures
      var (r1, us1, rs1) := Webhook(us, rs, Some(ev), fetch);
      Webhook(us1, rs1, Some(ev), fetch) == (r1, us1, rs1)
  {
    StripeService.ReconcileIdempotent(us, rs, ev, fetch);
  }

  /** The webhook keeps every stored user valid. */
  lemma WebhookKeepsValidUsers(us: seq<User>, rs: seq<SubscriptionRecord>, verified: Option<StripeEvent>,
                               fetch: StripeService.Fetch, emailPattern: string -> bool)
    requires UniqueUsers(us) && SubscriptionModel.UniqueRecords(rs) && ValidUsers(us, emailPattern)
    ensures ValidUsers(Webhook(us, rs, verified, fetch).1, emailPattern)
  {
    if verified.Some? {
      StripeService.ReconcileKeepsValidUsers(us, rs, verified.value, fetch, emailPattern);
    }
  }

  method HandleWebhook(db: Database, verified: Option<StripeEvent>, fetch: StripeService.Fetch) returns (reply: Reply)
    requires db.Valid()
    modifies db
    ensures db.Valid()
    ensures Webhook(old(db.users), old(db.records), verified, fetch) == (reply, db.users, db.records)
    ensures db.lessons == old(db.lessons) && db.nextId == old(db.nextId)
  {
    if verified.None? {
      return Reply(400, SignatureFailed);
    }
    var o := StripeService.HandleWebhookEvent(db, verified.value, fetch);
    if o.Completed? {
      reply := Reply(200, WebhookProcessed);
    } else {
      reply := Reply(500, WebhookFailed);
    }
  }

  // ---- createCheckoutSession ----

  /** The customer id on a snapshot, when it is truthy. */
  function CustomerIdOf(sub: Option<Snapshot>): Option<string> {
    if sub.Some? && sub.value.stripeCustomerId.Some? && sub.value.stripeCustomerId.value != "" then sub.value.stripeCustomerId
    else None
  }

  /** The snapshot written when a customer is created: the new id, and the rest as it was, with
      'inactive' when there was no snapshot at all. */
  function WithCustomer(sub: Option<Snapshot>, customerId: string): (s: Snapshot)
    ensures s.stripeCustomerId == Some(customerId)
    ensures sub.Some? ==> s.status == sub.value.status && s.stripeSubscriptionId == sub.value.stripeSubscriptionId
                          && s.currentPeriodEnd == sub.value.currentPeriodEnd
    ensures sub.None? ==> s == Snapshot(Inactive, Some(customerId), None, None)
  {
    match sub
    case None => Snapshot(Inactive, Some(customerId), None, None)
    case Some(s) => s.(stripeCustomerId := Some(customerId))
  }

  /** `createCheckoutSession` for the authenticated `user`; `newCustomer` is what creating a
      customer returns and `session` what creating the checkout session returns. */
  function Checkout(us: seq<User>, user: PublicUser, newCustomer: Result<string>, session: Result<string>): (Reply, seq<User>) {
    if CustomerIdOf(user.subscription).Some? then
      if session.Ok? then (Reply(200, CheckoutCreated), us)
      else (Reply(500, CheckoutFailed), us)
    else if newCustomer.Err? then (Reply(500, CheckoutFailed), us)
    else match FirstIndex(us, ById(user.id))
      case None => (Reply(404, UserNotFound), us)
      case Some(i) =>
        var us' := us[i := us[i].(subscription := Some(WithCustomer(us[i].subscription, newCustomer.value)))];
        if session.Ok? then (Reply(200, CheckoutCreated), us')
        else (Reply(500, CheckoutFailed), us')
  }

  /** A user who already has a customer id creates no customer (the result of creating one is
      never used) and writes nothing. */
  lemma CheckoutWithCustomerWritesNothing(us: seq<User>, user: PublicUser, c1: Result<string>, c2: Result<string>, session: Result<string>)
    requires CustomerIdOf(user.subscription).Some?
    ensures Checkout(us, user, c1, session) == Checkout(us, user, c2, session)
    ensures Checkout(us, user, c1, session).1 == us
  {
  }

  /** A user without one gets the new customer id stored, with status, subscription id and
      period end preserved; the write happens whether or not the session is then created. */
  lemma CheckoutStoresCustomer(us: seq<User>, user: PublicUser, c: string, session: Result<string>)
    requires CustomerIdOf(user.subscription).None? && UniqueUsers(us)
    requires exists k :: 0 <= k < |us| && us[k].id == user.id
    ensures
      var k := FirstIndex(us, ById(user.id)).value;
      var us' := Checkout(us, user, Ok(c), session).1;
      && |us'| == |us| && us'[k] == us[k].(subscription := us'[k].subscription)
      && us'[k].subscription == Some(WithCustomer(us[k].subscription, c))
      && CustomerIdOf(us'[k].subscription) == (if c == "" then None else Some(c))
      && forall j :: 0 <= j < |us| && j != k ==> us'[j] == us[j]
  {
    var k :| 0 <= k < |us| && us[k].id == user.id;
    FindByIdUnique(us, k);
  }

  /** Checkout changes at most one snapshot, and keeps every stored user valid. */
  lemma CheckoutKeepsValidUsers(us: seq<User>, user: PublicUser, newCustomer: Result<string>, session: Result<string>,
                                emailPattern: string -> bool)
    requires ValidUsers(us, emailPattern)
    ensures ValidUsers(Checkout(us, user, newCustomer, session).1, emailPattern)
  {
    if CustomerIdOf(user.subscription).None? && newCustomer.Ok? {
      match FirstIndex(us, ById(user.id))
      case None =>
      case Some(i) =>
        var u := us[i].(subscription := Some(WithCustomer(us[i].subscription, newCustomer.value)));
        assert UserModel.ValidationErrors(u, emailPattern) == UserModel.ValidationErrors(us[i], emailPattern) == [];
        ValidUsersAfterWrite(us, i, u, emailPattern);
    }
  }

  method CreateCheckoutSession(db: Database, user: PublicUser, newCustomer: Result<string>, session: Result<string>) returns (reply: Reply)
    requires db.Valid()
    modifies db
    ensures db.Valid()
    ensures Checkout(old(db.users), user, newCustomer, session) == (reply, db.users)
    ensures db.records == old(db.records) && db.lessons == old(db.lessons) && db.nextId == old(db.nextId)
  {
    var customerId := CustomerIdOf(user.subscription);
    if customerId.None? {
      if newCustomer.Err? {
        return Reply(500, CheckoutFailed);
      }
      var found := FirstIndex(db.users, ById(user.id));
      if found.None? {
        return Reply(404, UserNotFound);
      }
      var i := found.value;
      var u := db.users[i].(subscription := Some(WithCustomer(db.users[i].subscription, newCustomer.value)));
      UniqueUsersAfterWrite(db.users, i, u);
      db.users := db.users[i := u];
    }
    if session.Err? {
      return Reply(500, CheckoutFailed);
    }
    reply := Reply(200, CheckoutCreated);
  }

  // ---- createBillingPortalSession, getSubscriptionStatus, cancelSubscription ----

  /** `createBillingPortalSession`; `portal` is what creating the portal session returns. */
  function BillingPortal(user: PublicUser, portal: Result<string>): (r: Reply)
    ensures CustomerIdOf(user.subscription).None? ==> r == Reply(400, NoSubscriptionForUser)
    ensures r.status == 200 <==> CustomerIdOf(user.subscription).Some? && portal.Ok?
  {
    if CustomerIdOf(user.subscription).None? then Reply(400, NoSubscriptionForUser)
    else if portal.Err? then Reply(500, PortalFailed)
    else Reply(200, PortalCreated)
  }

  /** The subscription id on a snapshot, when it is truthy. */
  function SubscriptionIdOf(sub: Option<Snapshot>): Option<string> {
    if sub.Some? && sub.value.stripeSubscriptionId.Some? && sub.value.stripeSubscriptionId.value != "" then sub.value.stripeSubscriptionId
    else None
  }

  /** The `data` of a status report. */
  datatype StatusReport =
    | NoSubscription
    | Details(id: string, status: string, currentPeriodStart: Millis, currentPeriodEnd: Millis,
              cancelAtPeriodEnd: Option<bool>, localStatus: Option<string>, isActive: bool)

  /** `getSubscriptionStatus`: the provider's view, the local record's status and the backend's
      own entitlement check. */
  function SubscriptionStatus(user: PublicUser, rs: seq<SubscriptionRecord>, fetch: StripeService.Fetch, nowMs: Millis): (r: (Reply, Option<StatusReport>))
    ensures SubscriptionIdOf(user.subscription).None? ==> r == (Reply(200, NoSubscriptionFound), Some(NoSubscription))
    ensures r.1.Some? && r.1.value.Details? ==>
              && SubscriptionIdOf(user.subscription).Some?
              && r.1.value.isActive == UserModel.HasActiveSubscription(user.subscription, nowMs)
              && r.1.value.localStatus == (match FirstIndex(rs, OfUser(user.id)) case None => None case Some(k) => Some(rs[k].status))
    ensures r.0.status == 500 <==> SubscriptionIdOf(user.subscription).Some? && fetch(SubscriptionIdOf(user.subscription).value).None?
  {
    match SubscriptionIdOf(user.subscription)
    case None => (Reply(200, NoSubscriptionFound), Some(NoSubscription))
    case Some(sid) =>
      match fetch(sid)
      case None => (Reply(500, StatusFailed), None)
      case Some(s) =>
        var local := match FirstIndex(rs, OfUser(user.id)) case None => None case Some(k) => Some(rs[k].status);
        (Reply(200, StatusRetrieved),
         Some(Details(s.id, s.status, StripeService.Ms(s.currentPeriodStart), StripeService.Ms(s.currentPeriodEnd),
                      s.cancelAtPeriodEnd, local, UserModel.HasActiveSubscription(user.subscription, nowMs))))
  }

  /** `cancelSubscription`; `cancelled` is what requesting cancellation at period end returns. It
      writes nothing itself: the local snapshot changes only when the provider's webhook arrives. */
  function CancelSubscription(user: PublicUser, cancelled: Result<StripeSubscription>): (r: (Reply, Option<(Option<bool>, Millis)>))
    ensures SubscriptionIdOf(user.subscription).None? ==> r == (Reply(400, NoSubscriptionForUser), None)
    ensures r.0.status == 200 <==> SubscriptionIdOf(user.subscription).Some? && cancelled.Ok?
    ensures r.0.status == 200 ==> r.1 == Some((cancelled.value.cancelAtPeriodEnd, StripeService.Ms(cancelled.value.currentPeriodEnd)))
  {
    if SubscriptionIdOf(user.subscription).None? then (Reply(400, NoSubscriptionForUser), None)
    else if cancelled.Err? then (Reply(500, CancelFailed), None)
    else (Reply(200, SubscriptionCancelled),
          Some((cancelled.value.cancelAtPeriodEnd, StripeService.Ms(cancelled.value.currentPeriodEnd))))
  }
}
