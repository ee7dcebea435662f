/** The webhook reconciler of backend/src/services/stripeService.ts: `handleWebhookEvent` and
    its private handlers, which copy the provider's view of a subscription into the user's
    snapshot and into the Subscription collection. Each handler is a method over the database,
    proved equal to a function of the collections it reads. */
module StripeService {
  import opened Wrappers
  import opened Types
  import opened Seqs
  import opened Store
  import opened SubscriptionModel
  import UserModel

  // The messages of its replies.
  const NoUserForSubscription := "User not found for subscription"
  const NoUserForUpdate := "User not found for subscription update"
  const NoUserForDeletion := "User not found for subscription deletion"
  const RetrieveFailed := "Failed to retrieve subscription"

  /** The event types with a handler. */
  datatype Kind = SubscriptionCreated | SubscriptionUpdated | SubscriptionDeleted | PaymentSucceeded | PaymentFailed {
    predicate OnSubscription() {
      SubscriptionCreated? || SubscriptionUpdated? || SubscriptionDeleted?
    }
  }

  /** The `switch` on `event.type`. */
  function KindOf(eventType: string): Option<Kind> {
    if eventType == "customer.subscription.created" then Some(SubscriptionCreated)
    else if eventType == "customer.subscription.updated" then Some(SubscriptionUpdated)
    else if eventType == "customer.subscription.deleted" then Some(SubscriptionDeleted)
    else if eventType == "invoice.payment_succeeded" then Some(PaymentSucceeded)
    else if eventType == "invoice.payment_failed" then Some(PaymentFailed)
    else None
  }

  /** How a handler ends: normally, or by throwing an error with this message. */
  datatype Outcome = Completed | Threw(message: string)

  /** The collections after an event, and how its handling ended. */
  datatype Reconciled = Reconciled(users: seq<User>, records: seq<SubscriptionRecord>, outcome: Outcome)

  /** `getSubscription`: the provider's current view of a subscription, None when the call fails. */
  type Fetch = string -> Option<StripeSubscription>

  const FetchFailed := RetrieveFailed
  const DuplicateKey := "E11000 duplicate key error"
  /** An invoice delivered under a subscription event type has no period end, so the handler
      throws before anything is written: the user lookup fails, or else saving the user does. */
  const NotASubscription := "Cast to date failed for value \"Invalid Date\" at path \"subscription.currentPeriodEnd\""

  /** `new Date(seconds * 1000)`. */
  function Ms(seconds: nat): Millis {
    seconds * 1000
  }

  /** The snapshot the created and updated handlers write. */
  function SnapshotOf(sub: StripeSubscription): Snapshot {
    Snapshot(if sub.status == "active" then Active else Inactive, Some(sub.customer), Some(sub.id), Some(Ms(sub.currentPeriodEnd)))
  }

  /** The snapshot the deleted handler writes. */
  function CancelledSnapshotOf(sub: StripeSubscription): Snapshot {
    Snapshot(Cancelled, Some(sub.customer), Some(sub.id), Some(Ms(sub.currentPeriodEnd)))
  }

  /** The record the created handler upserts; the provider's status is stored as it comes. */
  function RecordOf(userId: UserId, sub: StripeSubscription): SubscriptionRecord {
    SubscriptionRecord(userId, sub.customer, sub.id, sub.status, Ms(sub.currentPeriodStart), Ms(sub.currentPeriodEnd),
                       sub.cancelAtPeriodEnd.GetOr(false))
  }

  /** The fields the updated handler overwrites on an existing record. */
  function Refreshed(r: SubscriptionRecord, sub: StripeSubscription): SubscriptionRecord {
    r.(status := sub.status, currentPeriodStart := Ms(sub.currentPeriodStart), currentPeriodEnd := Ms(sub.currentPeriodEnd),
       cancelAtPeriodEnd := sub.cancelAtPeriodEnd.GetOr(false))
  }

  /** Some record other than the one at `skip` already holds the customer or subscription id. */
  predicate Collides(rs: seq<SubscriptionRecord>, skip: Option<nat>, rec: SubscriptionRecord) {
    exists j :: 0 <= j < |rs| && Some(j) != skip &&
      (rs[j].stripeCustomerId == rec.stripeCustomerId || rs[j].stripeSubscriptionId == rec.stripeSubscriptionId)
  }

  /** `findOneAndUpdate({ userId }, rec, { upsert: true })`: the user's record is overwritten, or
      one is inserted; a unique index another record already holds refuses the write. */
  function Upsert(rs: seq<SubscriptionRecord>, rec: SubscriptionRecord): Result<seq<SubscriptionRecord>> {
    var k := FirstIndex(rs, OfUser(rec.userId));
    if Collides(rs, k, rec) then Err(DuplicateKey)
    else match k
      case None => Ok(rs + [rec])
      case Some(k) => Ok(rs[k := rec])
  }

  /** `handleSubscriptionCreated`. */
  function Created(us: seq<User>, rs: seq<SubscriptionRecord>, sub: StripeSubscription): Reconciled {
    match FirstIndex(us, ByCustomer(sub.customer))
    case None => Reconciled(us, rs, Threw(NoUserForSubscription))
    case Some(i) =>
      var us' := us[i := us[i].(subscription := Some(SnapshotOf(sub)))];
      match Upsert(rs, RecordOf(us[i].id, sub))
      case Err(e) => Reconciled(us', rs, Threw(e))
      case Ok(rs') => Reconciled(us', rs', Completed)
  }

  /** `handleSubscriptionUpdated`: the record is updated only if one exists (no upsert). */
  function Updated(us: seq<User>, rs: seq<SubscriptionRecord>, sub: StripeSubscription): Reconciled {
    match FirstIndex(us, ByCustomer(sub.customer))
    case None => Reconciled(us, rs, Threw(NoUserForUpdate))
    case Some(i) =>
      var us' := us[i := us[i].(subscription := Some(SnapshotOf(sub)))];
      match FirstIndex(rs, OfUser(us[i].id))
      case None => Reconciled(us', rs, Completed)
      case Some(k) => Reconciled(us', rs[k := Refreshed(rs[k], sub)], Completed)
  }

  /** `handleSubscriptionDeleted`. */
  function Deleted(us: seq<User>, rs: seq<SubscriptionRecord>, sub: StripeSubscription): Reconciled {
    match FirstIndex(us, ByCustomer(sub.customer))
    case None => Reconciled(us, rs, Threw(NoUserForDeletion))
    case Some(i) =>
      var us' := us[i := us[i].(subscription := Some(CancelledSnapshotOf(sub)))];
      match FirstIndex(rs, OfUser(us[i].id))
      case None => Reconciled(us', rs, Completed)
      case Some(k) => Reconciled(us', rs[k := rs[k].(status := "cancelled", cancelAtPeriodEnd := true)], Completed)
  }

  /** `handlePaymentSucceeded` and `handlePaymentFailed`, which do the same: nothing without a
      subscription reference, otherwise the updated handler on the re-fetched subscription. */
  function Payment(us: seq<User>, rs: seq<SubscriptionRecord>, inv: Invoice, fetch: Fetch): Reconciled {
    if inv.subscription.None? || inv.subscription.value == "" then Reconciled(us, rs, Completed)
    else match fetch(inv.subscription.value)
      case None => Reconciled(us, rs, Threw(FetchFailed))
      case Some(sub) => Updated(us, rs, sub)
  }

  /** `handleWebhookEvent`. An object of the wrong shape for its event type is handled as the
      code would: a subscription carries no `subscription` field, so a payment event on one does
      nothing, and an invoice has no period end, so a subscription event on one throws. */
  function Reconcile(us: seq<User>, rs: seq<SubscriptionRecord>, ev: StripeEvent, fetch: Fetch): Reconciled {
    match KindOf(ev.eventType)
    case None => Reconciled(us, rs, Completed)
    case Some(k) =>
      if k.OnSubscription() then
        match ev.data
        case InvoiceObject(_) => Reconciled(us, rs, Threw(NotASubscription))
        case SubscriptionObject(sub) =>
          if k == SubscriptionCreated then Created(us, rs, sub)
          else if k == SubscriptionUpdated then Updated(us, rs, sub)
          else Deleted(us, rs, sub)
      else
        match ev.data
        case SubscriptionObject(_) => Reconciled(us, rs, Completed)
        case InvoiceObject(inv) => Payment(us, rs, inv, fetch)
  }

  // ---- properties ----

  /** Any event type without a handler changes nothing and completes. */
  lemma UnknownEventIgnored(us: seq<User>, rs: seq<SubscriptionRecord>, ev: StripeEvent, fetch: Fetch)
    requires KindOf(ev.eventType).None?
    ensures Reconcile(us, rs, ev, fetch) == Reconciled(us, rs, Completed)
  {
  }

  /** A subscription event for a customer no user has throws, and nothing is written. */
  lemma UnknownCustomerWritesNothing(us: seq<User>, rs: seq<SubscriptionRecord>, ev: StripeEvent, fetch: Fetch)
    requires ev.data.SubscriptionObject? && KindOf(ev.eventType).Some? && KindOf(ev.eventType).value.OnSubscription()
    requires forall i :: 0 <= i < |us| ==> !ByCustomer(ev.data.subscription.customer)(us[i])
    ensures Reconcile(us, rs, ev, fetch).outcome.Threw?
    ensures Reconcile(us, rs, ev, fetch).users == us && Reconcile(us, rs, ev, fetch).records == rs
  {
  }

  /** Created and updated write 'active' exactly for a provider status of 'active' and
      'inactive' for every other status; they never write 'cancelled'. The snapshot carries the
      event's ids and its period end in milliseconds, and the user is entitled until then. */
  lemma SnapshotOfStatus(sub: StripeSubscription, nowMs: Millis)
    ensures SnapshotOf(sub).status != Cancelled
    ensures SnapshotOf(sub).status == Active <==> sub.status == "active"
    ensures SnapshotOf(sub).stripeCustomerId == Some(sub.customer) && SnapshotOf(sub).stripeSubscriptionId == Some(sub.id)
    ensures SnapshotOf(sub).currentPeriodEnd == Some(sub.currentPeriodEnd * 1000)
    ensures UserModel.HasActiveSubscription(Some(SnapshotOf(sub)), nowMs) <==>
              sub.status == "active" && nowMs < sub.currentPeriodEnd * 1000
  {
  }

  /** The user record is the first with the customer id, and only its snapshot changes. */
  predicate OnlySnapshotOf(us: seq<User>, us': seq<User>, i: nat, s: Snapshot) {
    i < |us| && us' == us[i := us[i].(subscription := Some(s))]
  }

  /** After a completed created event, the record found for the user is exactly the event's,
      with `cancelAtPeriodEnd` false unless the provider says otherwise; every other record is
      as it was, and the collection grew by at most that one record. */
  lemma CreatedUpserts(us: seq<User>, rs: seq<SubscriptionRecord>, sub: StripeSubscription)
    requires Created(us, rs, sub).outcome.Completed?
    ensures FirstIndex(us, ByCustomer(sub.customer)).Some?
    ensures
      var i := FirstIndex(us, ByCustomer(sub.customer)).value;
      var R := Created(us, rs, sub);
      && OnlySnapshotOf(us, R.users, i, SnapshotOf(sub))
      && FirstIndex(R.records, OfUser(us[i].id)).Some?
      && R.records[FirstIndex(R.records, OfUser(us[i].id)).value] == RecordOf(us[i].id, sub)
      && (sub.cancelAtPeriodEnd.None? ==> !RecordOf(us[i].id, sub).cancelAtPeriodEnd)
      && |rs| <= |R.records| <= |rs| + 1
      && forall j :: 0 <= j < |rs| && !OfUser(us[i].id)(rs[j]) ==> R.records[j] == rs[j]
  {
    var i := FirstIndex(us, ByCustomer(sub.customer)).value;
    var rec := RecordOf(us[i].id, sub);
    var k := FirstIndex(rs, OfUser(us[i].id));
    if k.None? {
      assert OfUser(us[i].id)(rec);
      FirstIndexAppendMatch(rs, OfUser(us[i].id), rec);
    } else {
      FirstIndexAfterWrite(rs, OfUser(us[i].id), k.value, rec);
    }
  }

  /** Appending the only match makes it the first. */
  lemma FirstIndexAppendMatch<T>(s: seq<T>, p: T -> bool, x: T)
    requires FirstIndex(s, p).None? && p(x)
    ensures FirstIndex(s + [x], p) == Some(|s|)
  {
    var t := s + [x];
    assert forall j :: 0 <= j < |s| ==> t[j] == s[j];
    assert t[|s|] == x;
  }

  /** The updated handler never creates a record: a user without one still has none. */
  lemma UpdatedCreatesNoRecord(us: seq<User>, rs: seq<SubscriptionRecord>, sub: StripeSubscription)
    ensures |Updated(us, rs, sub).records| == |rs|
    ensures forall id: UserId :: FirstIndex(rs, OfUser(id)).None? ==> FirstIndex(Updated(us, rs, sub).records, OfUser(id)).None?
  {
    var R := Updated(us, rs, sub);
    forall id: UserId | FirstIndex(rs, OfUser(id)).None?
      ensures FirstIndex(R.records, OfUser(id)).None?
    {
      match FirstIndex(us, ByCustomer(sub.customer))
      case None =>
      case Some(i) =>
        match FirstIndex(rs, OfUser(us[i].id))
        case None =>
        case Some(k) =>
          assert rs[k].userId == us[i].id;
          FirstIndexAfterOtherWrite(rs, OfUser(id), k, Refreshed(rs[k], sub));
    }
  }

  /** The deleted handler cancels: the snapshot becomes 'cancelled' with the event's period end,
      so the user is no longer entitled; the record gets status 'cancelled' and
      `cancelAtPeriodEnd`, its other fields untouched. */
  lemma DeletedCancels(us: seq<User>, rs: seq<SubscriptionRecord>, sub: StripeSubscription, nowMs: Millis)
    requires FirstIndex(us, ByCustomer(sub.customer)).Some?
    ensures
      var i := FirstIndex(us, ByCustomer(sub.customer)).value;
      var R := Deleted(us, rs, sub);
      && R.outcome == Completed
      && OnlySnapshotOf(us, R.users, i, CancelledSnapshotOf(sub))
      && R.users[i].subscription.value.currentPeriodEnd == Some(sub.currentPeriodEnd * 1000)
      && !UserModel.HasActiveSubscription(R.users[i].subscription, nowMs)
      && |R.records| == |rs|
      && forall j :: 0 <= j < |rs| ==>
           R.records[j] == if Some(j) == FirstIndex(rs, OfUser(us[i].id))
                           then rs[j].(status := "cancelled", cancelAtPeriodEnd := true) else rs[j]
  {
  }

  /** A payment event without a subscription reference does nothing; one whose subscription
      cannot be fetched throws and writes nothing; otherwise it is the updated handler on the
      fetched subscription. */
  lemma PaymentDelegates(us: seq<User>, rs: seq<SubscriptionRecord>, inv: Invoice, fetch: Fetch)
    ensures inv.subscription.None? || inv.subscription == Some("") ==> Payment(us, rs, inv, fetch) == Reconciled(us, rs, Completed)
    ensures inv.subscription.Some? && inv.subscription.value != "" && fetch(inv.subscription.value).None? ==>
              Payment(us, rs, inv, fetch) == Reconciled(us, rs, Threw(FetchFailed))
    ensures inv.subscription.Some? && inv.subscription.value != "" && fetch(inv.subscription.value).Some? ==>
              Payment(us, rs, inv, fetch) == Updated(us, rs, fetch(inv.subscription.value).value)
  {
  }

  lemma {:induction false} UpsertIdempotent(rs: seq<SubscriptionRecord>, rec: SubscriptionRecord)
    requires Upsert(rs, rec).Ok?
    ensures Upsert(Upsert(rs, rec).value, rec) == Upsert(rs, rec)
  {
    var p := OfUser(rec.userId);
    var rs' := Upsert(rs, rec).value;
    assert p(rec);
    match FirstIndex(rs, p)
    case None =>
      FirstIndexAppendMatch(rs, p, rec);
      assert forall j :: 0 <= j < |rs| ==> rs'[j] == rs[j];
      assert !Collides(rs', Some(|rs|), rec);
      assert rs'[|rs| := rec] == rs';
    case Some(k) =>
      FirstIndexAfterWrite(rs, p, k, rec);
      assert forall j :: 0 <= j < |rs| && j != k ==> rs'[j] == rs[j];
      assert !Collides(rs', Some(k), rec);
      assert rs'[k := rec] == rs';
  }

  lemma {:induction false} CreatedIdempotent(us: seq<User>, rs: seq<SubscriptionRecord>, sub: StripeSubscription)
    ensures var R := Created(us, rs, sub); Created(R.users, R.records, sub) == R
  {
    var p := ByCustomer(sub.customer);
    match FirstIndex(us, p)
    case None =>
    case Some(i) =>
      var u' := us[i].(subscription := Some(SnapshotOf(sub)));
      assert p(u');
      FirstIndexAfterWrite(us, p, i, u');
      var us' := us[i := u'];
      assert us'[i := us'[i].(subscription := Some(SnapshotOf(sub)))] == us';
      var rec := RecordOf(us[i].id, sub);
      if Upsert(rs, rec).Ok? {
        UpsertIdempotent(rs, rec);
      }
  }

  lemma {:induction false} UpdatedIdempotent(us: seq<User>, rs: seq<SubscriptionRecord>, sub: StripeSubscription)
    ensures var R := Updated(us, rs, sub); Updated(R.users, R.records, sub) == R
  {
    var p := ByCustomer(sub.customer);
    match FirstIndex(us, p)
    case None =>
    case Some(i) =>
      var u' := us[i].(subscription := Some(SnapshotOf(sub)));
      assert p(u');
      FirstIndexAfterWrite(us, p, i, u');
      var us' := us[i := u'];
      assert us'[i := us'[i].(subscription := Some(SnapshotOf(sub)))] == us';
      var q := OfUser(us[i].id);
      match FirstIndex(rs, q)
      case None =>
      case Some(k) =>
        var r' := Refreshed(rs[k], sub);
        assert q(r');
        FirstIndexAfterWrite(rs, q, k, r');
        assert rs[k := r'][k := Refreshed(r', sub)] == rs[k := r'];
  }

  lemma {:induction false} DeletedIdempotent(us: seq<User>, rs: seq<SubscriptionRecord>, sub: StripeSubscription)
    ensures var R := Deleted(us, rs, sub); Deleted(R.users, R.records, sub) == R
  {
    var p := ByCustomer(sub.customer);
    match FirstIndex(us, p)
    case None =>
    case Some(i) =>
      var u' := us[i].(subscription := Some(CancelledSnapshotOf(sub)));
      assert p(u');
      FirstIndexAfterWrite(us, p, i, u');
      var us' := us[i := u'];
      assert us'[i := us'[i].(subscription := Some(CancelledSnapshotOf(sub)))] == us';
      var q := OfUser(us[i].id);
      match FirstIndex(rs, q)
      case None =>
      case Some(k) =>
        var r' := rs[k].(status := "cancelled", cancelAtPeriodEnd := true);
        assert q(r');
        FirstIndexAfterWrite(rs, q, k, r');
        assert rs[k := r'][k := r'.(status := "cancelled", cancelAtPeriodEnd := true)] == rs[k := r'];
  }

  /** Redelivering an event changes nothing more: handling it twice ends exactly as handling it
      once, outcome included. */
  lemma ReconcileIdempotent(us: seq<User>, rs: seq<SubscriptionRecord>, ev: StripeEvent, fetch: Fetch)
    ensures var R := Reconcile(us, rs, ev, fetch); Reconcile(R.users, R.records, ev, fetch) == R
  {
    match KindOf(ev.eventType)
    case None =>
    case Some(k) =>
      match ev.data
      case InvoiceObject(inv) =>
        if !k.OnSubscription() && inv.subscription.Some? && inv.subscription.value != "" {
          match fetch(inv.subscription.value)
          case None =>
          case Some(sub) => UpdatedIdempotent(us, rs, sub);
        }
      case SubscriptionObject(sub) =>
        if k == SubscriptionCreated {
          CreatedIdempotent(us, rs, sub);
        } else if k == SubscriptionUpdated {
          UpdatedIdempotent(us, rs, sub);
        } else if k == SubscriptionDeleted {
          DeletedIdempotent(us, rs, sub);
        }
  }

  /** Last write wins: an older update delivered after a newer one for the same customer leaves
      exactly the state of the older one alone, so the period end can move backwards. */
  lemma {:induction false} StaleUpdateWins(us: seq<User>, rs: seq<SubscriptionRecord>, newer: StripeSubscription, older: StripeSubscription)
    requires newer.customer == older.customer
    ensures
      var N := Updated(us, rs, newer);
      var NO := Updated(N.users, N.records, older);
      var O := Updated(us, rs, older);
      NO.users == O.users && NO.records == O.records
    ensures FirstIndex(us, ByCustomer(newer.customer)).Some? ==>
      var i := FirstIndex(us, ByCustomer(newer.customer)).value;
      var N := Updated(us, rs, newer);
      Updated(N.users, N.records, older).users[i].subscription.value.currentPeriodEnd == Some(Ms(older.currentPeriodEnd))
  {
    var p := ByCustomer(newer.customer);
    match FirstIndex(us, p)
    case None =>
    case Some(i) =>
      var u' := us[i].(subscription := Some(SnapshotOf(newer)));
      assert p(u');
      FirstIndexAfterWrite(us, p, i, u');
      var us' := us[i := u'];
      assert us'[i := us'[i].(subscription := Some(SnapshotOf(older)))] == us[i := us[i].(subscription := Some(SnapshotOf(older)))];
      var q := OfUser(us[i].id);
      match FirstIndex(rs, q)
      case None =>
      case Some(k) =>
        var r' := Refreshed(rs[k], newer);
        assert q(r');
        FirstIndexAfterWrite(rs, q, k, r');
        assert rs[k := r'][k := Refreshed(r', older)] == rs[k := Refreshed(rs[k], older)];
  }

  /** An event touches users only through their snapshots: ids, emails, passwords, roles and
      refresh tokens stay, and so does the number of users. */
  predicate SnapshotsOnly(us: seq<User>, us': seq<User>) {
    |us'| == |us| && forall i :: 0 <= i < |us| ==> us'[i] == us[i].(subscription := us'[i].subscription)
  }

  lemma UpsertKeepsUnique(rs: seq<SubscriptionRecord>, rec: SubscriptionRecord)
    requires UniqueRecords(rs) && Upsert(rs, rec).Ok?
    ensures UniqueRecords(Upsert(rs, rec).value)
  {
    var rs' := Upsert(rs, rec).value;
    var k := FirstIndex(rs, OfUser(rec.userId));
    forall i, j | 0 <= i < j < |rs'|
      ensures rs'[i].userId != rs'[j].userId && rs'[i].stripeCustomerId != rs'[j].stripeCustomerId
              && rs'[i].stripeSubscriptionId != rs'[j].stripeSubscriptionId
    {
      if k.None? {
        if j == |rs| {
          assert rs'[i] == rs[i] && !OfUser(rec.userId)(rs[i]);
        }
      } else if i == k.value {
        assert rs'[j] == rs[j] && rs[k.value].userId == rec.userId;
      } else if j == k.value {
        assert rs'[i] == rs[i] && rs[k.value].userId == rec.userId;
      }
    }
  }

  lemma RefreshKeepsUnique(rs: seq<SubscriptionRecord>, k: nat, r: SubscriptionRecord)
    requires UniqueRecords(rs) && k < |rs|
    requires r.userId == rs[k].userId && r.stripeCustomerId == rs[k].stripeCustomerId && r.stripeSubscriptionId == rs[k].stripeSubscriptionId
    ensures UniqueRecords(rs[k := r])
  {
  }

  /** Handling an event keeps the unique indexes of both collections and changes users only
      through their snapshots. */
  lemma ReconcileKeepsIndexes(us: seq<User>, rs: seq<SubscriptionRecord>, ev: StripeEvent, fetch: Fetch)
    requires UniqueUsers(us) && UniqueRecords(rs)
    ensures SnapshotsOnly(us, Reconcile(us, rs, ev, fetch).users)
    ensures UniqueUsers(Reconcile(us, rs, ev, fetch).users) && UniqueRecords(Reconcile(us, rs, ev, fetch).records)
  {
    ReconcileKeeps(us, rs, ev, fetch);
  }

  /** A webhook changes users only in their snapshots, which no validator reads, so every
      stored user stays valid and none of the handlers' saves can fail. */
  lemma ReconcileKeepsValidUsers(us: seq<User>, rs: seq<SubscriptionRecord>, ev: StripeEvent, fetch: Fetch, emailPattern: string -> bool)
    requires UniqueUsers(us) && UniqueRecords(rs) && ValidUsers(us, emailPattern)
    ensures ValidUsers(Reconcile(us, rs, ev, fetch).users, emailPattern)
  {
    ReconcileKeepsIndexes(us, rs, ev, fetch);
    ValidUsersKept(us, Reconcile(us, rs, ev, fetch).users, emailPattern);
  }

  lemma ReconcileKeeps(us: seq<User>, rs: seq<SubscriptionRecord>, ev: StripeEvent, fetch: Fetch)
    requires UniqueUsers(us) && UniqueRecords(rs)
    ensures IndexesKept(us, Reconcile(us, rs, ev, fetch))
  {
    var r := Reconcile(us, rs, ev, fetch);
    if r.users == us && r.records == rs {
      NothingKeepsIndexes(us, rs, r.outcome);
    } else {
      match ev.data
      case InvoiceObject(inv) =>
        var sub := fetch(inv.subscription.value).value;
        assert r == Updated(us, rs, sub);
        UpdatedKeepsIndexes(us, rs, sub);
      case SubscriptionObject(sub) =>
        KeepsIndexes(us, rs, sub);
    }
  }

  lemma NothingKeepsIndexes(us: seq<User>, rs: seq<SubscriptionRecord>, o: Outcome)
    requires UniqueUsers(us) && UniqueRecords(rs)
    ensures IndexesKept(us, Reconciled(us, rs, o))
  {
    assert forall i :: 0 <= i < |us| ==> us[i] == us[i].(subscription := us[i].subscription);
  }

  /** An outcome that changes users only through their snapshots and keeps both collections'
      unique indexes. */
  predicate IndexesKept(us: seq<User>, r: Reconciled) {
    SnapshotsOnly(us, r.users) && UniqueUsers(r.users) && UniqueRecords(r.records)
  }

  /** Each of the three subscription handlers keeps the indexes. */
  lemma KeepsIndexes(us: seq<User>, rs: seq<SubscriptionRecord>, sub: StripeSubscription)
    requires UniqueUsers(us) && UniqueRecords(rs)
    ensures IndexesKept(us, Created(us, rs, sub))
    ensures IndexesKept(us, Updated(us, rs, sub))
    ensures IndexesKept(us, Deleted(us, rs, sub))
  {
    CreatedKeepsIndexes(us, rs, sub);
    UpdatedKeepsIndexes(us, rs, sub);
    DeletedKeepsIndexes(us, rs, sub);
  }

  lemma CreatedKeepsIndexes(us: seq<User>, rs: seq<SubscriptionRecord>, sub: StripeSubscription)
    requires UniqueUsers(us) && UniqueRecords(rs)
    ensures IndexesKept(us, Created(us, rs, sub))
  {
    match FirstIndex(us, ByCustomer(sub.customer))
    case None =>
    case Some(i) =>
      if Upsert(rs, RecordOf(us[i].id, sub)).Ok? {
        UpsertKeepsUnique(rs, RecordOf(us[i].id, sub));
      }
  }

  lemma UpdatedKeepsIndexes(us: seq<User>, rs: seq<SubscriptionRecord>, sub: StripeSubscription)
    requires UniqueUsers(us) && UniqueRecords(rs)
    ensures IndexesKept(us, Updated(us, rs, sub))
  {
  }

  lemma DeletedKeepsIndexes(us: seq<User>, rs: seq<SubscriptionRecord>, sub: StripeSubscription)
    requires UniqueUsers(us) && UniqueRecords(rs)
    ensures IndexesKept(us, Deleted(us, rs, sub))
  {
  }

  // ---- the handlers, step by step ----

  /** Looks up the user with the event's customer id and overwrites its snapshot. */
  method WriteSnapshot(db: Database, customer: string, s: Snapshot) returns (found: Option<nat>)
    requires db.Valid()
    modifies db
    ensures db.Valid()
    ensures found == FirstIndex(old(db.users), ByCustomer(customer))
    ensures found.None? ==> db.users == old(db.users)
    ensures found.Some? ==> db.users == old(db.users)[found.value := old(db.users)[found.value].(subscription := Some(s))]
    ensures db.records == old(db.records) && db.lessons == old(db.lessons) && db.nextId == old(db.nextId)
  {
    found := FirstIndex(db.users, ByCustomer(customer));
    if found.Some? {
      var i := found.value;
      UniqueUsersAfterWrite(db.users, i, db.users[i].(subscription := Some(s)));
      db.users := db.users[i := db.users[i].(subscription := Some(s))];
    }
  }

  method HandleSubscriptionCreated(db: Database, sub: StripeSubscription) returns (o: Outcome)
    requires db.Valid()
    modifies db
    ensures db.Valid()
    ensures Created(old(db.users), old(db.records), sub) == Reconciled(db.users, db.records, o)
    ensures db.lessons == old(db.lessons) && db.nextId == old(db.nextId)
  {
    var found := WriteSnapshot(db, sub.customer, SnapshotOf(sub));
    if found.None? {
      return Threw(NoUserForSubscription);
    }
    var up := Upsert(db.records, RecordOf(db.users[found.value].id, sub));
    if up.Err? {
      return Threw(up.error);
    }
    UpsertKeepsUnique(db.records, RecordOf(db.users[found.value].id, sub));
    db.records := up.value;
    o := Completed;
  }

  method HandleSubscriptionUpdated(db: Database, sub: StripeSubscription) returns (o: Outcome)
    requires db.Valid()
    modifies db
    ensures db.Valid()
    ensures Updated(old(db.users), old(db.records), sub) == Reconciled(db.users, db.records, o)
    ensures db.lessons == old(db.lessons) && db.nextId == old(db.nextId)
  {
    var found := WriteSnapshot(db, sub.customer, SnapshotOf(sub));
    if found.None? {
      return Threw(NoUserForUpdate);
    }
    var k := FirstIndex(db.records, OfUser(db.users[found.value].id));
    if k.Some? {
      RefreshKeepsUnique(db.records, k.value, Refreshed(db.records[k.value], sub));
      db.records := db.records[k.value := Refreshed(db.records[k.value], sub)];
    }
    o := Completed;
  }

  method HandleSubscriptionDeleted(db: Database, sub: StripeSubscription) returns (o: Outcome)
    requires db.Valid()
    modifies db
    ensures db.Valid()
    ensures Deleted(old(db.users), old(db.records), sub) == Reconciled(db.users, db.records, o)
    ensures db.lessons == old(db.lessons) && db.nextId == old(db.nextId)
  {
    var found := WriteSnapshot(db, sub.customer, CancelledSnapshotOf(sub));
    if found.None? {
      return Threw(NoUserForDeletion);
    }
    var k := FirstIndex(db.records, OfUser(db.users[found.value].id));
    if k.Some? {
      var r := db.records[k.value].(status := "cancelled", cancelAtPeriodEnd := true);
      RefreshKeepsUnique(db.records, k.value, r);
      db.records := db.records[k.value := r];
    }
    o := Completed;
  }

  method HandlePayment(db: Database, inv: Invoice, fetch: Fetch) returns (o: Outcome)
    requires db.Valid()
    modifies db
    ensures db.Valid()
    ensures Payment(old(db.users), old(db.records), inv, fetch) == Reconciled(db.users, db.records, o)
    ensures db.lessons == old(db.lessons) && db.nextId == old(db.nextId)
  {
    if inv.subscription.None? || inv.subscription.value == "" {
      return Completed;
    }
    var sub := fetch(inv.subscription.value);
    if sub.None? {
      return Threw(FetchFailed);
    }
    o := HandleSubscriptionUpdated(db, sub.value);
  }

  /** `handleWebhookEvent`: dispatches on the event type and rethrows what a handler throws. */
  method HandleWebhookEvent(db: Database, ev: StripeEvent, fetch: Fetch) returns (o: Outcome)
    requires db.Valid()
    modifies db
    ensures db.Valid()
    ensures Reconcile(old(db.users), old(db.records), ev, fetch) == Reconciled(db.users, db.records, o)
    ensures db.lessons == old(db.lessons) && db.nextId == old(db.nextId)
  {
    var kind := KindOf(ev.eventType);
    if kind.None? {
      return Completed;
    }
    var k := kind.value;
    if k.OnSubscription() {
      if ev.data.InvoiceObject? {
        return Threw(NotASubscription);
      }
      var sub := ev.data.subscription;
      if k == SubscriptionCreated {
        o := HandleSubscriptionCreated(db, sub);
      } else if k == SubscriptionUpdated {
        o := HandleSubscriptionUpdated(db, sub);
      } else {
        o := HandleSubscriptionDeleted(db, sub);
      }
    } else {
      if ev.data.SubscriptionObject? {
        return Completed;
      }
      o := HandlePayment(db, ev.data.invoice, fetch);
    }
  }
}
