/** The Subscription collection, after backend/src/models/Subscription.ts: its defaults and
    validators, the `isActive` and `isExpiringSoon` virtuals, the two finders, and the
    `updateStatus` and `cancel` document methods. */
module SubscriptionModel {
  import opened Wrappers
  import opened Text
  import opened Types
  import opened Seqs

  /** One day in milliseconds; `setDate(getDate() + n)` is taken as adding n such days. */
  const DayMs: nat := 24 * 60 * 60 * 1000

  /** The values the schema's `status` enum admits. */
  const RecordStatuses: seq<string> := ["active", "inactive", "cancelled", "past_due"]

  /** A record as created with only the required paths given: status 'inactive' and no
      cancellation at period end. */
  function NewRecord(userId: UserId, customerId: string, subscriptionId: string, start: Millis, end: Millis): (r: SubscriptionRecord)
    ensures r.status == "inactive" && !r.cancelAtPeriodEnd
    ensures r.userId == userId && r.stripeCustomerId == customerId && r.stripeSubscriptionId == subscriptionId
    ensures r.currentPeriodStart == start && r.currentPeriodEnd == end
  {
    SubscriptionRecord(userId, customerId, subscriptionId, "inactive", start, end, false)
  }

  /** The messages of the validators a `save()` runs that fail. */
  function RecordErrors(r: SubscriptionRecord): (errs: seq<string>)
    ensures errs == [] <==> r.stripeCustomerId != "" && r.stripeSubscriptionId != "" && r.status in RecordStatuses
  {
    (if r.stripeCustomerId == "" then ["Stripe customer ID is required"] else [])
    + (if r.stripeSubscriptionId == "" then ["Stripe subscription ID is required"] else [])
    + (if r.status !in RecordStatuses then ["`" + r.status + "` is not a valid enum value for path `status`."] else [])
  }

  /** The unique indexes: no two records share a user, a customer or a subscription id. */
  predicate UniqueRecords(rs: seq<SubscriptionRecord>) {
    forall i, j :: 0 <= i < j < |rs| ==>
      && rs[i].userId != rs[j].userId
      && rs[i].stripeCustomerId != rs[j].stripeCustomerId
      && rs[i].stripeSubscriptionId != rs[j].stripeSubscriptionId
  }

  /** The `isActive` virtual. */
  predicate IsActive(r: SubscriptionRecord, nowMs: Millis) {
    r.status == "active" && r.currentPeriodEnd > nowMs
  }

  /** The `isExpiringSoon` virtual: active, and ending within a week from now. */
  predicate IsExpiringSoon(r: SubscriptionRecord, nowMs: Millis) {
    r.status == "active" && r.currentPeriodEnd <= nowMs + 7 * DayMs
  }

  /** `isExpiringSoon` has no lower bound: an active record whose period is already over
      counts as expiring soon, though it is not active. */
  lemma LapsedCountsAsExpiring(r: SubscriptionRecord, nowMs: Millis)
    requires r.status == "active" && r.currentPeriodEnd <= nowMs
    ensures IsExpiringSoon(r, nowMs) && !IsActive(r, nowMs)
  {
  }

  /** `findActiveSubscriptions`: the records `isActive` holds of, in collection order. */
  function FindActiveSubscriptions(rs: seq<SubscriptionRecord>, nowMs: Millis): (r: seq<SubscriptionRecord>)
    ensures forall x :: x in r <==> x in rs && IsActive(x, nowMs)
  {
    Filter(rs, x => IsActive(x, nowMs))
  }

  /** `findExpiringSubscriptions(days = 7)`: active records ending after now and no later than
      `days` days from now. */
  function FindExpiringSubscriptions(rs: seq<SubscriptionRecord>, nowMs: Millis, days: Option<int>): (r: seq<SubscriptionRecord>)
    ensures forall x :: x in r <==>
      x in rs && x.status == "active" && nowMs < x.currentPeriodEnd <= nowMs + days.GetOr(7) * DayMs
  {
    Filter(rs, (x: SubscriptionRecord) => x.status == "active" && nowMs < x.currentPeriodEnd <= nowMs + days.GetOr(7) * DayMs)
  }

  /** Every expiring record found is active, and with the default window it is expiring soon. */
  lemma ExpiringAreActive(rs: seq<SubscriptionRecord>, nowMs: Millis, days: Option<int>, x: SubscriptionRecord)
    requires x in FindExpiringSubscriptions(rs, nowMs, days)
    ensures IsActive(x, nowMs) && x in FindActiveSubscriptions(rs, nowMs)
    ensures days.GetOr(7) == 7 ==> IsExpiringSoon(x, nowMs)
  {
  }

  /** What `cancel` writes: cancellation at period end. */
  function CancelAtEnd(r: SubscriptionRecord): SubscriptionRecord {
    r.(cancelAtPeriodEnd := true)
  }

  /** Cancelling is idempotent and ends nothing early: status, period and `isActive` stay. */
  lemma CancelKeepsAccess(r: SubscriptionRecord, nowMs: Millis)
    ensures CancelAtEnd(CancelAtEnd(r)) == CancelAtEnd(r)
    ensures CancelAtEnd(r).status == r.status && CancelAtEnd(r).currentPeriodStart == r.currentPeriodStart
    ensures CancelAtEnd(r).currentPeriodEnd == r.currentPeriodEnd && CancelAtEnd(r).cancelAtPeriodEnd
    ensures IsActive(CancelAtEnd(r), nowMs) == IsActive(r, nowMs)
  {
  }

  /** A loaded subscription document. `save()` runs the validators over every path it holds,
      and on failure nothing is persisted while the in-memory assignment stays. */
  class SubscriptionDocument {
    var rec: SubscriptionRecord

    constructor Load(r: SubscriptionRecord)
      ensures rec == r
    {
      rec := r;
    }

    method Save() returns (r: Saved<SubscriptionRecord>)
      ensures RecordErrors(rec) == [] ==> r == Stored(rec)
      ensures RecordErrors(rec) != [] ==> r == Invalid(RecordErrors(rec))
    {
      var errs := RecordErrors(rec);
      if errs == [] {
        r := Stored(rec);
      } else {
        r := Invalid(errs);
      }
    }

    /** `updateStatus(s)`: assigns `status` alone, then saves; an out-of-enum value is refused. */
    method UpdateStatus(s: string) returns (r: Saved<SubscriptionRecord>)
      modifies this
      ensures rec == old(rec).(status := s)
      ensures r.Stored? <==> RecordErrors(rec) == []
      ensures r.Stored? ==> r.value == rec
    {
      rec := rec.(status := s);
      r := Save();
    }

    /** `cancel()`: assigns `cancelAtPeriodEnd = true`, then saves. */
    method Cancel() returns (r: Saved<SubscriptionRecord>)
      modifies this
      ensures rec == CancelAtEnd(old(rec))
      ensures r.Stored? <==> RecordErrors(rec) == []
      ensures r.Stored? ==> r.value == rec
    {
      rec := CancelAtEnd(rec);
      r := Save();
    }
  }

  /** Saving refuses a status outside the enum, such as a raw provider status the webhook
      handlers wrote directly. */
  lemma UpdateStatusRefusesUnknown(r: SubscriptionRecord, s: string)
    requires s !in RecordStatuses
    ensures RecordErrors(r.(status := s)) != []
  {
  }
}
