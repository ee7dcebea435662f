/** The records the backend stores and exchanges, after backend/src/types/index.ts. */
module Types {
  import opened Wrappers

  /** Document identifiers; MongoDB's ObjectIds are modelled by numbers handed out in order. */
  type UserId = nat
  type LessonId = nat

  /** An instant in milliseconds since the epoch, as a JavaScript `Date` holds it. */
  type Millis = nat

  /** JSON Web Tokens travel, and are stored, as strings. */
  type Token = string

  datatype Role = UserRole | AdminRole

  /** The subscription status kept on the user document: 'active' | 'inactive' | 'cancelled'. */
  datatype SnapshotStatus = Active | Inactive | Cancelled

  /** The subscription snapshot embedded in a user document; every field but `status` is optional. */
  datatype Snapshot = Snapshot(
    status: SnapshotStatus,
    stripeCustomerId: Option<string>,
    stripeSubscriptionId: Option<string>,
    currentPeriodEnd: Option<Millis>)

  /** The stored password field: the plaintext as assigned, or a bcrypt hash (salt included)
      of whatever the field held when it was hashed. */
  datatype Password = Plain(text: string) | Hashed(input: Password, salt: nat)

  /** A user document. */
  datatype User = User(
    id: UserId,
    email: string,
    password: Password,
    firstName: string,
    lastName: string,
    role: Role,
    subscription: Option<Snapshot>,
    refreshTokens: seq<Token>,
    createdAt: Millis)

  /** What the API exposes of a user: the document without `password` and `refreshTokens`. */
  datatype PublicUser = PublicUser(
    id: UserId,
    email: string,
    firstName: string,
    lastName: string,
    role: Role,
    subscription: Option<Snapshot>,
    createdAt: Millis)

  /** A document of the Subscription collection. `status` holds whatever string was written,
      which the webhook handlers take unchecked from the provider. */
  datatype SubscriptionRecord = SubscriptionRecord(
    userId: UserId,
    stripeCustomerId: string,
    stripeSubscriptionId: string,
    status: string,
    currentPeriodStart: Millis,
    currentPeriodEnd: Millis,
    cancelAtPeriodEnd: bool)

  /** A lesson document; `duration` is in minutes. */
  datatype Lesson = Lesson(
    id: LessonId,
    title: string,
    description: string,
    content: string,
    videoUrl: Option<string>,
    thumbnailUrl: Option<string>,
    duration: int,
    category: string,
    tags: seq<string>,
    isPremium: bool,
    author: string,
    order: int,
    createdAt: Millis)

  /** A Stripe subscription as the handlers read it; the period bounds are Unix seconds. */
  datatype StripeSubscription = StripeSubscription(
    id: string,
    customer: string,
    status: string,
    currentPeriodStart: nat,
    currentPeriodEnd: nat,
    cancelAtPeriodEnd: Option<bool>)

  /** A Stripe invoice as the handlers read it: only its subscription reference. */
  datatype Invoice = Invoice(subscription: Option<string>)

  /** `event.data.object` of a Stripe event. */
  datatype EventObject = SubscriptionObject(subscription: StripeSubscription) | InvoiceObject(invoice: Invoice)

  /** A Stripe event whose signature has been checked. */
  datatype StripeEvent = StripeEvent(eventType: string, data: EventObject)

  /** An HTTP reply: its status code and the `message` of its JSON envelope. */
  datatype Reply = Reply(status: nat, message: string)

  /** What a Mongoose `save()` ends in: the stored document, or a ValidationError carrying the
      message of every failing validator. */
  datatype Saved<+T> = Stored(value: T) | Invalid(messages: seq<string>)
}
