# Learnly access control, sessions and subscriptions, in Dafny

Learnly is a lesson catalogue with free and premium lessons. Its Express backend keeps three
MongoDB collections: users, each with an embedded subscription snapshot and a list of
refresh tokens; subscription records, one per user, mirroring the billing provider; and
lessons. Its React frontend lists and shows lessons. This project models the parts of the
system that decide who may see what, and the bookkeeping that keeps those decisions right:

- the user and subscription schemas: setters, validators, defaults, the hash-once save
  rule, `toJSON`, and the entitlement predicates `hasActiveSubscription`, `isActive` and
  `isExpiringSoon` with their finders (`user_model.dfy`, `subscription_model.dfy`);
- the JWT helpers, as an injective token encoding with a perfect signature check
  (`jwt.dfy`);
- the session handlers `register`, `login`, `refreshToken`, `logout` and `getProfile`,
  a state machine over each user's refresh tokens (`auth_controller.dfy`);
- the guards `authenticate`, `optionalAuth`, `requireRole` and `requireSubscription`, and
  the middleware chains the route files build from them (`auth_middleware.dfy`,
  `pipeline.dfy`, `auth_routes.dfy`, `lesson_routes.dfy`, `validators.dfy`);
- the webhook reconciler and the subscription handlers (`stripe_service.dfy`,
  `subscription_controller.dfy`);
- the lesson schema and queries, the lesson handlers with their premium override and
  pagination, and the user administration handlers (`lesson_model.dfy`,
  `lesson_controller.dfy`, `paging.dfy`, `user_controller.dfy`);
- the error classifier (`error_handler.dfy`);
- the state of the lesson list page and the view choice of the lesson page
  (`lessons_page.dfy`, `lesson_detail_page.dfy`).

`store.dfy` holds the collections as sequences in a `Database` object, with their unique
indexes as its invariant. Handlers that write are methods over that object. Each one is
proved equal to a pure function of the old collections, and the lemmas about that function
state what the handler promises. `types.dfy` follows the backend's type declarations.
`text.dfy`, `seqs.dfy` and `wrappers.dfy` hold the string, sequence and result helpers.

Time is an integer count of milliseconds. `nowMs` is a parameter wherever the code reads the
clock. The billing provider's answers, the webhook signature check, the address and URL
checks of the validator library, the schema's email pattern, the case-insensitive pattern
match of the search and whether a search term is a valid pattern are parameters too.

Two places in the code fall short of what the code itself evidently means to do: refresh
tokens are rotated to be single-use, and every verified webhook is to be acknowledged. The
model follows the code in both, and its lemmas show the behaviour:

- A refresh within the same second as the token's issue mints the identical token again,
  because the token carries only whole seconds. The presented token then stays valid after
  rotation (`AuthController.RefreshWithinSecondKeepsToken`). A refresh in a later second
  does refuse the replay (`AuthController.RefreshReplayRefused`).
- A webhook whose handler throws, for example because no user has the event's customer,
  is answered 500, not 200 (`SubscriptionController.WebhookReplies`).

Three more behaviours of the code are worth knowing:

- The record's `status` is stored as the provider sends it, so it can fall outside the
  schema's enum.
- `isTokenExpired` and verification disagree in the second a token expires
  (`Jwt.ExpiryBoundaryDisagreement`).
- The lesson page's premium gate reads the status alone and ignores the period end
  (`LessonDetailPage.LapsedSubscriptionSplitsGates`). The page gates on the client's copy
  of the user, the backend on the stored user. While the copy passes the gate whenever
  the backend admits the stored user, the upsell view is unreachable: a premium lesson the
  backend refuses arrives as a 403, which the page shows as a failure to load
  (`LessonDetailPage.UpsellUnreachable`). The copy can lag, though: after a cancellation
  the subscription page marks the copy 'cancelled' while the stored user keeps its active
  snapshot until the provider's webhook arrives, and in that window a premium lesson is met
  with the upsell (`LessonDetailPage.CancelledCopyShowsUpsell`).

The lesson page's `formatDuration` (frontend/src/pages/LessonDetailPage.tsx:31-35) is the
same expression as the list page's, and is modelled once, as `LessonsPage.FormatDuration`.

## Model

| member | source | states |
|---|---|---|
| UserModel.NewUser | backend/src/models/User.ts:9-52 | a new document has the email lowercased then trimmed, the names trimmed, the password as given, role 'user', a snapshot holding only status 'inactive', and no refresh tokens |
| UserModel.NormalizeEmailIdempotent | backend/src/models/User.ts:10-16 | the email setters are idempotent: a stored email is stored unchanged when saved again |
| UserModel.ValidationErrors | backend/src/models/User.ts:10-34 | a document validates iff its email is present and satisfies the schema's email pattern, the stored password has at least 6 characters, and both names have 1..50 characters |
| UserModel.EmailErrors | backend/src/models/User.ts:10-17 | the email path passes iff it is non-empty and satisfies the email pattern |
| UserModel.PasswordErrors | backend/src/models/User.ts:18-22 | the password path passes iff the stored string has at least 6 characters |
| UserModel.NameErrors | backend/src/models/User.ts:23-34 | a name path passes iff it has 1..50 characters |
| UserModel.ModifiedSaveHashes | backend/src/models/User.ts:68-83 | a save with a modified password stores a hash, never the plaintext, and `comparePassword` then accepts exactly the password that was set |
| UserModel.LaterSavesKeepHash | backend/src/models/User.ts:68-69 | any number of saves that leave the password unmodified keep the hash, so the set password still logs in |
| UserModel.HashedStaysValid | backend/src/models/User.ts:18-22 | a document that validated still validates after its password is hashed and its refresh tokens are replaced |
| UserModel.DoubleHashLocksOut | backend/src/models/User.ts:68-73 | hashing an already hashed password would make the set password fail `comparePassword`: the hash-once rule is needed |
| UserModel.ToJson | backend/src/models/User.ts:55-61 | the serialised user keeps id, email, names, role, snapshot and creation time |
| UserModel.ToJsonHidesSecrets | backend/src/models/User.ts:55-61 | the serialised user does not depend on the password or the refresh tokens |
| UserModel.EntitlementCases | backend/src/models/User.ts:91-95 | no snapshot, a status other than 'active', a missing period end, or an end equal to now is never entitled; an active snapshot with an end is entitled iff now is before the end |
| UserModel.HasActiveSubscription | backend/src/models/User.ts:91-95 | `hasActiveSubscription`; its properties are those of `EntitlementCases` and `EntitlementLapsesForGood` |
| UserModel.EntitlementLapsesForGood | backend/src/models/User.ts:91-95 | a snapshot not entitled at one instant is not entitled at any later one |
| UserModel.UserDocument.Create | backend/src/models/User.ts:9-52 | a created document holds `NewUser` and counts its password as modified |
| UserModel.UserDocument.Load | backend/src/models/User.ts:68-69 | a loaded document counts nothing as modified |
| UserModel.UserDocument.PushRefreshToken | backend/src/models/User.ts:50-52 | appends one token and changes nothing else |
| UserModel.UserDocument.SetRefreshTokens | backend/src/models/User.ts:50-52 | replaces the token list and changes nothing else |
| UserModel.UserDocument.SetSubscription | backend/src/models/User.ts:40-49 | replaces the snapshot and changes nothing else |
| UserModel.UserDocument.Save | backend/src/models/User.ts:68-78 | a failing validator leaves the document as it was and returns the messages; otherwise the pre-save hook hashes a modified password and the saved document is returned |
| SubscriptionModel.NewRecord | backend/src/models/Subscription.ts:8-41 | a record created with only its required paths has status 'inactive' and `cancelAtPeriodEnd` false |
| SubscriptionModel.IsActive | backend/src/models/Subscription.ts:61-64 | the `isActive` virtual; `FindActiveSubscriptions` and `ExpiringAreActive` state its use |
| SubscriptionModel.IsExpiringSoon | backend/src/models/Subscription.ts:66-71 | the `isExpiringSoon` virtual; `LapsedCountsAsExpiring` states that it has no lower bound |
| SubscriptionModel.RecordErrors | backend/src/models/Subscription.ts:15-29 | a record validates iff it has both provider ids and a status in the enum |
| SubscriptionModel.LapsedCountsAsExpiring | backend/src/models/Subscription.ts:61-71 | an active record whose period is already over is expiring soon, though not active |
| SubscriptionModel.FindActiveSubscriptions | backend/src/models/Subscription.ts:74-79 | finds exactly the stored records that `isActive` holds of |
| SubscriptionModel.FindExpiringSubscriptions | backend/src/models/Subscription.ts:82-90 | finds exactly the active records with now < end <= now + days, with days defaulting to 7 |
| SubscriptionModel.ExpiringAreActive | backend/src/models/Subscription.ts:62-90 | every expiring record found is active and found by `findActiveSubscriptions`; with the default window it is also expiring soon |
| SubscriptionModel.CancelKeepsAccess | backend/src/models/Subscription.ts:99-102 | cancelling is idempotent, sets `cancelAtPeriodEnd`, and keeps status, period and `isActive` |
| SubscriptionModel.SubscriptionDocument.Load | backend/src/models/Subscription.ts:8-41 | the document holds the loaded record |
| SubscriptionModel.SubscriptionDocument.Save | backend/src/models/Subscription.ts:15-29 | stores the record iff it validates, and otherwise returns the validators' messages |
| SubscriptionModel.SubscriptionDocument.UpdateStatus | backend/src/models/Subscription.ts:93-96 | assigns the status alone, then saves; the save succeeds iff the new record validates |
| SubscriptionModel.SubscriptionDocument.Cancel | backend/src/models/Subscription.ts:99-102 | assigns `cancelAtPeriodEnd`, then saves |
| SubscriptionModel.UpdateStatusRefusesUnknown | backend/src/models/Subscription.ts:25-29 | a status outside the enum is refused by the validators |
| Jwt.EnvOr | backend/src/utils/jwt.ts:4-7 | a set, non-empty variable is used, and an unset or empty one gives the fallback |
| Jwt.DefaultSecretsDiffer | backend/src/utils/jwt.ts:4-5 | without configuration the access and refresh secrets differ |
| Jwt.Timespan | backend/src/utils/jwt.ts:6-7 | a lifetime written as a bare number is read as milliseconds and floored to whole seconds |
| Jwt.DefaultLifetimes | backend/src/utils/jwt.ts:6-7 | without configuration an access token lives 15 minutes and a refresh token 7 days |
| Jwt.Parse | backend/src/utils/jwt.ts:58-64 | a token string parses only to the signed token whose exact encoding it is |
| Jwt.ParseEncode | backend/src/utils/jwt.ts:20-40 | every issued token parses back to its payload and signing key |
| Jwt.EncodeInjective | backend/src/utils/jwt.ts:20-40 | distinct signed tokens have distinct strings |
| Jwt.VerifySigned | backend/src/utils/jwt.ts:42-56 | verification under a key gives the claims iff the token was signed with that key and is still current |
| Jwt.GenerateAccessToken | backend/src/utils/jwt.ts:20-30 | `generateAccessToken`; its properties are those of `AccessTokenVerifies` and `TokensNotInterchangeable` |
| Jwt.DecodeToken | backend/src/utils/jwt.ts:58-64 | `decodeToken`; its properties are those of `DecodeIgnoresSignature` and `DecodeNullIffUnsigned` |
| Jwt.IsTokenExpired | backend/src/utils/jwt.ts:66-76 | `isTokenExpired`; its properties are those of `IsTokenExpiredOfSigned` and `ExpiryBoundaryDisagreement` |
| Jwt.VerifiedIsSigned | backend/src/utils/jwt.ts:42-56 | whatever verification accepts is the signature of a current payload under that key |
| Jwt.VerifyAccessToken | backend/src/utils/jwt.ts:42-48 | succeeds iff the token verifies under the access secret; every failure has the message 'Invalid access token' |
| Jwt.VerifyRefreshToken | backend/src/utils/jwt.ts:50-56 | succeeds iff the token verifies under the refresh secret; every failure has the message 'Invalid refresh token' |
| Jwt.AccessTokenVerifies | backend/src/utils/jwt.ts:20-48 | an access token verifies to exactly {userId, email, role} until the second its configured lifetime runs out, and is refused from then on |
| Jwt.RefreshTokenVerifies | backend/src/utils/jwt.ts:32-56 | a refresh token verifies to exactly {userId} until the second its configured lifetime runs out, and is refused from then on |
| Jwt.TokensNotInterchangeable | backend/src/utils/jwt.ts:4-56 | with distinct secrets an access token is refused as a refresh token and conversely |
| Jwt.DecodeIgnoresSignature | backend/src/utils/jwt.ts:58-64 | `decodeToken` returns the payload whatever key signed the token |
| Jwt.DecodeNullIffUnsigned | backend/src/utils/jwt.ts:58-64 | `decodeToken` gives null exactly on strings no signer produced |
| Jwt.IsTokenExpiredOfSigned | backend/src/utils/jwt.ts:66-75 | a token with a non-zero `exp` is expired iff `exp` is before the current second; one without `exp` is always expired |
| Jwt.ExpiryBoundaryDisagreement | backend/src/utils/jwt.ts:42-72 | in the second an access token expires, `isTokenExpired` reports it unexpired while `verifyAccessToken` refuses it |
| Jwt.RefreshTokensCoincideWithinSecond | backend/src/utils/jwt.ts:32-40 | two refresh tokens of a user are equal iff they were issued in the same second |
| AuthMiddleware.Request.constructor | backend/src/middleware/auth.ts:6-10 | a request starts with its header, no user, no reply and no call of `next` |
| AuthMiddleware.BearerCredential | backend/src/middleware/auth.ts:12-22 | a credential exists iff the header is present and starts with 'Bearer ', and it is the header without its first seven characters |
| AuthMiddleware.BearerRoundTrip | backend/src/middleware/auth.ts:14-22 | the credential read from 'Bearer ' followed by a token is that token |
| AuthMiddleware.Authentication | backend/src/middleware/auth.ts:11-43 | a missing or non-bearer header gives 401 'Access token is required', a failed verification 401 'Invalid or expired token'; a user is admitted iff the token verifies and names a stored user, and the user attached is a stored user with the token's userId, without secrets; every refusal is a 401 |
| AuthMiddleware.AuthenticateIssuedToken | backend/src/middleware/auth.ts:22-37 | an unexpired access token issued to a stored user admits that user as stored now |
| AuthMiddleware.AuthenticateExpiredToken | backend/src/middleware/auth.ts:24-43 | an access token past its lifetime gives 401 'Invalid or expired token' |
| AuthMiddleware.AuthenticateRefusesRefreshToken | backend/src/middleware/auth.ts:24-43 | with distinct secrets a refresh token gives 401 'Invalid or expired token' |
| AuthMiddleware.AuthenticateDeletedUser | backend/src/middleware/auth.ts:26-34 | a valid token of a user no longer stored gives 401 'User not found' |
| AuthMiddleware.Authenticate | backend/src/middleware/auth.ts:6-44 | on admission attaches the user and calls `next` exactly once; otherwise writes the refusal and does not call `next` |
| AuthMiddleware.OptionalUser | backend/src/middleware/auth.ts:95-122 | a user is attached iff `authenticate` would admit one, and it is the same user |
| AuthMiddleware.OptionalAuth | backend/src/middleware/auth.ts:95-122 | never replies, calls `next` exactly once, and attaches a user exactly when `authenticate` would |
| AuthMiddleware.RoleGate | backend/src/middleware/auth.ts:46-66 | no user gives 401, a role outside the list 403, and the request proceeds iff a user with a listed role is attached |
| AuthMiddleware.AdminGate | backend/src/middleware/auth.ts:46-66 | `requireRole(['admin'])` lets through exactly administrators |
| AuthMiddleware.SubscriptionGate | backend/src/middleware/auth.ts:68-93 | no user gives 401, an inactive subscription 403, and the request proceeds iff the attached user has an active subscription now |
| AuthMiddleware.Apply | backend/src/middleware/auth.ts:46-93 | a guard that proceeds calls `next` once and replies nothing; one that halts replies and does not call `next`; `req.user` is untouched |
| AuthMiddleware.RequireRole | backend/src/middleware/auth.ts:46-66 | carries out the role decision on the request |
| AuthMiddleware.RequireSubscription | backend/src/middleware/auth.ts:68-93 | carries out the subscription decision on the request |
| AuthController.IssuedNamesHolder | backend/src/controllers/authController.ts:31-35 | an issued refresh token decodes to the {userId} of the user it was issued to |
| AuthController.OneHolder | backend/src/controllers/authController.ts:194-200 | while every held token names its holder and ids are unique, no two users hold the same refresh token |
| AuthController.Registration | backend/src/controllers/authController.ts:6-62 | `register` as a function of the User collection; its properties are those of `RegisterOutcome` and `RegisterKeepsTokensNamed` |
| AuthController.LoggedIn | backend/src/controllers/authController.ts:64-121 | `login` as a function of the User collection; its properties are those of `LoginOutcome` and `LoginKeepsTokensNamed` |
| AuthController.Refreshed | backend/src/controllers/authController.ts:123-180 | `refreshToken` as a function of the User collection; its properties are those of `RefreshOutcome`, `RefreshReplayRefused` and `RefreshKeepsTokensNamed` |
| AuthController.LoggedOut | backend/src/controllers/authController.ts:182-213 | `logout` as a function of the User collection; its properties are those of `LogoutOutcome` and `LogoutKeepsTokensNamed` |
| AuthController.RegisterOutcome | backend/src/controllers/authController.ts:6-62 | an email some stored user has once normalised, in any letter case or padding, gives 400 and changes nothing; otherwise 201 iff the new document validates; the one user appended has the normalised email, role 'user', a hash accepting exactly the given password, and exactly the one refresh token issued, which verifies to its {userId} as the access token does to {userId, email, role} (for a non-zero lifetime); any other outcome writes nothing |
| AuthController.RegisterIgnoresCase | backend/src/controllers/authController.ts:11 | emails with the same normalised form register alike: same reply, tokens and collection |
| AuthController.Register | backend/src/controllers/authController.ts:6-62 | the handler leaves the reply, tokens and users of `Registration` and touches no other collection |
| AuthController.LoginOutcome | backend/src/controllers/authController.ts:64-121 | the user looked up is the one whose stored email is the normalised email sent; an unknown email and a wrong password both give the same 401 and change nothing; a stored document that no longer validates gives 500 and changes nothing; success iff the user exists, the password matches and the document validates, which appends one new refresh token to that user, keeps the earlier ones and leaves every other user as it was |
| AuthController.LoginIgnoresCase | backend/src/controllers/authController.ts:69 | emails with the same normalised form log in alike |
| AuthController.Login | backend/src/controllers/authController.ts:64-121 | the handler leaves the reply, tokens and users of `LoggedIn` |
| AuthController.RefreshOutcome | backend/src/controllers/authController.ts:123-180 | a missing token gives 400; a bad or expired token, a missing user and a token no longer held all give 401 'Invalid refresh token' and change nothing; success removes every copy of the presented token from its holder, appends the new one and keeps every other token of every user |
| AuthController.RefreshReplayRefused | backend/src/controllers/authController.ts:148-164 | after a rotation that minted a different token, presenting the old token again gives 401 and changes nothing |
| AuthController.RefreshWithinSecondKeepsToken | backend/src/controllers/authController.ts:157-164 | a refresh in the same second the token was issued mints that same token again, so the user still holds it |
| AuthController.RefreshToken | backend/src/controllers/authController.ts:123-180 | the handler leaves the reply, tokens and users of `Refreshed` |
| AuthController.LogoutOutcome | backend/src/controllers/authController.ts:182-213 | a missing token gives 400; any other token gives 200 whether or not someone held it, after which no user holds it, every other token is kept, and logging out again changes nothing |
| AuthController.Logout | backend/src/controllers/authController.ts:182-213 | the handler leaves the reply and users of `LoggedOut` |
| AuthController.RegisterKeepsTokensNamed | backend/src/controllers/authController.ts:30-36 | register keeps every held refresh token with the user it names |
| AuthController.TokensNamedAfterWrite | backend/src/controllers/authController.ts:161-164 | rewriting one user, with tokens that all name it, keeps every held token with the user it names |
| AuthController.LoginKeepsTokensNamed | backend/src/controllers/authController.ts:88-94 | login keeps every held refresh token with the user it names |
| AuthController.RefreshKeepsTokensNamed | backend/src/controllers/authController.ts:157-164 | refresh keeps every held refresh token with the user it names |
| AuthController.LogoutKeepsTokensNamed | backend/src/controllers/authController.ts:194-200 | logout keeps every held refresh token with the user it names |
| AuthController.RegisterKeepsValidUsers | backend/src/controllers/authController.ts:28-36 | register appends only a document that passed the validators, so every stored user stays valid |
| AuthController.LoginKeepsValidUsers | backend/src/controllers/authController.ts:93-94 | login keeps every stored user valid, and on a collection of valid users its save never fails, so it never answers 500 |
| AuthController.RefreshKeepsValidUsers | backend/src/controllers/authController.ts:160-164 | refresh changes one refresh-token list and keeps every stored user valid |
| AuthController.LogoutKeepsValidUsers | backend/src/controllers/authController.ts:194-200 | logout changes one refresh-token list and keeps every stored user valid |
| AuthController.GetProfile | backend/src/controllers/authController.ts:215-249 | no path id and no authenticated user gives 400; 404 iff the id is a valid id that no stored user has; 200 iff a profile is returned, and it is the serialised stored user with that id |
| Store.FindByIdUnique | backend/src/models/User.ts:9-16 | with unique ids, `findById` of a stored user's id finds that user |
| Store.UniqueUsersAfterWrite | backend/src/models/User.ts:10-16 | rewriting a user without changing its id or email keeps the unique indexes |
| Store.UniqueUsersAfterUpdate | backend/src/models/User.ts:10-16 | rewriting a user under its id with an email no other user holds keeps the unique indexes |
| Store.UniqueUsersAfterRemove | backend/src/models/User.ts:10-16 | removing a user keeps the unique indexes |
| Store.UniqueUsersAfterAppend | backend/src/models/User.ts:10-16 | appending a user with a new id and a new email keeps the unique indexes |
| Store.ValidUsersKept | backend/src/models/User.ts:9-52 | changing users only in their snapshots and refresh tokens keeps every stored user valid, as no validator reads those paths |
| Store.ValidUsersAfterWrite | backend/src/models/User.ts:9-52 | rewriting one user with a valid document keeps every stored user valid |
| Store.ValidUsersAfterRemove | backend/src/models/User.ts:9-52 | removing a user keeps every remaining one valid |
| Store.ValidUsersAfterAppend | backend/src/models/User.ts:9-52 | appending a valid document keeps every stored user valid |
| Store.FindByEmailUnique | backend/src/models/User.ts:13 | with unique emails, findOne by a user's email finds that user |
| Store.Database.constructor | backend/src/models/Subscription.ts:9-24 | an empty database satisfies the unique indexes of every collection |
| Store.Database.InsertUser | backend/src/models/User.ts:10-16 | inserting a user with a fresh id and a free email appends it, keeps the indexes and touches no other collection |
| Store.Database.NewId | backend/src/controllers/authController.ts:21-26 | a fresh ObjectId differs from every id in use and leaves the collections unchanged |
| StripeService.UnknownEventIgnored | backend/src/services/stripeService.ts:130-155 | an event type without a handler completes and changes nothing |
| StripeService.Reconcile | backend/src/services/stripeService.ts:130-155 | `handleWebhookEvent` as a function of the collections; its properties are those of `ReconcileIdempotent`, `ReconcileKeepsIndexes` and `UnknownEventIgnored` |
| StripeService.Created | backend/src/services/stripeService.ts:158-190 | `handleSubscriptionCreated`; its properties are those of `CreatedUpserts`, `CreatedIdempotent` and `CreatedKeepsIndexes` |
| StripeService.Updated | backend/src/services/stripeService.ts:193-221 | `handleSubscriptionUpdated`; its properties are those of `UpdatedCreatesNoRecord`, `UpdatedIdempotent`, `StaleUpdateWins` and `UpdatedKeepsIndexes` |
| StripeService.Deleted | backend/src/services/stripeService.ts:224-250 | `handleSubscriptionDeleted`; its properties are those of `DeletedCancels`, `DeletedIdempotent` and `DeletedKeepsIndexes` |
| StripeService.Payment | backend/src/services/stripeService.ts:253-266 | the two invoice handlers; its properties are those of `PaymentDelegates` |
| StripeService.UnknownCustomerWritesNothing | backend/src/services/stripeService.ts:158-230 | a subscription event whose customer no user has throws and writes nothing |
| StripeService.SnapshotOfStatus | backend/src/services/stripeService.ts:166-172 | created and updated write 'active' iff the provider status is 'active' and never 'cancelled'; the snapshot carries the event's ids and its period end times 1000, and is entitled exactly while active before that end |
| StripeService.CreatedUpserts | backend/src/services/stripeService.ts:158-190 | a completed created event rewrites only the customer's snapshot; the user's record is then exactly the event's, with `cancelAtPeriodEnd` false by default; other records are kept and at most one is added |
| StripeService.UpdatedCreatesNoRecord | backend/src/services/stripeService.ts:211-220 | the updated handler never adds a record: a user without one still has none |
| StripeService.DeletedCancels | backend/src/services/stripeService.ts:224-250 | the deleted handler sets only the customer's snapshot, to 'cancelled' with the event's period end, so the user is no longer entitled; the user's record gets status 'cancelled' and `cancelAtPeriodEnd` true, everything else kept |
| StripeService.PaymentDelegates | backend/src/services/stripeService.ts:252-266 | an invoice without a subscription does nothing; one whose subscription cannot be fetched throws and writes nothing; otherwise it is the updated handler on the fetched subscription |
| StripeService.UpsertIdempotent | backend/src/services/stripeService.ts:177-189 | upserting the same record twice equals upserting it once |
| StripeService.CreatedIdempotent | backend/src/services/stripeService.ts:158-190 | handling a created event twice equals handling it once |
| StripeService.UpdatedIdempotent | backend/src/services/stripeService.ts:193-221 | handling an updated event twice equals handling it once |
| StripeService.DeletedIdempotent | backend/src/services/stripeService.ts:224-250 | handling a deleted event twice equals handling it once |
| StripeService.ReconcileIdempotent | backend/src/services/stripeService.ts:130-155 | redelivering any event ends exactly as delivering it once, outcome included |
| StripeService.StaleUpdateWins | backend/src/services/stripeService.ts:193-221 | an older update delivered after a newer one leaves exactly the older one's state, so the period end can move backwards |
| StripeService.UpsertKeepsUnique | backend/src/services/stripeService.ts:177-189 | a successful upsert keeps the record collection's unique indexes |
| StripeService.RefreshKeepsUnique | backend/src/services/stripeService.ts:212-220 | overwriting a record's other fields keeps the unique indexes |
| StripeService.ReconcileKeepsIndexes | backend/src/services/stripeService.ts:130-155 | handling any event changes users only through their snapshots and keeps both collections' unique indexes |
| StripeService.ReconcileKeepsValidUsers | backend/src/services/stripeService.ts:130-155 | handling any event keeps every stored user valid, since only snapshots change |
| StripeService.KeepsIndexes | backend/src/services/stripeService.ts:158-250 | each of the three subscription handlers keeps `IndexesKept`: users change only through their snapshots, and both collections' unique indexes hold |
| StripeService.CreatedKeepsIndexes | backend/src/services/stripeService.ts:158-190 | `handleSubscriptionCreated` changes users only through their snapshots and keeps both collections' unique indexes, whether the upsert succeeds or throws |
| StripeService.UpdatedKeepsIndexes | backend/src/services/stripeService.ts:193-221 | `handleSubscriptionUpdated` changes users only through their snapshots and keeps both unique indexes |
| StripeService.DeletedKeepsIndexes | backend/src/services/stripeService.ts:224-250 | `handleSubscriptionDeleted` changes users only through their snapshots and keeps both unique indexes |
| StripeService.WriteSnapshot | backend/src/services/stripeService.ts:159-174 | overwrites the snapshot of the first user with the customer id and nothing else, or writes nothing when there is none |
| StripeService.HandleSubscriptionCreated | backend/src/services/stripeService.ts:158-190 | the handler leaves the users, records and outcome of `Created` |
| StripeService.HandleSubscriptionUpdated | backend/src/services/stripeService.ts:193-221 | the handler leaves the users, records and outcome of `Updated` |
| StripeService.HandleSubscriptionDeleted | backend/src/services/stripeService.ts:224-250 | the handler leaves the users, records and outcome of `Deleted` |
| StripeService.HandlePayment | backend/src/services/stripeService.ts:252-266 | the handler leaves the users, records and outcome of `Payment` |
| StripeService.HandleWebhookEvent | backend/src/services/stripeService.ts:130-155 | the dispatcher leaves the users, records and outcome of `Reconcile` |
| SubscriptionController.WebhookReplies | backend/src/controllers/subscriptionController.ts:183-216 | a signature that does not verify gives 400 and writes nothing; a verified event gives 200 iff its handler completes and 500 iff it throws, with the collections its handler left |
| SubscriptionController.Webhook | backend/src/controllers/subscriptionController.ts:183-216 | `handleWebhook` as a function of the collections; its properties are those of `WebhookReplies` and `WebhookRedelivery` |
| SubscriptionController.WebhookRedelivery | backend/src/controllers/subscriptionController.ts:201-215 | a redelivered webhook gets the same reply and leaves the collections as the first delivery did |
| SubscriptionController.WebhookKeepsValidUsers | backend/src/controllers/subscriptionController.ts:183-216 | the webhook keeps every stored user valid |
| SubscriptionController.HandleWebhook | backend/src/controllers/subscriptionController.ts:183-216 | the handler leaves the reply and collections of `Webhook` |
| SubscriptionController.WithCustomer | backend/src/controllers/subscriptionController.ts:35-40 | the snapshot written stores the new customer id and keeps status, subscription id and period end, or starts from 'inactive' when there was none |
| SubscriptionController.Checkout | backend/src/controllers/subscriptionController.ts:12-67 | `createCheckoutSession` as a function of the User collection; its properties are those of `CheckoutStoresCustomer` and `CheckoutWithCustomerWritesNothing` |
| SubscriptionController.CheckoutWithCustomerWritesNothing | backend/src/controllers/subscriptionController.ts:17-20 | a user who already has a customer id creates no customer and writes nothing |
| SubscriptionController.CheckoutStoresCustomer | backend/src/controllers/subscriptionController.ts:20-42 | a user without one gets the new customer id stored on that user alone, the rest of the snapshot preserved, whether or not the session is then created |
| SubscriptionController.CheckoutKeepsValidUsers | backend/src/controllers/subscriptionController.ts:20-42 | checkout changes at most one snapshot and keeps every stored user valid |
| SubscriptionController.CreateCheckoutSession | backend/src/controllers/subscriptionController.ts:12-67 | the handler leaves the reply and users of `Checkout` |
| SubscriptionController.BillingPortal | backend/src/controllers/subscriptionController.ts:69-102 | no customer id gives 400; 200 iff there is one and the portal session is created |
| SubscriptionController.SubscriptionStatus | backend/src/controllers/subscriptionController.ts:104-149 | no subscription id reports no subscription; otherwise the report's `isActive` is `hasActiveSubscription` and its local status that of the user's record; 500 iff the provider lookup fails |
| SubscriptionController.CancelSubscription | backend/src/controllers/subscriptionController.ts:151-181 | no subscription id gives 400; 200 iff there is one and the cancellation request succeeds, reporting the provider's flag and period end; nothing local is written |
| LessonModel.UrlCases | backend/src/models/Lesson.ts:24-45 | after `http://` or `https://` the URL validator demands one more character that is no line terminator; every other non-empty value is refused |
| LessonModel.TrimAll | backend/src/models/Lesson.ts:58-62 | each tag is trimmed, and the list keeps its length and order |
| LessonModel.TrimOpt | backend/src/models/Lesson.ts:24-45 | an optional string path is trimmed when present, and stays absent when absent |
| LessonModel.CastIdempotent | backend/src/models/Lesson.ts:7-72 | applying the `trim` setters a second time changes nothing |
| LessonModel.StringErrors | backend/src/models/Lesson.ts:7-18 | a `required`/`maxlength` path reports nothing iff its length is between 1 and its limit |
| LessonModel.UrlErrors | backend/src/models/Lesson.ts:24-45 | a URL path reports nothing iff it is absent or passes the URL validator |
| LessonModel.DurationErrors | backend/src/models/Lesson.ts:46-51 | the duration reports nothing iff it is present and between 1 and 480 minutes |
| LessonModel.TagErrors | backend/src/models/Lesson.ts:58-62 | the tags report nothing iff every tag has at most 50 characters |
| LessonModel.LessonErrors | backend/src/models/Lesson.ts:6-76 | a new lesson's validators report nothing iff every path is within the schema's bounds |
| LessonModel.NewLesson | backend/src/models/Lesson.ts:63-78 | the stored document carries the body's values, `isPremium` false unless sent true, `order` 0 unless sent, and the creation time |
| LessonModel.CreatedLessonWellFormed | backend/src/models/Lesson.ts:6-78 | a body whose trimmed form passes the validators is stored as a well-formed lesson |
| LessonModel.OptStringErrors | backend/src/models/Lesson.ts:7-18 | a string path of an update reports nothing iff it is absent or of length 1 to its limit |
| LessonModel.PatchErrors | backend/src/models/Lesson.ts:6-72 | an update's validators report nothing iff every path it sets is within the schema's bounds; paths it does not set are not checked |
| LessonModel.ApplyPatch | backend/src/models/Lesson.ts:6-76 | the updated lesson takes each set path from the update and keeps every other path, its id and its creation time |
| LessonModel.PatchKeepsWellFormed | backend/src/models/Lesson.ts:6-76 | an update that passes its validators keeps a well-formed lesson well-formed |
| LessonModel.JsRem | backend/src/models/Lesson.ts:99 | JavaScript's `%`: Euclidean for a non-negative dividend, of the dividend's sign otherwise, and always dividend = quotient × divisor + remainder |
| LessonModel.DigitsHaveNoH | backend/src/models/Lesson.ts:101-104 | a decimal numeral contains no `h` |
| LessonModel.FormattedDuration | backend/src/models/Lesson.ts:97-105 | the `formattedDuration` virtual; its properties are those of `FormattedDurationOfNat`, `HoursShownIffHour`, `FormattedDurationInjective` and `FormattedValidDuration` |
| LessonModel.FormattedDurationOfNat | backend/src/models/Lesson.ts:97-105 | a duration of an hour or more renders as "Hh Mm" with its hours and remaining minutes, a shorter one as "Mm" |
| LessonModel.HoursShownIffHour | backend/src/models/Lesson.ts:101-104 | the rendering contains `h` iff the duration is at least an hour |
| LessonModel.FormattedDurationInjective | backend/src/models/Lesson.ts:97-105 | different non-negative durations render differently |
| LessonModel.FormattedValidDuration | backend/src/models/Lesson.ts:97-105 | every valid duration renders as its hours and minutes, with at most 8 hours |
| LessonModel.PrecedesIsTotalPreorder | backend/src/models/Lesson.ts:113 | the sort `order` ascending, then `createdAt` descending, is a total preorder |
| LessonModel.FindSpec | backend/src/models/Lesson.ts:108-131 | a query's result is sorted, holds each accepted lesson as often as stored, and holds exactly the accepted lessons |
| LessonModel.FindByCategory | backend/src/models/Lesson.ts:108-114 | the query carries the category as given, and the premium flag exactly when one is given; `find` casts the category through the trim setter (`PaddedCategoryFindsSame`) |
| LessonModel.Search | backend/src/models/Lesson.ts:117-131 | the query matches the term and constrains the premium flag exactly when one is given |
| LessonModel.UndefinedPremiumUnconstrained | backend/src/models/Lesson.ts:110-112 | with no premium flag, the category query accepts a lesson iff its category is the trimmed category asked for |
| LessonModel.PaddedCategoryFindsSame | backend/src/models/Lesson.ts:55-60 | a category filter sent with padding finds exactly the lessons the trimmed filter finds, in the same order |
| LessonController.PremiumConstraint | backend/src/controllers/lessonController.ts:20-27 | a caller who is not entitled is held to free lessons; for an entitled one `'true'` asks for premium, any other value for free, and no value for no constraint |
| LessonController.BuildQuery | backend/src/controllers/lessonController.ts:14-27 | the handler's successive assignments build the query that `ListQuery` describes |
| LessonController.GetAllLessons | backend/src/controllers/lessonController.ts:5-55 | `getAllLessons`; its properties are those of `ListSpec`, `UnentitledSeesOnlyFree`, `EntitledFilterHonoured` and `ValidatedListing` |
| LessonController.SearchLessons | backend/src/controllers/lessonController.ts:175-241 | `searchLessons`; its properties are those of `SearchOutcome`, `SearchNeedsTerm` and `UnentitledSeesOnlyFree` |
| LessonController.GetLessonsByCategory | backend/src/controllers/lessonController.ts:243-290 | `getLessonsByCategory`; its properties are those of `ListSpec`, `UnentitledSeesOnlyFree` and `PaddedPathCategory` |
| LessonController.PaddedPathCategory | backend/src/controllers/lessonController.ts:246-252 | a path category sent with padding lists exactly what the bare category lists |
| LessonController.ListSpec | backend/src/controllers/lessonController.ts:29-55 | a list answers 200 iff it has a page; the total counts the accepted lessons, the page holds at most `limit` of them, and each item is a stored lesson the query accepts |
| LessonController.UnentitledSeesOnlyFree | backend/src/controllers/lessonController.ts:24-27 | for a caller who is not entitled, none of the three list handlers returns a premium lesson, whatever `isPremium` asks |
| LessonController.EntitledFilterHonoured | backend/src/controllers/lessonController.ts:16-27 | for an entitled caller `isPremium` is honoured, and without it and a category the list is unconstrained |
| LessonController.SearchNeedsTerm | backend/src/controllers/lessonController.ts:184-190 | a search with no or an empty term answers 400 "Search term is required" and returns no page |
| LessonController.SearchOutcome | backend/src/controllers/lessonController.ts:175-241 | 400 iff there is no search term; 500 when the term is no valid pattern; 200 iff a page is returned, and then it counts and holds only lessons matching the term and the other filters |
| LessonController.ValidatedListing | backend/src/controllers/lessonController.ts:7-47 | with a page of at least 1 and a limit from 1 to 100, `getAllLessons` answers 200 with at most `limit` lessons and the fewest pages that hold every match |
| LessonController.ValidatedList | backend/src/controllers/lessonController.ts:29-47 | the same for any list query: a 200 with the success message, at most `limit` items, and the fewest pages that hold every match |
| LessonController.GetLessonById | backend/src/controllers/lessonController.ts:57-92 | an id that does not cast gives 500; 404 iff no lesson has the id; 403 iff the lesson is premium and the caller not entitled; otherwise 200 with that stored lesson |
| LessonController.LessonGate | backend/src/controllers/lessonController.ts:61-84 | with unique ids a free lesson is served to anyone, and a premium one to exactly the entitled callers |
| LessonController.CreationKeepsWellFormed | backend/src/controllers/lessonController.ts:94-113 | creation answers 201 iff the trimmed body conforms to the schema, appends a well-formed lesson, and otherwise writes nothing |
| LessonController.CreateLesson | backend/src/controllers/lessonController.ts:94-113 | the handler's reply and new lessons are those of `LessonCreation`; users and subscription records are untouched and one id is used |
| LessonController.UpdateSpec | backend/src/controllers/lessonController.ts:115-146 | only a 200 writes; 404 iff the id casts, the update validates and no lesson has the id; a 200 rewrites that lesson alone and keeps all lessons well-formed |
| LessonController.UpdateLesson | backend/src/controllers/lessonController.ts:115-146 | the handler's reply and new lessons are those of `LessonUpdate`; nothing else changes |
| LessonController.DeletionSpec | backend/src/controllers/lessonController.ts:148-173 | only a 200 writes; 404 iff the id casts and no lesson has it; a 200 removes one lesson, leaves none with that id, and keeps every other lesson |
| LessonController.DeleteLesson | backend/src/controllers/lessonController.ts:148-173 | the handler's reply and new lessons are those of `LessonDeletion`; nothing else changes |
| Paging.DigitPrefix | backend/src/controllers/lessonController.ts:7-8 | the longest prefix of decimal digits, which `parseInt` reads |
| Paging.ParseIntOfDigits | backend/src/controllers/lessonController.ts:7-8 | `parseInt` of a number's decimal digits gives that number back, whatever non-digit text follows |
| Paging.ParseIntOfNat | backend/src/controllers/lessonController.ts:7-8 | `parseInt` of a plain decimal numeral gives its value |
| Paging.DigitPrefixOf | backend/src/controllers/lessonController.ts:7-8 | digits followed by a non-digit: the digit prefix is exactly those digits |
| Paging.IntOr | backend/src/controllers/lessonController.ts:7-8 | `parseInt(q) \|\| fallback` gives the fallback for a missing parameter, one that is no number, or 0, and the number otherwise; with a non-zero fallback it is never 0 |
| Paging.TotalPages | backend/src/controllers/lessonController.ts:35 | `Math.ceil(total / limit)` is never negative for a positive limit and 0 for no items; for a negative limit it is the negated quotient |
| Paging.TotalPagesBound | backend/src/controllers/lessonController.ts:35 | for a positive limit the page count is the least number of `limit`-sized pages that holds `total` items |
| Paging.SkipOfPositive | backend/src/controllers/lessonController.ts:11 | with a page and a limit of at least 1, `(page - 1) * limit` is not negative |
| Paging.SkipLimit | backend/src/controllers/lessonController.ts:11-33 | a negative skip is refused; otherwise the result is the documents after `skip` in order, at most `limit` of them when `limit` is not 0 |
| Paging.Paginate | backend/src/controllers/lessonController.ts:7-47 | a page exists iff the computed skip is non-negative; it reports page, limit, total and page count, and its items are the matches from the skip on, at most `limit` of them |
| Paging.PageItemsIn | backend/src/controllers/lessonController.ts:30-33 | every item of a page is one of the sorted matches |
| Paging.PageOfPositive | backend/src/controllers/lessonController.ts:7-33 | a page and a limit of at least 1 never make the query fail, and the items are the window of the matches that starts at `(page - 1) * limit` |
| Paging.IntOrOfNat | backend/src/controllers/lessonController.ts:7-8 | `parseInt(q) \|\| fallback` of a non-zero decimal numeral is its value |
| Paging.ValidatedPaging | backend/src/controllers/userController.ts:46-57 | a page of at least 1 and a limit from 1 to 100, in plain decimal, never fail: page and limit are reported as sent, the items are the window at `(page - 1) * limit`, and the total and page count are those of all matches |
| Paging.ValidatedPageCount | backend/src/controllers/lessonController.ts:7-35 | with validated parameters a page holds at most `limit` matches and the page count is the fewest pages of that size holding them all |
| Paging.DefaultPaging | backend/src/controllers/lessonController.ts:7-8 | missing parameters give the first 10 matches as page 1 of limit 10 |
| UserController.StripAsWritten | backend/src/controllers/userController.ts:10-14 | the body loses exactly the keys `password`, `role`, `subscription` and `refreshTokens`, and keeps every other key and value |
| UserController.Root | backend/src/controllers/userController.ts:10-14 | the first segment of a path is a prefix of it |
| UserController.Strip | backend/src/controllers/userController.ts:10-14 | the corrected stripping: a key stays iff its first segment is none of the four protected fields, with its value |
| UserController.StatusOf | backend/src/models/User.ts:46-50 | a status string casts to active iff it is `"active"` |
| UserController.UpdateErrors | backend/src/controllers/userController.ts:16-20 | an update passes its casts and validators iff each path it sets satisfies that path's rule |
| UserController.ValidatorErrors | backend/src/controllers/userController.ts:16-20 | the update validators of email, password and the two names report nothing iff each of those paths the body sets is within its rule |
| UserController.CastErrors | backend/src/controllers/userController.ts:16-20 | the casts of `role`, `subscription.status` and `subscription.currentPeriodEnd` fail iff a path the body sets does not name an enum value or a date |
| UserController.ApplyUpdate | backend/src/controllers/userController.ts:16-20 | a `$set` keeps the user's id and creation time; it leaves the password and role when the body sets neither, the snapshot when it sets no snapshot path, and the number of refresh tokens, overwriting exactly the slots its positional paths name |
| UserController.ApplyUpdateKeepsValid | backend/src/controllers/userController.ts:16-20 | an update the casts and validators accept keeps a valid user valid |
| UserController.ProfileUpdate | backend/src/controllers/userController.ts:5-42 | `updateProfile` as written, the `$set` of the body minus its four top-level protected keys; its properties are those of `ProfileUpdateSpec`, `DottedPathGrantsSubscription` and `PositionalPathRewritesToken` |
| UserController.DottedPathGrantsSubscription | backend/src/controllers/userController.ts:10-20 | as written, a profile update setting `subscription.status` to active and a future period end answers 200 and leaves its sender with an active subscription |
| UserController.PositionalPathRewritesToken | backend/src/controllers/userController.ts:10-20 | as written, a profile update setting `refreshTokens.0` answers 200 and overwrites its sender's first refresh token with the value sent |
| UserController.RootOfDotted | backend/src/controllers/userController.ts:10-14 | the root of `field.sub` is `field` |
| UserController.StripKeepsProtected | backend/src/controllers/userController.ts:10-20 | after the corrected stripping no update changes the password, role, subscription snapshot or refresh tokens |
| UserController.StripDropsProtected | backend/src/controllers/userController.ts:10-14 | the corrected stripping removes `password`, `role` and every dotted path into the snapshot |
| UserController.RootOfPlain | backend/src/controllers/userController.ts:10-14 | an undotted path is its own root |
| UserController.ProfileUpdateSpec | backend/src/controllers/userController.ts:5-42 | as written: only a 200 writes; 404 iff the update validates and no user has the id; a 200 rewrites that user alone by the whole `$set`, never changes its password or role, keeps the unique indexes and the validity of every user, and returns its public view |
| UserController.ProfileUpdateOfSpec | backend/src/controllers/userController.ts:16-41 | for any stripped body: 500 when a cast or validator refuses it, 404 iff it validates and no user has the id, and a 200 rewrites the user with that id alone, keeping the indexes and the validity of every user |
| UserController.ProfileUpdateIntended | backend/src/controllers/userController.ts:10-14 | the handler with the corrected stripping; its property is `ProfileUpdateIntendedSpec` |
| UserController.ProfileUpdateIntendedSpec | backend/src/controllers/userController.ts:10-20 | with the corrected stripping a 200 keeps the password, role, snapshot and refresh tokens of the updated user |
| UserController.UpdateProfile | backend/src/controllers/userController.ts:5-42 | the handler's reply, profile and new users are those of `ProfileUpdate`, the code as written; nothing else changes |
| UserController.Publics | backend/src/controllers/userController.ts:52 | each user is listed by its public view, in the same order |
| UserController.GetAllUsers | backend/src/controllers/userController.ts:44-77 | `getAllUsers`; its properties are those of `GetAllUsersSpec` |
| UserController.GetAllUsersSpec | backend/src/controllers/userController.ts:44-77 | the page answers 200 iff it exists, counts every user, holds at most `limit` stored users' public views, and lists them newest first |
| UserController.PageKeepsOrder | backend/src/controllers/userController.ts:53-55 | a page cut from a list sorted newest first is itself sorted newest first |
| UserController.NewerFirstIsTotalPreorder | backend/src/controllers/userController.ts:53 | `createdAt` descending is a total preorder |
| UserController.NewestFirst | backend/src/controllers/userController.ts:53 | the sorted users are a permutation of the stored ones, newest first |
| UserController.GetUserById | backend/src/controllers/userController.ts:79-105 | 200 iff there is a profile; 404 iff the id casts and no user has it; a profile is the public view of the user with that id |
| UserController.UserDeletion | backend/src/controllers/userController.ts:107-132 | `deleteUser` as a function of the User collection; its properties are those of `UserDeletionSpec` |
| UserController.UserDeletionSpec | backend/src/controllers/userController.ts:107-132 | only a 200 writes; 404 iff the id casts and no user has it; a 200 removes one user, leaves none with that id, keeps every other user and the unique indexes |
| UserController.UserDeletionKeepsValidUsers | backend/src/controllers/userController.ts:107-132 | deleting a user keeps every remaining user valid |
| UserController.DeleteUser | backend/src/controllers/userController.ts:107-132 | the handler's reply and new users are those of `UserDeletion`; nothing else changes |
| ErrorHandler.HandleError | backend/src/middleware/errorHandler.ts:4-90 | the handler's tests, run in order, give the reply `Response` describes: the last matching test decides, with 500 and "Server Error" as fallbacks |
| ErrorHandler.Response | backend/src/middleware/errorHandler.ts:4-97 | the reply the handler writes for an error; its properties are those of `HandleError`, `NamedRules`, `StripeOverrides`, `Fallback` and `ReplyShape` |
| ErrorHandler.NamedRules | backend/src/middleware/errorHandler.ts:23-70 | without a Stripe message: a CastError gives 404, a duplicate key 400, a ValidationError 400 with the joined field messages, a JsonWebTokenError and a TokenExpiredError 401, each with its fixed message |
| ErrorHandler.JoinNonEmpty | backend/src/middleware/errorHandler.ts:45 | joining messages whose first is non-empty gives a non-empty message |
| ErrorHandler.StripeOverrides | backend/src/middleware/errorHandler.ts:72-80 | a message mentioning Stripe gives 400 "Payment processing error", whatever the error's name |
| ErrorHandler.Fallback | backend/src/middleware/errorHandler.ts:82-83 | when no rule applies, the error's own status (500 when missing or 0) and message ("Server Error" when empty) stand |
| ErrorHandler.ReplyShape | backend/src/middleware/errorHandler.ts:82-89 | every reply has a non-zero status and a non-empty message, and carries the stack exactly in development |
| ErrorHandler.CreateError | backend/src/middleware/errorHandler.ts:92-97 | the error carries the message, the given status or 500, and is marked operational |
| ErrorHandler.CreatedErrorReply | backend/src/middleware/errorHandler.ts:82-97 | an error from `createError` is answered with its own status and message, unless the message mentions Stripe, which gives 400 |
| Validators.IntLiteral | backend/src/routes/lessons.ts:31-33 | a string `isInt` accepts starts with a sign or a digit |
| Validators.ParseIntOfLiteral | backend/src/routes/lessons.ts:123-131 | a string `isInt` accepts is read by `parseInt` as the same integer, so the route's bounds hold for the number the controller uses |
| Pipeline.Run | backend/src/routes/lessons.ts:148-160 | a chain that stops was stopped by one of its steps with a reply that step gives; a chain that changes `req.user` holds an authentication step |
| Pipeline.ValidationKeepsUser | backend/src/routes/lessons.ts:149-151 | validation steps reach the handler iff every rule set reports nothing, and leave `req.user` unchanged |
| Pipeline.AuthenticatedRole | backend/src/middleware/auth.ts:6-66 | `authenticate, requireRole(roles)` then validation reach the handler iff the token authenticates a stored user with one of `roles` and the rules report nothing, and hand over that user |
| Pipeline.RoleStep | backend/src/middleware/auth.ts:46-66 | with a user attached, `requireRole(roles)` runs the rest of the chain iff the user's role is among `roles`, and otherwise answers 403 |
| Pipeline.AuthenticatedSubscriber | backend/src/middleware/auth.ts:6-93 | `authenticate, requireSubscription` reach the handler iff the token authenticates a stored user whose subscription is active now |
| Pipeline.SubscriptionStep | backend/src/middleware/auth.ts:68-93 | with a user attached, `requireSubscription` passes iff the user's snapshot is active now, keeping that user |
| Pipeline.Authenticated | backend/src/middleware/auth.ts:6-44 | `authenticate` alone reaches the handler iff the token authenticates, with that user, and otherwise answers 401 |
| Pipeline.OptionallyAuthenticated | backend/src/middleware/auth.ts:95-122 | validation then `optionalAuth` stops only on a rule set's messages, and otherwise hands over the user the token names, if any |
| AuthRoutes.FirstLine | backend/src/routes/auth.ts:24 | the text before the first line terminator, which a regular-expression `.*` can span |
| AuthRoutes.PasswordRuleErrors | backend/src/routes/auth.ts:21-25 | the password chain reports nothing iff the password has at least 6 characters and a lower-case letter, an upper-case letter and a digit before its first line break; both messages can be reported |
| AuthRoutes.NameRuleErrors | backend/src/routes/auth.ts:26-33 | a name chain reports nothing iff the trimmed name has 1 to 50 characters |
| AuthRoutes.EmailRuleErrors | backend/src/routes/auth.ts:17-20 | the email chain reports nothing iff the address passes `isEmail` |
| AuthRoutes.RegisterErrors | backend/src/routes/auth.ts:16-34 | the register rules report nothing iff the email is an address, the password has at least 6 characters and meets the policy, and both trimmed names have 1 to 50 characters |
| AuthRoutes.LoginErrors | backend/src/routes/auth.ts:36-44 | the login rules report nothing iff the email is an address and the password is not empty |
| AuthRoutes.TokenErrors | backend/src/routes/auth.ts:46-56 | the refresh and logout rules report nothing iff the refresh token is not empty |
| AuthRoutes.RegisterRulesImplySchema | backend/src/routes/auth.ts:16-34 | a body the register rules accept also passes the user schema's password and name validators |
| AuthRoutes.SessionRoutesUnguarded | backend/src/routes/auth.ts:59-62 | register, login, refresh and logout reach their handler iff the body passes their rules, with no user attached, whatever the credentials |
| AuthRoutes.ProfileRoutesAuthenticated | backend/src/routes/auth.ts:63-64 | the profile routes reach `getProfile` iff a stored user presents a valid access token, and answer 401 otherwise |
| LessonRoutes.TrimmedLength | backend/src/routes/lessons.ts:19-22 | a `trim().isLength` chain reports nothing iff the trimmed value's length is within the bounds |
| LessonRoutes.TagElementErrors | backend/src/routes/lessons.ts:41-44 | the `tags.*` chain reports nothing iff every trimmed tag has 1 to 50 characters |
| LessonRoutes.TagErrors | backend/src/routes/lessons.ts:38-44 | the tags report nothing iff they are an optional absent field, or an array whose every trimmed element has 1 to 50 characters |
| LessonRoutes.BodyRules | backend/src/routes/lessons.ts:18-121 | the create and update rule sets report nothing exactly for the bodies whose present (or required) fields are within their bounds |
| LessonRoutes.ValidatedQueryPaging | backend/src/routes/lessons.ts:123-131 | a query the rules accept yields a page of at least 1 and a limit from 1 to 100, so the listing's skip is never negative and its items are the window the page names |
| LessonRoutes.QueryBounds | backend/src/routes/lessons.ts:123-131 | a validated query's page is at least 1 and its limit between 1 and 100, as the controller computes them |
| LessonRoutes.ParamsOf | backend/src/routes/lessons.ts:132-141 | the parameters a list handler reads, with the category and search term trimmed by the sanitizers; its properties are those of `SanitizedListQuery` |
| LessonRoutes.SanitizedListQuery | backend/src/routes/lessons.ts:132-141 | a query the rules admit never has its search term refused as missing, and a category it carries reaches the listing trimmed |
| LessonRoutes.WritesNeedAdmin | backend/src/routes/lessons.ts:158-160 | create, update and delete reach their handler only for a stored administrator with a valid access token, and create and update only with a body their rules accept |
| LessonRoutes.CreateNeedsAdmin | backend/src/routes/lessons.ts:158 | `POST /` reaches `createLesson` only for a stored administrator and a body `lessonValidation` accepts |
| LessonRoutes.UpdateNeedsAdmin | backend/src/routes/lessons.ts:159 | `PUT /:id` reaches `updateLesson` only for a stored administrator and a body `updateLessonValidation` accepts |
| LessonRoutes.AdminChain | backend/src/routes/lessons.ts:158-160 | `authenticate, requireRole(['admin'])` then validation reach the handler only for a stored administrator, with every rule set passing |
| LessonRoutes.AdminName | backend/src/routes/lessons.ts:158 | the role name is in `['admin']` iff the role is the administrator's |
| LessonRoutes.PremiumRouteNeedsSubscription | backend/src/routes/lessons.ts:155 | `/premium/:id` reaches `getLessonById` iff the token authenticates a stored user whose subscription is active now |
| LessonRoutes.PublicReadsOptionallyAuthenticated | backend/src/routes/lessons.ts:148-152 | the listings stop only on a query the rules reject, `/:id` never stops, and each hands its handler the user the token names, if any |
| LessonsPage.FetchOf | frontend/src/pages/LessonsPage.tsx:40-58 | the search endpoint is called iff the term is non-empty, with that term; page, limit and premium filter are passed; a category is sent iff one is selected |
| LessonsPage.NextPremiumFilter | frontend/src/pages/LessonsPage.tsx:70-79 | the premium filter button; its property is `PremiumFilterCycle` |
| LessonsPage.FormatDuration | frontend/src/pages/LessonsPage.tsx:88-92 | the page's duration label; `FormatDurationAgrees` states that it renders as the lesson model does |
| LessonsPage.PremiumFilterCycle | frontend/src/pages/LessonsPage.tsx:70-79 | the premium filter moves through three states: three clicks bring it back, one or two do not |
| LessonsPage.ToggledCategory | frontend/src/pages/LessonsPage.tsx:65-68 | clicking the selected category clears it; clicking another selects that one |
| LessonsPage.CategoryClickedTwice | frontend/src/pages/LessonsPage.tsx:65-68 | clicking a category twice from none leaves none selected |
| LessonsPage.HandlersResetPage | frontend/src/pages/LessonsPage.tsx:60-86 | search, category change, premium toggle and clear all return to page 1; clear fetches the unconstrained list |
| LessonsPage.PagerStaysInRange | frontend/src/pages/LessonsPage.tsx:303-330 | from any page in range, Previous and Next stay in range, and each moves by exactly one page when enabled |
| LessonsPage.StaleKeyAsWritten | frontend/src/pages/LessonsPage.tsx:40-58 | on page 1, a new category or a premium toggle leaves the key as written unchanged while the request changes |
| LessonsPage.QueryKeyDeterminesFetch | frontend/src/pages/LessonsPage.tsx:40-58 | with the corrected key, equal keys mean equal requests |
| LessonsPage.FetchDeterminesQueryKey | frontend/src/pages/LessonsPage.tsx:40-58 | with the corrected key, equal requests mean equal keys |
| LessonsPage.FormatDurationAgrees | frontend/src/pages/LessonsPage.tsx:88-92 | the page renders a duration exactly as the lesson model's `formattedDuration` does |
| LessonsPage.Page.constructor | frontend/src/pages/LessonsPage.tsx:21-27 | the page starts on page 1 of 12 with no search term, no category and no premium filter |
| LessonsPage.Page.SetSearchTerm | frontend/src/pages/LessonsPage.tsx:149 | typing changes the search term and nothing else |
| LessonsPage.Page.HandleSearch | frontend/src/pages/LessonsPage.tsx:60-63 | the new state is `Searched` of the old |
| LessonsPage.Page.HandleCategoryChange | frontend/src/pages/LessonsPage.tsx:65-68 | the new state is `CategoryChanged` of the old |
| LessonsPage.Page.HandlePremiumFilter | frontend/src/pages/LessonsPage.tsx:70-79 | the new state is `PremiumToggled` of the old |
| LessonsPage.Page.ClearFilters | frontend/src/pages/LessonsPage.tsx:81-86 | the new state is `Cleared` of the old |
| LessonsPage.Page.Previous | frontend/src/pages/LessonsPage.tsx:306-308 | on page 1 nothing changes; otherwise only the page changes, to the previous one |
| LessonsPage.Page.Next | frontend/src/pages/LessonsPage.tsx:328-330 | on the last page nothing changes; otherwise only the page changes, to the next one |
| LessonsPage.Page.GoTo | frontend/src/pages/LessonsPage.tsx:314-317 | a numbered button sets the page and nothing else |
| LessonDetailPage.ScreenOf | frontend/src/pages/LessonDetailPage.tsx:45-124 | the spinner iff loading; the failure view iff it failed or has no lesson; the upsell iff the lesson is premium and the client gate refuses; the lesson otherwise |
| LessonDetailPage.CanAccessPremium | frontend/src/pages/LessonDetailPage.tsx:74 | the client gate; `ServerEntitlementAdmitsClient` and `LapsedSubscriptionSplitsGates` relate it to the backend's |
| LessonDetailPage.SettledScreen | frontend/src/pages/LessonDetailPage.tsx:23-29 | a settled query never shows the spinner; the backend answers for the stored user, while the page gate reads the client's copy |
| LessonDetailPage.ServerEntitlementAdmitsClient | frontend/src/pages/LessonDetailPage.tsx:74 | a caller the backend admits to premium lessons is one the client admits |
| LessonDetailPage.LapsedSubscriptionSplitsGates | frontend/src/pages/LessonDetailPage.tsx:74 | an active status whose period has ended passes the client gate but not the backend's |
| LessonDetailPage.UpsellExactly | frontend/src/pages/LessonDetailPage.tsx:74-77 | the upsell is shown iff the backend sent a premium lesson, so the stored user is entitled, while the client's copy fails the gate |
| LessonDetailPage.UpsellUnreachable | frontend/src/pages/LessonDetailPage.tsx:77-122 | while the client's copy passes the gate whenever the backend admits the stored user, the upsell view is never shown |
| LessonDetailPage.StoredLessonScreen | frontend/src/pages/LessonDetailPage.tsx:23-124 | while the client's copy agrees with the backend, a stored lesson is shown in full iff it is free or the stored user is entitled, and otherwise the page shows the failure view |
| LessonDetailPage.OptimisticCancel | frontend/src/pages/SubscriptionPage.tsx:59-68 | the copy kept after a cancellation never passes the page's gate and differs from the user only in its snapshot |
| LessonDetailPage.CancelledCopyShowsUpsell | frontend/src/pages/SubscriptionPage.tsx:54-72 | after a cancellation the copy lags the still-entitled stored user, and a stored premium lesson is met with the upsell |

## Left out

- The billing provider's SDK calls (backend/src/services/stripeService.ts:12-127) are foreign network calls. Their results are parameters: the customer created at checkout, the portal and cancellation answers, and `getSubscription` for the invoice handlers.
- Webhook signature verification is cryptography. The model takes the verified event, or its absence, as a parameter.
- bcrypt is a `Hashed` value that `comparePassword` accepts for exactly the hashed password; the salt and the cost are not modelled.
- JWT signing is a concrete injective encoding with a signature that records the key. Forgery, the HMAC and base64url are not modelled.
- MongoDB persistence is a sequence per collection. `findOne` is the first match in stored order, and unique indexes are checked where a handler's write can hit them. A collection's other indexes serve only speed and are left out.
- The `$regex` search is a parameter `rx(pattern, text)`, and so are validator.js's `isEmail` and `isURL`. The sanitizers write their values back into the request, so the handlers receive the email `normalizeEmail` leaves, and the category and search term trimmed (`LessonRoutes.ParamsOf`). The lookups by email and by category cast their filter through the schema's lowercase-and-trim setters (`UserModel.NormalizeEmail`, `Text.Trim`); the `$regex` term is not cast. `normalizeEmail` itself is not modelled: the handler's `email` parameter is whatever it left.
- Jwt.Timespan: reads a bare number and a number followed by one of the units s, m, h, d, w, y. The `ms` library's other spellings (long unit names, `"1.5h"`, negative spans) are the parameter `other`, and a string it cannot read, on which the token library throws, is not modelled.
- ObjectIds are natural numbers. A path id that does not cast throws in the code, and the model answers that with the handler's 500.
- Numbers are integers. JavaScript's floating point beyond 2^53 is not modelled, nor is `parseInt` of a hexadecimal literal. A Date path of an update is cast from decimal milliseconds only.
- A negative skip makes the query fail; the model answers it with the handler's 500.
- `setDate(getDate() + 7)` is taken as adding 7 × 86400000 ms; local time and daylight saving are not modelled.
- `updatedAt` timestamps are not modelled, as no decision reads them.
- The Lesson `toJSON` transform (backend/src/models/Lesson.ts:79-86) renames `_id` to `id` and drops `__v`. The model's lesson carries `id` already and has no version key, so the transform is the identity here.
- backend/src/middleware/validation.ts is not part of this model. The reply `validateRequest` gives to a non-empty list of messages is a parameter `rejection`.
- An update body's non-string values, nested objects and `$` operators are not interpreted; its keys map to strings.
- `deleteUser` leaves the user's subscription record behind, as the code does; no lemma is stated about that record.
- Concurrency is left out: parallel refreshes of one token and overlapping webhook deliveries. Every call runs to completion before the next.
- Logging (`console.*`) has no effect on any decision and is left out.
- The pages' rendering and JSX, react-query's caching beyond its key and `keepPreviousData`, and the API client frontend/src/services/api.ts are left out. A parameter the page leaves undefined is taken as not sent.
- backend/src/routes/subscriptions.ts and backend/src/routes/users.ts only wire handlers to paths, and are not part of this model; the webhook route there has no guard.
- The other frontend pages and App.tsx only render, and are not part of this model.
- The regular expressions' `.` does not match a line terminator. `AuthRoutes.FirstLine` and `LessonModel.ValidUrl` model that; case mapping and string lengths have a line of their own below; other Unicode details are left out.
- `LessonModel.FormattedDuration` and `LessonsPage.FormatDuration` render only integer durations; a fractional number of minutes is outside the model.
- The schema's email pattern (backend/src/models/User.ts:16) is a parameter `emailPattern`, a predicate on the stored string; the regular expression itself is not modelled. Every validator is applied to the value the setters leave, as Mongoose does.
- The saves of `refreshToken`, `logout` and the webhook handlers change only refresh tokens or the snapshot, which no validator reads. On a collection of valid users, which every handler keeps (the `KeepsValidUsers` lemmas), they cannot fail, and the model leaves their failure branches out; `login`'s 500 branch is modelled and proved unreachable on such a collection (`AuthController.LoginKeepsValidUsers`).
- ApplyUpdate: a positional path at or past the end of the refresh tokens, on which MongoDB pads the array with nulls, is ignored, as the model's tokens are strings; so is an index written other than as a plain decimal numeral.
- SearchLessons: the reply's `searchTerm` field (backend/src/controllers/lessonController.ts:231) is not modelled, nor is the `category` field of `getLessonsByCategory`'s reply (backend/src/controllers/lessonController.ts:280); both echo a request parameter.
- `ToLower` lowers only the ASCII letters, where JavaScript's `toLowerCase` follows the full Unicode case mapping; and the length bounds (`maxlength`, `minlength`, `isLength`) count Dafny characters, where JavaScript counts UTF-16 code units, so a character outside the Basic Multilingual Plane counts once here and twice there.

## Findings

| source | as written | input that shows it | evidently intended | confidence | as-written member | corrected member |
|---|---|---|---|---|---|---|
| backend/src/controllers/userController.ts:10-14 | only the top-level keys `password`, `role`, `subscription` and `refreshTokens` are deleted from the update, so a dotted path into the snapshot, or a positional path into the refresh tokens, reaches the `$set` | a profile update with body `{"subscription.status": "active", "subscription.currentPeriodEnd": <a future time>}`; likewise `{"refreshTokens.0": <any string>}` for a user holding a token | no update reaches the subscription snapshot or the refresh tokens, whatever the path names | high (not executed) | UserController.ProfileUpdate, UserController.DottedPathGrantsSubscription, UserController.PositionalPathRewritesToken | UserController.ProfileUpdateIntended, UserController.ProfileUpdateIntendedSpec |
| frontend/src/pages/LessonsPage.tsx:41 | the query key is `['lessons', filters, searchTerm]`, although `queryFn` also reads the selected category and the premium filter | on page 1 with no search term, click a category: the key is unchanged, so the cached lessons of the previous filter stay on screen | the key holds every state variable the request depends on | high (not executed) | LessonsPage.QueryKeyAsWritten, LessonsPage.StaleKeyAsWritten | LessonsPage.QueryKey, LessonsPage.QueryKeyDeterminesFetch |
