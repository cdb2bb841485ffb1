# Planna: account upsert webhook and subscription flow

A Dafny model of the two pieces of decision logic in the Planna meal-plan
web application:

- **The identity-provider webhook** (`POST /api/webhook/clerk`). It receives a
  user-change notification, checks that the notification has `data`, a user
  id and a usable email (in that order), picks the primary email, and upserts
  the local user record keyed by email. On create it sets the id, name and
  email. On update it changes only the name. Failures return 400 or 500. The
  handler is the pure function `ClerkWebhook.Handle(request, store, runtime)`.
  It returns the response and the new store. The store is a map from email
  to the record's other columns.
- **The subscription flow** (`useSubscription`). `handleSubscribe` makes a
  three-way decision: an anonymous viewer goes to sign-up; the label `"free"`
  shows a notice and runs the caller's continuation; any other label starts
  the checkout mutation with the lower-cased label. The mutation shows a
  loading toast. Its guard refuses to send a request without a user id and an
  email. Otherwise it posts `{userId, planType, email}` to `/api/check-out`,
  then redirects to the returned URL or shows the mapped error. Every effect
  is an `Action` in a returned trace. The endpoint's answer is an input
  (`HttpOutcome`).

`JsValues` holds the JavaScript semantics both pieces use: optional fields,
string truthiness (`undefined` and `""` are falsy), `a || b`, and
`toLowerCase`.

Inputs that stand in for I/O:

- `Runtime.clientInitialized` stands in for the database-client check.
- `Runtime.upsertFault` is a failure of the upsert call.
- `Runtime.idConflictMessage` is the database's message when a create reuses
  an existing primary key.
- `Runtime.isDevelopment` stands in for `process.env.NODE_ENV === 'development'`.
- `Request.Unparsable` is a body that is not JSON.

Behaviour of the code worth noting:

- The 500 response carries `details` only when `NODE_ENV` is exactly
  `development`, not in every non-production environment.
- `handleSubscribe` calls the continuation only when one is supplied, so it
  is called at most once, not always exactly once.
- A user whose primary email changes keeps the same id. The new email looks
  unknown, so the upsert tries to create a record whose id is already taken.
  The database refuses that create and the handler answers 500
  (`PrimaryEmailChangeConflicts`).
- The checkout request carries the viewer's first listed email address
  (`ViewerEmail`). The webhook stores the user under the address flagged as
  primary (`PrimaryEmail`). When the primary address is not listed first,
  the checkout email is not the email of the stored user record.
- The free check compares the raw label. A direct caller passing `"Free"`
  starts a checkout for the plan `"free"` (`RawLabelFreeCheck`). Pricing
  cards lower-case the name first, so they never do this
  (`PricingCardLowerCases`).

## Model

| member | source | states |
|---|---|---|
| ClerkWebhook.FindIndex | src/app/api/webhook/clerk/route.ts:23-25 | `find` by id returns the first entry whose id is `===` to `primary_email_address_id`. It returns none only when no entry matches. |
| ClerkWebhook.PrimaryEmail | src/app/api/webhook/clerk/route.ts:22-25 | The chosen email is the first matching entry's address when that is truthy. Otherwise it is the first entry's address. Any email returned is one of the listed addresses. |
| ClerkWebhook.Failure | src/app/api/webhook/clerk/route.ts:56-64 | A thrown error becomes a 500. `details` is present exactly in development, and then it is the error's message. |
| ClerkWebhook.Upsert | src/app/api/webhook/clerk/route.ts:43-53 | Upsert by email. An existing record keeps its id and email and takes the new name. A new record gets the given id, name and email. Other records are untouched. A failed call gives a 500 carrying its message, and so does a create whose id is already used. Both write nothing. |
| ClerkWebhook.Handle | src/app/api/webhook/clerk/route.ts:7-66 | Only a 200 changes the store. A 400 means the client existed and the body parsed. A 200 returns the record stored under the chosen non-empty email with the name `full_name` or `''`. That record is the only one that changes. |
| ClerkWebhookLemmas.MissingDataRejected | src/app/api/webhook/clerk/route.ts:15-20 | A body without `data` gives 400 "Missing required data" and leaves the store unchanged. |
| ClerkWebhookLemmas.MissingUserIdWins | src/app/api/webhook/clerk/route.ts:27-34 | A missing or empty user id gives 400 "User ID not found", whatever the email. The store is unchanged. |
| ClerkWebhookLemmas.MissingEmailRejected | src/app/api/webhook/clerk/route.ts:36-41 | A user id with no usable email gives 400 "User email not found". The store is unchanged. |
| ClerkWebhookLemmas.NoAddressesNoEmail | src/app/api/webhook/clerk/route.ts:22-25 | An empty or missing address list yields no email. |
| ClerkWebhookLemmas.FirstMatchShadowsLaterMatches | src/app/api/webhook/clerk/route.ts:23-25 | When the first matching entry has an empty address, the first listed address is used. This holds even if a later entry with the same id has a usable address. |
| ClerkWebhookLemmas.CreateAddsOneRecord | src/app/api/webhook/clerk/route.ts:43-49 | For an unknown email whose `data.id` no record uses yet, exactly one record is added: `{id: data.id, name: full_name or '', email}`. |
| ClerkWebhookLemmas.UpdateChangesOnlyName | src/app/api/webhook/clerk/route.ts:43-53 | For a known email, only that record's name changes. Its id is kept even when `data.id` differs. The number of records stays the same. |
| ClerkWebhookLemmas.StoreGrowsByAtMostOne | src/app/api/webhook/clerk/route.ts:43-55 | A call never removes a record: every email stored before is stored after. The number of records grows by at most one. |
| ClerkWebhookLemmas.HandleIdempotent | src/app/api/webhook/clerk/route.ts:43-55 | Handling the same request again on the resulting store gives the same response and the same store. |
| ClerkWebhookLemmas.HandlePreservesValidStore | src/app/api/webhook/clerk/route.ts:43-49 | If no two records share an id before the call, none do after it. |
| ClerkWebhookLemmas.SameEmailCollapses | src/app/api/webhook/clerk/route.ts:43-53 | Email is the reconciliation key. Two notifications with different ids and the same email leave one record, and it keeps the first id. |
| ClerkWebhookLemmas.UpsertFaultIsServerError | src/app/api/webhook/clerk/route.ts:56-64 | A failing upsert gives 500 "Internal server error". `details` is the message in development and absent otherwise. The store is unchanged. |
| ClerkWebhookLemmas.PrimaryEmailChangeConflicts | src/app/api/webhook/clerk/route.ts:43-64 | A known id arriving with a new, unknown email makes the create reuse a primary key. The answer is a 500 and the store is unchanged. |
| ClerkWebhookLemmas.UninitializedClientFailsFirst | src/app/api/webhook/clerk/route.ts:8-11 | Without a database client, every request is a 500 that writes nothing. This check comes before the body is read. |
| JsValues.OrEmpty | src/app/api/webhook/clerk/route.ts:47 | `v || ''` is empty exactly when `v` is falsy. Otherwise it is `v`'s string. |
| JsValues.ToLowerCase | src/hooks/useSubscription.ts:68 | Lower-casing keeps the length, maps each character, and leaves no upper-case ASCII letter. |
| JsValues.ToLowerCaseIdempotent | src/components/PricingCard.tsx:53 | Lower-casing an already lower-cased label changes nothing. |
| Subscription.ViewerEmail | src/hooks/useSubscription.ts:33 | The viewer email is the first listed address when that address is usable, and non-empty only then. It is `''` when there is no user, no list, an empty list, or an unusable first address. |
| Subscription.CheckoutErrorMessage | src/hooks/useSubscription.ts:21-26 | For an HTTP client failure the message is the server's `message` if usable, else "Payment processing failed". Any other failure gives "An unexpected error occurred". |
| Subscription.SubscribeToPlan | src/hooks/useSubscription.ts:8-27 | The request resolves exactly when the endpoint answered, and then with exactly its `url`. Otherwise it rejects with the mapped error message. |
| Subscription.RunMutation | src/hooks/useSubscription.ts:35-56 | The loading toast comes first. Without a user id or email, the trace is the "User information missing" error and no POST. Otherwise the POST carries id, label and email unchanged. There is only one POST. After an answer come exactly the "Redirecting to checkout!" toast and the redirect to the answered URL. After a failure comes exactly one error toast with the mapped message. A redirect appears nowhere else. |
| Subscription.HandleSubscribe | src/hooks/useSubscription.ts:58-69 | The decision never posts or redirects by itself. It navigates to sign-up exactly when there is no user id. It starts a subscribe call exactly when signed in and the raw label is not "free", and that call carries the lower-cased label. The free notice appears exactly for a signed-in viewer with the raw label "free". The continuation runs exactly when, in addition, one was supplied. |
| SubscriptionLemmas.MutationPostCount | src/hooks/useSubscription.ts:40-45 | The mutation issues one request when the user id and email are both present, and none otherwise. |
| SubscriptionLemmas.AnonymousGoesToSignUp | src/hooks/useSubscription.ts:59-62 | With no user id, the whole click is a navigation to `/sign-up` and issues no request. |
| SubscriptionLemmas.FreePlanShortCircuits | src/hooks/useSubscription.ts:63-67 | The label "free" gives exactly the info notice followed by the continuation if supplied. There is no subscribe call and no request. |
| SubscriptionLemmas.PaidPlanStartsCheckout | src/hooks/useSubscription.ts:68 | Any other label starts one mutation with the lower-cased label. It posts exactly when the viewer has an email, with `{userId, planType: lower-cased label, email}`. |
| SubscriptionLemmas.AtMostOneCheckout | src/hooks/useSubscription.ts:58-69 | A click issues at most one request. It issues one exactly when the viewer is signed in, has an email, and did not pick "free". |
| SubscriptionLemmas.MissingEmailBlocksRequest | src/hooks/useSubscription.ts:41-43 | A signed-in viewer without an email gets the loading toast and then "User information missing", with no request. |
| SubscriptionLemmas.CheckoutEndsAsAnswered | src/hooks/useSubscription.ts:49-54 | After a request, the last action is a redirect to exactly the returned `url`, or an error toast with the mapped message. This holds with or without a continuation. |
| SubscriptionLemmas.RawLabelFreeCheck | src/hooks/useSubscription.ts:63-68 | The free check uses the raw label. "Free" is not the free plan and posts a checkout for "free". |
| SubscriptionLemmas.PricingCardLowerCases | src/components/PricingCard.tsx:53 | Through a pricing card, every spelling of "free" takes the free branch and issues no request. Every other plan starts its mutation with the lower-cased name. |

## Left out

- Request parsing: the model takes the already-parsed `data` field. A body that is not JSON is a 500 with the parser's message. A JSON `null` body is not distinguished from other parse failures.
- A `null` or missing entry in `email_addresses` makes the id comparison throw, which gives a 500. The model's list of entries cannot hold such an entry, so this path is not modelled.
- JavaScript `null` is not distinguished from `undefined`, and fields of non-string type are not modelled. All optional fields are `Option<string>` or lists.
- Database error texts are `Runtime` inputs, because the database library's messages are not part of this code.
- The upsert is modelled as atomic. Races between concurrent webhook calls for the same email are a storage-layer concern that the code does not address.
- Console logging of webhook errors is left out because it has no effect on the response or the store.
- JsValues.ToLowerCase: only ASCII letters are lower-cased. JavaScript's full Unicode case mapping is not modelled.
- Request-pending state, toast identifiers (later toasts replace the loading toast), and the query library's lifecycle are left out. They are library plumbing, shown only as actions in the trace.
- The continuation is one abstract `CallContinuation` action. On the subscription page it opens `/plan-form`, which is a plain navigation.
- A successful checkout answer without a `url` field is not modelled: `Answered` always carries a URL.
- The meal-plan view, its fetch and retry policy, and the presentational components (meal cards, pricing grid, header, stats) are not part of this model. They only render data.
