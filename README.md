# Stripe webhook reconciliation, modelled in Dafny

This project models the billing-sync path of a Next.js music app that sells
subscriptions through Stripe and keeps a local Supabase (Postgres) copy of
the billing state. A Stripe webhook delivery arrives at `POST
/api/webhooks`. The endpoint authenticates it and ignores event types outside
a fixed allow-set. It routes the rest to one of three store operations:
a product upsert, a price upsert, or a subscription reconciliation. The
reconciliation re-fetches the subscription from Stripe and replaces the local
row keyed by its id. The customer-identity resolver (`createOrRetrieveCustomer`)
and the two helpers (`getURL`, `toDateTime`) are modelled too.

Files:

- `billing.dfy` (module `Billing`): Stripe objects, local rows, the error
  kinds, and the four tables as one value (`Db`).
- `helpers.dfy` (module `Helpers`): `getURL`'s normalisation and `toDateTime`.
- `supabase_admin.dfy` (module `SupabaseAdmin`): the row builders and each
  store operation as a pure function from the tables before to the result
  and the tables after. It also holds the class `Store`, whose four map fields
  are the tables; its methods update them in place and are proved equal to
  those functions.
- `webhook_route.dfy` (module `WebhookRoute`): the allow-set, the switch, the
  whole delivery as a function (`Deliver`), and the imperative `Post`,
  proved equal to `Deliver`.

Things the code cannot see are inputs:

- `verify` stands for `stripe.webhooks.constructEvent`.
- `provider`, a map from subscription id to snapshot, stands for
  `subscriptions.retrieve`. An id missing from the map is the call failing.
- `createdId` is the id `customers.create` assigns. `None` is the call failing.
- `writeError` is the error the database client reports for the one write an
  operation makes.
- The environment variables are `Option<string>` parameters. `None` means unset.

Timestamps from Stripe are integer seconds. Stored instants are integer
milliseconds. JavaScript truthiness is written out: `Truthy` holds for a present
non-zero number, and `TruthyText` for a present non-empty string.

Three behaviours of the code that are easy to miss:

- While a subscription is trialing, a truthy trial start or trial end replaces
  the current period's. The start and the end are chosen independently, so a
  trial start without a trial end gives a mixed window
  (`WindowEndsChosenIndependently`).
- The lookup by `stripe_customer_id` uses `.single()`, so it succeeds only
  when exactly one customers row matches; zero or several matching rows both
  fail with "Customer not found" (`ResolveUser`).
- A user whose customers row exists with a null or empty `stripe_customer_id`
  goes down the creation path. The insert then collides with the existing
  primary key, and the call fails with `DuplicateKey` (`CreateOrRetrieve`).

## Model

| member | source | states |
|---|---|---|
| `Helpers.Contains` | libs/helpers.ts:8 | the substring test of `includes`: true exactly when the part occurs at some index of the string |
| `Helpers.EndsWithSlash` | libs/helpers.ts:9 | true exactly when the last one-character substring is `/`; the empty string has none, so it is false |
| `Helpers.Candidate` | libs/helpers.ts:4-7 | the site URL when it is set (even to ""), else the Vercel URL when set, else `http://localhost:3000/` |
| `Helpers.WithScheme` | libs/helpers.ts:8 | the candidate is kept when "http" occurs in it and is prefixed with `https://` otherwise; either way the result contains "http" |
| `Helpers.Normalize` | libs/helpers.ts:8-9 | the result ends with `/` and contains "http"; it is the candidate or the candidate plus `/` when "http" is present, else `https://` + candidate, with `/` added only when needed; a candidate that already contains "http" and ends in `/` is returned unchanged |
| `Helpers.GetURL` | libs/helpers.ts:3-11 | the base URL always ends with `/` and contains "http" |
| `Helpers.NormalizeIdempotent` | libs/helpers.ts:8-9 | normalising twice gives the same URL as normalising once |
| `Helpers.GetURLPrecedence` | libs/helpers.ts:4-7 | the site URL is used whenever it is set, then the Vercel URL, then `http://localhost:3000/` |
| `Helpers.EmptySiteUrlIsKept` | libs/helpers.ts:4-9 | an empty site URL does not fall through to the Vercel URL; it yields `https://` |
| `Helpers.ToDateTime` | libs/helpers.ts:31-33 | the instant is a whole number of seconds in milliseconds, and dividing by 1000 gives back the input seconds |
| `Helpers.ToDateTimeStrictlyMonotone` | libs/helpers.ts:31-33 | the conversion is strictly order-preserving and injective |
| `SupabaseAdmin.ProductRowOf` | libs/supabaseAdmin.ts:15-22 | the row carries the product's id, active flag, name, description and metadata; the image is the first image, or null when there are none |
| `SupabaseAdmin.UpsertProduct` | libs/supabaseAdmin.ts:14-28 | on success the row at `product.id` is the built row, the key set gains only that id, and every other product and every other table is unchanged; a write error is returned as the failure and nothing changes |
| `SupabaseAdmin.ProductIdOf` | libs/supabaseAdmin.ts:33 | the product id when the price carries it as a string, "" when it carries an expanded object |
| `SupabaseAdmin.PriceRowOf` | libs/supabaseAdmin.ts:31-43 | `product_id` is the product when it is given as a string, else ""; interval, interval count and trial days come from `recurring` and are absent without it; the other fields are copied |
| `SupabaseAdmin.UpsertPrice` | libs/supabaseAdmin.ts:30-51 | as `UpsertProduct`, on the prices table |
| `SupabaseAdmin.CustomerCreateRequestOf` | libs/supabaseAdmin.ts:56-61 | the customer-creation request carries the user id as metadata, and the email exactly when it is non-empty |
| `SupabaseAdmin.HasMapping` | libs/supabaseAdmin.ts:54-55 | a mapping exists exactly when the user has a customers row whose `stripe_customer_id` is present and non-empty |
| `SupabaseAdmin.CreateOrRetrieve` | libs/supabaseAdmin.ts:53-71 | an existing non-empty mapping is returned with no provider call and no write; otherwise a customer is requested; a failed provider call, an insert colliding with an existing row, and a failed insert each fail the call with their own error; otherwise the mapping `uuid → new id` is inserted and the new id returned; every failure leaves the tables unchanged; only the customers table can change |
| `SupabaseAdmin.CreateOrRetrieveStable` | libs/supabaseAdmin.ts:53-71 | after a successful call, a second call for the same user returns the same id, makes no provider call and writes nothing |
| `SupabaseAdmin.Owners` | libs/supabaseAdmin.ts:98-102 | exactly the users whose customers row carries the given provider customer id |
| `SupabaseAdmin.ResolveUser` | libs/supabaseAdmin.ts:98-107 | succeeds exactly when one customers row matches, and returns that row's user; otherwise fails with "Customer not found" |
| `SupabaseAdmin.PeriodStart` | libs/supabaseAdmin.ts:136-138 | the trial start while trialing with a truthy trial start, the current period's start otherwise; truthy whenever the current period's start is |
| `SupabaseAdmin.PeriodEnd` | libs/supabaseAdmin.ts:140-142 | the same choice for the end, made independently of the start |
| `SupabaseAdmin.InstantOrNull` | libs/supabaseAdmin.ts:157-164 | null exactly when the source is falsy, else a non-zero whole-second instant that gives back the source seconds |
| `SupabaseAdmin.SubscriptionRowOf` | libs/supabaseAdmin.ts:136-165 | fails exactly when the effective window is missing or zero at either end, or there is no first item; the row carries the snapshot's id, status and first price, and the given user; quantity is the item's, or 1 when that is 0 or missing; each optional instant is null exactly when its source is falsy, and otherwise is that source in milliseconds |
| `SupabaseAdmin.TrialWindowPrecedence` | libs/supabaseAdmin.ts:135-142 | while trialing, a truthy trial start or end replaces the current period's; when not trialing, or when that trial date is falsy, the current period's value is stored |
| `SupabaseAdmin.TrialingSnapshotUsesTrialWindow` | libs/supabaseAdmin.ts:135-165 | trial 1000–2000 with current period 5000–6000 is stored as the window 1000000–2000000 ms, with quantity 1 |
| `SupabaseAdmin.TrialingSnapshotIsStored` | libs/supabaseAdmin.ts:98-172 | reconciling that trialing subscription for a mapped customer stores a row under its id, owned by the mapped user, with the trial window 1000000–2000000 ms |
| `SupabaseAdmin.WindowEndsChosenIndependently` | libs/supabaseAdmin.ts:136-142 | a trialing snapshot with a trial start and no trial end is stored with the trial start and the current period's end |
| `SupabaseAdmin.MissingWindowWritesNothing` | libs/supabaseAdmin.ts:144-147 | a missing or zero window end fails with "Missing required period dates" and writes nothing |
| `SupabaseAdmin.Reconcile` | libs/supabaseAdmin.ts:89-185 | an unmapped customer fails with "Customer not found"; an unknown subscription id fails with "Subscription not found"; a snapshot without a usable window or item fails with the builder's error; a failed upsert is surfaced; in every other case the call succeeds with the row built from the live snapshot for the mapped user; every failure writes nothing; on success the returned row is the written row and only the subscriptions entry at its id changed |
| `SupabaseAdmin.ReconcileReadsCustomers` | libs/supabaseAdmin.ts:98-172 | the outcome depends on the tables only through the customers table |
| `SupabaseAdmin.CreateActionIgnored` | libs/supabaseAdmin.ts:89-93 | `createAction` has no effect on the result or the tables |
| `SupabaseAdmin.ReconcileIdempotent` | libs/supabaseAdmin.ts:170-172 | reconciling again against the same snapshot gives the same result and tables as reconciling once |
| `SupabaseAdmin.ReconcileCommutes` | libs/supabaseAdmin.ts:110-172 | two reconciliations against the same live provider state leave the same tables in either order, when they are for the same subscription and customer or for different rows |
| `SupabaseAdmin.Store.UpsertProductRecord` | libs/supabaseAdmin.ts:14-28 | updates the products map in place, exactly as `UpsertProduct` |
| `SupabaseAdmin.Store.UpsertPriceRecord` | libs/supabaseAdmin.ts:30-51 | updates the prices map in place, exactly as `UpsertPrice` |
| `SupabaseAdmin.Store.CreateOrRetrieveCustomer` | libs/supabaseAdmin.ts:53-71 | looks up and inserts into the customers map, exactly as `CreateOrRetrieve` |
| `SupabaseAdmin.Store.ManageSubscriptionStatusChange` | libs/supabaseAdmin.ts:89-185 | resolves, fetches, builds and upserts into the subscriptions map, exactly as `Reconcile` |
| `WebhookRoute.Route` | app/api/webhooks/route.ts:41-86 | a type has a switch case exactly when it is in the allow-set, so the `default` throw is unreachable; the three `customer.subscription.*` types, the two `invoice.payment_*` types and `checkout.session.completed` each reach their own case |
| `WebhookRoute.Handle` | app/api/webhooks/route.ts:40-90 | a failing handler writes nothing, and no handler touches the customers table |
| `WebhookRoute.Deliver` | app/api/webhooks/route.ts:21-94 | a missing signature or secret gives 400 with no change; a failed signature check gives 400 with no change; an event outside the allow-set gives 200 `{received:true}` with no change; an allowed event whose handler fails gives 400 with no change, and one whose handler succeeds gives 200 with the handler's tables; every response is that 200 or a 400, and a 400 changes nothing |
| `WebhookRoute.CatalogueRouting` | app/api/webhooks/route.ts:42-49 | `product.*` events run the product upsert and `price.*` events the price upsert |
| `WebhookRoute.SubscriptionRouting` | app/api/webhooks/route.ts:50-60 | subscription events reconcile the object's id and customer, with `createAction` true only for `created` |
| `WebhookRoute.CheckoutMatchesSubscriptionEvents` | app/api/webhooks/route.ts:50-71 | a subscription-mode checkout for a subscription and customer has the same effect as the `created` and `updated` subscription events for them |
| `WebhookRoute.IgnoredPayloads` | app/api/webhooks/route.ts:61-83 | a non-subscription checkout and an invoice without a subscription change nothing; an invoice with one reconciles it with `createAction` false |
| `WebhookRoute.UnmappedCustomerFailsDelivery` | app/api/webhooks/route.ts:50-90 | every event that reconciles for a customer without a single mapping gives 400 and writes nothing: the three subscription events, a subscription-mode checkout, and an invoice naming a subscription |
| `WebhookRoute.HandleIdempotent` | app/api/webhooks/route.ts:41-86 | running the handler twice gives the same result and tables as once |
| `WebhookRoute.RedeliveryIdempotent` | app/api/webhooks/route.ts:21-94 | redelivering the same request against the same provider state gives the same response and tables as one delivery |
| `WebhookRoute.Post` | app/api/webhooks/route.ts:21-94 | the endpoint's early returns, switch and store calls give exactly the response and tables of `Deliver` |

## Left out

- Signature verification: `constructEvent` uses Stripe's HMAC scheme inside a library this model cannot see. It is the input `verify`.
- The Stripe and Supabase clients and their construction: calls are inputs as described above. Read faults of the store are not modelled. A customers lookup fails only when no single row matches.
- Payload shapes: the route casts `event.data.object` without checking it. An object of another shape than its type names is modelled as a handler failure (400), not as whatever the cast would do. Ids that Stripe may send as null or as expanded objects (checkout and invoice subscription, customer) are strings here, with "" for null.
- `copyBillingDetailsToCustomer` is not part of this model: it is neither exported nor called.
- `postData` is not part of this model: it is `fetch` I/O.
- `console.log` and `console.error` output.
- `Date` and `toISOString`: instants are integer milliseconds. JavaScript floating-point numbers, NaN, and the range error `toISOString` raises for out-of-range dates are not modelled.
- Concurrency: concurrent or out-of-order deliveries and interleaved reconciliations of one subscription. One delivery is handled at a time.
- The database's own constraints (foreign keys on `price_id` and `user_id`, column types) show up only through `writeError`. The one exception is the customers primary key.
