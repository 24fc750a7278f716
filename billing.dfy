/** The values that flow through the billing sync: the provider's (Stripe's)
    objects as the webhook and the subscription API deliver them, the rows of
    the local store, and the errors the reconciliation path can raise.
    Timestamps from the provider are integer seconds since the epoch; stored
    instants are integer milliseconds. */
module Billing {

  datatype Option<+T> = None | Some(value: T)

  /** The JavaScript truthiness of an optional number: null, undefined and 0
      are falsy, every other number is truthy. */
  predicate Truthy(t: Option<int>) {
    t.Some? && t.value != 0
  }

  /** The JavaScript truthiness of an optional string: null, undefined and ""
      are falsy. */
  predicate TruthyText(t: Option<string>) {
    t.Some? && t.value != ""
  }

  /** The failures of the reconciliation path, one per place the source throws. */
  datatype Error =
    | StoreError(message: string)         // the database client reported an error on a write
    | DuplicateKey(id: string)            // insert of a customers row whose id already exists
    | CustomerCreateFailed                // the provider refused to create a customer
    | CustomerNotFound                    // no single customers row for a provider customer id
    | SubscriptionNotFound                // the provider has no subscription under that id
    | MissingPeriodDates                  // the effective period window is incomplete
    | NoSubscriptionItems                 // the subscription has no first item to read
    | MalformedPayload                    // the event object does not have the shape its type names
    | UnhandledEvent(eventType: string)   // an allowed type that no case of the switch handles

  datatype Result<+T> = Ok(value: T) | Err(error: Error)

  // ----- provider objects -----

  datatype StripeProduct = StripeProduct(
    id: string,
    active: bool,
    name: string,
    description: Option<string>,
    images: Option<seq<string>>,
    metadata: map<string, string>)

  /** `price.product` is either the product's id or the expanded product object. */
  datatype ProductRef = ProductId(id: string) | ProductObject(objectId: string)

  datatype PriceType = OneTime | RecurringPrice

  datatype Interval = Day | Week | Month | Year

  datatype Recurring = Recurring(
    interval: Interval,
    intervalCount: int,
    trialPeriodDays: Option<int>)

  datatype StripePrice = StripePrice(
    id: string,
    product: ProductRef,
    active: bool,
    currency: string,
    nickname: Option<string>,
    priceType: PriceType,
    unitAmount: Option<int>,
    recurring: Option<Recurring>,
    metadata: map<string, string>)

  datatype SubscriptionStatus =
    | Trialing | Active | Incomplete | IncompleteExpired
    | PastDue | Canceled | Unpaid | Paused

  datatype SubscriptionItem = SubscriptionItem(priceId: string, quantity: Option<int>)

  /** A subscription as `subscriptions.retrieve` returns it (the authoritative snapshot). */
  datatype StripeSubscription = StripeSubscription(
    id: string,
    status: SubscriptionStatus,
    items: seq<SubscriptionItem>,
    cancelAtPeriodEnd: bool,
    cancelAt: Option<int>,
    canceledAt: Option<int>,
    currentPeriodStart: Option<int>,
    currentPeriodEnd: Option<int>,
    created: int,
    endedAt: Option<int>,
    trialStart: Option<int>,
    trialEnd: Option<int>)

  /** The parameters sent to `customers.create`. */
  datatype CustomerCreateRequest = CustomerCreateRequest(supabaseUUID: string, email: Option<string>)

  // ----- local rows -----

  datatype ProductRow = ProductRow(
    id: string,
    active: bool,
    name: string,
    description: Option<string>,
    image: Option<string>,
    metadata: map<string, string>)

  datatype PriceRow = PriceRow(
    id: string,
    productId: string,
    active: bool,
    currency: string,
    description: Option<string>,
    priceType: PriceType,
    unitAmount: Option<int>,
    interval: Option<Interval>,
    intervalCount: Option<int>,
    trialPeriodDays: Option<int>,
    metadata: map<string, string>)

  /** A subscriptions row; every instant is in milliseconds. */
  datatype SubscriptionRow = SubscriptionRow(
    id: string,
    userId: string,
    status: SubscriptionStatus,
    priceId: string,
    quantity: int,
    cancelAtPeriodEnd: bool,
    cancelAt: Option<int>,
    canceledAt: Option<int>,
    currentPeriodStart: int,
    currentPeriodEnd: int,
    created: int,
    endedAt: Option<int>,
    trialStart: Option<int>,
    trialEnd: Option<int>)

  /** The four tables the sync writes, as values: products and prices by
      provider id, customers by local user id (its `stripe_customer_id` column
      is nullable), subscriptions by provider subscription id. */
  datatype Db = Db(
    products: map<string, ProductRow>,
    prices: map<string, PriceRow>,
    customers: map<string, Option<string>>,
    subscriptions: map<string, SubscriptionRow>)

  /** What one store operation returns together with the tables after it. */
  datatype Effect<+T> = Effect(result: Result<T>, db: Db)
}
