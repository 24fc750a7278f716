/** The store side of the sync: how provider objects become rows, and the
    four operations that write the local tables. Each operation is first a
    function from the tables before to the result and the tables after (an
    `Effect`); the `Store` class holds the tables as mutable maps and its
    methods are proved to act exactly as those functions say.

    The provider and the database client are inputs: `provider` maps a
    subscription id to the snapshot `subscriptions.retrieve` returns,
    `createdId` is the id `customers.create` assigns (None when that call
    fails), and `writeError` is the error the database client reports for the
    one write an operation makes (None when the write succeeds). */
module SupabaseAdmin {
  import opened Billing
  import opened Helpers

  // ----- products -----

  /** The products row built from a provider product. */
  function ProductRowOf(product: StripeProduct): (row: ProductRow)
    ensures row.id == product.id && row.active == product.active && row.name == product.name
    ensures row.description == product.description && row.metadata == product.metadata
    // the image is the first image, or null when there is none
    ensures row.image.Some? <==> product.images.Some? && |product.images.value| > 0
    ensures row.image.Some? ==> row.image.value == product.images.value[0]
  {
    ProductRow(
      id := product.id,
      active := product.active,
      name := product.name,
      description := product.description,
      image := if product.images.Some? && |product.images.value| > 0 then Some(product.images.value[0]) else None,
      metadata := product.metadata)
  }

  /** `upsertProductRecord`: the row keyed by `product.id` is replaced (or
      created), every other row of every table stays; a write error is
      surfaced and nothing changes. */
  function UpsertProduct(db: Db, product: StripeProduct, writeError: Option<string>): (e: Effect<()>)
    ensures e.result.Err? <==> writeError.Some?
    ensures e.result.Err? ==> e.result.error == StoreError(writeError.value) && e.db == db
    ensures e.result.Ok? ==>
              && e.db.products.Keys == db.products.Keys + {product.id}
              && e.db.products[product.id] == ProductRowOf(product)
              && (forall id :: id in db.products && id != product.id ==> e.db.products[id] == db.products[id])
    ensures e.db.prices == db.prices && e.db.customers == db.customers && e.db.subscriptions == db.subscriptions
  {
    if writeError.Some? then Effect(Err(StoreError(writeError.value)), db)
    else Effect(Ok(()), db.(products := db.products[product.id := ProductRowOf(product)]))
  }

  // ----- prices -----

  /** The product a price row belongs to: the id when the price carries it as
      a string, "" when it carries an expanded object. */
  function ProductIdOf(ref: ProductRef): (productId: string)
    ensures ref.ProductId? ==> productId == ref.id
    ensures ref.ProductObject? ==> productId == ""
  {
    match ref
    case ProductId(id) => id
    case ProductObject(_) => ""
  }

  /** The prices row built from a provider price. */
  function PriceRowOf(price: StripePrice): (row: PriceRow)
    ensures row.id == price.id && row.active == price.active && row.currency == price.currency
    ensures row.description == price.nickname && row.priceType == price.priceType
    ensures row.unitAmount == price.unitAmount && row.metadata == price.metadata
    ensures row.productId == (if price.product.ProductId? then price.product.id else "")
    // the recurring fields are present only when the price is recurring
    ensures price.recurring.None? ==>
              row.interval.None? && row.intervalCount.None? && row.trialPeriodDays.None?
    ensures price.recurring.Some? ==>
              && row.interval == Some(price.recurring.value.interval)
              && row.intervalCount == Some(price.recurring.value.intervalCount)
              && row.trialPeriodDays == price.recurring.value.trialPeriodDays
  {
    PriceRow(
      id := price.id,
      productId := ProductIdOf(price.product),
      active := price.active,
      currency := price.currency,
      description := price.nickname,
      priceType := price.priceType,
      unitAmount := price.unitAmount,
      interval := if price.recurring.Some? then Some(price.recurring.value.interval) else None,
      intervalCount := if price.recurring.Some? then Some(price.recurring.value.intervalCount) else None,
      trialPeriodDays := if price.recurring.Some? then price.recurring.value.trialPeriodDays else None,
      metadata := price.metadata)
  }

  /** `upsertPriceRecord`: as `UpsertProduct`, on the prices table. */
  function UpsertPrice(db: Db, price: StripePrice, writeError: Option<string>): (e: Effect<()>)
    ensures e.result.Err? <==> writeError.Some?
    ensures e.result.Err? ==> e.result.error == StoreError(writeError.value) && e.db == db
    ensures e.result.Ok? ==>
              && e.db.prices.Keys == db.prices.Keys + {price.id}
              && e.db.prices[price.id] == PriceRowOf(price)
              && (forall id :: id in db.prices && id != price.id ==> e.db.prices[id] == db.prices[id])
    ensures e.db.products == db.products && e.db.customers == db.customers && e.db.subscriptions == db.subscriptions
  {
    if writeError.Some? then Effect(Err(StoreError(writeError.value)), db)
    else Effect(Ok(()), db.(prices := db.prices[price.id := PriceRowOf(price)]))
  }

  // ----- customers -----

  /** The parameters `createOrRetrieveCustomer` sends to `customers.create`:
      the user id as metadata, and the email only when it is non-empty. */
  function CustomerCreateRequestOf(uuid: string, email: string): (request: CustomerCreateRequest)
    ensures request.supabaseUUID == uuid
    ensures request.email.Some? <==> email != ""
    ensures request.email.Some? ==> request.email.value == email
  {
    CustomerCreateRequest(uuid, if email != "" then Some(email) else None)
  }

  /** The provider customer id already mapped to `uuid`, if any. A row whose
      `stripe_customer_id` is null or "" counts as no mapping. */
  predicate HasMapping(customers: map<string, Option<string>>, uuid: string): (b: bool)
    ensures b <==> uuid in customers && customers[uuid].Some? && customers[uuid].value != ""
  {
    uuid in customers && TruthyText(customers[uuid])
  }

  /** What `createOrRetrieveCustomer` returns, sends to the provider (when it
      creates a customer) and leaves in the tables. */
  datatype CustomerOutcome = CustomerOutcome(result: Result<string>, request: Option<CustomerCreateRequest>, db: Db)

  /** `createOrRetrieveCustomer`. The insert of the new mapping fails when a
      customers row for `uuid` already exists (its id is the primary key), as
      it does when that row's `stripe_customer_id` is null or "". */
  function CreateOrRetrieve(db: Db, uuid: string, email: string, createdId: Option<string>, writeError: Option<string>)
    : (c: CustomerOutcome)
    // an existing mapping is returned and nothing is created or written
    ensures HasMapping(db.customers, uuid) ==>
              c.result == Ok(db.customers[uuid].value) && c.request.None? && c.db == db
    // otherwise a provider customer is requested, with the email only when non-empty
    ensures !HasMapping(db.customers, uuid) ==> c.request == Some(CustomerCreateRequestOf(uuid, email))
    ensures c.result.Ok? && !HasMapping(db.customers, uuid) ==>
              && createdId == Some(c.result.value)
              && uuid !in db.customers
              && c.db == db.(customers := db.customers[uuid := Some(c.result.value)])
    ensures c.result.Err? ==> c.db == db
    // each failure of the creation path, in the order the source meets them
    ensures !HasMapping(db.customers, uuid) && createdId.None? ==> c.result == Err(CustomerCreateFailed)
    ensures !HasMapping(db.customers, uuid) && createdId.Some? && uuid in db.customers ==>
              c.result == Err(DuplicateKey(uuid))
    ensures !HasMapping(db.customers, uuid) && createdId.Some? && uuid !in db.customers && writeError.Some? ==>
              c.result == Err(StoreError(writeError.value))
    ensures !HasMapping(db.customers, uuid) && createdId.Some? && uuid !in db.customers && writeError.None? ==>
              c.result.Ok?
    ensures c.db.products == db.products && c.db.prices == db.prices && c.db.subscriptions == db.subscriptions
  {
    if HasMapping(db.customers, uuid) then
      CustomerOutcome(Ok(db.customers[uuid].value), None, db)
    else
      var request := CustomerCreateRequestOf(uuid, email);
      if createdId.None? then CustomerOutcome(Err(CustomerCreateFailed), Some(request), db)
      else if uuid in db.customers then CustomerOutcome(Err(DuplicateKey(uuid)), Some(request), db)
      else if writeError.Some? then CustomerOutcome(Err(StoreError(writeError.value)), Some(request), db)
      else CustomerOutcome(Ok(createdId.value), Some(request), db.(customers := db.customers[uuid := createdId]))
  }

  /** Once a mapping has been created, a second call for the same user returns
      the same provider id and neither creates a customer nor writes. */
  lemma CreateOrRetrieveStable(db: Db, uuid: string, email: string, createdId: Option<string>, writeError: Option<string>,
                               email': string, createdId': Option<string>, writeError': Option<string>)
    requires CreateOrRetrieve(db, uuid, email, createdId, writeError).result.Ok?
    requires createdId != Some("")
    ensures var first := CreateOrRetrieve(db, uuid, email, createdId, writeError);
            var second := CreateOrRetrieve(first.db, uuid, email', createdId', writeError');
            second.result == first.result && second.request.None? && second.db == first.db
  {
  }

  // ----- subscriptions -----

  /** The local users whose customers row carries `customerId`. */
  function Owners(customers: map<string, Option<string>>, customerId: string): (owners: set<string>)
    ensures forall uuid :: uuid in owners <==> uuid in customers && customers[uuid] == Some(customerId)
  {
    set uuid | uuid in customers && customers[uuid] == Some(customerId)
  }

  /** The customers lookup of `manageSubscriptionStatusChange`: a `.single()`
      select on `stripe_customer_id`, which succeeds only when exactly one row
      matches. */
  function ResolveUser(customers: map<string, Option<string>>, customerId: string): (r: Result<string>)
    ensures r.Ok? <==> |Owners(customers, customerId)| == 1
    ensures r.Ok? ==> Owners(customers, customerId) == {r.value}
    ensures r.Err? ==> r.error == CustomerNotFound
  {
    var owners := Owners(customers, customerId);
    if |owners| == 1 then
      SingletonOwner(owners);
      var uuid :| uuid in owners;
      Ok(uuid)
    else
      Err(CustomerNotFound)
  }

  lemma SingletonOwner(owners: set<string>)
    requires |owners| == 1
    ensures forall a, b :: a in owners && b in owners ==> a == b
  {
    var x :| x in owners;
    var rest := owners - {x};
    assert |rest| == 0;
    forall a, b | a in owners && b in owners ensures a == b {
      assert a !in rest && b !in rest;
    }
  }

  /** The start of the effective period: the trial start while trialing, when
      it is truthy; the current period's start otherwise. */
  function PeriodStart(s: StripeSubscription): (start: Option<int>)
    ensures start == s.trialStart || start == s.currentPeriodStart
    ensures s.status == Trialing && Truthy(s.trialStart) ==> start == s.trialStart
    ensures !(s.status == Trialing && Truthy(s.trialStart)) ==> start == s.currentPeriodStart
    // a truthy current period start always yields a truthy window start
    ensures Truthy(s.currentPeriodStart) ==> Truthy(start)
  {
    if s.status == Trialing && Truthy(s.trialStart) then s.trialStart else s.currentPeriodStart
  }

  /** The end of the effective period, chosen independently of the start. */
  function PeriodEnd(s: StripeSubscription): (end: Option<int>)
    ensures end == s.trialEnd || end == s.currentPeriodEnd
    ensures s.status == Trialing && Truthy(s.trialEnd) ==> end == s.trialEnd
    ensures !(s.status == Trialing && Truthy(s.trialEnd)) ==> end == s.currentPeriodEnd
    ensures Truthy(s.currentPeriodEnd) ==> Truthy(end)
  {
    if s.status == Trialing && Truthy(s.trialEnd) then s.trialEnd else s.currentPeriodEnd
  }

  /** A nullable stored instant: null exactly when the provider value is falsy. */
  function InstantOrNull(secs: Option<int>): (instant: Option<int>)
    ensures instant.None? <==> !Truthy(secs)
    ensures instant.Some? ==> instant.value != 0 && instant.value % 1000 == 0 && instant.value / 1000 == secs.value
  {
    if Truthy(secs) then Some(ToDateTime(secs.value)) else None
  }

  /** The subscriptions row built from a snapshot for the local user `userId`;
      fails when the period window is incomplete or there is no first item. */
  function SubscriptionRowOf(s: StripeSubscription, userId: string): (r: Result<SubscriptionRow>)
    ensures r.Ok? <==> Truthy(PeriodStart(s)) && Truthy(PeriodEnd(s)) && |s.items| > 0
    ensures r.Err? && !(Truthy(PeriodStart(s)) && Truthy(PeriodEnd(s))) ==> r.error == MissingPeriodDates
    ensures r.Err? && Truthy(PeriodStart(s)) && Truthy(PeriodEnd(s)) ==> r.error == NoSubscriptionItems
    ensures r.Ok? ==>
              && r.value.id == s.id && r.value.userId == userId && r.value.status == s.status
              && r.value.priceId == s.items[0].priceId
              && r.value.cancelAtPeriodEnd == s.cancelAtPeriodEnd
              && r.value.created == ToDateTime(s.created)
    // the quantity is the item's, or 1 when that is 0 or missing; never 0
    ensures r.Ok? ==>
              && r.value.quantity != 0
              && (Truthy(s.items[0].quantity) ==> r.value.quantity == s.items[0].quantity.value)
              && (!Truthy(s.items[0].quantity) ==> r.value.quantity == 1)
    // the period is the effective window, in milliseconds
    ensures r.Ok? ==>
              && r.value.currentPeriodStart == ToDateTime(PeriodStart(s).value)
              && r.value.currentPeriodEnd == ToDateTime(PeriodEnd(s).value)
              && r.value.currentPeriodStart != 0 && r.value.currentPeriodEnd != 0
    // each optional instant is null exactly when its source is falsy
    ensures r.Ok? ==>
              && (r.value.cancelAt.None? <==> !Truthy(s.cancelAt))
              && (r.value.canceledAt.None? <==> !Truthy(s.canceledAt))
              && (r.value.endedAt.None? <==> !Truthy(s.endedAt))
              && (r.value.trialStart.None? <==> !Truthy(s.trialStart))
              && (r.value.trialEnd.None? <==> !Truthy(s.trialEnd))
    ensures r.Ok? ==>
              && (r.value.cancelAt.Some? ==> r.value.cancelAt.value == ToDateTime(s.cancelAt.value))
              && (r.value.canceledAt.Some? ==> r.value.canceledAt.value == ToDateTime(s.canceledAt.value))
              && (r.value.endedAt.Some? ==> r.value.endedAt.value == ToDateTime(s.endedAt.value))
              && (r.value.trialStart.Some? ==> r.value.trialStart.value == ToDateTime(s.trialStart.value))
              && (r.value.trialEnd.Some? ==> r.value.trialEnd.value == ToDateTime(s.trialEnd.value))
  {
    var periodStart := PeriodStart(s);
    var periodEnd := PeriodEnd(s);
    if !Truthy(periodStart) || !Truthy(periodEnd) then
      Err(MissingPeriodDates)
    else if |s.items| == 0 then
      Err(NoSubscriptionItems)
    else
      var item := s.items[0];
      Ok(SubscriptionRow(
        id := s.id,
        userId := userId,
        status := s.status,
        priceId := item.priceId,
        quantity := if Truthy(item.quantity) then item.quantity.value else 1,
        cancelAtPeriodEnd := s.cancelAtPeriodEnd,
        cancelAt := InstantOrNull(s.cancelAt),
        canceledAt := InstantOrNull(s.canceledAt),
        currentPeriodStart := ToDateTime(periodStart.value),
        currentPeriodEnd := ToDateTime(periodEnd.value),
        created := ToDateTime(s.created),
        endedAt := InstantOrNull(s.endedAt),
        trialStart := InstantOrNull(s.trialStart),
        trialEnd := InstantOrNull(s.trialEnd)))
  }

  /** While trialing, a truthy trial start or end takes the place of the
      current period's; in every other case the current period is stored. */
  lemma TrialWindowPrecedence(s: StripeSubscription, userId: string)
    requires SubscriptionRowOf(s, userId).Ok?
    ensures var row := SubscriptionRowOf(s, userId).value;
            && (s.status == Trialing && Truthy(s.trialStart) ==> row.currentPeriodStart == ToDateTime(s.trialStart.value))
            && (s.status == Trialing && Truthy(s.trialEnd) ==> row.currentPeriodEnd == ToDateTime(s.trialEnd.value))
            && (!(s.status == Trialing && Truthy(s.trialStart)) ==>
                  row.currentPeriodStart == ToDateTime(s.currentPeriodStart.value))
            && (!(s.status == Trialing && Truthy(s.trialEnd)) ==>
                  row.currentPeriodEnd == ToDateTime(s.currentPeriodEnd.value))
  {
  }

  /** A trialing subscription with trial window 1000-2000 and current period
      5000-6000 is stored with the trial window, and with quantity 1 when its
      item has none. */
  lemma TrialingSnapshotUsesTrialWindow()
    ensures var s := StripeSubscription("sub_1", Trialing, [SubscriptionItem("price_1", None)], false, None, None,
                                        Some(5000), Some(6000), 900, None, Some(1000), Some(2000));
            var r := SubscriptionRowOf(s, "user_1");
            && r.Ok?
            && r.value.currentPeriodStart == 1000000 && r.value.currentPeriodEnd == 2000000
            && r.value.trialStart == Some(1000000) && r.value.trialEnd == Some(2000000)
            && r.value.quantity == 1 && r.value.cancelAt.None?
  {
  }

  /** Reconciling that trialing subscription for a mapped customer stores the
      trial window under the subscription's id. */
  lemma TrialingSnapshotIsStored(db: Db)
    requires db.customers == map["user_1" := Some("cus_1")]
    ensures var s := StripeSubscription("sub_1", Trialing, [SubscriptionItem("price_1", None)], false, None, None,
                                        Some(5000), Some(6000), 900, None, Some(1000), Some(2000));
            var e := Reconcile(db, map["sub_1" := s], "sub_1", "cus_1", true, None);
            && e.result.Ok?
            && "sub_1" in e.db.subscriptions
            && e.db.subscriptions["sub_1"].userId == "user_1"
            && e.db.subscriptions["sub_1"].currentPeriodStart == 1000000
            && e.db.subscriptions["sub_1"].currentPeriodEnd == 2000000
  {
    assert Owners(db.customers, "cus_1") == {"user_1"};
  }

  /** Start and end are chosen independently: a trialing subscription with a
      trial start but no trial end gets the trial start and the current
      period's end. */
  lemma WindowEndsChosenIndependently()
    ensures var s := StripeSubscription("sub_1", Trialing, [SubscriptionItem("price_1", Some(2))], false, None, None,
                                        Some(5000), Some(6000), 900, None, Some(1000), None);
            var r := SubscriptionRowOf(s, "user_1");
            r.Ok? && r.value.currentPeriodStart == 1000000 && r.value.currentPeriodEnd == 6000000
  {
  }

  /** A snapshot without a usable window fails the reconciliation with
      nothing written, once the customer has been resolved. */
  lemma MissingWindowWritesNothing(db: Db, provider: map<string, StripeSubscription>, subscriptionId: string,
                                   customerId: string, createAction: bool, writeError: Option<string>)
    requires |Owners(db.customers, customerId)| == 1
    requires subscriptionId in provider
    requires !Truthy(PeriodStart(provider[subscriptionId])) || !Truthy(PeriodEnd(provider[subscriptionId]))
    ensures Reconcile(db, provider, subscriptionId, customerId, createAction, writeError)
         == Effect(Err(MissingPeriodDates), db)
  {
  }

  /** `manageSubscriptionStatusChange`: resolve the user, fetch the snapshot,
      build the row and replace the row keyed by the snapshot's id.
      `createAction` is accepted and not read. */
  function Reconcile(db: Db, provider: map<string, StripeSubscription>, subscriptionId: string, customerId: string,
                     createAction: bool, writeError: Option<string>): (e: Effect<SubscriptionRow>)
    // an unmapped customer fails before anything else, and writes nothing
    ensures |Owners(db.customers, customerId)| != 1 ==> e == Effect(Err(CustomerNotFound), db)
    // a resolved customer with an unknown subscription id fails with nothing written
    ensures |Owners(db.customers, customerId)| == 1 && subscriptionId !in provider ==>
              e == Effect(Err(SubscriptionNotFound), db)
    // a snapshot the row cannot be built from fails with the builder's error
    ensures |Owners(db.customers, customerId)| == 1 && subscriptionId in provider &&
            SubscriptionRowOf(provider[subscriptionId], ResolveUser(db.customers, customerId).value).Err? ==>
              e == Effect(Err(SubscriptionRowOf(provider[subscriptionId],
                                                ResolveUser(db.customers, customerId).value).error), db)
    // a failed upsert is surfaced with nothing written
    ensures |Owners(db.customers, customerId)| == 1 && subscriptionId in provider &&
            SubscriptionRowOf(provider[subscriptionId], ResolveUser(db.customers, customerId).value).Ok? &&
            writeError.Some? ==>
              e == Effect(Err(StoreError(writeError.value)), db)
    // otherwise the reconciliation succeeds and stores the built row
    ensures |Owners(db.customers, customerId)| == 1 && subscriptionId in provider &&
            SubscriptionRowOf(provider[subscriptionId], ResolveUser(db.customers, customerId).value).Ok? &&
            writeError.None? ==>
              e.result == SubscriptionRowOf(provider[subscriptionId], ResolveUser(db.customers, customerId).value)
    ensures e.result.Err? ==> e.db == db
    // the returned row is the written row, owned by the mapped user, built from the live snapshot
    ensures e.result.Ok? ==>
              && subscriptionId in provider
              && Owners(db.customers, customerId) == {e.result.value.userId}
              && SubscriptionRowOf(provider[subscriptionId], e.result.value.userId) == Ok(e.result.value)
              && writeError.None?
              && e.db == db.(subscriptions := db.subscriptions[e.result.value.id := e.result.value])
  {
    match ResolveUser(db.customers, customerId)
    case Err(error) => Effect(Err(error), db)
    case Ok(userId) =>
      if subscriptionId !in provider then Effect(Err(SubscriptionNotFound), db)
      else
        match SubscriptionRowOf(provider[subscriptionId], userId)
        case Err(error) => Effect(Err(error), db)
        case Ok(row) =>
          if writeError.Some? then Effect(Err(StoreError(writeError.value)), db)
          else Effect(Ok(row), db.(subscriptions := db.subscriptions[row.id := row]))
  }

  /** The outcome of a reconciliation depends on the tables only through the
      customers table. */
  lemma ReconcileReadsCustomers(db: Db, db': Db, provider: map<string, StripeSubscription>, subscriptionId: string,
                                customerId: string, createAction: bool, writeError: Option<string>)
    requires db.customers == db'.customers
    ensures Reconcile(db, provider, subscriptionId, customerId, createAction, writeError).result
         == Reconcile(db', provider, subscriptionId, customerId, createAction, writeError).result
  {
  }

  /** `createAction` has no effect on the outcome. */
  lemma CreateActionIgnored(db: Db, provider: map<string, StripeSubscription>, subscriptionId: string,
                            customerId: string, writeError: Option<string>)
    ensures Reconcile(db, provider, subscriptionId, customerId, true, writeError)
         == Reconcile(db, provider, subscriptionId, customerId, false, writeError)
  {
  }

  /** Redelivery: reconciling a second time against the same live snapshot
      gives the same result and the same tables as reconciling once. */
  lemma ReconcileIdempotent(db: Db, provider: map<string, StripeSubscription>, subscriptionId: string,
                            customerId: string, createAction: bool, writeError: Option<string>)
    ensures var once := Reconcile(db, provider, subscriptionId, customerId, createAction, writeError);
            Reconcile(once.db, provider, subscriptionId, customerId, createAction, writeError) == once
  {
  }

  /** Order independence: two reconciliations against the same live provider
      state leave the same tables in either order, when they are for the same
      subscription and customer or their snapshots are different rows. */
  lemma ReconcileCommutes(db: Db, provider: map<string, StripeSubscription>,
                          sub1: string, cust1: string, create1: bool, err1: Option<string>,
                          sub2: string, cust2: string, create2: bool, err2: Option<string>)
    requires (sub1 == sub2 && cust1 == cust2)
          || !(sub1 in provider && sub2 in provider && provider[sub1].id == provider[sub2].id)
    ensures Reconcile(Reconcile(db, provider, sub1, cust1, create1, err1).db, provider, sub2, cust2, create2, err2).db
         == Reconcile(Reconcile(db, provider, sub2, cust2, create2, err2).db, provider, sub1, cust1, create1, err1).db
  {
  }

  // ----- the store -----

  /** The local tables, updated in place by the four operations. */
  class Store {
    var products: map<string, ProductRow>
    var prices: map<string, PriceRow>
    var customers: map<string, Option<string>>
    var subscriptions: map<string, SubscriptionRow>

    /** The tables as one value. */
    function Tables(): Db
      reads this
    {
      Db(products, prices, customers, subscriptions)
    }

    constructor ()
      ensures Tables() == Db(map[], map[], map[], map[])
    {
      products, prices, customers, subscriptions := map[], map[], map[], map[];
    }

    method UpsertProductRecord(product: StripeProduct, writeError: Option<string>) returns (r: Result<()>)
      modifies this
      ensures r == UpsertProduct(old(Tables()), product, writeError).result
      ensures Tables() == UpsertProduct(old(Tables()), product, writeError).db
    {
      var productData := ProductRowOf(product);
      if writeError.Some? {
        return Err(StoreError(writeError.value));
      }
      products := products[productData.id := productData];
      r := Ok(());
    }

    method UpsertPriceRecord(price: StripePrice, writeError: Option<string>) returns (r: Result<()>)
      modifies this
      ensures r == UpsertPrice(old(Tables()), price, writeError).result
      ensures Tables() == UpsertPrice(old(Tables()), price, writeError).db
    {
      var priceData := PriceRowOf(price);
      if writeError.Some? {
        return Err(StoreError(writeError.value));
      }
      prices := prices[priceData.id := priceData];
      r := Ok(());
    }

    method CreateOrRetrieveCustomer(email: string, uuid: string, createdId: Option<string>, writeError: Option<string>)
      returns (r: Result<string>, request: Option<CustomerCreateRequest>)
      modifies this
      ensures var c := CreateOrRetrieve(old(Tables()), uuid, email, createdId, writeError);
              r == c.result && request == c.request && Tables() == c.db
    {
      request := None;
      if uuid in customers && TruthyText(customers[uuid]) {
        return Ok(customers[uuid].value), request;
      }
      var customerData := CustomerCreateRequestOf(uuid, email);
      request := Some(customerData);
      if createdId.None? {
        return Err(CustomerCreateFailed), request;
      }
      if uuid in customers {
        return Err(DuplicateKey(uuid)), request;
      }
      if writeError.Some? {
        return Err(StoreError(writeError.value)), request;
      }
      customers := customers[uuid := createdId];
      r := Ok(createdId.value);
    }

    method ManageSubscriptionStatusChange(provider: map<string, StripeSubscription>, subscriptionId: string,
                                          customerId: string, createAction: bool, writeError: Option<string>)
      returns (r: Result<SubscriptionRow>)
      modifies this
      ensures r == Reconcile(old(Tables()), provider, subscriptionId, customerId, createAction, writeError).result
      ensures Tables() == Reconcile(old(Tables()), provider, subscriptionId, customerId, createAction, writeError).db
    {
      var customerData := ResolveUser(customers, customerId);
      if customerData.Err? {
        return Err(customerData.error);
      }
      if subscriptionId !in provider {
        return Err(SubscriptionNotFound);
      }
      var subscriptionData := SubscriptionRowOf(provider[subscriptionId], customerData.value);
      if subscriptionData.Err? {
        return subscriptionData;
      }
      if writeError.Some? {
        return Err(StoreError(writeError.value));
      }
      subscriptions := subscriptions[subscriptionData.value.id := subscriptionData.value];
      r := subscriptionData;
    }
  }
}
