/** The webhook endpoint: it authenticates a delivery, filters its event
    type through a fixed allow-set, routes it to one store operation and
    turns the outcome into an HTTP status.

    The signature check (`constructEvent`) is the input `verify`, applied to
    the raw body, the signature header and the webhook secret; the provider
    and the database client are the inputs described for the store. */
module WebhookRoute {
  import opened Billing
  import opened SupabaseAdmin

  /** The event types the endpoint acts on; every other type is acknowledged
      and ignored. */
  const RelevantEvents: set<string> := {
    "product.created",
    "product.updated",
    "price.created",
    "price.updated",
    "checkout.session.completed",
    "customer.subscription.created",
    "customer.subscription.updated",
    "customer.subscription.deleted",
    "invoice.payment_succeeded",
    "invoice.payment_failed"
  }

  /** `event.data.object`, in the shapes the handlers read. Ids that the
      provider may leave null are "" here. */
  datatype EventObject =
    | ProductPayload(product: StripeProduct)
    | PricePayload(price: StripePrice)
    | SubscriptionPayload(id: string, customer: string)
    | CheckoutSessionPayload(mode: string, subscription: string, customer: string)
    | InvoicePayload(subscription: string, customer: string)
    | OtherPayload

  datatype Event = Event(eventType: string, data: EventObject)

  /** What `constructEvent` yields: the event, or the message of its error. */
  datatype Verified = Verified(event: Event) | Rejected(message: string)

  /** An inbound delivery: the raw body and the `Stripe-Signature` header. */
  datatype Request = Request(body: string, signature: Option<string>)

  datatype Response = Response(status: int, body: string)

  const MissingSignatureBody: string := "Missing Stripe signature or webhook secret"
  const HandlerFailedBody: string := "Webhook error: \"Webhook handler failed. View logs.\""
  const Received: Response := Response(200, "{\"received\":true}")

  /** The cases of the dispatch switch. */
  datatype Handler = ProductHandler | PriceHandler | SubscriptionHandler | CheckoutHandler | InvoiceHandler | NoCase

  function Route(eventType: string): (handler: Handler)
    // the switch has a case for exactly the allowed types, so its `default`
    // (the unhandled-event error) is unreachable
    ensures handler != NoCase <==> eventType in RelevantEvents
    ensures handler == SubscriptionHandler <==>
              eventType in {"customer.subscription.created", "customer.subscription.updated",
                            "customer.subscription.deleted"}
    ensures handler == InvoiceHandler <==> eventType in {"invoice.payment_succeeded", "invoice.payment_failed"}
    ensures handler == CheckoutHandler <==> eventType == "checkout.session.completed"
  {
    match eventType
    case "product.created" => ProductHandler
    case "product.updated" => ProductHandler
    case "price.created" => PriceHandler
    case "price.updated" => PriceHandler
    case "customer.subscription.created" => SubscriptionHandler
    case "customer.subscription.updated" => SubscriptionHandler
    case "customer.subscription.deleted" => SubscriptionHandler
    case "checkout.session.completed" => CheckoutHandler
    case "invoice.payment_succeeded" => InvoiceHandler
    case "invoice.payment_failed" => InvoiceHandler
    case _ => NoCase
  }

  function Discard<T>(e: Effect<T>): (u: Effect<()>)
    ensures u.db == e.db && u.result.Ok? == e.result.Ok?
    ensures e.result.Err? ==> u.result.error == e.result.error
  {
    match e.result
    case Ok(_) => Effect(Ok(()), e.db)
    case Err(error) => Effect(Err(error), e.db)
  }

  /** The body of the `try` around the switch: the store operation the event
      calls for, if any. */
  function Handle(db: Db, event: Event, provider: map<string, StripeSubscription>, writeError: Option<string>)
    : (e: Effect<()>)
    ensures e.result.Err? ==> e.db == db
    ensures e.db.customers == db.customers
    ensures Route(event.eventType) == NoCase ==> e == Effect(Err(UnhandledEvent(event.eventType)), db)
  {
    var payload := event.data;
    match Route(event.eventType)
    case ProductHandler =>
      if payload.ProductPayload? then UpsertProduct(db, payload.product, writeError)
      else Effect(Err(MalformedPayload), db)
    case PriceHandler =>
      if payload.PricePayload? then UpsertPrice(db, payload.price, writeError)
      else Effect(Err(MalformedPayload), db)
    case SubscriptionHandler =>
      if payload.SubscriptionPayload? then
        Discard(Reconcile(db, provider, payload.id, payload.customer,
                          event.eventType == "customer.subscription.created", writeError))
      else Effect(Err(MalformedPayload), db)
    case CheckoutHandler =>
      if !payload.CheckoutSessionPayload? then Effect(Err(MalformedPayload), db)
      else if payload.mode == "subscription" then
        Discard(Reconcile(db, provider, payload.subscription, payload.customer, true, writeError))
      else Effect(Ok(()), db)
    case InvoiceHandler =>
      if !payload.InvoicePayload? then Effect(Err(MalformedPayload), db)
      else if payload.subscription != "" then
        Discard(Reconcile(db, provider, payload.subscription, payload.customer, false, writeError))
      else Effect(Ok(()), db)
    case NoCase =>
      Effect(Err(UnhandledEvent(event.eventType)), db)
  }

  datatype Delivered = Delivered(response: Response, db: Db)

  /** `POST`: the response to one delivery and the tables after it. */
  function Deliver(db: Db, request: Request, secret: Option<string>, verify: (string, string, string) -> Verified,
                   provider: map<string, StripeSubscription>, writeError: Option<string>): (d: Delivered)
    // a missing signature or secret is rejected before anything else
    ensures !TruthyText(request.signature) || !TruthyText(secret) ==>
              d == Delivered(Response(400, MissingSignatureBody), db)
    // so is a delivery that fails the signature check
    ensures TruthyText(request.signature) && TruthyText(secret) &&
            verify(request.body, request.signature.value, secret.value).Rejected? ==>
              d.response.status == 400 && d.db == db
    // an event outside the allow-set is acknowledged and changes nothing
    ensures TruthyText(request.signature) && TruthyText(secret) &&
            verify(request.body, request.signature.value, secret.value).Verified? &&
            verify(request.body, request.signature.value, secret.value).event.eventType !in RelevantEvents ==>
              d == Delivered(Received, db)
    // an allowed event runs its handler: a failure gives 400 with nothing
    // written, a success is acknowledged with the handler's tables
    ensures TruthyText(request.signature) && TruthyText(secret) &&
            verify(request.body, request.signature.value, secret.value).Verified? &&
            verify(request.body, request.signature.value, secret.value).event.eventType in RelevantEvents ==>
              var e := Handle(db, verify(request.body, request.signature.value, secret.value).event, provider, writeError);
              && (e.result.Err? ==> d == Delivered(Response(400, HandlerFailedBody), db))
              && (e.result.Ok? ==> d == Delivered(Received, e.db))
    // every delivery is acknowledged or rejected, and a rejected one writes nothing
    ensures d.response == Received || d.response.status == 400
    ensures d.response.status == 400 ==> d.db == db
    ensures d.db.customers == db.customers
  {
    if !TruthyText(request.signature) || !TruthyText(secret) then
      Delivered(Response(400, MissingSignatureBody), db)
    else
      match verify(request.body, request.signature.value, secret.value)
      case Rejected(message) => Delivered(Response(400, "Webhook Error: " + message), db)
      case Verified(event) =>
        if event.eventType !in RelevantEvents then Delivered(Received, db)
        else
          var e := Handle(db, event, provider, writeError);
          if e.result.Err? then Delivered(Response(400, HandlerFailedBody), db)
          else Delivered(Received, e.db)
  }

  /** Catalogue events go to the matching upsert. */
  lemma CatalogueRouting(db: Db, event: Event, provider: map<string, StripeSubscription>, writeError: Option<string>)
    ensures event.eventType in {"product.created", "product.updated"} && event.data.ProductPayload? ==>
              Handle(db, event, provider, writeError) == UpsertProduct(db, event.data.product, writeError)
    ensures event.eventType in {"price.created", "price.updated"} && event.data.PricePayload? ==>
              Handle(db, event, provider, writeError) == UpsertPrice(db, event.data.price, writeError)
  {
  }

  /** Subscription lifecycle events reconcile the subscription and customer
      the payload names; only `created` passes `createAction`. */
  lemma SubscriptionRouting(db: Db, event: Event, provider: map<string, StripeSubscription>, writeError: Option<string>)
    requires event.eventType in {"customer.subscription.created", "customer.subscription.updated",
                                 "customer.subscription.deleted"}
    requires event.data.SubscriptionPayload?
    ensures Handle(db, event, provider, writeError)
         == Discard(Reconcile(db, provider, event.data.id, event.data.customer,
                              event.eventType == "customer.subscription.created", writeError))
  {
  }

  /** A completed checkout in subscription mode has the same effect as the
      `customer.subscription.created` (or `updated`) event for the same
      subscription and customer. */
  lemma CheckoutMatchesSubscriptionEvents(db: Db, provider: map<string, StripeSubscription>, writeError: Option<string>,
                                          subscriptionId: string, customerId: string)
    ensures var checkout := Event("checkout.session.completed",
                                  CheckoutSessionPayload("subscription", subscriptionId, customerId));
            var created := Event("customer.subscription.created", SubscriptionPayload(subscriptionId, customerId));
            var updated := Event("customer.subscription.updated", SubscriptionPayload(subscriptionId, customerId));
            && Handle(db, checkout, provider, writeError) == Handle(db, created, provider, writeError)
            && Handle(db, checkout, provider, writeError) == Handle(db, updated, provider, writeError)
  {
  }

  /** A checkout outside subscription mode, and an invoice without a
      subscription, are acknowledged without effect. */
  lemma IgnoredPayloads(db: Db, event: Event, provider: map<string, StripeSubscription>, writeError: Option<string>)
    ensures event.eventType == "checkout.session.completed" &&
            event.data.CheckoutSessionPayload? && event.data.mode != "subscription" ==>
              Handle(db, event, provider, writeError) == Effect(Ok(()), db)
    ensures event.eventType in {"invoice.payment_succeeded", "invoice.payment_failed"} &&
            event.data.InvoicePayload? && event.data.subscription == "" ==>
              Handle(db, event, provider, writeError) == Effect(Ok(()), db)
    ensures event.eventType in {"invoice.payment_succeeded", "invoice.payment_failed"} &&
            event.data.InvoicePayload? && event.data.subscription != "" ==>
              Handle(db, event, provider, writeError) ==
                Discard(Reconcile(db, provider, event.data.subscription, event.data.customer, false, writeError))
  {
  }

  /** The event asks for a reconciliation on behalf of the provider customer
      `customerId`: a subscription lifecycle event, a subscription-mode
      checkout, or an invoice that names a subscription. */
  predicate ReconcilesFor(event: Event, customerId: string) {
    match event.data
    case SubscriptionPayload(_, customer) => Route(event.eventType) == SubscriptionHandler && customer == customerId
    case CheckoutSessionPayload(mode, _, customer) =>
      event.eventType == "checkout.session.completed" && mode == "subscription" && customer == customerId
    case InvoicePayload(subscription, customer) =>
      Route(event.eventType) == InvoiceHandler && subscription != "" && customer == customerId
    case _ => false
  }

  /** Every event that reconciles on behalf of a provider customer with no
      single local mapping fails the delivery and writes nothing. */
  lemma UnmappedCustomerFailsDelivery(db: Db, request: Request, secret: Option<string>,
                                      verify: (string, string, string) -> Verified,
                                      provider: map<string, StripeSubscription>, writeError: Option<string>,
                                      customerId: string)
    requires TruthyText(request.signature) && TruthyText(secret)
    requires verify(request.body, request.signature.value, secret.value).Verified?
    requires ReconcilesFor(verify(request.body, request.signature.value, secret.value).event, customerId)
    requires |Owners(db.customers, customerId)| != 1
    ensures Deliver(db, request, secret, verify, provider, writeError)
         == Delivered(Response(400, HandlerFailedBody), db)
  {
  }

  lemma HandleIdempotent(db: Db, event: Event, provider: map<string, StripeSubscription>, writeError: Option<string>)
    ensures var once := Handle(db, event, provider, writeError);
            Handle(once.db, event, provider, writeError) == once
  {
  }

  /** At-least-once delivery: handling the same delivery again, against the
      same live provider state, gives the same response and the same tables
      as handling it once. */
  lemma RedeliveryIdempotent(db: Db, request: Request, secret: Option<string>,
                             verify: (string, string, string) -> Verified,
                             provider: map<string, StripeSubscription>, writeError: Option<string>)
    ensures var once := Deliver(db, request, secret, verify, provider, writeError);
            Deliver(once.db, request, secret, verify, provider, writeError) == once
  {
    if TruthyText(request.signature) && TruthyText(secret) {
      var verified := verify(request.body, request.signature.value, secret.value);
      if verified.Verified? && verified.event.eventType in RelevantEvents {
        HandleIdempotent(db, verified.event, provider, writeError);
      }
    }
  }

  /** `POST` on a store: early returns for the signature guards, then the
      switch, whose failure becomes a 400. */
  method Post(store: Store, request: Request, secret: Option<string>, verify: (string, string, string) -> Verified,
              provider: map<string, StripeSubscription>, writeError: Option<string>)
    returns (response: Response)
    modifies store
    ensures var d := Deliver(old(store.Tables()), request, secret, verify, provider, writeError);
            response == d.response && store.Tables() == d.db
  {
    var sig := request.signature;
    if !TruthyText(sig) || !TruthyText(secret) {
      return Response(400, MissingSignatureBody);
    }
    var verified := verify(request.body, sig.value, secret.value);
    if verified.Rejected? {
      return Response(400, "Webhook Error: " + verified.message);
    }
    var event := verified.event;
    if event.eventType in RelevantEvents {
      var payload := event.data;
      var outcome: Result<()>;
      match Route(event.eventType) {
        case ProductHandler =>
          if payload.ProductPayload? {
            outcome := store.UpsertProductRecord(payload.product, writeError);
          } else {
            outcome := Err(MalformedPayload);
          }
        case PriceHandler =>
          if payload.PricePayload? {
            outcome := store.UpsertPriceRecord(payload.price, writeError);
          } else {
            outcome := Err(MalformedPayload);
          }
        case SubscriptionHandler =>
          if payload.SubscriptionPayload? {
            var r := store.ManageSubscriptionStatusChange(provider, payload.id, payload.customer,
                                                          event.eventType == "customer.subscription.created",
                                                          writeError);
            outcome := if r.Ok? then Ok(()) else Err(r.error);
          } else {
            outcome := Err(MalformedPayload);
          }
        case CheckoutHandler =>
          if !payload.CheckoutSessionPayload? {
            outcome := Err(MalformedPayload);
          } else if payload.mode == "subscription" {
            var r := store.ManageSubscriptionStatusChange(provider, payload.subscription, payload.customer, true,
                                                          writeError);
            outcome := if r.Ok? then Ok(()) else Err(r.error);
          } else {
            outcome := Ok(());
          }
        case InvoiceHandler =>
          if !payload.InvoicePayload? {
            outcome := Err(MalformedPayload);
          } else if payload.subscription != "" {
            var r := store.ManageSubscriptionStatusChange(provider, payload.subscription, payload.customer, false,
                                                          writeError);
            outcome := if r.Ok? then Ok(()) else Err(r.error);
          } else {
            outcome := Ok(());
          }
        case NoCase =>
          outcome := Err(UnhandledEvent(event.eventType));
      }
      if outcome.Err? {
        return Response(400, HandlerFailedBody);
      }
    }
    return Received;
  }
}
