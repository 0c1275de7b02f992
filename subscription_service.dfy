/**
 * The subscription service: the restaurant's billing fields as a small state
 * machine driven by Stripe webhook events and by cancellation, the reuse of a
 * Stripe customer when a subscription is created, and the two pure views of
 * Stripe objects.  Stripe itself is outside the model: the verified event,
 * the new customer id and the subscription Stripe creates are parameters.
 */
module SubscriptionService {
  import opened Wrappers
  import opened Entities
  import opened Schema
  import opened RestaurantService

  /** The Stripe object an event carries: a subscription or an invoice (whose `status` is ignored). */
  datatype StripeObject = StripeObject(id: string, customer: string, status: string)

  /** A webhook event whose signature Stripe's library accepted. */
  datatype Event = Event(eventType: string, data: StripeObject)

  const SubscriptionCreated := "customer.subscription.created"
  const SubscriptionUpdated := "customer.subscription.updated"
  const SubscriptionDeleted := "customer.subscription.deleted"
  const PaymentSucceeded := "invoice.payment_succeeded"
  const PaymentFailed := "invoice.payment_failed"

  const SubscriptionNotFound := NotFound("Subscription not found")
  const CancelledMessage := "Subscription canceled successfully"

  /** The event kinds the webhook switch has a case for. */
  predicate Handled(eventType: string) {
    eventType == SubscriptionCreated || eventType == SubscriptionUpdated || eventType == SubscriptionDeleted
    || eventType == PaymentSucceeded || eventType == PaymentFailed
  }

  /** `updateRestaurantSubscription`: back to the free plan, with an empty (not null) subscription id. */
  function Cancelled(r: Restaurant): (c: Restaurant)
    ensures c.subscriptionId == Some("") && c.subscriptionStatus == DefaultSubscriptionStatus
    ensures c.(subscriptionId := r.subscriptionId, subscriptionStatus := r.subscriptionStatus) == r
  {
    r.(subscriptionId := Some(""), subscriptionStatus := DefaultSubscriptionStatus)
  }

  /** The fixed update each event kind makes to the matching restaurant. */
  function ApplyEvent(r: Restaurant, e: Event): (s: Restaurant)
    ensures s.(subscriptionId := r.subscriptionId, subscriptionStatus := r.subscriptionStatus) == r
    ensures e.eventType == SubscriptionCreated || e.eventType == SubscriptionUpdated ==>
      s.subscriptionId == Some(e.data.id) && s.subscriptionStatus == e.data.status
    ensures e.eventType == SubscriptionDeleted ==> s == Cancelled(r)
    ensures e.eventType == PaymentSucceeded ==> s == r.(subscriptionStatus := "active")
    ensures e.eventType == PaymentFailed ==> s == r.(subscriptionStatus := "past_due")
    ensures !Handled(e.eventType) ==> s == r
  {
    if e.eventType == SubscriptionCreated || e.eventType == SubscriptionUpdated then
      r.(subscriptionId := Some(e.data.id), subscriptionStatus := e.data.status)
    else if e.eventType == SubscriptionDeleted then Cancelled(r)
    else if e.eventType == PaymentSucceeded then r.(subscriptionStatus := "active")
    else if e.eventType == PaymentFailed then r.(subscriptionStatus := "past_due")
    else r
  }

  /**
   * Redelivering an event has no further effect, a payment event leaves the
   * subscription id alone, and the deletion event ends in the state a
   * cancellation leaves, from which a second cancellation is refused.
   */
  lemma EventsAreIdempotent(r: Restaurant, e: Event)
    ensures ApplyEvent(ApplyEvent(r, e), e) == ApplyEvent(r, e)
    ensures e.eventType == PaymentSucceeded || e.eventType == PaymentFailed ==>
      ApplyEvent(r, e).subscriptionId == r.subscriptionId
    ensures e.eventType == SubscriptionDeleted ==> !Truthy(ApplyEvent(r, e).subscriptionId)
  {
  }

  /** The restaurant's state after a sequence of events, all for its customer. */
  function ApplyEvents(r: Restaurant, events: seq<Event>): Restaurant
    decreases |events|
  {
    if events == [] then r else ApplyEvents(ApplyEvent(r, events[0]), events[1..])
  }

  /**
   * Whatever events arrive, only the two subscription fields ever change,
   * and after a deletion event with nothing later the restaurant is free.
   */
  lemma {:induction false} EventsOnlyTouchSubscription(r: Restaurant, events: seq<Event>)
    ensures ApplyEvents(r, events).(subscriptionId := r.subscriptionId, subscriptionStatus := r.subscriptionStatus) == r
    ensures |events| > 0 && events[|events| - 1].eventType == SubscriptionDeleted ==>
      ApplyEvents(r, events) == Cancelled(r)
    decreases |events|
  {
    if events != [] {
      EventsOnlyTouchSubscription(ApplyEvent(r, events[0]), events[1..]);
      if |events| == 1 {
        assert events[1..] == [];
      } else {
        assert events[1..][|events[1..]| - 1] == events[|events| - 1];
      }
    }
  }

  /**
   * `handleWebhook`.  `verified` is the event Stripe's library constructs, or
   * `None` when it rejects the signature, which throws before any change.  A
   * handled event updates a restaurant with the event's customer id when
   * there is one; the answer is always `{ received: true }`.
   */
  method HandleWebhook(db: Database, verified: Option<Event>) returns (r: Result<bool>)
    requires db.Valid()
    modifies db
    ensures db.Valid()
    ensures verified.None? ==> r == Err(WebhookError) && unchanged(db)
    ensures verified.Some? ==> r == Ok(true)
    ensures verified.Some? && (!Handled(verified.value.eventType) ||
      forall k :: k in old(db.restaurants) ==> old(db.restaurants[k]).stripeCustomerId != Some(verified.value.data.customer))
      ==> db.restaurants == old(db.restaurants)
    ensures (verified.Some? && Handled(verified.value.eventType) &&
      exists k :: k in old(db.restaurants) && old(db.restaurants[k]).stripeCustomerId == Some(verified.value.data.customer)) ==>
      exists k :: k in old(db.restaurants) && old(db.restaurants[k]).stripeCustomerId == Some(verified.value.data.customer)
        && db.restaurants == old(db.restaurants)[k := ApplyEvent(old(db.restaurants[k]), verified.value)]
    ensures unchanged(db`users, db`menus, db`categories, db`items, db`analytics)
  {
    if verified.None? {
      return Err(WebhookError);
    }
    var e := verified.value;
    if Handled(e.eventType) {
      var found := FindByStripeCustomerId(db.restaurants, e.data.customer);
      if found.Some? {
        var restaurant := found.value;
        assert db.restaurants[restaurant.id] == restaurant && UuidText(restaurant.id) && restaurant.userId in db.users;
        var updated := ApplyEvent(restaurant, e);
        var saved := Save(db, updated);
      }
    }
    r := Ok(true);
  }

  /**
   * `cancelSubscription`: the restaurant guard, then NotFound unless the
   * subscription id is truthy, then the Stripe cancellation (`cancelOk` is
   * its outcome), then the free plan.
   */
  method CancelSubscription(db: Database, restaurantId: Id, actor: Actor, cancelOk: bool) returns (r: Result<string>)
    requires db.Valid()
    modifies db
    ensures db.Valid()
    ensures FindOne(old(db.restaurants), restaurantId, actor).Err? ==>
      r == Err(FindOne(old(db.restaurants), restaurantId, actor).error)
    ensures FindOne(old(db.restaurants), restaurantId, actor).Ok? && !Truthy(old(db.restaurants[restaurantId].subscriptionId)) ==>
      r == Err(SubscriptionNotFound)
    ensures r.Ok? <==>
      FindOne(old(db.restaurants), restaurantId, actor).Ok? && Truthy(old(db.restaurants[restaurantId].subscriptionId)) && cancelOk
    ensures r.Ok? ==>
      r.value == CancelledMessage && db.restaurants == old(db.restaurants)[restaurantId := Cancelled(old(db.restaurants[restaurantId]))]
    ensures r.Err? ==> unchanged(db)
    ensures unchanged(db`users, db`menus, db`categories, db`items, db`analytics)
  {
    var found := FindOne(db.restaurants, restaurantId, actor);
    if found.Err? {
      return Err(found.error);
    }
    var restaurant := found.value;
    if !Truthy(restaurant.subscriptionId) {
      return Err(SubscriptionNotFound);
    }
    if !cancelOk {
      return Err(UpstreamFailure);
    }
    var saved := UpdateRestaurantSubscription(db, restaurant);
    r := Ok(CancelledMessage);
  }

  /** `updateRestaurantSubscription`: save the restaurant on the free plan. */
  method UpdateRestaurantSubscription(db: Database, restaurant: Restaurant) returns (r: Result<Restaurant>)
    requires db.Valid()
    modifies db
    ensures db.Valid()
    ensures r.Ok? <==> UuidText(restaurant.id) && restaurant.userId in old(db.users)
    ensures r.Ok? ==> r.value == Cancelled(restaurant) && db.restaurants == old(db.restaurants)[restaurant.id := Cancelled(restaurant)]
    ensures r.Err? ==> db.restaurants == old(db.restaurants)
    ensures unchanged(db`users, db`menus, db`categories, db`items, db`analytics)
  {
    r := Save(db, Cancelled(restaurant));
  }

  /** After a cancellation the subscription id is falsy, so a second cancellation is refused. */
  lemma CancelIsFinal(r: Restaurant)
    ensures !Truthy(Cancelled(r).subscriptionId)
    ensures Cancelled(Cancelled(r)) == Cancelled(r)
  {
  }

  // ---------------------------------------------------------------------------
  // Creating a subscription
  // ---------------------------------------------------------------------------

  datatype CreateSubscriptionDto = CreateSubscriptionDto(priceId: string, restaurantId: Id)

  datatype PaymentIntent = PaymentIntent(clientSecret: Option<string>)
  datatype Invoice = Invoice(paymentIntent: Option<PaymentIntent>)

  /** The subscription Stripe creates, with `latest_invoice.payment_intent` expanded. */
  datatype Subscription = Subscription(id: string, latestInvoice: Invoice)

  /** What `handleSubscription` returns. */
  datatype SubscriptionView = SubscriptionView(subscriptionId: string, clientSecret: Option<string>)

  /** `handleSubscription`: the id, and the payment intent's secret when it is truthy (else null). */
  function HandleSubscription(s: Subscription): (v: SubscriptionView)
    ensures v.subscriptionId == s.id
    ensures v.clientSecret.Some? <==> s.latestInvoice.paymentIntent.Some? && Truthy(s.latestInvoice.paymentIntent.value.clientSecret)
    ensures v.clientSecret.Some? ==> v.clientSecret == s.latestInvoice.paymentIntent.value.clientSecret && v.clientSecret.value != ""
  {
    var intent := s.latestInvoice.paymentIntent;
    SubscriptionView(s.id, if intent.Some? && Truthy(intent.value.clientSecret) then intent.value.clientSecret else None)
  }

  /** The customer a subscription is created for: the stored one when truthy, else the newly created one. */
  function CustomerFor(r: Restaurant, newCustomerId: string): string {
    if Truthy(r.stripeCustomerId) then r.stripeCustomerId.value else newCustomerId
  }

  /** The restaurant after `createSubscription` has chosen its customer. */
  function WithCustomer(r: Restaurant, newCustomerId: string): Restaurant {
    if Truthy(r.stripeCustomerId) then r else r.(stripeCustomerId := Some(newCustomerId))
  }

  /**
   * Once a (non-empty) customer id is stored, later subscriptions reuse it:
   * the customer is chosen once and no fresh id replaces it.
   */
  lemma CustomerIsReused(r: Restaurant, first: string, later: string)
    requires first != ""
    ensures CustomerFor(WithCustomer(r, first), later) == CustomerFor(r, first)
    ensures WithCustomer(WithCustomer(r, first), later) == WithCustomer(r, first)
    ensures WithCustomer(r, first).stripeCustomerId == Some(CustomerFor(r, first))
  {
  }

  /**
   * `createSubscription`.  After the restaurant guard, a truthy stored
   * customer id is retrieved from Stripe; otherwise a new customer
   * (`newCustomerId`) is created and stored on the restaurant.  `customerOk`
   * is whether that retrieval or creation succeeds; when it throws nothing
   * is stored.  Then the subscription is created: `created` is the
   * subscription Stripe returns, or `None` when that call throws, which
   * leaves a newly stored customer in place.
   */
  method CreateSubscription(db: Database, dto: CreateSubscriptionDto, actor: Actor, customerOk: bool,
                            newCustomerId: string, created: Option<Subscription>)
    returns (r: Result<SubscriptionView>, customer: Option<string>)
    requires db.Valid()
    modifies db
    ensures db.Valid()
    ensures FindOne(old(db.restaurants), dto.restaurantId, actor).Err? ==>
      r == Err(FindOne(old(db.restaurants), dto.restaurantId, actor).error) && customer == None && unchanged(db)
    ensures FindOne(old(db.restaurants), dto.restaurantId, actor).Ok? && !customerOk ==>
      r == Err(UpstreamFailure) && customer == None && unchanged(db)
    ensures FindOne(old(db.restaurants), dto.restaurantId, actor).Ok? && customerOk ==>
      var before := old(db.restaurants[dto.restaurantId]);
      && customer == Some(CustomerFor(before, newCustomerId))
      && db.restaurants == old(db.restaurants)[dto.restaurantId := WithCustomer(before, newCustomerId)]
      && (r.Ok? <==> created.Some?)
    ensures r.Ok? ==> r == Ok(HandleSubscription(created.value))
    ensures unchanged(db`users, db`menus, db`categories, db`items, db`analytics)
  {
    customer := None;
    var found := FindOne(db.restaurants, dto.restaurantId, actor);
    if found.Err? {
      return Err(found.error), customer;
    }
    var restaurant := found.value;
    if !customerOk {
      return Err(UpstreamFailure), customer;
    }
    if Truthy(restaurant.stripeCustomerId) {
      customer := restaurant.stripeCustomerId;
    } else {
      customer := Some(newCustomerId);
      var saved := Save(db, restaurant.(stripeCustomerId := Some(newCustomerId)));
    }
    if created.None? {
      return Err(UpstreamFailure), customer;
    }
    r := Ok(HandleSubscription(created.value));
  }

  // ---------------------------------------------------------------------------
  // Plans
  // ---------------------------------------------------------------------------

  datatype Recurring = Recurring(interval: Option<string>)

  /** A Stripe price; `unitAmount` is in the currency's minor unit. */
  datatype Price = Price(unitAmount: Option<int>, currency: string, recurring: Option<Recurring>)

  /** What `handlePrice` returns. `price` is the exact quotient; the float rounding is not modelled. */
  datatype PlanView = PlanView(price: real, currency: string, interval: string)

  const DefaultInterval := "month"

  /** `handlePrice`: a falsy amount reads as 0, a missing or falsy interval as "month". */
  function HandlePrice(p: Price): (v: PlanView)
    ensures v.currency == p.currency
    ensures (p.unitAmount.None? || p.unitAmount.value == 0) <==> v.price == 0.0
    ensures p.unitAmount.Some? ==> v.price * 100.0 == p.unitAmount.value as real
    ensures p.recurring.None? ==> v.interval == DefaultInterval
    ensures p.recurring.Some? && Truthy(p.recurring.value.interval) ==> v.interval == p.recurring.value.interval.value
    ensures p.recurring.Some? && !Truthy(p.recurring.value.interval) ==> v.interval == DefaultInterval
    ensures v.interval != ""
  {
    PlanView(
      if p.unitAmount.Some? && p.unitAmount.value != 0 then p.unitAmount.value as real / 100.0 else 0.0,
      p.currency,
      if p.recurring.Some? && Truthy(p.recurring.value.interval) then p.recurring.value.interval.value else DefaultInterval)
  }
}
