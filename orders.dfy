/**
 * The order and payment service (controllers/ordercontroller.js): orders
 * snapshot a gig, carry a payment-intent id that starts as a placeholder
 * or as the provider's intent id, and a completion flag. The payment
 * provider is reached through a module-wide client handle that is set up
 * from the environment and set up again on demand when it is missing.
 */
module Orders {
  import opened Common
  import opened Seqs

  datatype Order = Order(
    sid: Id,                // storage id (`_id`)
    gigId: Id,
    img: string,
    title: string,
    price: int,
    sellerId: Id,
    buyerId: Id,
    paymentIntent: string,  // `payment_intent`
    isCompleted: bool)

  /** The payment-intent id of an order created without the provider. */
  const Placeholder: string := "temporary"

  /**
   * The order built from a gig: the gig's cover, title, price and owner are
   * copied in, the caller becomes the buyer, and the order is not completed.
   */
  function OrderFromGig(sid: Id, gigId: Id, gig: Gig, buyerId: Id, intent: string): (o: Order)
    ensures o.img == gig.cover && o.title == gig.title && o.price == gig.price
    ensures o.sellerId == gig.userId && o.buyerId == buyerId && o.gigId == gigId
    ensures o.paymentIntent == intent && !o.isCompleted && o.sid == sid
  {
    Order(sid, gigId, gig.cover, gig.title, gig.price, gig.userId, buyerId, intent, false)
  }

  /** The process environment, as far as the service reads it. */
  datatype Env = Env(stripeSecretKey: Option<string>)

  /** A configured payment-provider client. */
  datatype StripeClient = StripeClient(secretKey: string)

  /** `initializeStripe`: a client when the secret key is set and non-empty, otherwise none. */
  function InitializeStripe(env: Env): (r: Option<StripeClient>)
    ensures r.Some? <==> env.stripeSecretKey.Some? && Truthy(env.stripeSecretKey.value)
    ensures r.Some? ==> r.value.secretKey == env.stripeSecretKey.value
  {
    match env.stripeSecretKey
    case Some(key) => if Truthy(key) then Some(StripeClient(key)) else None
    case None => None
  }

  datatype Address = Address(line1: string, city: string, state: string, postalCode: string, country: string)
  datatype Shipping = Shipping(name: string, address: Address)
  datatype Metadata = Metadata(
    customerName: string,
    customerEmail: string,
    customerCountry: string,
    customerPhone: string,
    gigTitle: string,
    gigId: Id,
    buyerId: Id,
    sellerId: Id)

  /** The request sent to the provider to create a payment intent. */
  datatype PaymentRequest = PaymentRequest(
    amount: int,           // minor currency units
    currency: string,
    description: string,
    receiptEmail: string,
    shipping: Shipping,
    metadata: Metadata,
    automaticPaymentMethods: bool)

  /** The provider's answer: a created intent, or an error that is forwarded. */
  datatype ProviderReply = IntentCreated(id: string, clientSecret: string) | ProviderError(message: string)

  /** The body `createPaymentIntent` answers with. */
  datatype PaymentResponse = PaymentResponse(clientSecret: string, orderId: Id)

  /**
   * The payment-intent request for a gig bought by `customer`: the gig's
   * price in cents, in dollars, addressed to the customer's email, with
   * the parties and the gig recorded as metadata, and fixed fall-backs for
   * missing customer fields.
   */
  function PaymentRequestFor(gig: Gig, gigId: Id, customer: User, buyerId: Id): (q: PaymentRequest)
    ensures q.amount == gig.price * 100 && q.currency == "usd"
    ensures q.receiptEmail == customer.email && q.metadata.customerEmail == customer.email
    ensures q.metadata.gigId == gigId && q.metadata.buyerId == buyerId && q.metadata.sellerId == gig.userId
    ensures q.shipping.name == q.metadata.customerName
    ensures q.shipping.name == if Truthy(customer.username) then customer.username else customer.email
    ensures q.shipping.address.country == if Truthy(customer.country) then customer.country else "IN"
    ensures q.metadata.customerCountry == if Truthy(customer.country) then customer.country else "Unknown"
  {
    var name := OrElse(customer.username, customer.email);
    PaymentRequest(
      gig.price * 100,
      "usd",
      "Payment for gig: " + gig.title,
      customer.email,
      Shipping(name, Address("Default Address", "Default City", "Default State", "000000",
                             OrElse(customer.country, "IN"))),
      Metadata(name, customer.email, OrElse(customer.country, "Unknown"),
               OptOrElse(customer.phone, "Not provided"), gig.title, gigId, buyerId, gig.userId),
      true)
  }

  /** `User.findById(userId)`. */
  function FindCustomer(users: seq<User>, userId: Id): (r: Option<User>)
    ensures r.Some? ==> r.value in users && r.value.sid == userId
    ensures r.None? <==> forall u :: u in users ==> u.sid != userId
  {
    FindFirst(users, (u: User) => u.sid == userId)
  }

  predicate OwnedBy(o: Order, userId: Id, isSeller: bool) {
    (if isSeller then o.sellerId else o.buyerId) == userId
  }

  /** `getOrders`: the orders whose seller (seller caller) or buyer (buyer caller) is the caller, in stored order. */
  function GetOrders(os: seq<Order>, userId: Id, isSeller: bool): (r: seq<Order>)
    ensures forall o :: o in r <==> o in os && (if isSeller then o.sellerId else o.buyerId) == userId
    ensures forall o :: multiset(r)[o] == if OwnedBy(o, userId, isSeller) then multiset(os)[o] else 0
  {
    Filter(os, o => OwnedBy(o, userId, isSeller))
  }

  /** The two updates an order receives after it is created. */
  datatype OrderEdit = Complete | SetIntent(intent: string)

  /** One order after an edit: only the edited field changes. */
  function ApplyOrderEdit(o: Order, e: OrderEdit): (r: Order)
    ensures e.Complete? ==> r == o.(isCompleted := true)
    ensures e.SetIntent? ==> r == o.(paymentIntent := e.intent)
  {
    match e
    case Complete => o.(isCompleted := true)
    case SetIntent(intent) => o.(paymentIntent := intent)
  }

  predicate HasOrderSid(o: Order, sid: Id) { o.sid == sid }

  /** No two orders share a storage id. */
  ghost predicate UniqueOrderSids(os: seq<Order>) {
    forall i, j :: 0 <= i < j < |os| ==> os[i].sid != os[j].sid
  }

  /** `findByIdAndUpdate(sid, edit)`: edits the order with that storage id; an unknown id changes nothing. */
  function UpdateOrder(os: seq<Order>, sid: Id, e: OrderEdit): (r: seq<Order>)
    ensures |r| == |os|
    ensures (forall o :: o in os ==> o.sid != sid) ==> r == os
    ensures UniqueOrderSids(os) ==>
              forall i :: 0 <= i < |os| ==> r[i] == if os[i].sid == sid then ApplyOrderEdit(os[i], e) else os[i]
    ensures forall i :: 0 <= i < |os| ==> r[i].sid == os[i].sid
  {
    match FirstIndex(os, o => HasOrderSid(o, sid))
    case None => os
    case Some(k) => os[k := ApplyOrderEdit(os[k], e)]
  }

  /** Confirming an order twice is the same as confirming it once, and so is setting the same intent twice. */
  lemma {:induction false} UpdateOrderIdempotent(os: seq<Order>, sid: Id, e: OrderEdit)
    ensures UpdateOrder(UpdateOrder(os, sid, e), sid, e) == UpdateOrder(os, sid, e)
  {
    var once := UpdateOrder(os, sid, e);
    match FirstIndex(os, o => HasOrderSid(o, sid))
    case None =>
    case Some(k) =>
      assert once == os[k := ApplyOrderEdit(os[k], e)];
      assert forall j :: 0 <= j < |os| ==> (HasOrderSid(once[j], sid) <==> HasOrderSid(os[j], sid));
      assert FirstIndex(once, o => HasOrderSid(o, sid)) == Some(k);
  }

  /** Confirmation does not depend on the payment state: it completes a placeholder order too. */
  lemma ConfirmIgnoresPayment(os: seq<Order>, k: nat)
    requires UniqueOrderSids(os) && k < |os|
    ensures UpdateOrder(os, os[k].sid, Complete)[k] == os[k].(isCompleted := true)
  {
  }

  /** A newly created order is listed for its buyer (as buyer) and for the gig's owner (as seller). */
  lemma NewOrderListedForBoth(os: seq<Order>, o: Order)
    ensures o in GetOrders(os + [o], o.buyerId, false)
    ensures o in GetOrders(os + [o], o.sellerId, true)
  {
    assert o in os + [o];
  }

  /** The module-wide payment-provider client handle. */
  class StripeHandle {
    var client: Option<StripeClient>

    /** Module load: the handle is initialised once from the environment. */
    constructor (env: Env)
      ensures client == InitializeStripe(env)
    {
      client := InitializeStripe(env);
    }
  }

  /** The order collection, in insertion order. */
  class OrderStore {
    var orders: seq<Order>

    ghost predicate Valid()
      reads this
    {
      UniqueOrderSids(orders)
    }

    constructor ()
      ensures Valid() && orders == []
    {
      orders := [];
    }

    /**
     * `createOrder`: 404 when the gig is missing; otherwise one order that
     * snapshots the gig with the placeholder payment intent. `sid` is the
     * storage id the database assigns.
     */
    method CreateOrder(gigs: map<Id, Gig>, gigId: Id, userId: Id, sid: Id) returns (r: Result<string>)
      requires Valid()
      requires forall o :: o in orders ==> o.sid != sid
      modifies this
      ensures Valid()
      ensures gigId !in gigs ==> r == Err(Http(404, "Gig not found!")) && orders == old(orders)
      ensures gigId in gigs ==>
                && r == Ok("Order has been created.")
                && orders == old(orders) + [OrderFromGig(sid, gigId, gigs[gigId], userId, Placeholder)]
    {
      if gigId !in gigs {
        return Err(Http(404, "Gig not found!"));
      }
      orders := orders + [OrderFromGig(sid, gigId, gigs[gigId], userId, Placeholder)];
      r := Ok("Order has been created.");
    }

    /** `confirmOrder`: marks the order completed; it reports success even for an unknown id. */
    method ConfirmOrder(sid: Id) returns (r: Result<string>)
      requires Valid()
      modifies this
      ensures Valid()
      ensures orders == UpdateOrder(old(orders), sid, Complete)
      ensures r == Ok("Order has been confirmed.")
    {
      orders := UpdateOrder(orders, sid, Complete);
      r := Ok("Order has been confirmed.");
    }

    /** `updatePaymentStatus`: overwrites the order's payment intent with the caller's value, unchecked. */
    method UpdatePaymentStatus(sid: Id, intent: string) returns (r: Result<string>)
      requires Valid()
      modifies this
      ensures Valid()
      ensures orders == UpdateOrder(old(orders), sid, SetIntent(intent))
      ensures r == Ok("Payment status updated.")
    {
      orders := UpdateOrder(orders, sid, SetIntent(intent));
      r := Ok("Payment status updated.");
    }

    /**
     * `createPaymentIntent`. A missing client is set up again from `env`;
     * if it is still missing the request fails with 500. Then the gig and the
     * customer are looked up, in that order (404 each). Only then is the
     * provider asked, once, with the request returned in `sent`; on success
     * exactly one order is saved under the provider's intent id. `sid` is
     * the storage id the database assigns to that order.
     */
    method CreatePaymentIntent(handle: StripeHandle, env: Env, gigs: map<Id, Gig>, users: seq<User>,
                               gigId: Id, userId: Id, sid: Id,
                               provider: (StripeClient, PaymentRequest) -> ProviderReply)
      returns (r: Result<PaymentResponse>, sent: Option<PaymentRequest>)
      requires Valid()
      requires forall o :: o in orders ==> o.sid != sid
      modifies this, handle
      ensures Valid()
      ensures handle.client == if old(handle.client).Some? then old(handle.client) else InitializeStripe(env)
      ensures handle.client.None? ==>
                && r == Err(Http(500, "Payment processing is not available. Please configure Stripe."))
                && sent == None && orders == old(orders)
      ensures handle.client.Some? && gigId !in gigs ==>
                r == Err(Http(404, "Gig not found!")) && sent == None && orders == old(orders)
      ensures handle.client.Some? && gigId in gigs && FindCustomer(users, userId).None? ==>
                r == Err(Http(404, "Customer not found!")) && sent == None && orders == old(orders)
      ensures handle.client.Some? && gigId in gigs && FindCustomer(users, userId).Some? ==>
                var gig := gigs[gigId];
                var request := PaymentRequestFor(gig, gigId, FindCustomer(users, userId).value, userId);
                && sent == Some(request)
                && match provider(handle.client.value, request)
                   case ProviderError(m) => r == Err(Provider(m)) && orders == old(orders)
                   case IntentCreated(id, secret) =>
                     && r == Ok(PaymentResponse(secret, sid))
                     && orders == old(orders) + [OrderFromGig(sid, gigId, gig, userId, id)]
    {
      sent := None;
      if handle.client.None? {
        handle.client := InitializeStripe(env);
        if handle.client.None? {
          r := Err(Http(500, "Payment processing is not available. Please configure Stripe."));
          return;
        }
      }
      if gigId !in gigs {
        r := Err(Http(404, "Gig not found!"));
        return;
      }
      var gig := gigs[gigId];
      var customer := FindCustomer(users, userId);
      if customer.None? {
        r := Err(Http(404, "Customer not found!"));
        return;
      }
      var request := PaymentRequestFor(gig, gigId, customer.value, userId);
      sent := Some(request);
      match provider(handle.client.value, request)
      case ProviderError(m) =>
        r := Err(Provider(m));
      case IntentCreated(id, secret) =>
        orders := orders + [OrderFromGig(sid, gigId, gig, userId, id)];
        r := Ok(PaymentResponse(secret, sid));
    }
  }
}
