/**
 * Billing: the subscription checkout, the customer portal, and the webhook
 * whose events move accounts between the free and the paid ("alpha") tier.
 * The payment provider's calls are given as functions that return an id or
 * URL, or raise a provider error with its message; the webhook's signature
 * check is given as its outcome.
 */
module Payments {
  import opened Common
  import opened Accounts

  const AlphaTier: string := "alpha"
  const CheckoutCompleted: string := "checkout.session.completed"
  const SubscriptionDeleted: string := "customer.subscription.deleted"
  const SubscriptionPaused: string := "customer.subscription.paused"

  /** The webhook's reply once an event has been accepted. */
  const WebhookOk: string := "ok"

  const InvalidPayload: HttpError := HttpError(400, JStr("Invalid payload"))
  const InvalidSignature: HttpError := HttpError(400, JStr("Invalid signature"))
  const NoSubscription: HttpError := HttpError(400, JStr("No subscription found"))

  /** The 500 of an exception nothing handles: a profile lookup that finds
      no row leaves the result's data empty, and reading
      `stripe_customer_id` from it raises an AttributeError, which is not a
      provider error. */
  const InternalError: HttpError := HttpError(500, JStr("Internal Server Error"))

  /** `event["data"]["object"]`, by the fields the handler reads: the user id
      in a checkout session's metadata, its subscription id, and a
      subscription's own id. */
  datatype EventObject = EventObject(userId: Option<string>, subscription: Option<string>, id: string)

  datatype Event = Event(eventType: string, data: EventObject)

  /** The outcome of `construct_event`. */
  datatype Verification = BadPayload | BadSignature | Verified(event: Event)

  /** The provider's calls: create a customer for (email, user id), open a
      checkout session for (customer, user id), open a portal session for a
      customer. */
  datatype Provider = Provider(
    createCustomer: (string, UserId) -> Outcome<string>,
    createCheckout: (string, UserId) -> Outcome<string>,
    createPortal: string -> Outcome<string>)

  /** Python truthiness of an optional string. */
  predicate Truthy(s: Option<string>) {
    s.Some? && s.value != ""
  }

  // ---------------------------------------------------------------------
  // The webhook, on the table's value
  // ---------------------------------------------------------------------

  /** A completed checkout: the user's row moves to the paid tier with the
      session's subscription. */
  function Upgraded(rows: map<UserId, Profile>, id: UserId, subscription: Option<string>): map<UserId, Profile> {
    if id in rows then rows[id := rows[id].(tier := AlphaTier, stripeSubscriptionId := subscription)] else rows
  }

  /** A cancelled subscription: every row holding it goes back to the free
      tier without one. */
  function Downgraded(rows: map<UserId, Profile>, subscription: string): map<UserId, Profile> {
    map u | u in rows :: if rows[u].stripeSubscriptionId == Some(subscription)
                         then rows[u].(tier := FreeTier, stripeSubscriptionId := None)
                         else rows[u]
  }

  predicate Cancels(eventType: string) {
    eventType == SubscriptionDeleted || eventType == SubscriptionPaused
  }

  /** The table after `handle_webhook`. */
  function AfterWebhook(rows: map<UserId, Profile>, v: Verification): map<UserId, Profile> {
    match v
    case Verified(Event(t, obj)) =>
      if t == CheckoutCompleted then
        if Truthy(obj.userId) then Upgraded(rows, obj.userId.value, obj.subscription) else rows
      else if Cancels(t) then Downgraded(rows, obj.id)
      else rows
    case _ => rows
  }

  /** The reply of `handle_webhook`. */
  function WebhookReply(v: Verification): Http<string> {
    match v
    case BadPayload => Rejected(InvalidPayload)
    case BadSignature => Rejected(InvalidSignature)
    case Verified(_) => Answer(WebhookOk)
  }

  /** `handle_webhook`. */
  method HandleWebhook(table: ProfileTable, v: Verification) returns (r: Http<string>)
    modifies table
    ensures table.rows == AfterWebhook(old(table.rows), v) && table.logs == old(table.logs)
    ensures r == WebhookReply(v)
  {
    if v.BadPayload? {
      return Rejected(InvalidPayload);
    }
    if v.BadSignature? {
      return Rejected(InvalidSignature);
    }
    var event := v.event;
    if event.eventType == CheckoutCompleted {
      var userId := event.data.userId;
      if Truthy(userId) && userId.value in table.rows {
        var id := userId.value;
        table.rows := table.rows[id := table.rows[id].(tier := AlphaTier, stripeSubscriptionId := event.data.subscription)];
      }
    } else if event.eventType == SubscriptionDeleted || event.eventType == SubscriptionPaused {
      var holders := set u | u in table.rows && table.rows[u].stripeSubscriptionId == Some(event.data.id);
      if holders != {} {
        table.rows := Downgraded(table.rows, event.data.id);
      } else {
        forall u | u in table.rows
          ensures table.rows[u].stripeSubscriptionId != Some(event.data.id)
        {
          assert u !in holders;
        }
        DowngradeWithoutHolders(table.rows, event.data.id);
      }
    }
    r := Answer(WebhookOk);
  }

  /** The update finds no row to change when no row holds the subscription
      (so the handler's emptiness test only saves a query). */
  lemma {:induction false} DowngradeWithoutHolders(rows: map<UserId, Profile>, subscription: string)
    requires forall u | u in rows :: rows[u].stripeSubscriptionId != Some(subscription)
    ensures Downgraded(rows, subscription) == rows
  {
    var after := Downgraded(rows, subscription);
    assert after.Keys == rows.Keys;
    assert forall u | u in rows :: after[u] == rows[u];
  }

  // ---------------------------------------------------------------------
  // Checkout and portal
  // ---------------------------------------------------------------------

  /** The customer id a checkout uses: the stored one, or a new one. */
  function CheckoutCustomer(rows: map<UserId, Profile>, id: UserId, email: string, p: Provider): Outcome<string>
    requires id in rows
  {
    var stored := rows[id].stripeCustomerId;
    if Truthy(stored) then Returned(stored.value) else p.createCustomer(email, id)
  }

  /** The table after `create_checkout_session`: a new customer id is stored
      as soon as it is created, whatever happens next. */
  function CheckoutRows(rows: map<UserId, Profile>, id: UserId, email: string, p: Provider): map<UserId, Profile> {
    if id !in rows || Truthy(rows[id].stripeCustomerId) then rows
    else match p.createCustomer(email, id)
      case Raised(_) => rows
      case Returned(c) => rows[id := rows[id].(stripeCustomerId := Some(c))]
  }

  /** The reply of `create_checkout_session`: the session URL, or a 400
      carrying the provider's message. */
  function CheckoutReply(rows: map<UserId, Profile>, id: UserId, email: string, p: Provider): Http<string> {
    if id !in rows then Rejected(InternalError)
    else match CheckoutCustomer(rows, id, email, p)
      case Raised(e) => Rejected(HttpError(400, JStr(e)))
      case Returned(c) =>
        match p.createCheckout(c, id)
        case Raised(e) => Rejected(HttpError(400, JStr(e)))
        case Returned(url) => Answer(url)
  }

  method CreateCheckoutSession(table: ProfileTable, id: UserId, email: string, p: Provider) returns (r: Http<string>)
    modifies table
    ensures table.rows == CheckoutRows(old(table.rows), id, email, p) && table.logs == old(table.logs)
    ensures r == CheckoutReply(old(table.rows), id, email, p)
  {
    if id !in table.rows {
      return Rejected(InternalError);
    }
    var customerId := table.rows[id].stripeCustomerId;
    if !Truthy(customerId) {
      var customer := p.createCustomer(email, id);
      if customer.Raised? {
        return Rejected(HttpError(400, JStr(customer.error)));
      }
      customerId := Some(customer.value);
      table.rows := table.rows[id := table.rows[id].(stripeCustomerId := customerId)];
    }
    var session := p.createCheckout(customerId.value, id);
    if session.Raised? {
      return Rejected(HttpError(400, JStr(session.error)));
    }
    r := Answer(session.value);
  }

  /** `create_portal_session`: a 400 without a customer id. */
  method CreatePortalSession(table: ProfileTable, id: UserId, p: Provider) returns (r: Http<string>)
    ensures id !in table.rows ==> r == Rejected(InternalError)
    ensures id in table.rows && !Truthy(table.rows[id].stripeCustomerId) ==> r == Rejected(NoSubscription)
    ensures id in table.rows && Truthy(table.rows[id].stripeCustomerId) ==>
      var c := table.rows[id].stripeCustomerId.value;
      r == if p.createPortal(c).Raised? then Rejected(HttpError(400, JStr(p.createPortal(c).error)))
           else Answer(p.createPortal(c).value)
  {
    if id !in table.rows {
      return Rejected(InternalError);
    }
    var customerId := table.rows[id].stripeCustomerId;
    if !Truthy(customerId) {
      return Rejected(NoSubscription);
    }
    var session := p.createPortal(customerId.value);
    if session.Raised? {
      return Rejected(HttpError(400, JStr(session.error)));
    }
    r := Answer(session.value);
  }

  // ---------------------------------------------------------------------
  // Properties
  // ---------------------------------------------------------------------

  /** An event that fails verification is refused with a 400 before any
      update; every verified event is acknowledged, whatever its type. */
  lemma {:induction false} WebhookVerification(rows: map<UserId, Profile>, v: Verification)
    ensures !v.Verified? ==> AfterWebhook(rows, v) == rows && WebhookReply(v).Rejected?
                             && WebhookReply(v).error.status == 400
    ensures v.Verified? <==> WebhookReply(v) == Answer(WebhookOk)
  {
  }

  /** A completed checkout with a user id moves exactly that user's row to
      the paid tier with the session's subscription; without a user id, and
      for events of other types, nothing changes. */
  lemma {:induction false} CheckoutUpgrades(rows: map<UserId, Profile>, obj: EventObject)
    ensures var after := AfterWebhook(rows, Verified(Event(CheckoutCompleted, obj)));
      && after.Keys == rows.Keys
      && (!Truthy(obj.userId) ==> after == rows)
      && (Truthy(obj.userId) && obj.userId.value in rows ==>
            after[obj.userId.value] == rows[obj.userId.value].(tier := AlphaTier, stripeSubscriptionId := obj.subscription))
      && (forall u | u in rows && (!Truthy(obj.userId) || u != obj.userId.value) :: after[u] == rows[u])
  {
  }

  lemma {:induction false} OtherEventsIgnored(rows: map<UserId, Profile>, e: Event)
    requires e.eventType != CheckoutCompleted && !Cancels(e.eventType)
    ensures AfterWebhook(rows, Verified(e)) == rows
  {
  }

  /** A deleted or paused subscription sends every account holding it back
      to the free tier without a subscription and leaves all other accounts
      as they were; afterwards no account holds it, so a repeated event
      changes nothing. */
  lemma {:induction false} CancellationDowngrades(rows: map<UserId, Profile>, obj: EventObject, t: string)
    requires Cancels(t)
    ensures var after := AfterWebhook(rows, Verified(Event(t, obj)));
      && after.Keys == rows.Keys
      && (forall u | u in rows :: rows[u].stripeSubscriptionId == Some(obj.id) ==>
            after[u] == rows[u].(tier := FreeTier, stripeSubscriptionId := None))
      && (forall u | u in rows :: rows[u].stripeSubscriptionId != Some(obj.id) ==> after[u] == rows[u])
      && (forall u | u in after :: after[u].stripeSubscriptionId != Some(obj.id))
      && AfterWebhook(after, Verified(Event(t, obj))) == after
  {
    var after := AfterWebhook(rows, Verified(Event(t, obj)));
    assert after == Downgraded(rows, obj.id);
    forall u | u in after
      ensures Downgraded(after, obj.id)[u] == after[u]
    {
    }
  }

  /** The subscription lifecycle: after a checkout that recorded a
      subscription, cancelling that subscription returns the account to
      the free tier. */
  lemma {:induction false} UpgradeThenCancel(rows: map<UserId, Profile>, id: UserId, s: string, t: string)
    requires id in rows && Cancels(t) && id != ""
    ensures var paid := AfterWebhook(rows, Verified(Event(CheckoutCompleted, EventObject(Some(id), Some(s), ""))));
      var back := AfterWebhook(paid, Verified(Event(t, EventObject(None, None, s))));
      && paid[id].tier == AlphaTier
      && back[id] == rows[id].(tier := FreeTier, stripeSubscriptionId := None)
  {
  }

  /** Checkout reuses a stored customer id and stores nothing; without one it
      stores the id it creates, and keeps it even when opening the session
      then fails. A missing profile fails before any provider call. */
  lemma {:induction false} CheckoutCustomerRule(rows: map<UserId, Profile>, id: UserId, email: string, p: Provider)
    ensures id !in rows ==> CheckoutRows(rows, id, email, p) == rows && CheckoutReply(rows, id, email, p) == Rejected(InternalError)
    ensures id in rows && Truthy(rows[id].stripeCustomerId) ==>
      && CheckoutRows(rows, id, email, p) == rows
      && CheckoutReply(rows, id, email, p)
         == match p.createCheckout(rows[id].stripeCustomerId.value, id)
            case Raised(e) => Rejected(HttpError(400, JStr(e)))
            case Returned(url) => Answer(url)
    ensures id in rows && !Truthy(rows[id].stripeCustomerId) && p.createCustomer(email, id).Returned? ==>
      var c := p.createCustomer(email, id).value;
      && CheckoutRows(rows, id, email, p) == rows[id := rows[id].(stripeCustomerId := Some(c))]
      && Truthy(CheckoutRows(rows, id, email, p)[id].stripeCustomerId) == (c != "")
      && (p.createCheckout(c, id).Raised? ==> CheckoutReply(rows, id, email, p).Rejected?)
  {
  }
}
