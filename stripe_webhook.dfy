/** The Stripe webhook handler (backend/src/webhooks/stripe.rs): signature
    check through the Stripe library, idempotency check by event id, logging,
    dispatch on the event type, order materialisation, and the final mark.

    `Webhook::construct_event` (signature verification and parsing) and the
    re-serialisation of the verified event are foreign; they arrive as the
    function-typed fields of `StripeForeign`. The handler is a method that
    calls the store step by step; `StripeWebhookSpec` is the same request as
    a function of the tables, and the lemmas below state the policy on it. */
module StripeWebhook {
  import opened Wrappers
  import opened Text
  import opened Webhooks
  import opened HttpStatus

  datatype EventType =
    | PaymentIntentSucceeded
    | ChargeSucceeded
    | CheckoutSessionCompleted
    | OtherEventType(name: string)

  /** `EventType::to_string`, the text stored in the `event_type` column. */
  function EventTypeName(t: EventType): string {
    match t
    case PaymentIntentSucceeded => "payment_intent.succeeded"
    case ChargeSucceeded => "charge.succeeded"
    case CheckoutSessionCompleted => "checkout.session.completed"
    case OtherEventType(name) => name
  }

  datatype PaymentIntent = PaymentIntent(id: string, amount: int, currency: string, receiptEmail: Option<string>)

  datatype Charge = Charge(
    id: string,
    amount: int,
    currency: string,
    paymentIntent: Option<string>,
    billingEmail: Option<string>,
    billingName: Option<string>)

  datatype CheckoutSession = CheckoutSession(
    id: string,
    amountTotal: Option<int>,
    currency: Option<string>,
    customerEmail: Option<string>,
    paymentIntent: Option<string>)

  datatype EventObject =
    | PaymentIntentObject(paymentIntent: PaymentIntent)
    | ChargeObject(charge: Charge)
    | CheckoutSessionObject(session: CheckoutSession)
    | OtherObject

  /** A verified Stripe event: its id, its type and the object it carries. */
  datatype Event = Event(id: string, eventType: EventType, data: EventObject)

  /** The `stripe-signature` header (None when absent or not visible ASCII)
      and the raw body. */
  datatype StripeRequest = StripeRequest(signature: Option<string>, body: string)

  datatype StripeForeign = StripeForeign(
    constructEvent: (string, string, string) -> Result<Event, string>,
    serialize: Event -> Option<Payload>)

  const DEFAULT_WEBHOOK_SECRET: string := "whsec_test_secret"

  /** STRIPE_WEBHOOK_SECRET, or the fallback when it is unset. */
  function WebhookSecret(configured: Option<string>): string {
    configured.GetOr(DEFAULT_WEBHOOK_SECRET)
  }

  /** `serde_json::to_value(&event).unwrap_or(json!({}))`. */
  function PayloadOf(foreign: StripeForeign, event: Event): Payload {
    foreign.serialize(event).GetOr("{}")
  }

  function LoggedEvent(foreign: StripeForeign, event: Event): CreateWebhookEvent {
    CreateWebhookEvent(Stripe, EventTypeName(event.eventType), event.id, PayloadOf(foreign, event))
  }

  /** `SELECT id FROM orders WHERE payment_intent_id = $1` found a row. */
  predicate HasOrderForPaymentIntent(orders: seq<Order>, pi: string) {
    exists i :: 0 <= i < |orders| && orders[i].paymentIntentId == Some(pi)
  }

  // ---------------------------------------------------------------------------
  // The orders the three handlers build

  function PaymentIntentOrder(pi: PaymentIntent, wid: Uuid): CreateOrder {
    CreateOrder(Stripe, pi.id, Some(pi.id), pi.receiptEmail, None, pi.amount, Upper(pi.currency), Completed, Some(wid))
  }

  function ChargeOrder(c: Charge, wid: Uuid): CreateOrder {
    CreateOrder(Stripe, c.id, c.paymentIntent, c.billingEmail, c.billingName, c.amount, Upper(c.currency), Completed, Some(wid))
  }

  function CheckoutSessionOrder(s: CheckoutSession, wid: Uuid): CreateOrder {
    CreateOrder(Stripe, s.id, s.paymentIntent, s.customerEmail, None, s.amountTotal.GetOr(0),
                if s.currency.Some? then Upper(s.currency.value) else "USD", Completed, Some(wid))
  }

  // ---------------------------------------------------------------------------
  // Specification functions

  function PaymentIntentSucceededSpec(t: Tables, event: Event, wid: Uuid, faults: DbFaults): (Result<(), string>, Tables) {
    match event.data
    case PaymentIntentObject(pi) => CreateOrderSpec(t, PaymentIntentOrder(pi, wid), faults.insert)
    case _ => (Failure("Expected PaymentIntent object"), t)
  }

  function ChargeSucceededSpec(t: Tables, event: Event, wid: Uuid, faults: DbFaults): (Result<(), string>, Tables) {
    match event.data
    case ChargeObject(c) =>
      if c.paymentIntent.Some? && faults.lookup.Some? then (Failure("Database error: " + faults.lookup.value), t)
      else if c.paymentIntent.Some? && HasOrderForPaymentIntent(t.orders, c.paymentIntent.value) then (Success(()), t)
      else CreateOrderSpec(t, ChargeOrder(c, wid), faults.insert)
    case _ => (Failure("Expected Charge object"), t)
  }

  function CheckoutSessionCompletedSpec(t: Tables, event: Event, wid: Uuid, faults: DbFaults): (Result<(), string>, Tables) {
    match event.data
    case CheckoutSessionObject(s) => CreateOrderSpec(t, CheckoutSessionOrder(s, wid), faults.insert)
    case _ => (Failure("Expected CheckoutSession object"), t)
  }

  /** The `match event.type_` of stripe.rs:89-105. */
  function DispatchSpec(t: Tables, event: Event, wid: Uuid, faults: DbFaults): (Result<(), string>, Tables) {
    match event.eventType
    case PaymentIntentSucceeded => PaymentIntentSucceededSpec(t, event, wid, faults)
    case ChargeSucceeded => ChargeSucceededSpec(t, event, wid, faults)
    case CheckoutSessionCompleted => CheckoutSessionCompletedSpec(t, event, wid, faults)
    case OtherEventType(_) => (Success(()), t.MarkUnlessFails(wid, true, None, faults.markInDispatch))
  }

  /** The whole request: the response and the tables afterwards. */
  function StripeWebhookSpec(t: Tables, req: StripeRequest, secret: Option<string>, foreign: StripeForeign, faults: DbFaults)
    : (Response, Tables)
  {
    if req.signature.None? then (Rejected(BAD_REQUEST, "Missing stripe-signature header"), t)
    else
      match foreign.constructEvent(req.body, req.signature.value, WebhookSecret(secret))
      case Failure(e) => (Rejected(BAD_REQUEST, "Webhook signature verification failed: " + e), t)
      case Success(event) =>
        if faults.check.Some? then (Rejected(INTERNAL_SERVER_ERROR, "Database error: " + faults.check.value), t)
        else if t.HasEvent(event.id) then (Received(true, None), t)
        else if faults.log.Some? then (Rejected(INTERNAL_SERVER_ERROR, "Failed to log webhook: " + faults.log.value), t)
        else
          var (t1, wid) := t.Log(LoggedEvent(foreign, event));
          var (result, t2) := DispatchSpec(t1, event, wid, faults);
          Finish(t2, wid, result, faults.markFinal)
  }

  /** The event `StripeWebhookSpec` gets past verification, if any. */
  function Verified(req: StripeRequest, secret: Option<string>, foreign: StripeForeign): Option<Event> {
    if req.signature.None? then None
    else
      match foreign.constructEvent(req.body, req.signature.value, WebhookSecret(secret))
      case Failure(_) => None
      case Success(event) => Some(event)
  }

  /** The request reaches `log_webhook_event` and the insert succeeds. */
  predicate Logs(t: Tables, req: StripeRequest, secret: Option<string>, foreign: StripeForeign, faults: DbFaults) {
    var ev := Verified(req, secret, foreign);
    ev.Some? && faults.check.None? && !t.HasEvent(ev.value.id) && faults.log.None?
  }

  // ---------------------------------------------------------------------------
  // Methods

  /** `SELECT id FROM orders WHERE payment_intent_id = $1` (stripe.rs:197-203). */
  method FindOrderByPaymentIntent(store: Store, pi: string, fault: Option<DbError>) returns (r: Result<bool, DbError>)
    ensures fault.Some? ==> r == Failure(fault.value)
    ensures fault.None? ==> r.Success?
    ensures fault.None? ==> (r.value <==> exists i :: 0 <= i < |store.orders| && store.orders[i].paymentIntentId == Some(pi))
  {
    if fault.Some? {
      return Failure(fault.value);
    }
    var i := 0;
    while i < |store.orders|
      invariant 0 <= i <= |store.orders|
      invariant forall k :: 0 <= k < i ==> store.orders[k].paymentIntentId != Some(pi)
    {
      if store.orders[i].paymentIntentId == Some(pi) {
        return Success(true);
      }
      i := i + 1;
    }
    r := Success(false);
  }

  /** handle_payment_intent_succeeded (stripe.rs:123-172). */
  method HandlePaymentIntentSucceeded(store: Store, event: Event, wid: Uuid, faults: DbFaults) returns (r: Result<(), string>)
    requires store.Valid()
    modifies store
    ensures store.Valid()
    ensures (r, store.Snapshot()) == PaymentIntentSucceededSpec(old(store.Snapshot()), event, wid, faults)
  {
    if !event.data.PaymentIntentObject? {
      return Failure("Expected PaymentIntent object");
    }
    r := CreateOrderOrReport(store, PaymentIntentOrder(event.data.paymentIntent, wid), faults.insert);
  }

  /** handle_charge_succeeded (stripe.rs:175-234). */
  method HandleChargeSucceeded(store: Store, event: Event, wid: Uuid, faults: DbFaults) returns (r: Result<(), string>)
    requires store.Valid()
    modifies store
    ensures store.Valid()
    ensures (r, store.Snapshot()) == ChargeSucceededSpec(old(store.Snapshot()), event, wid, faults)
  {
    if !event.data.ChargeObject? {
      return Failure("Expected Charge object");
    }
    var c := event.data.charge;
    if c.paymentIntent.Some? {
      var existing := FindOrderByPaymentIntent(store, c.paymentIntent.value, faults.lookup);
      if existing.Failure? {
        return Failure("Database error: " + existing.error);
      }
      if existing.value {
        return Success(());
      }
    }
    r := CreateOrderOrReport(store, ChargeOrder(c, wid), faults.insert);
  }

  /** handle_checkout_session_completed (stripe.rs:237-286). */
  method HandleCheckoutSessionCompleted(store: Store, event: Event, wid: Uuid, faults: DbFaults) returns (r: Result<(), string>)
    requires store.Valid()
    modifies store
    ensures store.Valid()
    ensures (r, store.Snapshot()) == CheckoutSessionCompletedSpec(old(store.Snapshot()), event, wid, faults)
  {
    if !event.data.CheckoutSessionObject? {
      return Failure("Expected CheckoutSession object");
    }
    r := CreateOrderOrReport(store, CheckoutSessionOrder(event.data.session, wid), faults.insert);
  }

  /** handle_stripe_webhook (stripe.rs:22-120). */
  method HandleStripeWebhook(store: Store, req: StripeRequest, secret: Option<string>, foreign: StripeForeign, faults: DbFaults)
    returns (resp: Response)
    requires store.Valid()
    modifies store
    ensures store.Valid()
    ensures (resp, store.Snapshot()) == StripeWebhookSpec(old(store.Snapshot()), req, secret, foreign, faults)
  {
    if req.signature.None? {
      return Rejected(BAD_REQUEST, "Missing stripe-signature header");
    }
    var constructed := foreign.constructEvent(req.body, req.signature.value, WebhookSecret(secret));
    if constructed.Failure? {
      return Rejected(BAD_REQUEST, "Webhook signature verification failed: " + constructed.error);
    }
    var event := constructed.value;

    var seen := store.IsEventProcessed(event.id, faults.check);
    if seen.Failure? {
      return Rejected(INTERNAL_SERVER_ERROR, "Database error: " + seen.error);
    }
    if seen.value {
      return Received(true, None);
    }

    var logged := store.LogWebhookEvent(LoggedEvent(foreign, event), faults.log);
    if logged.Failure? {
      return Rejected(INTERNAL_SERVER_ERROR, "Failed to log webhook: " + logged.error);
    }
    var wid := logged.value;

    var result: Result<(), string>;
    match event.eventType {
      case PaymentIntentSucceeded =>
        result := HandlePaymentIntentSucceeded(store, event, wid, faults);
      case ChargeSucceeded =>
        result := HandleChargeSucceeded(store, event, wid, faults);
      case CheckoutSessionCompleted =>
        result := HandleCheckoutSessionCompleted(store, event, wid, faults);
      case OtherEventType(_) =>
        var _ := store.MarkWebhookProcessed(wid, true, None, faults.markInDispatch);
        result := Success(());
    }

    resp := FinishRequest(store, wid, result, faults.markFinal);
  }

  // ---------------------------------------------------------------------------
  // What a request does to the tables

  /** Dispatch writes at most one order, which is a completed Stripe order
      pointing at the logged event, and touches the events table only through
      the status columns of that event. */
  lemma DispatchEffect(t: Tables, event: Event, wid: Uuid, faults: DbFaults)
    requires t.Valid()
    ensures DispatchStep(t, DispatchSpec(t, event, wid, faults).1, wid, Stripe)
  {
    match event.eventType
    case PaymentIntentSucceeded =>
      if event.data.PaymentIntentObject? {
        CreateOrderIsDispatchStep(t, PaymentIntentOrder(event.data.paymentIntent, wid), faults.insert, wid);
      } else {
        NoChangeIsDispatchStep(t, wid, Stripe);
      }
    case ChargeSucceeded =>
      if !event.data.ChargeObject? {
        NoChangeIsDispatchStep(t, wid, Stripe);
      } else {
        var c := event.data.charge;
        if c.paymentIntent.Some? && (faults.lookup.Some? || HasOrderForPaymentIntent(t.orders, c.paymentIntent.value)) {
          NoChangeIsDispatchStep(t, wid, Stripe);
        } else {
          CreateOrderIsDispatchStep(t, ChargeOrder(c, wid), faults.insert, wid);
        }
      }
    case CheckoutSessionCompleted =>
      if event.data.CheckoutSessionObject? {
        CreateOrderIsDispatchStep(t, CheckoutSessionOrder(event.data.session, wid), faults.insert, wid);
      } else {
        NoChangeIsDispatchStep(t, wid, Stripe);
      }
    case OtherEventType(_) =>
      MarkIsDispatchStep(t, wid, true, None, faults.markInDispatch, Stripe);
  }

  /** A request that gets through verification, the idempotency check and
      the log is answered 200 and leaves exactly one new event row, carrying
      the event's id and type, after the untouched old rows; at most one order
      is added, and it points at that row. Unless the final mark fails, the
      row's `processed` flag and error message say what the response says. */
  lemma LoggedRequestEffect(t: Tables, req: StripeRequest, secret: Option<string>, foreign: StripeForeign, faults: DbFaults)
    requires t.Valid()
    requires Logs(t, req, secret, foreign, faults)
    ensures var ev := Verified(req, secret, foreign).value;
      var (resp, t') := StripeWebhookSpec(t, req, secret, foreign, faults);
      && resp.Received? && !resp.duplicate && resp.Status() == OK
      && t'.Valid()
      && |t'.events| == |t.events| + 1
      && (forall i :: 0 <= i < |t.events| ==> t'.events[i] == t.events[i])
      && t'.events[|t.events|].id == t.nextId
      && t'.events[|t.events|].eventId == ev.id
      && t'.events[|t.events|].provider == "stripe"
      && t'.events[|t.events|].eventType == EventTypeName(ev.eventType)
      && t'.events[|t.events|].payload == PayloadOf(foreign, ev)
      && t'.HasEvent(ev.id)
      && |t.orders| <= |t'.orders| <= |t.orders| + 1
      && (forall j :: 0 <= j < |t.orders| ==> t'.orders[j] == t.orders[j])
      && (forall j :: |t.orders| <= j < |t'.orders| ==>
            t'.orders[j].webhookEventId == Some(t.nextId) && t'.orders[j].paymentProvider == "stripe")
      && (faults.markFinal.None? ==>
            && (t'.events[|t.events|].processed <==> resp.error.None?)
            && t'.events[|t.events|].errorMessage == resp.error)
  {
    var ev := Verified(req, secret, foreign).value;
    var logged := LoggedEvent(foreign, ev);
    var (t1, wid) := t.Log(logged);
    LogAppendsOneRow(t, logged);
    var (result, t2) := DispatchSpec(t1, ev, wid, faults);
    DispatchEffect(t1, ev, wid, faults);
    var k := |t.events|;
    FinishAnswersOk(t2, wid, result, faults.markFinal, k);
    MarkUnlessFailsKeepsEvents(t2, wid, result.Success?, if result.Failure? then Some(result.error) else None, faults.markFinal);
    var (resp, t3) := Finish(t2, wid, result, faults.markFinal);
    assert (resp, t3) == StripeWebhookSpec(t, req, secret, foreign, faults);
    OnlyStatusChangedTransitive(t1.events, t2.events, t3.events, wid);
    forall i | 0 <= i < k
      ensures t3.events[i] == t.events[i]
    {
      assert t1.events[i] == t.events[i];
    }
    assert t1.events[k] == EventRow(wid, logged);
    assert t3.HasEvent(ev.id) by {
      assert t1.HasEvent(ev.id);
    }
  }

  // ---------------------------------------------------------------------------
  // The response policy

  /** A request without a verifiable event is rejected with 400 and writes
      nothing. */
  lemma UnverifiedIsRejected(t: Tables, req: StripeRequest, secret: Option<string>, foreign: StripeForeign, faults: DbFaults)
    requires Verified(req, secret, foreign).None?
    ensures var (resp, t') := StripeWebhookSpec(t, req, secret, foreign, faults);
      && resp.Status() == BAD_REQUEST
      && t' == t
      && (req.signature.None? ==> resp.message == "Missing stripe-signature header")
  {
  }

  /** An event id already in the events table (whatever its `processed` flag)
      is answered `{"received": true, "duplicate": true}` and nothing is
      written; a database failure before the log is a 500 and nothing is
      written. */
  lemma DuplicateOrStoreFailure(t: Tables, req: StripeRequest, secret: Option<string>, foreign: StripeForeign, faults: DbFaults)
    requires Verified(req, secret, foreign).Some?
    ensures var ev := Verified(req, secret, foreign).value;
      var (resp, t') := StripeWebhookSpec(t, req, secret, foreign, faults);
      && (faults.check.None? && t.HasEvent(ev.id) ==> resp == Received(true, None) && t' == t)
      && (faults.check.Some? ==> resp == Rejected(INTERNAL_SERVER_ERROR, "Database error: " + faults.check.value) && t' == t)
      && (faults.check.None? && !t.HasEvent(ev.id) && faults.log.Some? ==>
            resp == Rejected(INTERNAL_SERVER_ERROR, "Failed to log webhook: " + faults.log.value) && t' == t)
  {
  }

  /** Every response is 200, 400 or 500, and every response other than 200
      leaves both tables exactly as they were. */
  lemma StatusPolicy(t: Tables, req: StripeRequest, secret: Option<string>, foreign: StripeForeign, faults: DbFaults)
    requires t.Valid()
    ensures var (resp, t') := StripeWebhookSpec(t, req, secret, foreign, faults);
      && (resp.Status() == OK || resp.Status() == BAD_REQUEST || resp.Status() == INTERNAL_SERVER_ERROR)
      && (resp.Status() != OK ==> t' == t)
      && (resp.Status() == OK && !resp.duplicate ==> Logs(t, req, secret, foreign, faults))
  {
    if Logs(t, req, secret, foreign, faults) {
      LoggedRequestEffect(t, req, secret, foreign, faults);
    } else if Verified(req, secret, foreign).Some? {
      DuplicateOrStoreFailure(t, req, secret, foreign, faults);
    }
  }

  // ---------------------------------------------------------------------------
  // Dispatch outcomes

  /** An event type the handler does not act on creates no order and is
      answered 200 without an error; its row ends processed unless both marks
      fail. */
  lemma IgnoredTypeCreatesNoOrder(t: Tables, req: StripeRequest, secret: Option<string>, foreign: StripeForeign, faults: DbFaults)
    requires t.Valid()
    requires Logs(t, req, secret, foreign, faults)
    requires Verified(req, secret, foreign).value.eventType.OtherEventType?
    ensures var (resp, t') := StripeWebhookSpec(t, req, secret, foreign, faults);
      && resp == Received(false, None)
      && t'.orders == t.orders
      && (faults.markInDispatch.None? || faults.markFinal.None? ==> t'.events[|t.events|].processed)
  {
    var ev := Verified(req, secret, foreign).value;
    var (t1, wid) := t.Log(LoggedEvent(foreign, ev));
    LogAppendsOneRow(t, LoggedEvent(foreign, ev));
    var k := |t.events|;
    var t2 := t1.MarkUnlessFails(wid, true, None, faults.markInDispatch);
    FinishAnswersOk(t2, wid, Success(()), faults.markFinal, k);
    if faults.markInDispatch.None? {
      MarkChangesOnlyThatRow(t1, wid, true, None, k);
    }
  }

  /** An event whose object is not the kind its type announces is not
      rejected: it is answered 200 with the error in the body, creates no
      order, and the row records the error unless the final mark fails. */
  lemma MismatchedObjectIsReported(t: Tables, req: StripeRequest, secret: Option<string>, foreign: StripeForeign, faults: DbFaults)
    requires t.Valid()
    requires Logs(t, req, secret, foreign, faults)
    requires var ev := Verified(req, secret, foreign).value;
      || (ev.eventType == PaymentIntentSucceeded && !ev.data.PaymentIntentObject?)
      || (ev.eventType == ChargeSucceeded && !ev.data.ChargeObject?)
      || (ev.eventType == CheckoutSessionCompleted && !ev.data.CheckoutSessionObject?)
    ensures var ev := Verified(req, secret, foreign).value;
      var (resp, t') := StripeWebhookSpec(t, req, secret, foreign, faults);
      && resp.Received? && resp.error.Some?
      && resp.error.value == (match ev.eventType
                              case PaymentIntentSucceeded => "Expected PaymentIntent object"
                              case ChargeSucceeded => "Expected Charge object"
                              case _ => "Expected CheckoutSession object")
      && t'.orders == t.orders
      && (faults.markFinal.None? ==> !t'.events[|t.events|].processed && t'.events[|t.events|].errorMessage == resp.error)
  {
    LoggedRequestEffect(t, req, secret, foreign, faults);
  }

  /** payment_intent.succeeded creates the order the intent describes: both
      the payment id and the intent id are the intent's id, the email is the
      receipt email, the currency is upper-cased and the status completed. */
  lemma PaymentIntentCreatesOrder(t: Tables, req: StripeRequest, secret: Option<string>, foreign: StripeForeign, faults: DbFaults, pi: PaymentIntent)
    requires t.Valid()
    requires Logs(t, req, secret, foreign, faults)
    requires Verified(req, secret, foreign).value == Event(Verified(req, secret, foreign).value.id, PaymentIntentSucceeded, PaymentIntentObject(pi))
    ensures var (resp, t') := StripeWebhookSpec(t, req, secret, foreign, faults);
      && (faults.insert.None? ==>
            && resp == Received(false, None)
            && t'.orders == t.orders + [OrderRow(t.nextId + 1, PaymentIntentOrder(pi, t.nextId))]
            && t'.orders[|t.orders|].paymentId == pi.id
            && t'.orders[|t.orders|].paymentIntentId == Some(pi.id)
            && t'.orders[|t.orders|].customerEmail == pi.receiptEmail
            && t'.orders[|t.orders|].totalAmount == pi.amount
            && t'.orders[|t.orders|].currency == Upper(pi.currency)
            && t'.orders[|t.orders|].status == "completed")
      && (faults.insert.Some? ==>
            resp == Received(false, Some("Failed to create order: " + faults.insert.value)) && t'.orders == t.orders)
  {
    var ev := Verified(req, secret, foreign).value;
    var (t1, wid) := t.Log(LoggedEvent(foreign, ev));
    LogAppendsOneRow(t, LoggedEvent(foreign, ev));
    CreateOrderSpecEffect(t1, PaymentIntentOrder(pi, wid), faults.insert);
  }

  /** charge.succeeded skips creation when an order of any provider already
      carries the charge's payment intent; otherwise it creates the order
      the charge describes, with its billing email and name. */
  lemma ChargeCreatesOrderOnce(t: Tables, req: StripeRequest, secret: Option<string>, foreign: StripeForeign, faults: DbFaults, c: Charge)
    requires t.Valid()
    requires Logs(t, req, secret, foreign, faults)
    requires Verified(req, secret, foreign).value == Event(Verified(req, secret, foreign).value.id, ChargeSucceeded, ChargeObject(c))
    requires faults.lookup.None? && faults.insert.None?
    ensures var (resp, t') := StripeWebhookSpec(t, req, secret, foreign, faults);
      && resp == Received(false, None)
      && (c.paymentIntent.Some? && HasOrderForPaymentIntent(t.orders, c.paymentIntent.value) ==> t'.orders == t.orders)
      && (c.paymentIntent.None? || !HasOrderForPaymentIntent(t.orders, c.paymentIntent.value) ==>
            && t'.orders == t.orders + [OrderRow(t.nextId + 1, ChargeOrder(c, t.nextId))]
            && t'.orders[|t.orders|].paymentId == c.id
            && t'.orders[|t.orders|].paymentIntentId == c.paymentIntent
            && t'.orders[|t.orders|].customerEmail == c.billingEmail
            && t'.orders[|t.orders|].customerName == c.billingName
            && t'.orders[|t.orders|].currency == Upper(c.currency))
  {
    var ev := Verified(req, secret, foreign).value;
    var (t1, wid) := t.Log(LoggedEvent(foreign, ev));
    LogAppendsOneRow(t, LoggedEvent(foreign, ev));
    CreateOrderSpecEffect(t1, ChargeOrder(c, wid), faults.insert);
  }

  /** A failed order lookup is reported as "Database error: e" in a 200
      answer and creates no order. */
  lemma ChargeLookupFailureIsReported(t: Tables, req: StripeRequest, secret: Option<string>, foreign: StripeForeign, faults: DbFaults, c: Charge)
    requires t.Valid()
    requires Logs(t, req, secret, foreign, faults)
    requires Verified(req, secret, foreign).value == Event(Verified(req, secret, foreign).value.id, ChargeSucceeded, ChargeObject(c))
    requires c.paymentIntent.Some? && faults.lookup.Some?
    ensures var (resp, t') := StripeWebhookSpec(t, req, secret, foreign, faults);
      && resp == Received(false, Some("Database error: " + faults.lookup.value))
      && t'.orders == t.orders
  {
    LoggedRequestEffect(t, req, secret, foreign, faults);
  }

  /** checkout.session.completed always creates an order, with amount 0 when
      the session has no total and currency "USD" when it has none. */
  lemma CheckoutSessionCreatesOrder(t: Tables, req: StripeRequest, secret: Option<string>, foreign: StripeForeign, faults: DbFaults, s: CheckoutSession)
    requires t.Valid()
    requires Logs(t, req, secret, foreign, faults)
    requires Verified(req, secret, foreign).value == Event(Verified(req, secret, foreign).value.id, CheckoutSessionCompleted, CheckoutSessionObject(s))
    requires faults.insert.None?
    ensures var (resp, t') := StripeWebhookSpec(t, req, secret, foreign, faults);
      && resp == Received(false, None)
      && t'.orders == t.orders + [OrderRow(t.nextId + 1, CheckoutSessionOrder(s, t.nextId))]
      && t'.orders[|t.orders|].paymentId == s.id
      && t'.orders[|t.orders|].paymentIntentId == s.paymentIntent
      && t'.orders[|t.orders|].totalAmount == (if s.amountTotal.Some? then s.amountTotal.value else 0)
      && t'.orders[|t.orders|].currency == (if s.currency.Some? then Upper(s.currency.value) else "USD")
  {
    var ev := Verified(req, secret, foreign).value;
    var (t1, wid) := t.Log(LoggedEvent(foreign, ev));
    LogAppendsOneRow(t, LoggedEvent(foreign, ev));
    CreateOrderSpecEffect(t1, CheckoutSessionOrder(s, wid), faults.insert);
  }

  // ---------------------------------------------------------------------------
  // Sequences of requests

  /** Delivering the same request again after it was logged is a duplicate:
      answered `{"received": true, "duplicate": true}` with no change, so a
      redelivered event never creates a second order. */
  lemma RedeliveryIsDuplicate(t: Tables, req: StripeRequest, secret: Option<string>, foreign: StripeForeign,
                              faults: DbFaults, req2: StripeRequest, foreign2: StripeForeign, again: DbFaults)
    requires t.Valid()
    requires Logs(t, req, secret, foreign, faults)
    requires Verified(req2, secret, foreign2).Some?
    requires Verified(req2, secret, foreign2).value.id == Verified(req, secret, foreign).value.id
    requires again.check.None?
    ensures var (_, t1) := StripeWebhookSpec(t, req, secret, foreign, faults);
      && StripeWebhookSpec(t1, req2, secret, foreign2, again) == (Received(true, None), t1)
      && |t1.orders| <= |t.orders| + 1
  {
    LoggedRequestEffect(t, req, secret, foreign, faults);
    var (_, t1) := StripeWebhookSpec(t, req, secret, foreign, faults);
    DuplicateOrStoreFailure(t1, req2, secret, foreign2, again);
  }


  /** A logged request leaves an events table in which a different event id
      is still unknown. */
  lemma OtherEventStillNew(t: Tables, req: StripeRequest, secret: Option<string>, foreign: StripeForeign,
                           faults: DbFaults, eventId: string)
    requires t.Valid()
    requires Logs(t, req, secret, foreign, faults)
    requires !t.HasEvent(eventId) && eventId != Verified(req, secret, foreign).value.id
    ensures !StripeWebhookSpec(t, req, secret, foreign, faults).1.HasEvent(eventId)
  {
    LoggedRequestEffect(t, req, secret, foreign, faults);
    var t1 := StripeWebhookSpec(t, req, secret, foreign, faults).1;
    forall i | 0 <= i < |t1.events|
      ensures t1.events[i].eventId != eventId
    {
      if i < |t.events| {
        assert t1.events[i] == t.events[i];
      }
    }
  }

  /** As the code is written, a charge.succeeded followed by a
      checkout.session.completed for the same payment intent creates TWO
      orders carrying that intent: the checkout handler has no existing-order
      check. */
  lemma ChargeThenCheckoutCreatesTwoOrders(t: Tables, secret: Option<string>, foreign: StripeForeign,
                                           req1: StripeRequest, c: Charge, req2: StripeRequest, s: CheckoutSession,
                                           faults: DbFaults, pi: string)
    requires t.Valid()
    requires faults == DbFaults(None, None, None, None, None, None)
    requires Verified(req1, secret, foreign).Some? && Verified(req2, secret, foreign).Some?
    requires Verified(req1, secret, foreign).value.eventType == ChargeSucceeded
    requires Verified(req1, secret, foreign).value.data == ChargeObject(c)
    requires Verified(req2, secret, foreign).value.eventType == CheckoutSessionCompleted
    requires Verified(req2, secret, foreign).value.data == CheckoutSessionObject(s)
    requires c.paymentIntent == Some(pi) && s.paymentIntent == Some(pi)
    requires Verified(req1, secret, foreign).value.id != Verified(req2, secret, foreign).value.id
    requires !t.HasEvent(Verified(req1, secret, foreign).value.id) && !t.HasEvent(Verified(req2, secret, foreign).value.id)
    requires !HasOrderForPaymentIntent(t.orders, pi)
    ensures var t1 := StripeWebhookSpec(t, req1, secret, foreign, faults).1;
      var t2 := StripeWebhookSpec(t1, req2, secret, foreign, faults).1;
      && |t2.orders| == |t.orders| + 2
      && t2.orders[|t.orders|].paymentIntentId == Some(pi)
      && t2.orders[|t.orders| + 1].paymentIntentId == Some(pi)
  {
    var ev1 := Verified(req1, secret, foreign).value;
    var ev2 := Verified(req2, secret, foreign).value;
    assert Logs(t, req1, secret, foreign, faults);
    ChargeCreatesOrderOnce(t, req1, secret, foreign, faults, c);
    LoggedRequestEffect(t, req1, secret, foreign, faults);
    var t1 := StripeWebhookSpec(t, req1, secret, foreign, faults).1;
    OtherEventStillNew(t, req1, secret, foreign, faults, ev2.id);
    assert Logs(t1, req2, secret, foreign, faults);
    CheckoutSessionCreatesOrder(t1, req2, secret, foreign, faults, s);
  }

  /** In the other order only one order is created: the charge handler finds
      the checkout's order by its payment intent and skips. */
  lemma CheckoutThenChargeCreatesOneOrder(t: Tables, secret: Option<string>, foreign: StripeForeign,
                                          req1: StripeRequest, s: CheckoutSession, req2: StripeRequest, c: Charge,
                                          faults: DbFaults, pi: string)
    requires t.Valid()
    requires faults == DbFaults(None, None, None, None, None, None)
    requires Verified(req1, secret, foreign).Some? && Verified(req2, secret, foreign).Some?
    requires Verified(req1, secret, foreign).value.eventType == CheckoutSessionCompleted
    requires Verified(req1, secret, foreign).value.data == CheckoutSessionObject(s)
    requires Verified(req2, secret, foreign).value.eventType == ChargeSucceeded
    requires Verified(req2, secret, foreign).value.data == ChargeObject(c)
    requires c.paymentIntent == Some(pi) && s.paymentIntent == Some(pi)
    requires Verified(req1, secret, foreign).value.id != Verified(req2, secret, foreign).value.id
    requires !t.HasEvent(Verified(req1, secret, foreign).value.id) && !t.HasEvent(Verified(req2, secret, foreign).value.id)
    ensures var t1 := StripeWebhookSpec(t, req1, secret, foreign, faults).1;
      var t2 := StripeWebhookSpec(t1, req2, secret, foreign, faults).1;
      && |t2.orders| == |t.orders| + 1
      && t2.orders[|t.orders|].paymentIntentId == Some(pi)
  {
    var ev2 := Verified(req2, secret, foreign).value;
    assert Logs(t, req1, secret, foreign, faults);
    CheckoutSessionCreatesOrder(t, req1, secret, foreign, faults, s);
    LoggedRequestEffect(t, req1, secret, foreign, faults);
    var t1 := StripeWebhookSpec(t, req1, secret, foreign, faults).1;
    OtherEventStillNew(t, req1, secret, foreign, faults, ev2.id);
    assert Logs(t1, req2, secret, foreign, faults);
    assert HasOrderForPaymentIntent(t1.orders, pi) by {
      assert t1.orders[|t.orders|].paymentIntentId == Some(pi);
    }
    ChargeCreatesOrderOnce(t1, req2, secret, foreign, faults, c);
  }

  /** The worked example: a correctly signed payment_intent.succeeded for
      "pi_1" (2500 "usd", receipt "a@b.com") on empty tables is answered
      `{"received": true}`, leaves one processed event row "evt_1" and one
      completed order for "pi_1" in "USD"; the same request again is a
      duplicate and changes nothing. */
  lemma PaymentIntentExample(req: StripeRequest, secret: Option<string>, foreign: StripeForeign)
    requires req.signature.Some?
    requires foreign.constructEvent(req.body, req.signature.value, WebhookSecret(secret))
      == Success(Event("evt_1", PaymentIntentSucceeded, PaymentIntentObject(PaymentIntent("pi_1", 2500, "usd", Some("a@b.com")))))
    ensures var none := DbFaults(None, None, None, None, None, None);
      var (resp, t1) := StripeWebhookSpec(Tables([], [], 0), req, secret, foreign, none);
      && resp == Received(false, None)
      && |t1.events| == 1 && t1.events[0].eventId == "evt_1" && t1.events[0].processed
      && |t1.orders| == 1 && t1.orders[0].paymentId == "pi_1" && t1.orders[0].totalAmount == 2500
      && t1.orders[0].currency == "USD" && t1.orders[0].customerEmail == Some("a@b.com")
      && t1.orders[0].status == "completed"
      && StripeWebhookSpec(t1, req, secret, foreign, none) == (Received(true, None), t1)
  {
    var none := DbFaults(None, None, None, None, None, None);
    var t := Tables([], [], 0);
    assert Logs(t, req, secret, foreign, none);
    var pi := PaymentIntent("pi_1", 2500, "usd", Some("a@b.com"));
    PaymentIntentCreatesOrder(t, req, secret, foreign, none, pi);
    LoggedRequestEffect(t, req, secret, foreign, none);
    assert Upper("usd") == "USD";
  }
}
