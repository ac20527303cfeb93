/** The Square webhook handler (backend/src/webhooks/square.rs): HMAC-SHA256
    signature check over the notification URL followed by the raw body,
    UTF-8 and JSON decoding, idempotency check by event id, logging, dispatch
    on the event type, order materialisation for completed payments, and the
    final mark.

    HMAC-SHA256, base64, `str::as_bytes`, `String::from_utf8` and serde are
    foreign and arrive as the function-typed fields of `SquareForeign`. */
module SquareWebhook {
  import opened Wrappers
  import opened Webhooks
  import opened HttpStatus

  newtype byte = b: int | 0 <= b < 256

  datatype SquareAmountMoney = SquareAmountMoney(amount: int, currency: string)

  /** The fields of a Square payment the handler reads. */
  datatype SquarePayment = SquarePayment(
    id: string,
    status: string,
    amountMoney: SquareAmountMoney,
    buyerEmailAddress: Option<string>)

  datatype SquarePaymentObject = SquarePaymentObject(payment: Option<SquarePayment>)

  datatype SquareEventData = SquareEventData(dataType: string, id: string, paymentObject: Option<SquarePaymentObject>)

  datatype SquareWebhookEvent = SquareWebhookEvent(
    merchantId: string,
    eventType: string,
    eventId: string,
    createdAt: string,
    data: SquareEventData)

  /** The `x-square-hmacsha256-signature` header (None when absent or not
      visible ASCII) and the raw body bytes. */
  datatype SquareRequest = SquareRequest(signature: Option<string>, body: seq<byte>)

  /** SQUARE_WEBHOOK_SIGNATURE_KEY and SQUARE_WEBHOOK_URL, when set. */
  datatype SquareConfig = SquareConfig(signatureKey: Option<string>, webhookUrl: Option<string>)

  datatype SquareForeign = SquareForeign(
    asBytes: string -> seq<byte>,
    acceptsKey: seq<byte> -> bool,
    hmacSha256: (seq<byte>, seq<byte>) -> seq<byte>,
    base64Encode: seq<byte> -> string,
    fromUtf8: seq<byte> -> Result<string, string>,
    parseEvent: string -> Result<SquareWebhookEvent, string>,
    serialize: SquareWebhookEvent -> Option<Payload>)

  const DEFAULT_SIGNATURE_KEY: string := "your_webhook_signature_key"
  const DEFAULT_WEBHOOK_URL: string := "https://your-domain.com/api/webhooks/square"
  const PAYMENT_UPDATED: string := "payment.updated"
  const COMPLETED: string := "COMPLETED"

  function SignatureKey(config: SquareConfig): string {
    config.signatureKey.GetOr(DEFAULT_SIGNATURE_KEY)
  }

  function WebhookUrl(config: SquareConfig): string {
    config.webhookUrl.GetOr(DEFAULT_WEBHOOK_URL)
  }

  // ---------------------------------------------------------------------------
  // Signature verification

  /** An incremental HMAC: its key and the bytes absorbed so far. */
  datatype Mac = Mac(key: seq<byte>, absorbed: seq<byte>) {
    function Update(bytes: seq<byte>): Mac {
      this.(absorbed := absorbed + bytes)
    }

    function Finalize(foreign: SquareForeign): seq<byte> {
      foreign.hmacSha256(key, absorbed)
    }
  }

  /** verify_square_signature (square.rs:191-216). The comparison is plain
      string equality. */
  function VerifySquareSignature(foreign: SquareForeign, body: seq<byte>, signature: string, key: string, url: string): bool {
    var keyBytes := foreign.asBytes(key);
    if !foreign.acceptsKey(keyBytes) then false
    else
      var mac := Mac(keyBytes, []).Update(foreign.asBytes(url)).Update(body);
      foreign.base64Encode(mac.Finalize(foreign)) == signature
  }

  /** The signature Square is expected to send is base64(HMAC-SHA256(key,
      url ++ body)), and only that exact string is accepted. */
  lemma SignatureIsHmacOfUrlAndBody(foreign: SquareForeign, body: seq<byte>, signature: string, key: string, url: string)
    ensures VerifySquareSignature(foreign, body, signature, key, url) <==>
      && foreign.acceptsKey(foreign.asBytes(key))
      && signature == foreign.base64Encode(foreign.hmacSha256(foreign.asBytes(key), foreign.asBytes(url) + body))
  {
    assert [] + foreign.asBytes(url) + body == foreign.asBytes(url) + body;
  }

  /** For a given key, URL and body at most one signature string passes. */
  lemma AtMostOneSignaturePasses(foreign: SquareForeign, body: seq<byte>, s1: string, s2: string, key: string, url: string)
    requires VerifySquareSignature(foreign, body, s1, key, url)
    requires VerifySquareSignature(foreign, body, s2, key, url)
    ensures s1 == s2
  {
  }

  // ---------------------------------------------------------------------------
  // Specification functions

  function PayloadOf(foreign: SquareForeign, event: SquareWebhookEvent): Payload {
    foreign.serialize(event).GetOr("{}")
  }

  function LoggedEvent(foreign: SquareForeign, event: SquareWebhookEvent): CreateWebhookEvent {
    CreateWebhookEvent(Square, event.eventType, event.eventId, PayloadOf(foreign, event))
  }

  /** `SELECT id FROM orders WHERE payment_id = $1 AND payment_provider = 'square'`
      found a row. */
  predicate HasSquareOrder(orders: seq<Order>, paymentId: string) {
    exists i :: 0 <= i < |orders| && orders[i].paymentId == paymentId && orders[i].paymentProvider == "square"
  }

  /** The payment the event carries, if `data.object.payment` is present. */
  function PaymentOf(event: SquareWebhookEvent): Option<SquarePayment> {
    if event.data.paymentObject.Some? then event.data.paymentObject.value.payment else None
  }

  function SquareOrder(p: SquarePayment, wid: Uuid): CreateOrder {
    CreateOrder(Square, p.id, None, p.buyerEmailAddress, None, p.amountMoney.amount, p.amountMoney.currency, Completed, Some(wid))
  }

  function PaymentUpdatedSpec(t: Tables, event: SquareWebhookEvent, wid: Uuid, faults: DbFaults): (Result<(), string>, Tables) {
    match PaymentOf(event)
    case None => (Failure("Missing payment object in event data"), t)
    case Some(p) =>
      if p.status != COMPLETED then (Success(()), t)
      else if faults.lookup.Some? then (Failure("Database error: " + faults.lookup.value), t)
      else if HasSquareOrder(t.orders, p.id) then (Success(()), t)
      else CreateOrderSpec(t, SquareOrder(p, wid), faults.insert)
  }

  /** The `match event.event_type.as_str()` of square.rs:157-173:
      "payment.created" and every other type are marked processed. */
  function DispatchSpec(t: Tables, event: SquareWebhookEvent, wid: Uuid, faults: DbFaults): (Result<(), string>, Tables) {
    if event.eventType == PAYMENT_UPDATED then PaymentUpdatedSpec(t, event, wid, faults)
    else (Success(()), t.MarkUnlessFails(wid, true, None, faults.markInDispatch))
  }

  /** The request carries a signature header and it verifies. */
  predicate SignatureOk(req: SquareRequest, config: SquareConfig, foreign: SquareForeign) {
    req.signature.Some? && VerifySquareSignature(foreign, req.body, req.signature.value, SignatureKey(config), WebhookUrl(config))
  }

  /** The event that passes the signature check and decodes, if any. */
  function Verified(req: SquareRequest, config: SquareConfig, foreign: SquareForeign): Option<SquareWebhookEvent> {
    if !SignatureOk(req, config, foreign) then None
    else
      match foreign.fromUtf8(req.body)
      case Failure(_) => None
      case Success(text) =>
        match foreign.parseEvent(text)
        case Failure(_) => None
        case Success(event) => Some(event)
  }

  function SquareWebhookSpec(t: Tables, req: SquareRequest, config: SquareConfig, foreign: SquareForeign, faults: DbFaults)
    : (Response, Tables)
  {
    if req.signature.None? then (Rejected(BAD_REQUEST, "Missing x-square-hmacsha256-signature header"), t)
    else if !VerifySquareSignature(foreign, req.body, req.signature.value, SignatureKey(config), WebhookUrl(config)) then
      (Rejected(UNAUTHORIZED, "Webhook signature verification failed"), t)
    else
      match foreign.fromUtf8(req.body)
      case Failure(e) => (Rejected(BAD_REQUEST, "Invalid UTF-8: " + e), t)
      case Success(text) =>
        match foreign.parseEvent(text)
        case Failure(e) => (Rejected(BAD_REQUEST, "Invalid JSON: " + e), t)
        case Success(event) =>
          if faults.check.Some? then (Rejected(INTERNAL_SERVER_ERROR, "Database error: " + faults.check.value), t)
          else if t.HasEvent(event.eventId) then (Received(true, None), t)
          else if faults.log.Some? then (Rejected(INTERNAL_SERVER_ERROR, "Failed to log webhook: " + faults.log.value), t)
          else
            var (t1, wid) := t.Log(LoggedEvent(foreign, event));
            var (result, t2) := DispatchSpec(t1, event, wid, faults);
            Finish(t2, wid, result, faults.markFinal)
  }

  predicate Logs(t: Tables, req: SquareRequest, config: SquareConfig, foreign: SquareForeign, faults: DbFaults) {
    var ev := Verified(req, config, foreign);
    ev.Some? && faults.check.None? && !t.HasEvent(ev.value.eventId) && faults.log.None?
  }

  // ---------------------------------------------------------------------------
  // Methods

  /** The existing-order query of square.rs:247-253. */
  method FindSquareOrder(store: Store, paymentId: string, fault: Option<DbError>) returns (r: Result<bool, DbError>)
    ensures fault.Some? ==> r == Failure(fault.value)
    ensures fault.None? ==> r.Success?
    ensures fault.None? ==> (r.value <==> HasSquareOrder(store.orders, paymentId))
  {
    if fault.Some? {
      return Failure(fault.value);
    }
    var i := 0;
    while i < |store.orders|
      invariant 0 <= i <= |store.orders|
      invariant forall k :: 0 <= k < i ==> !(store.orders[k].paymentId == paymentId && store.orders[k].paymentProvider == "square")
    {
      if store.orders[i].paymentId == paymentId && store.orders[i].paymentProvider == "square" {
        return Success(true);
      }
      i := i + 1;
    }
    r := Success(false);
  }

  /** handle_payment_updated (square.rs:219-285). */
  method HandlePaymentUpdated(store: Store, event: SquareWebhookEvent, wid: Uuid, faults: DbFaults) returns (r: Result<(), string>)
    requires store.Valid()
    modifies store
    ensures store.Valid()
    ensures (r, store.Snapshot()) == PaymentUpdatedSpec(old(store.Snapshot()), event, wid, faults)
  {
    var payment := PaymentOf(event);
    if payment.None? {
      return Failure("Missing payment object in event data");
    }
    var p := payment.value;
    if p.status != COMPLETED {
      return Success(());
    }
    var existing := FindSquareOrder(store, p.id, faults.lookup);
    if existing.Failure? {
      return Failure("Database error: " + existing.error);
    }
    if existing.value {
      return Success(());
    }
    r := CreateOrderOrReport(store, SquareOrder(p, wid), faults.insert);
  }

  /** handle_square_webhook (square.rs:80-188). */
  method HandleSquareWebhook(store: Store, req: SquareRequest, config: SquareConfig, foreign: SquareForeign, faults: DbFaults)
    returns (resp: Response)
    requires store.Valid()
    modifies store
    ensures store.Valid()
    ensures (resp, store.Snapshot()) == SquareWebhookSpec(old(store.Snapshot()), req, config, foreign, faults)
  {
    if req.signature.None? {
      return Rejected(BAD_REQUEST, "Missing x-square-hmacsha256-signature header");
    }
    if !VerifySquareSignature(foreign, req.body, req.signature.value, SignatureKey(config), WebhookUrl(config)) {
      return Rejected(UNAUTHORIZED, "Webhook signature verification failed");
    }
    var text := foreign.fromUtf8(req.body);
    if text.Failure? {
      return Rejected(BAD_REQUEST, "Invalid UTF-8: " + text.error);
    }
    var parsed := foreign.parseEvent(text.value);
    if parsed.Failure? {
      return Rejected(BAD_REQUEST, "Invalid JSON: " + parsed.error);
    }
    var event := parsed.value;

    var seen := store.IsEventProcessed(event.eventId, faults.check);
    if seen.Failure? {
      return Rejected(INTERNAL_SERVER_ERROR, "Database error: " + seen.error);
    }
    if seen.value {
      return Received(true, None);
    }

    var logged := store.LogWebhookEvent(LoggedEvent(foreign, event), faults.log);
    if logged.Failure? {
      return Rejected(INTERNAL_SERVER_ERROR, "Failed to log webhook: " + logged.error);
    }
    var wid := logged.value;

    var result: Result<(), string>;
    if event.eventType == PAYMENT_UPDATED {
      result := HandlePaymentUpdated(store, event, wid, faults);
    } else {
      var _ := store.MarkWebhookProcessed(wid, true, None, faults.markInDispatch);
      result := Success(());
    }

    resp := FinishRequest(store, wid, result, faults.markFinal);
  }

  // ---------------------------------------------------------------------------
  // What a request does to the tables

  /** Dispatch writes at most one order, a completed Square order without a
      payment intent pointing at the logged event, and touches the events
      table only through the status columns of that event. */
  lemma DispatchEffect(t: Tables, event: SquareWebhookEvent, wid: Uuid, faults: DbFaults)
    requires t.Valid()
    ensures var t' := DispatchSpec(t, event, wid, faults).1;
      && DispatchStep(t, t', wid, Square)
      && (forall j :: |t.orders| <= j < |t'.orders| ==>
            && t'.orders[j].paymentIntentId == None
            && PaymentOf(event).Some?
            && t'.orders[j].paymentId == PaymentOf(event).value.id
            && !HasSquareOrder(t.orders, PaymentOf(event).value.id))
  {
    var p := PaymentOf(event);
    if event.eventType != PAYMENT_UPDATED {
      MarkIsDispatchStep(t, wid, true, None, faults.markInDispatch, Square);
    } else if p.Some? && p.value.status == COMPLETED && faults.lookup.None? && !HasSquareOrder(t.orders, p.value.id) {
      CreateOrderIsDispatchStep(t, SquareOrder(p.value, wid), faults.insert, wid);
      CreateOrderSpecEffect(t, SquareOrder(p.value, wid), faults.insert);
    } else {
      NoChangeIsDispatchStep(t, wid, Square);
    }
  }

  /** A logged request is answered 200 and leaves exactly one new event row,
      carrying the event's id and raw type, after the untouched old rows; at
      most one order is added, a Square order pointing at that row. Unless the
      final mark fails, the row's `processed` flag and error message say what
      the response says. */
  lemma LoggedRequestEffect(t: Tables, req: SquareRequest, config: SquareConfig, foreign: SquareForeign, faults: DbFaults)
    requires t.Valid()
    requires Logs(t, req, config, foreign, faults)
    ensures var ev := Verified(req, config, foreign).value;
      var (resp, t') := SquareWebhookSpec(t, req, config, foreign, faults);
      && resp.Received? && !resp.duplicate && resp.Status() == OK
      && t'.Valid()
      && |t'.events| == |t.events| + 1
      && (forall i :: 0 <= i < |t.events| ==> t'.events[i] == t.events[i])
      && t'.events[|t.events|].id == t.nextId
      && t'.events[|t.events|].eventId == ev.eventId
      && t'.events[|t.events|].provider == "square"
      && t'.events[|t.events|].eventType == ev.eventType
      && t'.events[|t.events|].payload == PayloadOf(foreign, ev)
      && t'.HasEvent(ev.eventId)
      && |t.orders| <= |t'.orders| <= |t.orders| + 1
      && (forall j :: 0 <= j < |t.orders| ==> t'.orders[j] == t.orders[j])
      && (forall j :: |t.orders| <= j < |t'.orders| ==>
            && t'.orders[j].webhookEventId == Some(t.nextId)
            && t'.orders[j].paymentProvider == "square"
            && PaymentOf(ev).Some?
            && t'.orders[j].paymentId == PaymentOf(ev).value.id
            && !HasSquareOrder(t.orders, PaymentOf(ev).value.id))
      && (faults.markFinal.None? ==>
            && (t'.events[|t.events|].processed <==> resp.error.None?)
            && t'.events[|t.events|].errorMessage == resp.error)
  {
    var ev := Verified(req, config, foreign).value;
    assert foreign.fromUtf8(req.body).Success?;
    assert foreign.parseEvent(foreign.fromUtf8(req.body).value) == Success(ev);
    var logged := LoggedEvent(foreign, ev);
    var (t1, wid) := t.Log(logged);
    LogAppendsOneRow(t, logged);
    var (result, t2) := DispatchSpec(t1, ev, wid, faults);
    DispatchEffect(t1, ev, wid, faults);
    var k := |t.events|;
    FinishAnswersOk(t2, wid, result, faults.markFinal, k);
    MarkUnlessFailsKeepsEvents(t2, wid, result.Success?, if result.Failure? then Some(result.error) else None, faults.markFinal);
    var (resp, t3) := Finish(t2, wid, result, faults.markFinal);
    assert (resp, t3) == SquareWebhookSpec(t, req, config, foreign, faults);
    OnlyStatusChangedTransitive(t1.events, t2.events, t3.events, wid);
    forall i | 0 <= i < k
      ensures t3.events[i] == t.events[i]
    {
      assert t1.events[i] == t.events[i];
    }
    assert t1.events[k] == EventRow(wid, logged);
    assert t3.HasEvent(ev.eventId) by {
      assert t1.HasEvent(ev.eventId);
    }
  }

  // ---------------------------------------------------------------------------
  // The response policy

  /** A missing header and a malformed body are 400, a bad signature is 401;
      none of them writes anything. The signature is checked before the body
      is decoded. */
  lemma UnverifiedIsRejected(t: Tables, req: SquareRequest, config: SquareConfig, foreign: SquareForeign, faults: DbFaults)
    requires Verified(req, config, foreign).None?
    ensures var (resp, t') := SquareWebhookSpec(t, req, config, foreign, faults);
      && resp.Rejected?
      && t' == t
      && (req.signature.None? ==> resp == Rejected(BAD_REQUEST, "Missing x-square-hmacsha256-signature header"))
      && (req.signature.Some? && !SignatureOk(req, config, foreign) ==> resp == Rejected(UNAUTHORIZED, "Webhook signature verification failed"))
      && (SignatureOk(req, config, foreign) ==> resp.status == BAD_REQUEST)
  {
  }

  /** An event id already in the events table is a duplicate and nothing is
      written; a database failure before the log is a 500 and nothing is
      written. */
  lemma DuplicateOrStoreFailure(t: Tables, req: SquareRequest, config: SquareConfig, foreign: SquareForeign, faults: DbFaults)
    requires Verified(req, config, foreign).Some?
    ensures var ev := Verified(req, config, foreign).value;
      var (resp, t') := SquareWebhookSpec(t, req, config, foreign, faults);
      && (faults.check.None? && t.HasEvent(ev.eventId) ==> resp == Received(true, None) && t' == t)
      && (faults.check.Some? ==> resp == Rejected(INTERNAL_SERVER_ERROR, "Database error: " + faults.check.value) && t' == t)
      && (faults.check.None? && !t.HasEvent(ev.eventId) && faults.log.Some? ==>
            resp == Rejected(INTERNAL_SERVER_ERROR, "Failed to log webhook: " + faults.log.value) && t' == t)
  {
  }

  /** Every response is 200, 400, 401 or 500, and every response other than
      200 leaves both tables exactly as they were. */
  lemma StatusPolicy(t: Tables, req: SquareRequest, config: SquareConfig, foreign: SquareForeign, faults: DbFaults)
    requires t.Valid()
    ensures var (resp, t') := SquareWebhookSpec(t, req, config, foreign, faults);
      && (resp.Status() == OK || resp.Status() == BAD_REQUEST || resp.Status() == UNAUTHORIZED
          || resp.Status() == INTERNAL_SERVER_ERROR)
      && (resp.Status() != OK ==> t' == t)
      && (resp.Status() == OK && !resp.duplicate ==> Logs(t, req, config, foreign, faults))
  {
    if Logs(t, req, config, foreign, faults) {
      LoggedRequestEffect(t, req, config, foreign, faults);
    } else if Verified(req, config, foreign).Some? {
      DuplicateOrStoreFailure(t, req, config, foreign, faults);
    } else {
      UnverifiedIsRejected(t, req, config, foreign, faults);
    }
  }

  // ---------------------------------------------------------------------------
  // Dispatch outcomes

  /** A "payment.updated" event for a COMPLETED payment with no Square order
      yet creates the order: provider square, no payment intent, the buyer's
      email, and the amount and currency exactly as Square sent them (the
      currency is not upper-cased). */
  lemma CompletedPaymentCreatesOrder(t: Tables, req: SquareRequest, config: SquareConfig, foreign: SquareForeign, faults: DbFaults, p: SquarePayment)
    requires t.Valid()
    requires Logs(t, req, config, foreign, faults)
    requires Verified(req, config, foreign).value.eventType == PAYMENT_UPDATED
    requires PaymentOf(Verified(req, config, foreign).value) == Some(p)
    requires p.status == COMPLETED && !HasSquareOrder(t.orders, p.id)
    requires faults.lookup.None? && faults.insert.None?
    ensures var (resp, t') := SquareWebhookSpec(t, req, config, foreign, faults);
      && resp == Received(false, None)
      && t'.orders == t.orders + [OrderRow(t.nextId + 1, SquareOrder(p, t.nextId))]
      && t'.orders[|t.orders|].paymentProvider == "square"
      && t'.orders[|t.orders|].paymentId == p.id
      && t'.orders[|t.orders|].paymentIntentId == None
      && t'.orders[|t.orders|].customerEmail == p.buyerEmailAddress
      && t'.orders[|t.orders|].totalAmount == p.amountMoney.amount
      && t'.orders[|t.orders|].currency == p.amountMoney.currency
      && HasSquareOrder(t'.orders, p.id)
  {
    var ev := Verified(req, config, foreign).value;
    var (t1, wid) := t.Log(LoggedEvent(foreign, ev));
    LogAppendsOneRow(t, LoggedEvent(foreign, ev));
    CreateOrderSpecEffect(t1, SquareOrder(p, wid), faults.insert);
    var t' := SquareWebhookSpec(t, req, config, foreign, faults).1;
    assert t'.orders[|t.orders|].paymentId == p.id;
  }

  /** No order is created for a payment that is not COMPLETED, for one that
      already has a Square order, or for any event type other than
      "payment.updated"; such events are answered 200 without an error. */
  lemma NoOrderUnlessNewCompletedPayment(t: Tables, req: SquareRequest, config: SquareConfig, foreign: SquareForeign, faults: DbFaults)
    requires t.Valid()
    requires Logs(t, req, config, foreign, faults)
    requires var ev := Verified(req, config, foreign).value;
      || ev.eventType != PAYMENT_UPDATED
      || (PaymentOf(ev).Some? && PaymentOf(ev).value.status != COMPLETED)
      || (PaymentOf(ev).Some? && faults.lookup.None? && HasSquareOrder(t.orders, PaymentOf(ev).value.id))
    ensures var (resp, t') := SquareWebhookSpec(t, req, config, foreign, faults);
      && resp == Received(false, None)
      && t'.orders == t.orders
  {
    LoggedRequestEffect(t, req, config, foreign, faults);
  }

  /** A "payment.updated" event without `data.object.payment` is answered 200
      with the error "Missing payment object in event data", which the row
      records unless the final mark fails. */
  lemma MissingPaymentIsReported(t: Tables, req: SquareRequest, config: SquareConfig, foreign: SquareForeign, faults: DbFaults)
    requires t.Valid()
    requires Logs(t, req, config, foreign, faults)
    requires Verified(req, config, foreign).value.eventType == PAYMENT_UPDATED
    requires PaymentOf(Verified(req, config, foreign).value).None?
    ensures var (resp, t') := SquareWebhookSpec(t, req, config, foreign, faults);
      && resp == Received(false, Some("Missing payment object in event data"))
      && t'.orders == t.orders
      && (faults.markFinal.None? ==> !t'.events[|t.events|].processed)
  {
    LoggedRequestEffect(t, req, config, foreign, faults);
  }

  // ---------------------------------------------------------------------------
  // The order invariant

  /** No two Square orders share a payment id. */
  ghost predicate UniqueSquarePayments(orders: seq<Order>) {
    forall i, j :: 0 <= i < j < |orders| && orders[i].paymentProvider == "square" && orders[j].paymentProvider == "square"
      ==> orders[i].paymentId != orders[j].paymentId
  }

  /** Delivered one after another, Square requests never create a second
      order for the same Square payment, whatever the event ids. */
  lemma SquareRequestKeepsPaymentsUnique(t: Tables, req: SquareRequest, config: SquareConfig, foreign: SquareForeign, faults: DbFaults)
    requires t.Valid() && UniqueSquarePayments(t.orders)
    ensures UniqueSquarePayments(SquareWebhookSpec(t, req, config, foreign, faults).1.orders)
  {
    var t' := SquareWebhookSpec(t, req, config, foreign, faults).1;
    if Logs(t, req, config, foreign, faults) {
      LoggedRequestEffect(t, req, config, foreign, faults);
      var n := |t.orders|;
      forall i, j | 0 <= i < j < |t'.orders| && t'.orders[i].paymentProvider == "square" && t'.orders[j].paymentProvider == "square"
        ensures t'.orders[i].paymentId != t'.orders[j].paymentId
      {
        if j >= n {
          assert j == n && i < n;
          assert t'.orders[i] == t.orders[i];
        } else {
          assert t'.orders[i] == t.orders[i] && t'.orders[j] == t.orders[j];
        }
      }
    } else {
      StatusPolicy(t, req, config, foreign, faults);
    }
  }

  /** A redelivered request is a duplicate and changes nothing. */
  lemma RedeliveryIsDuplicate(t: Tables, req: SquareRequest, config: SquareConfig, foreign: SquareForeign,
                              faults: DbFaults, req2: SquareRequest, foreign2: SquareForeign, again: DbFaults)
    requires t.Valid()
    requires Logs(t, req, config, foreign, faults)
    requires Verified(req2, config, foreign2).Some?
    requires Verified(req2, config, foreign2).value.eventId == Verified(req, config, foreign).value.eventId
    requires again.check.None?
    ensures var (_, t1) := SquareWebhookSpec(t, req, config, foreign, faults);
      SquareWebhookSpec(t1, req2, config, foreign2, again) == (Received(true, None), t1)
  {
    LoggedRequestEffect(t, req, config, foreign, faults);
    var (_, t1) := SquareWebhookSpec(t, req, config, foreign, faults);
    DuplicateOrStoreFailure(t1, req2, config, foreign2, again);
  }

}
