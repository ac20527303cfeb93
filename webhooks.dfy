/** The shared part of the payment-webhook pipeline (backend/src/webhooks/mod.rs):
    the provider and order-status enums with their `Display` renderings, the
    `webhook_events` and `orders` tables with the four SQL helpers over them,
    and the HTTP response policy the two provider handlers share.

    The database is a `Store` object whose two tables are sequences of rows.
    Row ids (UUIDs in the database) are drawn from a counter, so a new id is
    never an id already in use. A database failure is an explicit input: each
    helper takes `fault: Option<DbError>`, and `Some(e)` makes the query fail
    with `e` before anything is written. */
module Webhooks {
  import opened Wrappers
  import opened HttpStatus

  type Uuid = nat
  type DbError = string
  /** The stored `payload` column: the event re-serialised as JSON text. */
  type Payload = string

  // ---------------------------------------------------------------------------
  // Enums and their Display impls

  datatype PaymentProvider = Stripe | Square

  function ProviderName(p: PaymentProvider): (r: string)
    ensures r == "stripe" || r == "square"
  {
    match p
    case Stripe => "stripe"
    case Square => "square"
  }

  lemma ProviderNameInjective(a: PaymentProvider, b: PaymentProvider)
    ensures ProviderName(a) == ProviderName(b) <==> a == b
  {
    match a
    case Stripe => assert ProviderName(a) == "stripe";
    case Square => assert ProviderName(a) == "square";
  }

  datatype OrderStatus = Pending | Completed | Failed | Refunded

  function StatusName(s: OrderStatus): (r: string)
    ensures r in {"pending", "completed", "failed", "refunded"}
  {
    match s
    case Pending => "pending"
    case Completed => "completed"
    case Failed => "failed"
    case Refunded => "refunded"
  }

  lemma StatusNameInjective(a: OrderStatus, b: OrderStatus)
    ensures StatusName(a) == StatusName(b) <==> a == b
  {
    match a
    case Pending => assert StatusName(a) == "pending";
    case Completed => assert StatusName(a) == "completed";
    case Failed => assert StatusName(a) == "failed";
    case Refunded => assert StatusName(a) == "refunded";
  }

  // ---------------------------------------------------------------------------
  // Rows and insert requests (timestamps are not modelled)

  datatype WebhookEvent = WebhookEvent(
    id: Uuid,
    provider: string,
    eventType: string,
    eventId: string,
    payload: Payload,
    processed: bool,
    errorMessage: Option<string>)

  datatype Order = Order(
    id: Uuid,
    paymentProvider: string,
    paymentId: string,
    paymentIntentId: Option<string>,
    customerEmail: Option<string>,
    customerName: Option<string>,
    totalAmount: int,
    currency: string,
    status: string,
    webhookEventId: Option<Uuid>)

  datatype CreateWebhookEvent = CreateWebhookEvent(
    provider: PaymentProvider,
    eventType: string,
    eventId: string,
    payload: Payload)

  datatype CreateOrder = CreateOrder(
    paymentProvider: PaymentProvider,
    paymentId: string,
    paymentIntentId: Option<string>,
    customerEmail: Option<string>,
    customerName: Option<string>,
    totalAmount: int,
    currency: string,
    status: OrderStatus,
    webhookEventId: Option<Uuid>)

  /** The row `INSERT INTO webhook_events ... VALUES (.., FALSE)` writes. */
  function EventRow(id: Uuid, ev: CreateWebhookEvent): WebhookEvent {
    WebhookEvent(id, ProviderName(ev.provider), ev.eventType, ev.eventId, ev.payload, false, None)
  }

  /** The row `INSERT INTO orders` writes; enums are stored through Display. */
  function OrderRow(id: Uuid, o: CreateOrder): Order {
    Order(id, ProviderName(o.paymentProvider), o.paymentId, o.paymentIntentId, o.customerEmail,
          o.customerName, o.totalAmount, o.currency, StatusName(o.status), o.webhookEventId)
  }

  /** `UPDATE webhook_events SET processed = $1, error_message = $2 WHERE id = $3`. */
  function MarkRows(rows: seq<WebhookEvent>, id: Uuid, success: bool, err: Option<string>): (r: seq<WebhookEvent>)
    ensures |r| == |rows|
    ensures forall i :: 0 <= i < |rows| && rows[i].id != id ==> r[i] == rows[i]
    ensures forall i :: 0 <= i < |rows| && rows[i].id == id ==>
      r[i] == rows[i].(processed := success, errorMessage := err)
  {
    if rows == [] then []
    else
      var head := if rows[0].id == id then rows[0].(processed := success, errorMessage := err) else rows[0];
      [head] + MarkRows(rows[1..], id, success, err)
  }

  /** `after` differs from `before` at most in the `processed` and
      `error_message` columns of the row with id `id`. */
  ghost predicate OnlyStatusChanged(before: seq<WebhookEvent>, after: seq<WebhookEvent>, id: Uuid) {
    && |after| == |before|
    && (forall i :: 0 <= i < |before| && before[i].id != id ==> after[i] == before[i])
    && (forall i :: 0 <= i < |before| ==>
          after[i] == before[i].(processed := after[i].processed, errorMessage := after[i].errorMessage))
  }

  lemma OnlyStatusChangedTransitive(a: seq<WebhookEvent>, b: seq<WebhookEvent>, c: seq<WebhookEvent>, id: Uuid)
    requires OnlyStatusChanged(a, b, id) && OnlyStatusChanged(b, c, id)
    ensures OnlyStatusChanged(a, c, id)
  {
  }

  // ---------------------------------------------------------------------------
  // The two tables as a value

  datatype Tables = Tables(events: seq<WebhookEvent>, orders: seq<Order>, nextId: Uuid) {

    /** Every id is below the counter and no id occurs twice in a table. */
    ghost predicate Valid() {
      && (forall i :: 0 <= i < |events| ==> events[i].id < nextId)
      && (forall i :: 0 <= i < |orders| ==> orders[i].id < nextId)
      && (forall i, j :: 0 <= i < j < |events| ==> events[i].id != events[j].id)
      && (forall i, j :: 0 <= i < j < |orders| ==> orders[i].id != orders[j].id)
    }

    /** `SELECT EXISTS(SELECT 1 FROM webhook_events WHERE event_id = $1)`. */
    predicate HasEvent(eventId: string) {
      exists i :: 0 <= i < |events| && events[i].eventId == eventId
    }

    function Log(ev: CreateWebhookEvent): (Tables, Uuid) {
      (Tables(events + [EventRow(nextId, ev)], orders, nextId + 1), nextId)
    }

    function Mark(id: Uuid, success: bool, err: Option<string>): Tables {
      this.(events := MarkRows(events, id, success, err))
    }

    /** A `mark_webhook_processed(..).await.ok()` call: a failure is swallowed
        and leaves the tables as they were. */
    function MarkUnlessFails(id: Uuid, success: bool, err: Option<string>, fault: Option<DbError>): Tables {
      if fault.Some? then this else Mark(id, success, err)
    }

    function Insert(o: CreateOrder): (Tables, Uuid) {
      (Tables(events, orders + [OrderRow(nextId, o)], nextId + 1), nextId)
    }
  }

  /** log_webhook_event appends exactly one row carrying the request's fields
      and `processed = false`, under an id no row had; nothing else changes. */
  lemma LogAppendsOneRow(t: Tables, ev: CreateWebhookEvent)
    requires t.Valid()
    ensures var (t', id) := t.Log(ev);
      && t'.Valid()
      && (forall i :: 0 <= i < |t.events| ==> t.events[i].id != id)
      && t'.events == t.events + [EventRow(id, ev)]
      && t'.events[|t.events|].provider == ProviderName(ev.provider)
      && t'.events[|t.events|].eventId == ev.eventId
      && !t'.events[|t.events|].processed
      && t'.orders == t.orders
      && t'.HasEvent(ev.eventId)
  {
    var (t', id) := t.Log(ev);
    assert t'.events[|t.events|].eventId == ev.eventId;
  }

  /** mark_webhook_processed sets `processed := success` and
      `error_message := err` on the row with the given id and on no other;
      in particular a failure report leaves `processed = false`. */
  lemma MarkChangesOnlyThatRow(t: Tables, id: Uuid, success: bool, err: Option<string>, k: nat)
    requires k < |t.events|
    ensures var t' := t.Mark(id, success, err);
      && |t'.events| == |t.events|
      && t'.orders == t.orders && t'.nextId == t.nextId
      && (t.events[k].id == id ==> t'.events[k].processed == success && t'.events[k].errorMessage == err)
      && (t.events[k].id != id ==> t'.events[k] == t.events[k])
      && OnlyStatusChanged(t.events, t'.events, id)
  {
  }

  /** Marking never hides an event from the idempotency check, and keeps the
      tables valid. */
  lemma MarkKeepsEvents(t: Tables, id: Uuid, success: bool, err: Option<string>, eventId: string)
    requires t.Valid()
    ensures t.Mark(id, success, err).Valid()
    ensures t.Mark(id, success, err).HasEvent(eventId) <==> t.HasEvent(eventId)
  {
    var r := t.Mark(id, success, err).events;
    if t.HasEvent(eventId) {
      var i :| 0 <= i < |t.events| && t.events[i].eventId == eventId;
      assert r[i].eventId == eventId;
    }
    if t.Mark(id, success, err).HasEvent(eventId) {
      var i :| 0 <= i < |r| && r[i].eventId == eventId;
      assert t.events[i].eventId == eventId;
    }
  }

  /** The same for a mark whose failure is swallowed. */
  lemma MarkUnlessFailsKeepsEvents(t: Tables, id: Uuid, success: bool, err: Option<string>, fault: Option<DbError>)
    requires t.Valid()
    ensures t.MarkUnlessFails(id, success, err, fault).Valid()
    ensures t.MarkUnlessFails(id, success, err, fault).orders == t.orders
    ensures t.MarkUnlessFails(id, success, err, fault).nextId == t.nextId
    ensures OnlyStatusChanged(t.events, t.MarkUnlessFails(id, success, err, fault).events, id)
    ensures forall e :: t.MarkUnlessFails(id, success, err, fault).HasEvent(e) <==> t.HasEvent(e)
  {
    forall e | true
      ensures t.MarkUnlessFails(id, success, err, fault).HasEvent(e) <==> t.HasEvent(e)
    {
      MarkKeepsEvents(t, id, success, err, e);
    }
    MarkKeepsEvents(t, id, success, err, "");
  }

  /** create_order appends one order whose columns are the request's fields,
      with provider and status rendered by Display; events are untouched. */
  lemma InsertAppendsOneOrder(t: Tables, o: CreateOrder)
    requires t.Valid()
    ensures var (t', id) := t.Insert(o);
      && t'.Valid()
      && (forall i :: 0 <= i < |t.orders| ==> t.orders[i].id != id)
      && t'.orders == t.orders + [OrderRow(id, o)]
      && t'.orders[|t.orders|].paymentProvider == ProviderName(o.paymentProvider)
      && t'.orders[|t.orders|].status == StatusName(o.status)
      && t'.orders[|t.orders|].totalAmount == o.totalAmount
      && t'.events == t.events
      && (forall e :: t'.HasEvent(e) <==> t.HasEvent(e))
  {
  }

  // ---------------------------------------------------------------------------
  // The store

  class Store {
    var events: seq<WebhookEvent>
    var orders: seq<Order>
    var nextId: Uuid

    function Snapshot(): Tables
      reads this
    {
      Tables(events, orders, nextId)
    }

    ghost predicate Valid()
      reads this
    {
      Snapshot().Valid()
    }

    constructor ()
      ensures Valid()
      ensures events == [] && orders == []
    {
      events, orders, nextId := [], [], 0;
    }

    /** log_webhook_event (mod.rs:125-146). */
    method LogWebhookEvent(ev: CreateWebhookEvent, fault: Option<DbError>) returns (r: Result<Uuid, DbError>)
      requires Valid()
      modifies this
      ensures Valid()
      ensures fault.Some? ==> r == Failure(fault.value) && Snapshot() == old(Snapshot())
      ensures fault.None? ==> r.Success? && (Snapshot(), r.value) == old(Snapshot()).Log(ev)
      ensures fault.None? ==>
        && events == old(events) + [EventRow(r.value, ev)]
        && orders == old(orders)
        && (forall i :: 0 <= i < |old(events)| ==> old(events)[i].id != r.value)
    {
      if fault.Some? {
        return Failure(fault.value);
      }
      LogAppendsOneRow(Snapshot(), ev);
      var id := nextId;
      events := events + [EventRow(id, ev)];
      nextId := nextId + 1;
      r := Success(id);
    }

    /** mark_webhook_processed (mod.rs:149-169). */
    method MarkWebhookProcessed(id: Uuid, success: bool, err: Option<string>, fault: Option<DbError>)
      returns (r: Result<(), DbError>)
      requires Valid()
      modifies this
      ensures Valid()
      ensures fault.Some? ==> r == Failure(fault.value) && Snapshot() == old(Snapshot())
      ensures fault.None? ==> r == Success(()) && Snapshot() == old(Snapshot()).Mark(id, success, err)
      ensures fault.None? ==> orders == old(orders) && OnlyStatusChanged(old(events), events, id)
      ensures fault.None? ==> forall i :: 0 <= i < |events| && events[i].id == id ==>
        events[i].processed == success && events[i].errorMessage == err
      ensures Snapshot() == old(Snapshot()).MarkUnlessFails(id, success, err, fault)
    {
      if fault.Some? {
        return Failure(fault.value);
      }
      MarkKeepsEvents(Snapshot(), id, success, err, "");
      events := MarkRows(events, id, success, err);
      r := Success(());
    }

    /** create_order (mod.rs:172-203). */
    method CreateOrderRow(o: CreateOrder, fault: Option<DbError>) returns (r: Result<Uuid, DbError>)
      requires Valid()
      modifies this
      ensures Valid()
      ensures fault.Some? ==> r == Failure(fault.value) && Snapshot() == old(Snapshot())
      ensures fault.None? ==> r.Success? && (Snapshot(), r.value) == old(Snapshot()).Insert(o)
      ensures fault.None? ==>
        && orders == old(orders) + [OrderRow(r.value, o)]
        && events == old(events)
        && (forall i :: 0 <= i < |old(orders)| ==> old(orders)[i].id != r.value)
    {
      if fault.Some? {
        return Failure(fault.value);
      }
      InsertAppendsOneOrder(Snapshot(), o);
      var id := nextId;
      orders := orders + [OrderRow(id, o)];
      nextId := nextId + 1;
      r := Success(id);
    }

    /** is_event_processed (mod.rs:206-220): true iff some row carries the
        event id, whatever the row's `processed` flag says. */
    method IsEventProcessed(eventId: string, fault: Option<DbError>) returns (r: Result<bool, DbError>)
      ensures fault.Some? ==> r == Failure(fault.value)
      ensures fault.None? ==> r.Success?
      ensures fault.None? ==> (r.value <==> exists i :: 0 <= i < |events| && events[i].eventId == eventId)
    {
      if fault.Some? {
        return Failure(fault.value);
      }
      var i := 0;
      while i < |events|
        invariant 0 <= i <= |events|
        invariant forall k :: 0 <= k < i ==> events[k].eventId != eventId
      {
        if events[i].eventId == eventId {
          return Success(true);
        }
        i := i + 1;
      }
      r := Success(false);
    }
  }

  // ---------------------------------------------------------------------------
  // The response policy shared by both handlers

  /** `Received` is the 200 JSON body `{"received": true}` with the optional
      `"duplicate": true` and `"error": e` fields; `Rejected` is an error
      status with its message text. */
  datatype Response = Received(duplicate: bool, error: Option<string>) | Rejected(status: nat, message: string) {
    function Status(): nat {
      if Received? then OK else status
    }
  }

  /** One optional failure per database call a webhook request can make. The
      two `mark*` faults belong to the `.ok()` calls: the first to the mark made
      inside dispatch for ignored event types, the second to the final one. */
  datatype DbFaults = DbFaults(
    check: Option<DbError>,
    log: Option<DbError>,
    lookup: Option<DbError>,
    insert: Option<DbError>,
    markInDispatch: Option<DbError>,
    markFinal: Option<DbError>)

  /** The tail both handlers share: mark the logged event processed on
      success, or failed with the message otherwise, and answer 200 either way. */
  function Finish(t: Tables, wid: Uuid, result: Result<(), string>, markFault: Option<DbError>): (Response, Tables) {
    match result
    case Success(_) => (Received(false, None), t.MarkUnlessFails(wid, true, None, markFault))
    case Failure(e) => (Received(false, Some(e)), t.MarkUnlessFails(wid, false, Some(e), markFault))
  }

  /** Whatever dispatch returned, the request is answered 200, and an
      application error is reported in the body and, unless the final mark
      fails, recorded on the event row as `processed = false`. */
  lemma FinishAnswersOk(t: Tables, wid: Uuid, result: Result<(), string>, markFault: Option<DbError>, k: nat)
    requires k < |t.events| && t.events[k].id == wid
    ensures var (resp, t') := Finish(t, wid, result, markFault);
      && resp.Status() == OK
      && resp == Received(false, if result.Failure? then Some(result.error) else None)
      && t'.orders == t.orders
      && OnlyStatusChanged(t.events, t'.events, wid)
      && (markFault.None? ==>
            t'.events[k].processed == result.Success? &&
            t'.events[k].errorMessage == (if result.Failure? then Some(result.error) else None))
      && (markFault.Some? ==> t' == t)
  {
    if markFault.None? {
      match result
      case Success(_) => MarkChangesOnlyThatRow(t, wid, true, None, k);
      case Failure(e) => MarkChangesOnlyThatRow(t, wid, false, Some(e), k);
    }
  }

  method FinishRequest(store: Store, wid: Uuid, result: Result<(), string>, markFault: Option<DbError>)
    returns (resp: Response)
    requires store.Valid()
    modifies store
    ensures store.Valid()
    ensures (resp, store.Snapshot()) == Finish(old(store.Snapshot()), wid, result, markFault)
  {
    match result
    case Success(_) =>
      var _ := store.MarkWebhookProcessed(wid, true, None, markFault);
      resp := Received(false, None);
    case Failure(e) =>
      var _ := store.MarkWebhookProcessed(wid, false, Some(e), markFault);
      resp := Received(false, Some(e));
  }

  /** The order-creation step of both handlers: insert the order, or report
      the failure as "Failed to create order: e". */
  function CreateOrderSpec(t: Tables, o: CreateOrder, fault: Option<DbError>): (Result<(), string>, Tables) {
    if fault.Some? then (Failure("Failed to create order: " + fault.value), t)
    else (Success(()), t.Insert(o).0)
  }

  lemma CreateOrderSpecEffect(t: Tables, o: CreateOrder, fault: Option<DbError>)
    requires t.Valid()
    ensures var (r, t') := CreateOrderSpec(t, o, fault);
      && t'.Valid()
      && t'.events == t.events
      && (r.Success? <==> fault.None?)
      && (r.Success? ==> t'.orders == t.orders + [OrderRow(t.nextId, o)] && t'.nextId == t.nextId + 1)
      && (r.Failure? ==> t' == t && r.error == "Failed to create order: " + fault.value)
  {
    if fault.None? {
      InsertAppendsOneOrder(t, o);
    }
  }

  method CreateOrderOrReport(store: Store, o: CreateOrder, fault: Option<DbError>) returns (r: Result<(), string>)
    requires store.Valid()
    modifies store
    ensures store.Valid()
    ensures (r, store.Snapshot()) == CreateOrderSpec(old(store.Snapshot()), o, fault)
  {
    var created := store.CreateOrderRow(o, fault);
    if created.Failure? {
      return Failure("Failed to create order: " + created.error);
    }
    r := Success(());
  }

  // ---------------------------------------------------------------------------
  // What a dispatch step may do

  /** From `t` to `t'` a dispatch step for the event row `wid` keeps the
      tables valid, changes at most the status columns of that row, and adds
      at most one order: a completed order of `provider` pointing at `wid`. */
  ghost predicate DispatchStep(t: Tables, t': Tables, wid: Uuid, provider: PaymentProvider) {
    && t'.Valid()
    && OnlyStatusChanged(t.events, t'.events, wid)
    && (forall e :: t'.HasEvent(e) <==> t.HasEvent(e))
    && |t.orders| <= |t'.orders| <= |t.orders| + 1
    && (forall j :: 0 <= j < |t.orders| ==> t'.orders[j] == t.orders[j])
    && (forall j :: |t.orders| <= j < |t'.orders| ==>
          && t'.orders[j].webhookEventId == Some(wid)
          && t'.orders[j].paymentProvider == ProviderName(provider)
          && t'.orders[j].status == "completed")
  }

  lemma NoChangeIsDispatchStep(t: Tables, wid: Uuid, provider: PaymentProvider)
    requires t.Valid()
    ensures DispatchStep(t, t, wid, provider)
  {
  }

  lemma MarkIsDispatchStep(t: Tables, wid: Uuid, success: bool, err: Option<string>, fault: Option<DbError>, provider: PaymentProvider)
    requires t.Valid()
    ensures DispatchStep(t, t.MarkUnlessFails(wid, success, err, fault), wid, provider)
  {
    MarkUnlessFailsKeepsEvents(t, wid, success, err, fault);
  }

  lemma CreateOrderIsDispatchStep(t: Tables, o: CreateOrder, fault: Option<DbError>, wid: Uuid)
    requires t.Valid()
    requires o.webhookEventId == Some(wid) && o.status == Completed
    ensures DispatchStep(t, CreateOrderSpec(t, o, fault).1, wid, o.paymentProvider)
  {
    CreateOrderSpecEffect(t, o, fault);
  }
}
