/** `HandleStripeWebhookUseCase`: verify the notification, claim its event id
    in the ledger, then dispatch on the event type through a three-entry
    table built once, in the constructor.

    Signature checking (`constructWebhookEvent`) is the payment provider's
    library: here it is a function the use case is given, which returns the
    parsed event or nothing when the signature does not check out. */
module HandleStripeWebhook {
  import opened Common
  import opened OrderEntity
  import opened OrdersRepository
  import opened WebhookEvents
  import opened PaymentHandlers

  /** `WEBHOOK_EVENTS`. */
  const PAYMENT_INTENT_SUCCEEDED: string := "payment_intent.succeeded"
  const PAYMENT_INTENT_FAILED: string := "payment_intent.payment_failed"
  const PAYMENT_INTENT_CANCELED: string := "payment_intent.canceled"

  /** Which of the three handlers an entry of the table holds. */
  datatype HandlerKind = SuccessPayment | FailedPayment | CancelledPayment

  /** A verified provider event: its id, its type, and the id of the payment
      intent in `data.object`. */
  datatype StripeEvent = StripeEvent(id: string, eventType: string, paymentIntentId: string)

  /** The raw request body, byte for byte. */
  type Payload = seq<bv8>

  /** `{ received: true }`. */
  datatype Ack = Ack(received: bool)

  /** `BadRequestException('Webhook signature verification failed')`, or an
      error thrown further down that propagates unchanged. */
  datatype WebhookError = SignatureVerificationFailed | Propagated(thrown: Thrown)

  /** A handler call: which handler, with which payment intent. */
  datatype HandlerCall = HandlerCall(handler: HandlerKind, paymentIntentId: string)

  /** The table the constructor builds. */
  function HandlerTable(): (table: map<string, HandlerKind>)
    ensures table.Keys == {PAYMENT_INTENT_SUCCEEDED, PAYMENT_INTENT_FAILED, PAYMENT_INTENT_CANCELED}
    ensures table[PAYMENT_INTENT_SUCCEEDED] == SuccessPayment
    ensures table[PAYMENT_INTENT_FAILED] == FailedPayment
    ensures table[PAYMENT_INTENT_CANCELED] == CancelledPayment
  {
    map[PAYMENT_INTENT_SUCCEEDED := SuccessPayment,
        PAYMENT_INTENT_FAILED := FailedPayment,
        PAYMENT_INTENT_CANCELED := CancelledPayment]
  }

  /** The status and `paidAt` a handler hands to
      `updateStatusByPaymentIntentId`. */
  function TargetStatus(handler: HandlerKind): OrderStatus
  {
    match handler
    case SuccessPayment => PAID
    case FailedPayment => FAILED
    case CancelledPayment => CANCELLED
  }

  function TargetPaidAt(handler: HandlerKind, now: Time): Option<Time>
  {
    if handler == SuccessPayment then Some(now) else None
  }

  datatype ProcessOutcome = ProcessOutcome(result: Result<(), Thrown>, orders: map<OrderId, Order>, call: Option<HandlerCall>)

  /** `processEvent`: look the type up; no handler means nothing happens. */
  function ProcessEventOutcome(table: map<string, HandlerKind>, orders: map<OrderId, Order>, nextId: nat,
                               event: StripeEvent, now: Time, storeFault: Option<Thrown>): (out: ProcessOutcome)
    // a handler runs exactly when the table has the type, with the event's intent
    ensures out.call.Some? <==> event.eventType in table
    ensures out.call.Some? ==> out.call.value == HandlerCall(table[event.eventType], event.paymentIntentId)
    // only the handler's own update can fail, and then nothing changes
    ensures out.result.Err? <==> event.eventType in table && storeFault.Some?
    ensures out.result.Err? ==> out.result.error == storeFault.value && out.orders == orders
    // a successful handler sets its status on at most the intent's order
    ensures out.orders.Keys == orders.Keys
    ensures out.orders != orders ==> out.result.Ok? && out.call.Some?
    ensures forall k :: k in orders && out.orders[k] != orders[k] ==>
      && orders[k].stripePaymentIntentId == event.paymentIntentId
      && out.orders[k].status == TargetStatus(table[event.eventType])
  {
    if event.eventType !in table then ProcessOutcome(Ok(()), orders, None)
    else
      var handler := table[event.eventType];
      var call := Some(HandlerCall(handler, event.paymentIntentId));
      if storeFault.Some? then ProcessOutcome(Err(storeFault.value), orders, call)
      else ProcessOutcome(Ok(()), UpdateByIntent(orders, nextId, event.paymentIntentId, TargetStatus(handler),
                                                 TargetPaidAt(handler, now)), call)
  }

  datatype WebhookOutcome = WebhookOutcome(result: Result<Ack, WebhookError>, ledger: Ledger,
                                           orders: map<OrderId, Order>, call: Option<HandlerCall>)

  /** `execute`, as a function of the two stores and of what the signature
      check returned. */
  function ExecuteOutcome(table: map<string, HandlerKind>, ledger: Ledger, orders: map<OrderId, Order>, nextId: nat,
                          verified: Option<StripeEvent>, now: Time,
                          ledgerFault: Option<Thrown>, storeFault: Option<Thrown>): (out: WebhookOutcome)
    // an unverified notification is a bad request and touches nothing
    ensures out.result == Err(SignatureVerificationFailed) <==> verified.None?
    ensures verified.None? ==> out.ledger == ledger && out.orders == orders && out.call.None?
    // the ledger either stays as it was or gains exactly the new event's record
    ensures out.ledger == ledger ||
            (verified.Some? && verified.value.id !in ledger &&
             out.ledger == ledger[verified.value.id := WebhookEvent(verified.value.eventType, now)])
    // every success is `{ received: true }`; every other error is a fault passed through
    ensures out.result.Ok? ==> out.result.value == Ack(true)
    ensures out.result.Err? && out.result.error.Propagated? ==>
      Some(out.result.error.thrown) == ledgerFault || Some(out.result.error.thrown) == storeFault
    // orders change only through a handler, on a verified event newly claimed
    ensures out.call.Some? ==> verified.Some? && verified.value.id !in ledger && verified.value.id in out.ledger
    ensures out.orders != orders ==> out.call.Some? && out.result.Ok?
  {
    match verified
    case None => WebhookOutcome(Err(SignatureVerificationFailed), ledger, orders, None)
    case Some(event) =>
      var claim := TryAcquireOutcome(ledger, event.id, event.eventType, now, ledgerFault);
      match claim.result
      case Err(e) => WebhookOutcome(Err(Propagated(e)), claim.ledger, orders, None)
      case Ok(acquired) =>
        if !acquired then WebhookOutcome(Ok(Ack(true)), claim.ledger, orders, None)
        else
          var processed := ProcessEventOutcome(table, orders, nextId, event, now, storeFault);
          match processed.result
          case Err(e) => WebhookOutcome(Err(Propagated(e)), claim.ledger, processed.orders, processed.call)
          case Ok(_) => WebhookOutcome(Ok(Ack(true)), claim.ledger, processed.orders, processed.call)
  }

  class HandleStripeWebhookUseCase {
    const webhookEventsRepository: WebhookEventsRepository
    /** The order store the three handlers share. */
    const orderRepository: OrderRepository
    /** `stripeProvider.constructWebhookEvent`: the parsed event, or `None`
        where the provider's library throws. */
    const constructWebhookEvent: (Payload, string) -> Option<StripeEvent>
    const handlers: map<string, HandlerKind>

    /** The dispatch table is the one the constructor builds. */
    ghost predicate Valid()
    {
      handlers == HandlerTable()
    }

    constructor (webhookEventsRepository: WebhookEventsRepository, orderRepository: OrderRepository,
                 constructWebhookEvent: (Payload, string) -> Option<StripeEvent>)
      ensures this.webhookEventsRepository == webhookEventsRepository
      ensures this.orderRepository == orderRepository
      ensures this.constructWebhookEvent == constructWebhookEvent
      ensures Valid()
    {
      this.webhookEventsRepository := webhookEventsRepository;
      this.orderRepository := orderRepository;
      this.constructWebhookEvent := constructWebhookEvent;
      handlers := map[PAYMENT_INTENT_SUCCEEDED := SuccessPayment,
                      PAYMENT_INTENT_FAILED := FailedPayment,
                      PAYMENT_INTENT_CANCELED := CancelledPayment];
    }

    /** `execute`. `ledgerFault` and `storeFault` are what the ledger insert
        and the handler's order update throw, if they fail; `call` reports
        the handler invoked, if any. */
    method Execute(payload: Payload, signature: string, now: Time,
                   ledgerFault: Option<Thrown>, storeFault: Option<Thrown>)
      returns (r: Result<Ack, WebhookError>, call: Option<HandlerCall>)
      requires Valid() && orderRepository.Valid()
      modifies webhookEventsRepository, orderRepository
      ensures orderRepository.Valid() && orderRepository.nextId == old(orderRepository.nextId)
      ensures WebhookOutcome(r, webhookEventsRepository.ledger, orderRepository.orders, call)
           == ExecuteOutcome(HandlerTable(), old(webhookEventsRepository.ledger), old(orderRepository.orders),
                             orderRepository.nextId, constructWebhookEvent(payload, signature), now,
                             ledgerFault, storeFault)
    {
      var verified := VerifyAndParseEvent(payload, signature);
      if verified.Err? {
        return Err(verified.error), None;
      }
      var event := verified.value;
      var acquired := webhookEventsRepository.TryAcquire(event.id, event.eventType, now, ledgerFault);
      if acquired.Err? {
        return Err(Propagated(acquired.error)), None;
      }
      if !acquired.value {
        return Ok(Ack(true)), None;
      }
      var processed;
      processed, call := ProcessEvent(event, now, storeFault);
      if processed.Err? {
        return Err(Propagated(processed.error)), call;
      }
      r := Ok(Ack(true));
    }

    /** `verifyAndParseEvent`: any failure of the library becomes a bad
        request. */
    method VerifyAndParseEvent(payload: Payload, signature: string) returns (r: Result<StripeEvent, WebhookError>)
      ensures constructWebhookEvent(payload, signature).None? ==> r == Err(SignatureVerificationFailed)
      ensures constructWebhookEvent(payload, signature).Some? ==> r == Ok(constructWebhookEvent(payload, signature).value)
    {
      var parsed := constructWebhookEvent(payload, signature);
      if parsed.None? {
        return Err(SignatureVerificationFailed);
      }
      r := Ok(parsed.value);
    }

    /** `processEvent`: dispatch through the table. */
    method ProcessEvent(event: StripeEvent, now: Time, storeFault: Option<Thrown>)
      returns (r: Result<(), Thrown>, call: Option<HandlerCall>)
      requires Valid() && orderRepository.Valid()
      modifies orderRepository
      ensures orderRepository.Valid() && orderRepository.nextId == old(orderRepository.nextId)
      ensures ProcessOutcome(r, orderRepository.orders, call)
           == ProcessEventOutcome(HandlerTable(), old(orderRepository.orders), orderRepository.nextId, event, now, storeFault)
    {
      if event.eventType !in handlers {
        return Ok(()), None;
      }
      var handler := handlers[event.eventType];
      call := Some(HandlerCall(handler, event.paymentIntentId));
      match handler {
        case SuccessPayment =>
          r := HandleSuccess(orderRepository, event.paymentIntentId, now, storeFault);
        case FailedPayment =>
          r := HandleFailed(orderRepository, event.paymentIntentId, storeFault);
        case CancelledPayment =>
          r := HandleCancelled(orderRepository, event.paymentIntentId, storeFault);
      }
    }
  }

  /** A notification whose signature does not check out is a bad request
      and touches neither store. */
  lemma RejectedSignatureTouchesNothing(table: map<string, HandlerKind>, ledger: Ledger, orders: map<OrderId, Order>,
                                        nextId: nat, now: Time, ledgerFault: Option<Thrown>, storeFault: Option<Thrown>)
    ensures ExecuteOutcome(table, ledger, orders, nextId, None, now, ledgerFault, storeFault)
         == WebhookOutcome(Err(SignatureVerificationFailed), ledger, orders, None)
  {
  }

  /** An event already in the ledger is acknowledged without running any
      handler; neither store changes. */
  lemma ClaimedEventSkipped(table: map<string, HandlerKind>, ledger: Ledger, orders: map<OrderId, Order>,
                            nextId: nat, event: StripeEvent, now: Time, storeFault: Option<Thrown>)
    requires event.id in ledger
    ensures ExecuteOutcome(table, ledger, orders, nextId, Some(event), now, None, storeFault)
         == WebhookOutcome(Ok(Ack(true)), ledger, orders, None)
  {
  }

  /** The first delivery of a type the table lacks is still recorded in the
      ledger and acknowledged, and no handler runs. */
  lemma UnknownTypeRecorded(ledger: Ledger, orders: map<OrderId, Order>, nextId: nat, event: StripeEvent,
                            now: Time, storeFault: Option<Thrown>)
    requires event.id !in ledger
    requires event.eventType !in {PAYMENT_INTENT_SUCCEEDED, PAYMENT_INTENT_FAILED, PAYMENT_INTENT_CANCELED}
    ensures ExecuteOutcome(HandlerTable(), ledger, orders, nextId, Some(event), now, None, storeFault)
         == WebhookOutcome(Ok(Ack(true)), ledger[event.id := WebhookEvent(event.eventType, now)], orders, None)
  {
  }

  /** The first delivery of one of the three known types runs exactly the
      handler the table names for it, once, with the event's payment intent;
      the order update is that handler's. */
  lemma FirstDeliveryDispatches(ledger: Ledger, orders: map<OrderId, Order>, nextId: nat, event: StripeEvent, now: Time)
    requires event.id !in ledger
    requires event.eventType in {PAYMENT_INTENT_SUCCEEDED, PAYMENT_INTENT_FAILED, PAYMENT_INTENT_CANCELED}
    ensures var handler := (if event.eventType == PAYMENT_INTENT_SUCCEEDED then SuccessPayment
                            else if event.eventType == PAYMENT_INTENT_FAILED then FailedPayment
                            else CancelledPayment);
            var expected := WebhookOutcome(
              Ok(Ack(true)), ledger[event.id := WebhookEvent(event.eventType, now)],
              UpdateByIntent(orders, nextId, event.paymentIntentId, TargetStatus(handler), TargetPaidAt(handler, now)),
              Some(HandlerCall(handler, event.paymentIntentId)));
            ExecuteOutcome(HandlerTable(), ledger, orders, nextId, Some(event), now, None, None) == expected
  {
  }

  /** Without a database fault, every verified delivery, new or repeated,
      of a known type or not, is acknowledged and its event id is in the
      ledger afterwards. */
  lemma FaultFreeDeliveryAcknowledged(table: map<string, HandlerKind>, ledger: Ledger, orders: map<OrderId, Order>,
                                      nextId: nat, event: StripeEvent, now: Time)
    ensures var out := ExecuteOutcome(table, ledger, orders, nextId, Some(event), now, None, None);
            out.result == Ok(Ack(true)) && event.id in out.ledger
  {
  }

  /** The claim is written before the handler runs: when the handler's
      update throws, the event stays claimed and its redelivery is skipped,
      so the order update is never applied. */
  lemma HandlerFailureIsNotRetried(table: map<string, HandlerKind>, ledger: Ledger, orders: map<OrderId, Order>,
                                   nextId: nat, event: StripeEvent, now: Time, later: Time, fault: Thrown)
    requires event.id !in ledger
    requires event.eventType in table
    ensures var first := ExecuteOutcome(table, ledger, orders, nextId, Some(event), now, None, Some(fault));
            var second := ExecuteOutcome(table, first.ledger, first.orders, nextId, Some(event), later, None, None);
            && first.result == Err(Propagated(fault)) && first.orders == orders && event.id in first.ledger
            && second == WebhookOutcome(Ok(Ack(true)), first.ledger, orders, None)
  {
  }
}
