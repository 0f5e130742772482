/** `WebhookEventsRepository`: the idempotency ledger, a collection of
    processed webhook events with a unique index on `eventId` and a TTL
    index on `processedAt`.

    The unique index is what makes `tryAcquire` an insert-if-absent; here
    every call runs on its own, so concurrent deliveries are outside the
    model. The TTL monitor becomes an explicit `PurgeExpired` step. */
module WebhookEvents {
  import opened Common

  const DUPLICATE_KEY_ERROR_CODE: int := 11000

  /** `expires: 259200` on `processedAt`: three days, in seconds. */
  const PROCESSED_EVENT_TTL: nat := 259200

  datatype WebhookEvent = WebhookEvent(eventType: string, processedAt: Time)

  /** The collection, keyed by the uniquely indexed `eventId`. */
  type Ledger = map<string, WebhookEvent>

  /** What the driver throws when the unique index rejects an insert. */
  const DuplicateKeyServerError: Thrown := ObjectValue(Some(NumberCode(DUPLICATE_KEY_ERROR_CODE)))

  /** `isDuplicateKeyError`: an object, not null, with a `code` property that
      is the number 11000. */
  function IsDuplicateKeyError(error: Thrown): (b: bool)
    ensures b <==> error == DuplicateKeyServerError
  {
    match error
    case NullValue => false
    case PrimitiveValue => false
    case ObjectValue(code) =>
      match code
      case None => false
      case Some(value) => value.NumberCode? && value.n == DUPLICATE_KEY_ERROR_CODE
  }

  /** `webhookEventModel.create`: `fault` is what the call throws when it
      fails before reaching the index (a lost connection, say); otherwise
      the unique index refuses an `eventId` already present. */
  function InsertEvent(ledger: Ledger, eventId: string, record: WebhookEvent, fault: Option<Thrown>): (r: (Result<(), Thrown>, Ledger))
    ensures r.0.Ok? <==> fault.None? && eventId !in ledger
    ensures r.0.Ok? ==> r.1 == ledger[eventId := record] && r.1.Keys == ledger.Keys + {eventId}
    ensures r.0.Err? ==> r.1 == ledger
    ensures r.0.Err? && fault.None? ==> r.0.error == DuplicateKeyServerError && eventId in ledger
    ensures fault.Some? ==> r.0 == Err(fault.value)
  {
    if fault.Some? then (Err(fault.value), ledger)
    else if eventId in ledger then (Err(DuplicateKeyServerError), ledger)
    else (Ok(()), ledger[eventId := record])
  }

  datatype AcquireOutcome = AcquireOutcome(result: Result<bool, Thrown>, ledger: Ledger)

  /** What `tryAcquire` returns and leaves in the ledger. */
  function TryAcquireOutcome(ledger: Ledger, eventId: string, eventType: string, now: Time,
                             fault: Option<Thrown>): (out: AcquireOutcome)
    ensures out.result == Ok(true) <==> eventId !in ledger && fault.None?
    ensures out.result == Ok(true) ==> out.ledger == ledger[eventId := WebhookEvent(eventType, now)]
    ensures out.result != Ok(true) ==> out.ledger == ledger
    ensures out.result == Ok(false) ==> eventId in ledger || fault == Some(DuplicateKeyServerError)
    ensures fault.None? ==> out.result.Ok? && eventId in out.ledger
    ensures out.result.Err? ==> fault == Some(out.result.error) && !IsDuplicateKeyError(out.result.error)
    ensures fault.Some? ==> out.result == (if IsDuplicateKeyError(fault.value) then Ok(false) else Err(fault.value))
    ensures fault.None? ==> out.result == Ok(eventId !in ledger)
    ensures out.result.Ok? && (fault.None? || !IsDuplicateKeyError(fault.value)) ==> eventId in out.ledger
  {
    var (inserted, ledger') := InsertEvent(ledger, eventId, WebhookEvent(eventType, now), fault);
    match inserted
    case Ok(_) => AcquireOutcome(Ok(true), ledger')
    case Err(error) =>
      if IsDuplicateKeyError(error) then AcquireOutcome(Ok(false), ledger')
      else AcquireOutcome(Err(error), ledger')
  }

  /** A record the TTL monitor may delete: `processedAt` older than three
      days. */
  predicate Expired(record: WebhookEvent, now: Time)
  {
    record.processedAt + PROCESSED_EVENT_TTL < now
  }

  /** The ledger after the TTL monitor has run at `now`. */
  function Purge(ledger: Ledger, now: Time): (l: Ledger)
    ensures forall id :: id in l <==> id in ledger && !Expired(ledger[id], now)
    ensures forall id :: id in l ==> l[id] == ledger[id]
  {
    map id | id in ledger && !Expired(ledger[id], now) :: ledger[id]
  }

  /** Of two successive deliveries of one event id, at most one claims it;
      when the ledger did not hold the id before, exactly one does, and the
      second changes nothing. */
  lemma AtMostOneOfTwoClaims(ledger: Ledger, eventId: string, type1: string, type2: string, t1: Time, t2: Time)
    ensures var first := TryAcquireOutcome(ledger, eventId, type1, t1, None);
            var second := TryAcquireOutcome(first.ledger, eventId, type2, t2, None);
            && first.result.Ok? && second.result.Ok?
            && !(first.result.value && second.result.value)
            && (eventId !in ledger ==> first.result.value != second.result.value)
            && second.ledger == first.ledger
  {
  }

  /** Once the record of an event has expired and been purged, the same event
      id can be claimed again. */
  lemma ClaimAgainAfterPurge(ledger: Ledger, eventId: string, eventType: string, t1: Time, t2: Time, now: Time)
    requires t1 + PROCESSED_EVENT_TTL < now
    ensures var first := TryAcquireOutcome(ledger, eventId, eventType, t1, None);
            var claimed := first.result == Ok(true);
            claimed ==> TryAcquireOutcome(Purge(first.ledger, now), eventId, eventType, t2, None).result == Ok(true)
  {
  }

  class WebhookEventsRepository {
    var ledger: Ledger

    constructor ()
      ensures ledger == map[]
    {
      ledger := map[];
    }

    /** `webhookEventModel.create`. */
    method Insert(eventId: string, record: WebhookEvent, fault: Option<Thrown>) returns (r: Result<(), Thrown>)
      modifies this
      ensures (r, ledger) == InsertEvent(old(ledger), eventId, record, fault)
    {
      if fault.Some? {
        return Err(fault.value);
      }
      if eventId in ledger {
        return Err(DuplicateKeyServerError);
      }
      ledger := ledger[eventId := record];
      r := Ok(());
    }

    /** `tryAcquire`: insert, and read a duplicate-key error as "already
        processed"; any other error propagates. */
    method TryAcquire(eventId: string, eventType: string, now: Time, fault: Option<Thrown>)
      returns (acquired: Result<bool, Thrown>)
      modifies this
      ensures AcquireOutcome(acquired, ledger) == TryAcquireOutcome(old(ledger), eventId, eventType, now, fault)
    {
      var inserted := Insert(eventId, WebhookEvent(eventType, now), fault);
      match inserted {
        case Ok(_) =>
          acquired := Ok(true);
        case Err(error) =>
          if IsDuplicateKeyError(error) {
            acquired := Ok(false);
          } else {
            acquired := Err(error);
          }
      }
    }

    /** One run of the TTL monitor. */
    method PurgeExpired(now: Time)
      modifies this
      ensures ledger == Purge(old(ledger), now)
    {
      ledger := map id | id in ledger && !Expired(ledger[id], now) :: ledger[id];
    }
  }
}
