/** The outbox of `services/outbox.py`: eligibility, leases and settlement of one event. */
module Outbox {
  import opened Domain
  import opened Tables

  function NewEvent(org: Uuid, topic: Topic, c: CaseId, now: Time): Event {
    Event(org, topic, c, Pending, 0, now, None, now)
  }

  /** `enqueue` under the fresh id `e`. */
  function Enqueue(db: Db, e: EventId, event: Event): Result<Db> {
    if e in db.events then Err(UniqueViolation) else Ok(db.(events := db.events[e := event]))
  }

  /** The `WHERE` clause shared by `claim_batch` and `claim_event`. */
  predicate Eligible(event: Event, now: Time) {
    && event.availableAt <= now
    && (event.status == Pending
        || (event.status == Processing && event.leaseUntil.Some? && event.leaseUntil.value < now))
  }

  function Claimed(event: Event, now: Time, leaseSeconds: int): Event {
    event.(status := Processing,
           leaseUntil := Some(now + leaseSeconds * SECOND),
           attempts := event.attempts + 1)
  }

  function MarkDone(event: Event): Event {
    event.(status := Done, leaseUntil := None)
  }

  function Rescheduled(event: Event, now: Time, delaySeconds: int): Event {
    event.(status := Pending, leaseUntil := None, availableAt := now + delaySeconds * SECOND)
  }

  function DeadLetter(event: Event): Event {
    event.(status := Dead, leaseUntil := None)
  }

  /** `2 ** n` */
  function Pow2(n: nat): nat {
    if n == 0 then 1 else 2 * Pow2(n - 1)
  }

  /** `_backoff` of the worker, in seconds. */
  function Backoff(attempts: int): int {
    var delay := Pow2(if attempts - 1 > 0 then attempts - 1 else 0);
    if delay < 60 then delay else 60
  }
}
